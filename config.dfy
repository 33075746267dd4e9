/**
 * Bot settings: the trading constants, and the three values read from the process
 * environment (the two API credentials and the testnet flag). The environment is a
 * parameter: a map from variable name to value.
 */
module Config {
  import opened Wrappers
  import opened Errors
  import Text

  const DEFAULT_LEVERAGE: int := 10
  const MAX_LEVERAGE: int := 125
  const MIN_QUANTITY: real := 0.001
  const MAX_QUANTITY: real := 10000.0

  const API_KEY_VARIABLE: string := "BINANCE_API_KEY"
  const API_SECRET_VARIABLE: string := "BINANCE_API_SECRET"
  const TESTNET_VARIABLE: string := "TESTNET"

  datatype Settings = Settings(apiKey: string, apiSecret: string, testnet: bool)

  /** os.getenv(name, default). */
  function GetEnv(env: map<string, string>, name: string, default: string): (v: string)
    ensures name in env ==> v == env[name]
    ensures name !in env ==> v == default
  {
    if name in env then env[name] else default
  }

  /** The testnet flag: the variable's value, "True" when unset, compared lower-cased with "true". */
  function ParseTestnet(env: map<string, string>): bool {
    Text.Lower(GetEnv(env, TESTNET_VARIABLE, "True")) == "true"
  }

  /** The settings the process starts with; an unset credential is the empty string. */
  function FromEnvironment(env: map<string, string>): (s: Settings)
    ensures API_KEY_VARIABLE !in env ==> s.apiKey == ""
    ensures API_SECRET_VARIABLE !in env ==> s.apiSecret == ""
    ensures API_KEY_VARIABLE in env ==> s.apiKey == env[API_KEY_VARIABLE]
    ensures API_SECRET_VARIABLE in env ==> s.apiSecret == env[API_SECRET_VARIABLE]
    ensures s.testnet == ParseTestnet(env)
  {
    Settings(GetEnv(env, API_KEY_VARIABLE, ""), GetEnv(env, API_SECRET_VARIABLE, ""), ParseTestnet(env))
  }

  /** Config.validate(): succeeds, returning true, exactly when both credentials are non-empty. */
  function Validate(s: Settings): (r: Result<bool, Error>)
    ensures r.Ok? <==> s.apiKey != "" && s.apiSecret != ""
    ensures r.Ok? ==> r.value
    ensures r.Err? ==> r.error == CredentialsNotFound
  {
    if s.apiKey == "" || s.apiSecret == "" then Err(CredentialsNotFound) else Ok(true)
  }

  /** With no TESTNET variable the bot talks to the testnet. */
  lemma TestnetWhenUnset(env: map<string, string>)
    requires TESTNET_VARIABLE !in env
    ensures ParseTestnet(env)
  {
    assert Text.Lower("True") == "true";
  }

  /** The testnet flag does not depend on the case of the variable's value. */
  lemma TestnetIgnoresCase(env: map<string, string>)
    requires TESTNET_VARIABLE in env
    ensures ParseTestnet(env[TESTNET_VARIABLE := Text.Upper(env[TESTNET_VARIABLE])]) == ParseTestnet(env)
  {
    Text.LowerOfUpper(env[TESTNET_VARIABLE]);
  }

  /** The value is not stripped: any value of another length than four reads as false. */
  lemma TestnetNeedsFourLetters(env: map<string, string>)
    requires TESTNET_VARIABLE in env && |env[TESTNET_VARIABLE]| != 4
    ensures !ParseTestnet(env)
  {
  }

  /** Every setting read from an environment lacking a credential fails validation. */
  lemma MissingVariableFailsValidation(env: map<string, string>)
    requires API_KEY_VARIABLE !in env || API_SECRET_VARIABLE !in env
    ensures Validate(FromEnvironment(env)) == Err(CredentialsNotFound)
  {
  }
}
