/** Reading the application configuration from the process environment. */
module Config {
  import opened Wrappers
  import opened ConfigTypes
  import Text

  /** The process environment. */
  type Env = map<string, string>

  const BotTokenKey := "TELEGRAM_BOT_TOKEN"
  const ChatIdKey := "TELEGRAM_CHAT_ID"
  const ApiUrlKey := "API_URL"
  const Required: seq<string> := [BotTokenKey, ChatIdKey, ApiUrlKey]
  const DefaultInterval := "10000"
  const DefaultPath := "./data/chains.db"

  /** A variable counts as set when it is present and not empty (JavaScript truthiness of a string). */
  predicate IsSet(env: Env, key: string)
  {
    key in env && env[key] != ""
  }

  /** `env[key] || fallback`. */
  function OrDefault(env: Env, key: string, fallback: string): (v: string)
    ensures IsSet(env, key) ==> v == env[key]
    ensures !IsSet(env, key) ==> v == fallback
  {
    if IsSet(env, key) then env[key] else fallback
  }

  /** The keys of `keys` that are not set, in their order in `keys`. */
  function Missing(env: Env, keys: seq<string>): (m: seq<string>)
    ensures forall k :: k in m <==> k in keys && !IsSet(env, k)
    ensures |m| <= |keys|
  {
    if keys == [] then []
    else
      var init := Missing(env, keys[..|keys| - 1]);
      var k := keys[|keys| - 1];
      assert keys == keys[..|keys| - 1] + [k];
      if IsSet(env, k) then init else init + [k]
  }

  /** The missing list is the required keys that are unset, in the order they are required. */
  lemma MissingRequired(env: Env)
    ensures Missing(env, Required)
      == (if IsSet(env, BotTokenKey) then [] else [BotTokenKey])
       + (if IsSet(env, ChatIdKey) then [] else [ChatIdKey])
       + (if IsSet(env, ApiUrlKey) then [] else [ApiUrlKey])
  {
    var one := [BotTokenKey];
    var two := [BotTokenKey, ChatIdKey];
    assert one[..0] == [] && two[..1] == one && Required[..2] == two;
    assert Missing(env, one) == (if IsSet(env, BotTokenKey) then [] else [BotTokenKey]);
    assert Missing(env, two) == Missing(env, one) + (if IsSet(env, ChatIdKey) then [] else [ChatIdKey]);
  }

  function MissingMessage(missing: seq<string>): string
  {
    "Missing required environment variables: " + Text.Join(missing, ", ")
  }

  /** `validateEnv`: fails, naming the missing keys, iff a required variable is unset or empty. */
  function ValidateEnv(env: Env): (r: Outcome<string>)
    ensures r.Pass? <==> forall k :: k in Required ==> IsSet(env, k)
    ensures r.Pass? <==> IsSet(env, BotTokenKey) && IsSet(env, ChatIdKey) && IsSet(env, ApiUrlKey)
    ensures r.Fail? ==> r.error == MissingMessage(Missing(env, Required)) && Missing(env, Required) != []
  {
    var missing := Missing(env, Required);
    if |missing| > 0 then
      assert missing[0] in missing;
      Fail(MissingMessage(missing))
    else
      assert forall k :: k in Required ==> k !in missing;
      Pass
  }

  /** `getConfig`: validation first, then each field from its variable or its default. */
  function GetConfig(env: Env): (r: Result<AppConfig, string>)
    ensures r.Success? <==> ValidateEnv(env).Pass?
    ensures r.Failure? ==> r.error == ValidateEnv(env).error
    ensures r.Success? ==>
      && r.value.telegram == TelegramConfig(env[BotTokenKey], env[ChatIdKey])
      && r.value.api == ApiConfig(env[ApiUrlKey])
    ensures r.Success? ==> r.value.polling.intervalMs == Text.ParseInt(OrDefault(env, "POLLING_INTERVAL", DefaultInterval))
    ensures r.Success? ==> r.value.database.path == OrDefault(env, "DATABASE_PATH", DefaultPath)
    ensures r.Success? ==> (r.value.silentMode <==> "SILENT_MODE" in env && env["SILENT_MODE"] == "true")
  {
    match ValidateEnv(env)
    case Fail(e) => Failure(e)
    case Pass =>
      Success(AppConfig(
        TelegramConfig(env[BotTokenKey], env[ChatIdKey]),
        ApiConfig(env[ApiUrlKey]),
        PollingConfig(Text.ParseInt(OrDefault(env, "POLLING_INTERVAL", DefaultInterval))),
        DatabaseConfig(OrDefault(env, "DATABASE_PATH", DefaultPath)),
        "SILENT_MODE" in env && env["SILENT_MODE"] == "true"))
  }

  /** With POLLING_INTERVAL unset or empty the interval is ten seconds. */
  lemma DefaultPolling(env: Env)
    requires ValidateEnv(env).Pass? && !IsSet(env, "POLLING_INTERVAL")
    ensures GetConfig(env).Success? && GetConfig(env).value.polling.intervalMs == Some(10000)
  {
    Text.ParseIntToString(10000);
    TenThousand();
  }

  lemma TenThousand()
    ensures Text.IntToString(10000) == DefaultInterval
  {
    assert Text.NatToString(1) == "1";
    assert Text.NatToString(10) == "10";
    assert Text.NatToString(100) == "100";
    assert Text.NatToString(1000) == "1000";
  }
}
