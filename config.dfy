/**
 * Reading the API keys (`get_secret`) and the configuration the research
 * system is built from: a non-empty deployment secret wins over the
 * environment, every value is cleaned of whitespace and quotes, and a
 * missing OpenAI key stops the system.
 */
module Config {
  import opened Common
  import opened PyStr

  /** `str(value).strip().strip('"').strip("'")`. */
  function Clean(s: string): (r: string)
    ensures |r| <= |s|
    ensures r != [] ==> r[0] != '\'' && r[|r| - 1] != '\''
  {
    Strip(Strip(Strip(s, Whitespace), Only('"')), Only('\''))
  }

  /**
   * `get_secret(key, default)`: the deployment secret when it is non-empty,
   * otherwise the environment variable, otherwise `default`; cleaned.
   */
  function GetSecret(secrets: map<string, string>, env: map<string, string>, key: string, default: string): (r: string)
    ensures key in secrets && secrets[key] != "" ==> r == Clean(secrets[key])
    ensures !(key in secrets && secrets[key] != "") && key in env ==> r == Clean(env[key])
    ensures !(key in secrets && secrets[key] != "") && key !in env ==> r == Clean(default)
  {
    if key in secrets && secrets[key] != "" then Clean(secrets[key])
    else if key in env then Clean(env[key])
    else Clean(default)
  }

  /** A non-empty secret makes the environment irrelevant. */
  lemma SecretPrecedence(secrets: map<string, string>, env1: map<string, string>,
                         env2: map<string, string>, key: string, default: string)
    requires key in secrets && secrets[key] != ""
    ensures GetSecret(secrets, env1, key, default) == GetSecret(secrets, env2, key, default)
  {
  }

  /** An empty secret is as good as none: the environment decides. */
  lemma EmptySecretIgnored(secrets: map<string, string>, env: map<string, string>, key: string, default: string)
    requires key in secrets && secrets[key] == ""
    ensures GetSecret(secrets, env, key, default) == GetSecret(map k | k in secrets && k != key :: secrets[k], env, key, default)
  {
  }

  /** Cleaning `  "sk-1"  ` gives `sk-1`: whitespace goes first, then the double quotes. */
  lemma CleanUnquotes(s: string, key: string)
    requires IsKeyText(key) && s == "  \"" + key + "\"  "
    ensures Clean(s) == key
  {
    var q := "\"" + key + "\"";
    assert s == "  " + q + "  ";
    StripAround(q, "  ", Whitespace);
    StripAround(key, "\"", Only('"'));
    StripNothing(key, Only('\''));
  }

  /** Text with no whitespace or quote at either end. */
  predicate IsKeyText(key: string) {
    key != [] && !IsSpace(key[0]) && !IsSpace(key[|key| - 1])
    && key[0] != '"' && key[|key| - 1] != '"' && key[0] != '\'' && key[|key| - 1] != '\''
  }

  lemma CleanQuotedPadding(key: string)
    requires IsKeyText(key)
    ensures Clean("' " + key + "'") == " " + key
  {
    var s := "' " + key + "'";
    var t := " " + key;
    assert s == "'" + t + "'";
    assert s[0] == '\'' && s[|s| - 1] == '\'';
    StripNothing(s, Whitespace);
    assert Strip(s, Whitespace) == s;
    StripNothing(s, Only('"'));
    assert Strip(s, Only('"')) == s;
    assert t[0] == ' ' && t[|t| - 1] == key[|key| - 1];
    StripAround(t, "'", Only('\''));
    assert Strip(s, Only('\'')) == t;
  }

  lemma CleanPadded(key: string)
    requires IsKeyText(key)
    ensures Clean(" " + key) == key
  {
    StripLeading(key, " ", Whitespace);
    StripNothing(key, Only('"'));
    StripNothing(key, Only('\''));
  }

  /**
   * Cleaning is not idempotent: in `' key'` the single quotes come off only
   * after the whitespace strip, so the padding they enclosed is left, and a
   * second clean removes it.
   */
  lemma CleanNotIdempotent(key: string)
    requires IsKeyText(key)
    ensures Clean("' " + key + "'") == " " + key
    ensures Clean(Clean("' " + key + "'")) == key
  {
    CleanQuotedPadding(key);
    CleanPadded(key);
  }

  /** `raise ValueError(...)`: the required keys that are missing. */
  datatype ConfigError = MissingKeys(keys: seq<string>)

  datatype Result<T> = Ok(value: T) | Err(error: ConfigError)

  /** What the system is built with, apart from the clients themselves. */
  datatype SystemConfig = SystemConfig(
    openaiKey: string,
    anthropicConfigured: bool,
    deepseekConfigured: bool,
    tavilyAvailable: bool,
    serperAvailable: bool,
    serperHeaderKey: string,
    agentsInitialized: bool)

  /**
   * `SageLensAgenticSystem.__init__`: the five keys, the required-key check,
   * and which optional backends and agents exist. `sdkAvailable` is whether
   * the agents SDK was importable; `agentsBuilt` whether constructing the
   * three agents succeeded.
   */
  function LoadConfig(secrets: map<string, string>, env: map<string, string>,
                      sdkAvailable: bool, agentsBuilt: bool): (r: Result<SystemConfig>)
    ensures r.Err? <==> GetSecret(secrets, env, "OPENAI_API_KEY", "") == ""
    ensures r.Err? ==> r.error == MissingKeys(["OPENAI_API_KEY"])
    ensures r.Ok? ==> r.value.openaiKey != ""
    ensures r.Ok? ==> (r.value.tavilyAvailable <==> GetSecret(secrets, env, "TAVILY_API_KEY", "") != "")
    ensures r.Ok? ==> (r.value.serperAvailable <==> GetSecret(secrets, env, "SERPER_API_KEY", "") != "")
    ensures r.Ok? ==> (r.value.anthropicConfigured <==> GetSecret(secrets, env, "ANTHROPIC_API_KEY", "") != "")
    ensures r.Ok? ==> (r.value.deepseekConfigured <==> GetSecret(secrets, env, "DEEPSEEK_API_KEY", "") != "")
    ensures r.Ok? ==> (r.value.agentsInitialized <==> sdkAvailable && agentsBuilt)
  {
    var openai := GetSecret(secrets, env, "OPENAI_API_KEY", "");
    var anthropic := GetSecret(secrets, env, "ANTHROPIC_API_KEY", "");
    var deepseek := GetSecret(secrets, env, "DEEPSEEK_API_KEY", "");
    var tavily := GetSecret(secrets, env, "TAVILY_API_KEY", "");
    var serper := GetSecret(secrets, env, "SERPER_API_KEY", "");
    if openai == "" then Err(MissingKeys(["OPENAI_API_KEY"]))
    else
      Ok(SystemConfig(openai, anthropic != "", deepseek != "", tavily != "", serper != "",
                      if serper != "" then Clean(serper) else "",
                      sdkAvailable && agentsBuilt))
  }

  /** The Serper header carries the key cleaned a second time, which may differ from the key itself. */
  lemma SerperKeyCleanedTwice(secrets: map<string, string>, env: map<string, string>, sdkAvailable: bool, agentsBuilt: bool)
    requires LoadConfig(secrets, env, sdkAvailable, agentsBuilt).Ok?
    requires LoadConfig(secrets, env, sdkAvailable, agentsBuilt).value.serperAvailable
    ensures var raw := if "SERPER_API_KEY" in secrets && secrets["SERPER_API_KEY"] != "" then secrets["SERPER_API_KEY"]
                       else if "SERPER_API_KEY" in env then env["SERPER_API_KEY"] else "";
            LoadConfig(secrets, env, sdkAvailable, agentsBuilt).value.serperHeaderKey == Clean(Clean(raw))
  {
  }
}
