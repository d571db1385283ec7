/** The configuration read from the process environment: the account table
    (one account per `COOKIE_<name>` variable, or a `DEFAULT` account built
    from `SESSION_COOKIE`), the target site and the retry policy. */
module Config {
  import opened Wrappers
  import opened JsText

  /** The process environment: variable name to value. */
  type Env = map<string, string>

  /** What the bot knows about one account. */
  datatype Account = Account(cookie: string, referer: string, params: string)

  /** The target site and its default headers. */
  datatype Site = Site(
    baseUrl: string,
    referralPath: string,
    defaultReferer: string,
    sessionCookie: Option<string>)

  /** Retry and backoff settings, in attempts and milliseconds. */
  datatype RetryPolicy = RetryPolicy(maxRetries: int, initialDelay: int, maxDelay: int)

  const CookiePrefix := "COOKIE_"
  const DefaultAccountName := "DEFAULT"
  const SelectGamePath := "/auth/select_game_v2.php"

  /** `process.env[key] || fallback`: unset and empty both fall back. */
  function EnvOr(env: Env, key: string, fallback: string): (r: string)
    ensures key in env && env[key] != "" ==> r == env[key]
    ensures key !in env || env[key] == "" ==> r == fallback
  {
    if key in env && env[key] != "" then env[key] else fallback
  }

  /** `process.env[key]` used inside a string concatenation: an unset
      variable reads as "undefined". */
  function EnvText(env: Env, key: string): string {
    if key in env then env[key] else "undefined"
  }

  predicate IsCookieKey(key: string) {
    StartsWith(key, CookiePrefix)
  }

  predicate HasCookieKeys(env: Env) {
    exists key :: key in env && IsCookieKey(key)
  }

  /** The account that `COOKIE_<name>` defines, with its referer and extra
      parameters defaulted. */
  function NamedAccount(env: Env, name: string): Account
    requires CookiePrefix + name in env
  {
    Account(
      env[CookiePrefix + name],
      EnvOr(env, "REFERER_" + name, "https://" + ToLowerAscii(name) + ".com/fortune"),
      EnvOr(env, "PARAMS_" + name, ""))
  }

  /** The fallback account built from `SESSION_COOKIE`. */
  function DefaultAccount(env: Env): Account
    requires "SESSION_COOKIE" in env
  {
    Account(env["SESSION_COOKIE"], EnvText(env, "BASE_URL") + SelectGamePath, "")
  }

  /** The `accounts` getter: walks every environment key and adds one account
      per `COOKIE_` key; when it found none and `SESSION_COOKIE` is set and
      non-empty, the table holds `DEFAULT` alone. */
  method Accounts(env: Env) returns (accounts: map<string, Account>)
    ensures HasCookieKeys(env) ==>
      forall name :: name in accounts <==> CookiePrefix + name in env
    ensures HasCookieKeys(env) ==>
      forall name :: name in accounts ==> accounts[name] == NamedAccount(env, name)
    ensures forall key :: key in env && IsCookieKey(key) ==>
      key[|CookiePrefix|..] in accounts && accounts[key[|CookiePrefix|..]].cookie == env[key]
    ensures !HasCookieKeys(env) && EnvOr(env, "SESSION_COOKIE", "") != "" ==>
      accounts == map[DefaultAccountName := DefaultAccount(env)]
    ensures !HasCookieKeys(env) && EnvOr(env, "SESSION_COOKIE", "") == "" ==>
      accounts == map[]
  {
    accounts := map[];
    var pending := env.Keys;
    while pending != {}
      invariant pending <= env.Keys
      invariant forall name :: name in accounts <==>
        CookiePrefix + name in env && CookiePrefix + name !in pending
      invariant forall name :: name in accounts ==> accounts[name] == NamedAccount(env, name)
      decreases pending
    {
      var key :| key in pending;
      if IsCookieKey(key) {
        var name := key[|CookiePrefix|..];
        assert CookiePrefix + name == key;
        accounts := accounts[name := NamedAccount(env, name)];
      }
      pending := pending - {key};
    }
    forall key | key in env && IsCookieKey(key)
      ensures key[|CookiePrefix|..] in accounts && accounts[key[|CookiePrefix|..]].cookie == env[key]
    {
      assert CookiePrefix + key[|CookiePrefix|..] == key;
    }
    if HasCookieKeys(env) {
      var key :| key in env && IsCookieKey(key);
      assert key[|CookiePrefix|..] in accounts;
    } else if EnvOr(env, "SESSION_COOKIE", "") != "" {
      assert accounts == map[] by {
        forall name | name in accounts ensures false {
          assert IsCookieKey(CookiePrefix + name);
        }
      }
      accounts := accounts[DefaultAccountName := DefaultAccount(env)];
    } else {
      assert accounts == map[] by {
        forall name | name in accounts ensures false {
          assert IsCookieKey(CookiePrefix + name);
        }
      }
    }
  }

  /** `config.website`: the base URL, the referral page path and the default
      headers, read from `BASE_URL`, `REFERRAL_PATH` and `SESSION_COOKIE`. */
  function SiteFromEnv(env: Env): (site: Site)
    ensures site.defaultReferer == site.baseUrl + SelectGamePath
  {
    Site(
      EnvText(env, "BASE_URL"),
      EnvText(env, "REFERRAL_PATH"),
      EnvText(env, "BASE_URL") + SelectGamePath,
      if "SESSION_COOKIE" in env then Some(env["SESSION_COOKIE"]) else None)
  }

  /** `config.retry`: `parseInt(...) || default` for the two tunable values
      and a fixed 30-second ceiling. Neither tunable value is ever zero,
      since a zero reading falls back to a non-zero default. */
  function RetryFromEnv(env: Env): (p: RetryPolicy)
    ensures p.maxRetries != 0 && p.initialDelay != 0
    ensures p.maxDelay == 30000
  {
    RetryPolicy(
      OrElse(ParseInt(EnvText(env, "MAX_RETRIES")), 3),
      OrElse(ParseInt(EnvText(env, "INITIAL_RETRY_DELAY")), 2000),
      30000)
  }

  /** A variable holding a non-zero integer is taken as written; an unset,
      unparsable or zero one gives the default. */
  lemma RetrySettings(env: Env, n: int, m: int)
    ensures RetryFromEnv(env).maxDelay == 30000
    ensures "MAX_RETRIES" in env && env["MAX_RETRIES"] == IntToString(n) && n != 0 ==>
      RetryFromEnv(env).maxRetries == n
    ensures "INITIAL_RETRY_DELAY" in env && env["INITIAL_RETRY_DELAY"] == IntToString(m) && m != 0 ==>
      RetryFromEnv(env).initialDelay == m
    ensures "MAX_RETRIES" !in env || ParseInt(env["MAX_RETRIES"]) in {None, Some(0)} ==>
      RetryFromEnv(env).maxRetries == 3
    ensures "INITIAL_RETRY_DELAY" !in env || ParseInt(env["INITIAL_RETRY_DELAY"]) in {None, Some(0)} ==>
      RetryFromEnv(env).initialDelay == 2000
  {
    ParseIntOfIntToString(n);
    ParseIntOfIntToString(m);
    UndefinedIsNaN();
  }

  /** The `DEFAULT` account sends what the site's default headers send: the
      session cookie and the select-game referer. */
  lemma DefaultMatchesSite(env: Env)
    requires "SESSION_COOKIE" in env
    ensures SiteFromEnv(env).sessionCookie == Some(DefaultAccount(env).cookie)
    ensures SiteFromEnv(env).defaultReferer == DefaultAccount(env).referer
  {
  }

  /** `parseInt(undefined)` is `NaN`. */
  lemma UndefinedIsNaN()
    ensures ParseInt("undefined") == None
  {
    TrimStartKeeps("undefined");
    assert DigitPrefix("undefined", 10) == [];
  }
}
