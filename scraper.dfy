/** The referral scraper: per-account request options (query string,
    user agent, headers), the retrying fetch of the referral page and of the
    downline table, and the replies handed back to the bot.

    The HTTP client is an input: attempt `k` of a fetch sees `responses(k)`.
    The random instance id and the clock are parameters. */
module Scraper {
  import opened Wrappers
  import opened JsText
  import opened Config
  import opened Query
  import opened Extract

  // ---------------------------------------------------------------------
  // 32-bit arithmetic

  const TwoTo32: int := 0x1_0000_0000
  const TwoTo31: int := 0x8000_0000

  /** How many times `ToInt32` wraps `x` around. */
  function Wraps(x: int): int {
    x / TwoTo32 + (if x % TwoTo32 >= TwoTo31 then 1 else 0)
  }

  /** ECMAScript ToInt32: `x | 0` and the operands of `<<`. */
  function ToInt32(x: int): (r: int)
    ensures -TwoTo31 <= r < TwoTo31
    ensures r == x - Wraps(x) * TwoTo32
  {
    var m := x % TwoTo32;
    if m >= TwoTo31 then m - TwoTo32 else m
  }

  lemma ToInt32Shift(x: int, k: int)
    ensures ToInt32(x + k * TwoTo32) == ToInt32(x)
  {
    var y := x + k * TwoTo32;
    assert y % TwoTo32 == x % TwoTo32 by {
      assert y == (x / TwoTo32 + k) * TwoTo32 + x % TwoTo32;
    }
  }

  /** `hash = ((hash << 5) - hash) + code; hash |= 0` */
  function HashStep(h: int, c: char): int {
    ToInt32(ToInt32(h * 32) - h + c as int)
  }

  /** The hash of the account name, one character at a time. */
  function Hash(s: string): int {
    if s == [] then 0 else HashStep(Hash(s[..|s| - 1]), s[|s| - 1])
  }

  /** The same polynomial over unbounded integers: h = 31 h + c. */
  function PolyHash(s: string): int {
    if s == [] then 0 else 31 * PolyHash(s[..|s| - 1]) + s[|s| - 1] as int
  }

  /** Shifting left by 5 and subtracting is multiplying by 31, modulo 2^32. */
  lemma HashStepIs31(h: int, c: char)
    ensures HashStep(h, c) == ToInt32(31 * h + c as int)
  {
    var w := Wraps(h * 32);
    assert ToInt32(h * 32) - h + c as int == (31 * h + c as int) + (-w) * TwoTo32;
    ToInt32Shift(31 * h + c as int, -w);
  }

  /** The step-by-step hash is the 31-polynomial truncated to int32. */
  lemma {:induction false} HashIsWrappedPolynomial(s: string)
    ensures Hash(s) == ToInt32(PolyHash(s))
  {
    if s != [] {
      var p, c := s[..|s| - 1], s[|s| - 1];
      HashIsWrappedPolynomial(p);
      HashStepIs31(Hash(p), c);
      var w := Wraps(PolyHash(p));
      assert 31 * Hash(p) + c as int == (31 * PolyHash(p) + c as int) + (-31 * w) * TwoTo32;
      ToInt32Shift(31 * PolyHash(p) + c as int, -31 * w);
    }
  }

  // ---------------------------------------------------------------------
  // User agent

  const UserAgents: seq<string> := [
    "Mozilla/5.0 (Windows NT 10.0; Win64; x64) AppleWebKit/537.36 (KHTML, like Gecko) Chrome/120.0.0.0 Safari/537.36",
    "Mozilla/5.0 (Macintosh; Intel Mac OS X 10_15_7) AppleWebKit/537.36 (KHTML, like Gecko) Chrome/120.0.0.0 Safari/537.36",
    "Mozilla/5.0 (X11; Linux x86_64) AppleWebKit/537.36 (KHTML, like Gecko) Chrome/120.0.0.0 Safari/537.36",
    "Mozilla/5.0 (Windows NT 10.0; Win64; x64; rv:109.0) Gecko/20100101 Firefox/121.0",
    "Mozilla/5.0 (iPhone; CPU iPhone OS 17_2 like Mac OS X) AppleWebKit/605.1.15 (KHTML, like Gecko) Version/17.2 Mobile/15E148 Safari/604.1"
  ]

  function Abs(x: int): nat {
    if x < 0 then -x else x
  }

  /** The user-agent slot of an account: `Math.abs(hash) % 5`, with no hash
      taken when there is no name. */
  function UaIndex(name: Option<string>): nat {
    if NonEmpty(name) then Abs(Hash(name.value)) % |UserAgents| else 0
  }

  /** The slot is a valid index, depends on the name only, and is 0 without a
      name; with a name it comes from the wrapped 31-polynomial. */
  lemma UaIndexFacts(name: Option<string>)
    ensures UaIndex(name) < |UserAgents|
    ensures !NonEmpty(name) ==> UaIndex(name) == 0
    ensures NonEmpty(name) ==> UaIndex(name) == Abs(ToInt32(PolyHash(name.value))) % 5
  {
    if NonEmpty(name) {
      HashIsWrappedPolynomial(name.value);
    }
  }

  /** The hash loop of `updateOptions` and the index it picks. */
  method UserAgentIndex(name: Option<string>) returns (index: nat)
    ensures index == UaIndex(name)
    ensures index < |UserAgents|
  {
    var hash := 0;
    if NonEmpty(name) {
      var n := name.value;
      var i := 0;
      while i < |n|
        invariant 0 <= i <= |n|
        invariant hash == Hash(n[..i])
      {
        assert n[..i + 1][..i] == n[..i];
        hash := (ToInt32(hash * 32) - hash) + n[i] as int;
        hash := ToInt32(hash);
        i := i + 1;
      }
      assert n[..i] == n;
    }
    index := Abs(hash) % |UserAgents|;
  }

  // ---------------------------------------------------------------------
  // Query strings

  /** `act`, `_v` (instance id) and `_t` (timestamp), appended in that order. */
  function BaseQuery(act: string, instanceId: string, timestamp: int): Params {
    [("act", act), ("_v", instanceId), ("_t", IntToString(timestamp))]
  }

  /** The account's extra parameters; none when they are unset or empty. */
  function ExtraParams(params: Option<string>): Params {
    if NonEmpty(params) then ParseQuery(params.value) else []
  }

  /** The referral query: extra parameters are applied with `set`. */
  function ReferralQuery(instanceId: string, timestamp: int, params: Option<string>): Params {
    var q := BaseQuery("referral", instanceId, timestamp);
    if NonEmpty(params) then SetAll(q, ExtraParams(params)) else q
  }

  /** The referral page URL: the configured URL up to any `?`, then the query. */
  function ReferralUrl(site: Site, instanceId: string, timestamp: int, params: Option<string>): string {
    PrefixBefore(site.baseUrl + site.referralPath, '?') + "?" + Serialize(ReferralQuery(instanceId, timestamp, params))
  }

  /** The downline query: extra parameters are applied with `append`. */
  function DownlineQuery(instanceId: string, timestamp: int, params: Option<string>): Params {
    BaseQuery("refDownlinePanel", instanceId, timestamp) + ExtraParams(params)
  }

  function DownlineUrl(baseUrl: string, instanceId: string, timestamp: int, params: Option<string>): string {
    baseUrl + "/auth/x_ajaxer-v2.php" + "?" + Serialize(DownlineQuery(instanceId, timestamp, params))
  }

  /** In the referral URL an extra parameter overrides: its name ends with the
      one value it last has among the extras, and every other name keeps its
      base value. */
  lemma ReferralQueryValues(instanceId: string, timestamp: int, params: Option<string>, k: string)
    ensures var extra := ExtraParams(params);
      ValuesOf(ReferralQuery(instanceId, timestamp, params), k) ==
        if HasKey(extra, k) then [Last(ValuesOf(extra, k))]
        else ValuesOf(BaseQuery("referral", instanceId, timestamp), k)
  {
    SetAllValues(BaseQuery("referral", instanceId, timestamp), ExtraParams(params), k);
  }

  /** In the downline URL an extra parameter is added after the base ones, so
      a repeated name is sent twice. */
  lemma DownlineQueryValues(instanceId: string, timestamp: int, params: Option<string>, k: string)
    ensures ValuesOf(DownlineQuery(instanceId, timestamp, params), k) ==
      ValuesOf(BaseQuery("refDownlinePanel", instanceId, timestamp), k) + ValuesOf(ExtraParams(params), k)
  {
    ValuesOfConcat(BaseQuery("refDownlinePanel", instanceId, timestamp), ExtraParams(params), k);
  }

  /** The base query carries the instance id as its one `_v`. */
  lemma BaseQueryVersion(act: string, instanceId: string, timestamp: int)
    ensures ValuesOf(BaseQuery(act, instanceId, timestamp), "_v") == [instanceId]
  {
    var b := BaseQuery(act, instanceId, timestamp);
    var t := [("_t", IntToString(timestamp))];
    assert b[1..] == [("_v", instanceId)] + t;
    assert b[1..][1..] == t;
    assert t[1..] == [];
    assert "act" != "_v" by { assert |"act"| != |"_v"|; }
    assert "_t" != "_v" by { assert "_t"[1] != "_v"[1]; }
    assert ValuesOf(t, "_v") == [];
  }

  /** The same `_v` given in the account parameters replaces the instance id
      in the referral URL and comes in addition to it in the downline URL. */
  lemma OverrideVersusAppend(instanceId: string, timestamp: int, params: Option<string>)
    requires HasKey(ExtraParams(params), "_v")
    ensures |ValuesOf(ReferralQuery(instanceId, timestamp, params), "_v")| == 1
    ensures |ValuesOf(DownlineQuery(instanceId, timestamp, params), "_v")| >= 2
    ensures ValuesOf(DownlineQuery(instanceId, timestamp, params), "_v")[0] == instanceId
  {
    ReferralQueryValues(instanceId, timestamp, params, "_v");
    DownlineQueryValues(instanceId, timestamp, params, "_v");
    BaseQueryVersion("refDownlinePanel", instanceId, timestamp);
    var e := ValuesOf(ExtraParams(params), "_v");
    assert e != [];
    var d := ValuesOf(DownlineQuery(instanceId, timestamp, params), "_v");
    assert d == [instanceId] + e;
  }

  /** Without extra parameters both queries are the three base pairs. */
  lemma PlainQueries(instanceId: string, timestamp: int, params: Option<string>)
    requires !NonEmpty(params)
    ensures ReferralQuery(instanceId, timestamp, params) == BaseQuery("referral", instanceId, timestamp)
    ensures DownlineQuery(instanceId, timestamp, params) == BaseQuery("refDownlinePanel", instanceId, timestamp)
  {
    assert BaseQuery("refDownlinePanel", instanceId, timestamp) + [] == BaseQuery("refDownlinePanel", instanceId, timestamp);
  }

  /** The referral URL keeps nothing after a `?` of the configured URL. */
  lemma ReferralUrlShape(site: Site, instanceId: string, timestamp: int, params: Option<string>)
    ensures var p := PrefixBefore(site.baseUrl + site.referralPath, '?');
      && '?' !in p
      && StartsWith(site.baseUrl + site.referralPath, p)
      && ReferralUrl(site, instanceId, timestamp, params) == p + "?" + Serialize(ReferralQuery(instanceId, timestamp, params))
  {
  }

  // ---------------------------------------------------------------------
  // Retry schedule

  function Pow2(k: nat): nat {
    if k == 0 then 1 else 2 * Pow2(k - 1)
  }

  function Min(a: int, b: int): int {
    if a <= b then a else b
  }

  function Max(a: int, b: int): int {
    if a >= b then a else b
  }

  /** The wait before attempt `k + 2`, after attempt `k + 1` failed. */
  function Delay(p: RetryPolicy, k: nat): int {
    Min(p.initialDelay * Pow2(k), p.maxDelay)
  }

  lemma {:induction false} Pow2Monotone(j: nat, k: nat)
    requires j <= k
    ensures Pow2(j) <= Pow2(k)
  {
    if j < k {
      Pow2Monotone(j, k - 1);
    }
  }

  /** Delays never exceed the ceiling and, for a non-negative initial delay,
      never shrink. */
  lemma DelayBounds(p: RetryPolicy, j: nat, k: nat)
    ensures Delay(p, k) <= p.maxDelay
    ensures p.initialDelay >= 0 && j <= k ==> Delay(p, j) <= Delay(p, k)
  {
    if p.initialDelay >= 0 && j <= k {
      Pow2Monotone(j, k);
      MulMonotone(p.initialDelay, Pow2(j), Pow2(k));
    }
  }

  lemma MulMonotone(a: int, x: int, y: int)
    requires a >= 0 && x <= y
    ensures a * x <= a * y
  {
    assert a * y - a * x == a * (y - x);
  }

  /** `Failed after <maxRetries> attempts: <message>`. */
  function Exhausted(p: RetryPolicy, message: string): string {
    "Failed after " + IntToString(p.maxRetries) + " attempts: " + message
  }

  /** A retried fetch: what it returned, how many attempts it made in all
      and the delays it slept, in order. */
  datatype Run<T> = Run(result: Result<T>, attempts: nat, delays: seq<int>)

  /** The retry recursion from attempt index `k`: a success returns at once;
      a failure sleeps and retries while `k < maxRetries - 1`, and otherwise
      ends with the exhaustion message. */
  function RetryFrom<T>(p: RetryPolicy, outcome: nat -> Result<T>, k: nat): Run<T>
    decreases if p.maxRetries > k then p.maxRetries - k else 0
  {
    match outcome(k)
    case Ok(v) => Run(Ok(v), k + 1, [])
    case Err(e) =>
      if k < p.maxRetries - 1 then
        var rest := RetryFrom(p, outcome, k + 1);
        Run(rest.result, rest.attempts, [Delay(p, k)] + rest.delays)
      else Run(Err(Exhausted(p, e)), k + 1, [])
  }

  /** What the retry recursion guarantees from attempt index `k`. */
  lemma {:induction false} RetryFacts<T>(p: RetryPolicy, outcome: nat -> Result<T>, k: nat)
    ensures var r := RetryFrom(p, outcome, k);
      && k + 1 <= r.attempts <= Max(k + 1, p.maxRetries)
      && |r.delays| == r.attempts - 1 - k
      && (forall j :: 0 <= j < |r.delays| ==> r.delays[j] == Delay(p, k + j))
      && (forall j :: k <= j < r.attempts - 1 ==> outcome(j).Err?)
      && (r.result.Ok? ==> r.result == outcome(r.attempts - 1))
      && (r.result.Err? ==>
            && outcome(r.attempts - 1).Err?
            && r.attempts == Max(k + 1, p.maxRetries)
            && r.result.error == Exhausted(p, outcome(r.attempts - 1).error))
    decreases if p.maxRetries > k then p.maxRetries - k else 0
  {
    var r := RetryFrom(p, outcome, k);
    if outcome(k).Err? && k < p.maxRetries - 1 {
      RetryFacts(p, outcome, k + 1);
      var rest := RetryFrom(p, outcome, k + 1);
      assert r.delays == [Delay(p, k)] + rest.delays;
      forall j | 0 <= j < |r.delays| ensures r.delays[j] == Delay(p, k + j) {
        if j > 0 {
          assert r.delays[j] == rest.delays[j - 1];
        }
      }
    }
  }

  /** One level of the retry recursion, stated for any attempt outcomes. */
  lemma RetryStep<T>(p: RetryPolicy, outcome: nat -> Result<T>, k: nat)
    ensures outcome(k).Ok? ==> RetryFrom(p, outcome, k) == Run(outcome(k), k + 1, [])
    ensures outcome(k).Err? && k < p.maxRetries - 1 ==>
      var rest := RetryFrom(p, outcome, k + 1);
      RetryFrom(p, outcome, k) == Run(rest.result, rest.attempts, [Delay(p, k)] + rest.delays)
    ensures outcome(k).Err? && k >= p.maxRetries - 1 ==>
      RetryFrom(p, outcome, k) == Run(Err(Exhausted(p, outcome(k).error)), k + 1, [])
  {
  }

  /** A failed first attempt is followed by a second one when the policy
      allows two. */
  lemma FailureIsRetried<T>(p: RetryPolicy, outcome: nat -> Result<T>)
    requires p.maxRetries >= 2 && outcome(0).Err?
    ensures RetryFrom(p, outcome, 0).attempts >= 2
  {
    RetryFacts(p, outcome, 1);
  }

  /** A whole fetch: at most `max(1, maxRetries)` attempts, the first success
      ends it, the delay before retry `j + 1` is
      `min(initialDelay * 2^j, maxDelay)`, and running out of attempts
      reports the last error. */
  lemma RetrySchedule<T>(p: RetryPolicy, outcome: nat -> Result<T>)
    ensures var r := RetryFrom(p, outcome, 0);
      && 1 <= r.attempts <= Max(1, p.maxRetries)
      && |r.delays| == r.attempts - 1
      && (forall j :: 0 <= j < |r.delays| ==> r.delays[j] == Min(p.initialDelay * Pow2(j), p.maxDelay))
      && (forall j :: 0 <= j < |r.delays| ==> r.delays[j] <= p.maxDelay)
      && (p.initialDelay >= 0 ==> forall i, j :: 0 <= i <= j < |r.delays| ==> r.delays[i] <= r.delays[j])
      && (forall j :: 0 <= j < r.attempts - 1 ==> outcome(j).Err?)
      && (r.result.Ok? <==> outcome(r.attempts - 1).Ok?)
      && (r.result.Ok? ==> r.result == outcome(r.attempts - 1))
      && (r.result.Err? ==>
            && r.attempts == Max(1, p.maxRetries)
            && r.result.error == Exhausted(p, outcome(r.attempts - 1).error))
  {
    RetryFacts(p, outcome, 0);
    var r := RetryFrom(p, outcome, 0);
    forall j | 0 <= j < |r.delays| ensures r.delays[j] <= p.maxDelay {
      DelayBounds(p, j, j);
    }
    if p.initialDelay >= 0 {
      forall i, j | 0 <= i <= j < |r.delays| ensures r.delays[i] <= r.delays[j] {
        DelayBounds(p, i, j);
      }
    }
  }

  /** With the default policy a fetch that keeps failing makes three attempts,
      sleeping 2 and then 4 seconds. */
  lemma DefaultScheduleFailing<T>(outcome: nat -> Result<T>)
    requires forall k :: outcome(k).Err?
    ensures RetryFrom(RetryPolicy(3, 2000, 30000), outcome, 0).attempts == 3
    ensures RetryFrom(RetryPolicy(3, 2000, 30000), outcome, 0).delays == [2000, 4000]
  {
    var p := RetryPolicy(3, 2000, 30000);
    assert p.maxRetries == 3 && p.initialDelay == 2000;
    assert Pow2(1) == 2;
    assert RetryFrom(p, outcome, 2) == Run(Err(Exhausted(p, outcome(2).error)), 3, []);
    assert RetryFrom(p, outcome, 1).delays == [4000];
  }

  // ---------------------------------------------------------------------
  // Attempts

  /** What the HTTP client hands back for one attempt: a rejection with its
      message, or a body with the DOM it parses to. */
  datatype Response<D> = TransportError(message: string) | Received(body: string, dom: D)

  /** One attempt at the referral page: a transport error, an empty body and
      a page without a referral link all fail the attempt. */
  function ReferralAttempt(resp: Response<Page>, baseUrl: string, name: Option<string>, params: Option<string>): Result<ReferralData> {
    match resp
    case TransportError(m) => Err(m)
    case Received(body, page) =>
      if body == "" then Err("Empty response from server")
      else ParsedReferral(page, body, baseUrl, name, params)
  }

  function ReferralAttempts(responses: nat -> Response<Page>, baseUrl: string, name: Option<string>, params: Option<string>): nat -> Result<ReferralData> {
    (k: nat) => ReferralAttempt(responses(k), baseUrl, name, params)
  }

  /** One attempt at the downline table; parsing the table cannot fail. */
  function DownlineAttempt(resp: Response<seq<seq<string>>>): Result<DownlineData> {
    match resp
    case TransportError(m) => Err(m)
    case Received(body, rows) =>
      if body == "" then Err("Empty response from server") else Ok(DownlineOf(rows))
  }

  function DownlineAttempts(responses: nat -> Response<seq<seq<string>>>): nat -> Result<DownlineData> {
    (k: nat) => DownlineAttempt(responses(k))
  }

  /** A page that does not parse fails its attempt like a transport error. */
  lemma ParseFailureFailsAttempt(resp: Response<Page>, baseUrl: string, name: Option<string>, params: Option<string>)
    requires resp.Received? && resp.body != ""
    requires ParsedReferral(resp.dom, resp.body, baseUrl, name, params).Err?
    ensures ReferralAttempt(resp, baseUrl, name, params) == ParsedReferral(resp.dom, resp.body, baseUrl, name, params)
  {
  }

  /** ... and so it is fetched again. */
  lemma ParseFailureIsRetried(responses: nat -> Response<Page>, baseUrl: string, name: Option<string>, params: Option<string>, p: RetryPolicy)
    requires p.maxRetries >= 2
    requires responses(0).Received? && responses(0).body != ""
    requires ParsedReferral(responses(0).dom, responses(0).body, baseUrl, name, params).Err?
    ensures RetryFrom(p, ReferralAttempts(responses, baseUrl, name, params), 0).attempts >= 2
  {
    var o := ReferralAttempts(responses, baseUrl, name, params);
    ParseFailureFailsAttempt(responses(0), baseUrl, name, params);
    assert o(0).Err?;
    FailureIsRetried(p, o);
  }

  // ---------------------------------------------------------------------
  // The scraper object

  /** The parts of `cloudscraperOptions` that depend on the account. */
  datatype RequestOptions = RequestOptions(url: string, cookie: string, userAgent: string, referer: string)

  /** `x || fallback` for an optional string. */
  function OrText(x: Option<string>, fallback: string): string {
    if NonEmpty(x) then x.value else fallback
  }

  /** The options `updateOptions` builds from the scraper's fields. */
  function OptionsFor(site: Site, instanceId: string, timestamp: int, name: Option<string>,
                      cookie: Option<string>, referer: Option<string>, params: Option<string>): RequestOptions {
    RequestOptions(
      ReferralUrl(site, instanceId, timestamp, params),
      OrText(cookie, ""),
      UserAgents[UaIndex(name)],
      OrText(referer, site.defaultReferer))
  }

  datatype ReferralReply = ReferralReply(result: Result<ReferralData>, account: Option<string>)

  class ReferralScraper {
    const site: Site
    const retry: RetryPolicy
    var currentCookie: Option<string>
    var currentAccountName: Option<string>
    var currentReferer: Option<string>
    var currentParams: Option<string>
    var instanceId: string
    var requestTimestamp: int
    var currentUserAgent: string
    var options: RequestOptions

    /** The options always reflect the current account fields. */
    predicate Valid()
      reads this
    {
      options == OptionsFor(site, instanceId, requestTimestamp, currentAccountName,
                            currentCookie, currentReferer, currentParams)
    }

    /** A scraper for the default session: the cookie from the site headers,
        no account, the first user agent. */
    constructor(site: Site, retry: RetryPolicy, instanceId: string, now: int)
      ensures this.site == site && this.retry == retry
      ensures currentCookie == site.sessionCookie
      ensures currentAccountName == None && currentReferer == None && currentParams == None
      ensures this.instanceId == instanceId && requestTimestamp == now
      ensures currentUserAgent == UserAgents[0]
      ensures Valid()
    {
      this.site := site;
      this.retry := retry;
      currentCookie := site.sessionCookie;
      currentAccountName := None;
      currentReferer := None;
      currentParams := None;
      this.instanceId := instanceId;
      requestTimestamp := now;
      currentUserAgent := UserAgents[0];
      new;
      UpdateOptions();
    }

    /** `setAccountData`: every account field and both cache busters are
        replaced, then the options are rebuilt. */
    method SetAccountData(account: Account, name: string, newInstanceId: string, now: int)
      modifies this
      ensures currentCookie == Some(account.cookie)
      ensures currentAccountName == Some(name)
      ensures currentReferer == Some(account.referer)
      ensures currentParams == Some(account.params)
      ensures instanceId == newInstanceId && requestTimestamp == now
      ensures currentUserAgent == old(currentUserAgent)
      ensures Valid()
    {
      currentCookie := Some(account.cookie);
      currentAccountName := Some(name);
      currentReferer := Some(account.referer);
      currentParams := Some(account.params);
      instanceId := newInstanceId;
      requestTimestamp := now;
      UpdateOptions();
    }

    /** `updateOptions`: rebuild the URL, user agent and headers; nothing
        else changes. */
    method UpdateOptions()
      modifies this
      ensures Valid()
      ensures currentCookie == old(currentCookie) && currentAccountName == old(currentAccountName)
      ensures currentReferer == old(currentReferer) && currentParams == old(currentParams)
      ensures instanceId == old(instanceId) && requestTimestamp == old(requestTimestamp)
      ensures currentUserAgent == old(currentUserAgent)
    {
      var baseUrl := site.baseUrl + site.referralPath;
      var queryParams: Params := [];
      queryParams := Append(queryParams, "act", "referral");
      queryParams := Append(queryParams, "_v", instanceId);
      queryParams := Append(queryParams, "_t", IntToString(requestTimestamp));
      assert queryParams == BaseQuery("referral", instanceId, requestTimestamp);
      if NonEmpty(currentParams) {
        var extra := ParseQuery(currentParams.value);
        queryParams := ApplySet(queryParams, extra);
      }
      var url := PrefixBefore(baseUrl, '?') + "?" + Serialize(queryParams);
      var index := UserAgentIndex(currentAccountName);
      options := RequestOptions(url, OrText(currentCookie, ""), UserAgents[index], OrText(currentReferer, site.defaultReferer));
    }

    /** The query of `fetchDownlineData`, built afresh on every attempt. */
    method DownlineRequestUrl() returns (url: string)
      ensures url == DownlineUrl(site.baseUrl, instanceId, requestTimestamp, currentParams)
    {
      var queryParams: Params := [];
      queryParams := Append(queryParams, "act", "refDownlinePanel");
      queryParams := Append(queryParams, "_v", instanceId);
      queryParams := Append(queryParams, "_t", IntToString(requestTimestamp));
      assert queryParams == BaseQuery("refDownlinePanel", instanceId, requestTimestamp);
      if NonEmpty(currentParams) {
        var extra := ParseQuery(currentParams.value);
        queryParams := ApplyAppend(queryParams, extra);
      } else {
        assert queryParams + [] == queryParams;
      }
      url := site.baseUrl + "/auth/x_ajaxer-v2.php" + "?" + Serialize(queryParams);
    }

    /** `fetchWithRetry(retryCount)`. */
    method FetchWithRetry(responses: nat -> Response<Page>, retryCount: nat)
      returns (r: Result<ReferralData>, attempts: nat, delays: seq<int>)
      ensures Run(r, attempts, delays) ==
        RetryFrom(retry, ReferralAttempts(responses, site.baseUrl, currentAccountName, currentParams), retryCount)
      decreases if retry.maxRetries > retryCount then retry.maxRetries - retryCount else 0
    {
      var outcome: Result<ReferralData>;
      match responses(retryCount) {
        case TransportError(m) =>
          outcome := Err(m);
        case Received(body, page) =>
          if body == "" {
            outcome := Err("Empty response from server");
          } else {
            outcome := ParseHTML(page, body, site.baseUrl, currentAccountName, currentParams);
          }
      }
      ghost var tries := ReferralAttempts(responses, site.baseUrl, currentAccountName, currentParams);
      assert outcome == tries(retryCount);
      RetryStep(retry, tries, retryCount);
      if outcome.Ok? {
        return outcome, retryCount + 1, [];
      }
      if retryCount < retry.maxRetries - 1 {
        var delay := Min(retry.initialDelay * Pow2(retryCount), retry.maxDelay);
        var rest, n, later := FetchWithRetry(responses, retryCount + 1);
        return rest, n, [delay] + later;
      }
      return Err("Failed after " + IntToString(retry.maxRetries) + " attempts: " + outcome.error), retryCount + 1, [];
    }

    /** What a fetch of the referral page ends with, for this account. */
    function ReferralResult(responses: nat -> Response<Page>): Result<ReferralData>
      reads this
    {
      RetryFrom(retry, ReferralAttempts(responses, site.baseUrl, currentAccountName, currentParams), 0).result
    }

    /** `getReferralData`: the fetch's value or error, tagged with the account. */
    method GetReferralData(responses: nat -> Response<Page>) returns (reply: ReferralReply)
      ensures reply.account == currentAccountName
      ensures reply.result == ReferralResult(responses)
    {
      var r, attempts, delays := FetchWithRetry(responses, 0);
      reply := ReferralReply(r, currentAccountName);
    }

    /** `fetchDownlineData(retryCount)`. */
    method FetchDownlineData(responses: nat -> Response<seq<seq<string>>>, retryCount: nat)
      returns (r: Result<DownlineData>, attempts: nat, delays: seq<int>)
      ensures Run(r, attempts, delays) == RetryFrom(retry, DownlineAttempts(responses), retryCount)
      decreases if retry.maxRetries > retryCount then retry.maxRetries - retryCount else 0
    {
      var outcome: Result<DownlineData>;
      match responses(retryCount) {
        case TransportError(m) =>
          outcome := Err(m);
        case Received(body, rows) =>
          if body == "" {
            outcome := Err("Empty response from server");
          } else {
            var d := ParseDownlineHTML(rows);
            outcome := Ok(d);
          }
      }
      if outcome.Ok? {
        return outcome, retryCount + 1, [];
      }
      if retryCount < retry.maxRetries - 1 {
        var delay := Min(retry.initialDelay * Pow2(retryCount), retry.maxDelay);
        var rest, n, later := FetchDownlineData(responses, retryCount + 1);
        return rest, n, [delay] + later;
      }
      return Err("Failed after " + IntToString(retry.maxRetries) + " attempts: " + outcome.error), retryCount + 1, [];
    }

    /** `getDownlineData`. */
    method GetDownlineData(responses: nat -> Response<seq<seq<string>>>) returns (r: Result<DownlineData>)
      ensures r == RetryFrom(retry, DownlineAttempts(responses), 0).result
    {
      var attempts, delays;
      r, attempts, delays := FetchDownlineData(responses, 0);
    }
  }
}
