/** The session rules of the Telegram bot: the account keyboard and its
    callback strings, the per-user lock around an account switch, and the
    check-all-links scan (fetch the referral page up to ten times, keep the
    distinct links, then check them all).

    Telegram is not modelled beyond what changes the bot's own state: which
    Telegram call throws is an input, and so is a concurrent toggle that
    clears the running flag. */
module Bot {
  import opened Wrappers
  import opened JsText
  import Config
  import LinkChecker
  import Extract
  import Scraper

  // ---------------------------------------------------------------------
  // The account keyboard

  /** An inline button: its caption and its callback data. */
  datatype Button = Button(caption: string, data: string)

  const CallbackPrefix := "select_account:"

  /** The callback data of an account button. */
  function Encode(action: string, name: string): string {
    CallbackPrefix + action + ":" + name
  }

  /** The rows, read one after the other. */
  function Flatten<T>(rows: seq<seq<T>>): seq<T> {
    if rows == [] then [] else Flatten(rows[..|rows| - 1]) + rows[|rows| - 1]
  }

  lemma FlattenPush<T>(rows: seq<seq<T>>, row: seq<T>)
    ensures (rows + [row])[..|rows|] == rows
    ensures Flatten(rows + [row]) == Flatten(rows) + row
  {
    assert (rows + [row])[..|rows|] == rows;
  }

  /** `xs.slice(i, j)`: clamped to the end of `xs`. */
  function Slice<T>(xs: seq<T>, i: nat, j: nat): seq<T>
    requires i <= j
  {
    if i >= |xs| then [] else xs[i..Min(j, |xs|)]
  }

  function Min(a: int, b: int): int {
    if a <= b then a else b
  }

  /** The `i += 2` loop of `showAccountSelection`: the buttons in rows of
      two, the last row holding one when the count is odd. */
  method ChunkRows<T>(buttons: seq<T>) returns (rows: seq<seq<T>>)
    ensures Flatten(rows) == buttons
    ensures |rows| == (|buttons| + 1) / 2
    ensures forall r :: 0 <= r < |rows| ==> 1 <= |rows[r]| <= 2
    ensures forall r :: 0 <= r < |rows| - 1 ==> |rows[r]| == 2
  {
    rows := [];
    var i := 0;
    while i < |buttons|
      invariant i == 2 * |rows| && i <= |buttons| + 1
      invariant Flatten(rows) == buttons[..Min(i, |buttons|)]
      invariant forall r :: 0 <= r < |rows| ==> 1 <= |rows[r]| <= 2
      invariant forall r :: 0 <= r < |rows| - 1 ==> |rows[r]| == 2
      invariant i <= |buttons| ==> forall r :: 0 <= r < |rows| ==> |rows[r]| == 2
    {
      var row := Slice(buttons, i, i + 2);
      assert buttons[..Min(i + 2, |buttons|)] == buttons[..i] + row;
      FlattenPush(rows, row);
      rows := rows + [row];
      i := i + 2;
    }
    assert buttons[..Min(i, |buttons|)] == buttons;
  }

  /** One button per account, captioned with its name, in the given order. */
  function ButtonsFor(names: seq<string>, action: string): (r: seq<Button>)
    ensures |r| == |names|
    ensures forall i :: 0 <= i < |names| ==> r[i] == Button(names[i], Encode(action, names[i]))
  {
    if names == [] then []
    else [Button(names[0], Encode(action, names[0]))] + ButtonsFor(names[1..], action)
  }

  /** `showAccountSelection`: the account names (in the order the
      configuration lists them) as a keyboard of rows of two. */
  method AccountKeyboard(names: seq<string>, action: string) returns (rows: seq<seq<Button>>)
    ensures Flatten(rows) == ButtonsFor(names, action)
    ensures |rows| == (|names| + 1) / 2
    ensures forall r :: 0 <= r < |rows| - 1 ==> |rows[r]| == 2
  {
    rows := ChunkRows(ButtonsFor(names, action));
  }

  // ---------------------------------------------------------------------
  // The callback pattern /select_account:(.+):(.+)/

  /** The characters `.` does not match without the `s` flag. */
  predicate LineTerminator(c: char) {
    c == '\n' || c == '\r' || c == '\U{2028}' || c == '\U{2029}'
  }

  predicate OnOneLine(s: string) {
    forall i :: 0 <= i < |s| ==> !LineTerminator(s[i])
  }

  /** The longest prefix of `s` that `.+` can cover. */
  function UntilBreak(s: string): (r: string)
    ensures |r| <= |s| && r == s[..|r|]
    ensures OnOneLine(r)
    ensures |r| < |s| ==> LineTerminator(s[|r|])
  {
    if s == [] || LineTerminator(s[0]) then []
    else
      var rest := UntilBreak(s[1..]);
      assert ([s[0]] + rest)[1..] == rest;
      [s[0]] + rest
  }

  /** The largest `j` in [1, hi) with `line[j] == ':'`. */
  function LastColonBelow(line: string, hi: nat): (r: Option<nat>)
    requires hi <= |line|
    ensures r.Some? ==> 1 <= r.value < hi && line[r.value] == ':'
    ensures r.Some? ==> forall k :: r.value < k < hi ==> line[k] != ':'
    ensures r.None? ==> forall k :: 1 <= k < hi ==> line[k] != ':'
  {
    if hi <= 1 then None
    else if line[hi - 1] == ':' then Some(hi - 1)
    else LastColonBelow(line, hi - 1)
  }

  /** Where `(.+):(.+)` splits a line: the first group is greedy, so it is
      the last `:` with at least one character on each side. */
  function Separator(line: string): Option<nat> {
    if |line| < 3 then None else LastColonBelow(line, |line| - 1)
  }

  /** The match, if any, that starts at index `p`. */
  function MatchAt(s: string, p: nat): Option<(string, string)> {
    if OccursAt(s, CallbackPrefix, p) then
      var line := UntilBreak(s[p + |CallbackPrefix|..]);
      match Separator(line)
      case None => None
      case Some(j) => Some((line[..j], line[j + 1..]))
    else None
  }

  function DecodeFrom(s: string, p: nat): Option<(string, string)>
    decreases |s| - p
  {
    if p > |s| then None
    else if MatchAt(s, p).Some? then MatchAt(s, p)
    else DecodeFrom(s, p + 1)
  }

  /** `ctx.match[1]` and `ctx.match[2]`: the leftmost match decides. */
  function DecodeCallback(s: string): Option<(string, string)> {
    DecodeFrom(s, 0)
  }

  /** Two pieces that stand side by side at `p` make their concatenation. */
  lemma OccursJoined(s: string, u: string, v: string, p: nat)
    requires OccursAt(s, u, p) && OccursAt(s, v, p + |u|)
    ensures OccursAt(s, u + v, p)
  {
    assert s[p..p + |u + v|] == s[p..p + |u|] + s[p + |u|..p + |u| + |v|];
  }

  /** A prefix of the suffix from `p` stands in `s` at `p`. */
  lemma OccursPrefixOfSuffix(s: string, p: nat, t: string)
    requires p <= |s| && |t| <= |s| - p && t == s[p..][..|t|]
    ensures OccursAt(s, t, p)
  {
    assert s[p..p + |t|] == s[p..][..|t|];
  }

  /** A line split at `j` is its two parts around the `:`. */
  lemma SplitAround(line: string, j: nat)
    requires j < |line| && line[j] == ':' && OnOneLine(line)
    ensures line == line[..j] + ":" + line[j + 1..]
    ensures OnOneLine(line[..j]) && OnOneLine(line[j + 1..])
  {
    var b := line[j + 1..];
    assert forall i :: 0 <= i < j ==> line[..j][i] == line[i];
    assert forall i :: 0 <= i < |b| ==> b[i] == line[j + 1 + i];
  }

  /** A match at `p` is the prefix, a non-empty action, `:` and a non-empty
      name, all on one line, standing in `s` at `p`. */
  lemma MatchAtOccurs(s: string, p: nat)
    requires MatchAt(s, p).Some?
    ensures var (a, b) := MatchAt(s, p).value;
      a != "" && b != "" && OnOneLine(a) && OnOneLine(b) &&
      OccursAt(s, CallbackPrefix + a + ":" + b, p)
  {
    var q := p + |CallbackPrefix|;
    var line := UntilBreak(s[q..]);
    var j := Separator(line).value;
    SplitAround(line, j);
    OccursPrefixOfSuffix(s, q, line);
    OccursJoined(s, CallbackPrefix, line, p);
    assert CallbackPrefix + line == CallbackPrefix + line[..j] + ":" + line[j + 1..];
  }

  /** The search from `p` returns the match at the least index from `p` on
      that has one. */
  lemma {:induction false} DecodeFromLeftmost(s: string, p: nat)
    requires DecodeFrom(s, p).Some?
    ensures exists q :: p <= q <= |s| && DecodeFrom(s, p) == MatchAt(s, q) &&
                        forall k :: p <= k < q ==> MatchAt(s, k).None?
    decreases |s| - p
  {
    if MatchAt(s, p).None? {
      DecodeFromLeftmost(s, p + 1);
      var q :| p + 1 <= q <= |s| && DecodeFrom(s, p + 1) == MatchAt(s, q) &&
        forall k :: p + 1 <= k < q ==> MatchAt(s, k).None?;
      assert forall k :: p <= k < q ==> MatchAt(s, k).None?;
    }
  }

  /** What the callback decodes stands in its data: the leftmost
      `select_account:<action>:<name>` on one line, both parts non-empty. */
  lemma DecodedPairOccurs(s: string)
    requires DecodeCallback(s).Some?
    ensures var (a, b) := DecodeCallback(s).value;
      a != "" && b != "" && OnOneLine(a) && OnOneLine(b) &&
      exists q :: OccursAt(s, CallbackPrefix + a + ":" + b, q) &&
                  forall k :: 0 <= k < q ==> MatchAt(s, k).None?
  {
    DecodeFromLeftmost(s, 0);
    var q :| 0 <= q <= |s| && DecodeFrom(s, 0) == MatchAt(s, q) &&
      forall k :: 0 <= k < q ==> MatchAt(s, k).None?;
    MatchAtOccurs(s, q);
  }

  lemma {:induction false} UntilBreakWhole(s: string)
    requires OnOneLine(s)
    ensures UntilBreak(s) == s
  {
    if s != [] {
      assert OnOneLine(s[1..]) by {
        forall i | 0 <= i < |s| - 1 ensures !LineTerminator(s[1..][i]) {
          assert s[1..][i] == s[i + 1];
        }
      }
      UntilBreakWhole(s[1..]);
    }
  }

  lemma OnOneLineJoin(a: string, b: string)
    requires OnOneLine(a) && OnOneLine(b)
    ensures OnOneLine(a + ":" + b)
  {
    var line := a + ":" + b;
    forall i | 0 <= i < |line| ensures !LineTerminator(line[i]) {
      if i < |a| {
        assert line[i] == a[i];
      } else if i > |a| {
        assert line[i] == b[i - |a| - 1];
      }
    }
  }

  /** The separator of `action:name` is the `:` after the action. */
  lemma SeparatorAfterAction(action: string, name: string)
    requires action != "" && name != "" && ':' !in name
    ensures Separator(action + ":" + name) == Some(|action|)
  {
    var line := action + ":" + name;
    var a := |action|;
    assert line[a] == ':';
    forall k | a < k < |line| ensures line[k] != ':' {
      assert line[k] == name[k - a - 1];
    }
  }

  /** A callback string that starts with the prefix is matched at index 0. */
  lemma MatchAtStart(line: string, j: nat)
    requires OnOneLine(line) && Separator(line) == Some(j)
    ensures DecodeCallback(CallbackPrefix + line) == Some((line[..j], line[j + 1..]))
  {
    var s := CallbackPrefix + line;
    assert OccursAt(s, CallbackPrefix, 0);
    assert s[|CallbackPrefix|..] == line;
    UntilBreakWhole(line);
    assert MatchAt(s, 0) == Some((line[..j], line[j + 1..]));
  }

  /** The callback data of a button decodes to its action and account name,
      whatever `:` the action holds, when the name holds none and neither
      breaks the line. */
  lemma DecodeEncode(action: string, name: string)
    requires action != "" && name != ""
    requires ':' !in name
    requires OnOneLine(action) && OnOneLine(name)
    ensures DecodeCallback(Encode(action, name)) == Some((action, name))
  {
    var line := action + ":" + name;
    assert Encode(action, name) == CallbackPrefix + line;
    OnOneLineJoin(action, name);
    SeparatorAfterAction(action, name);
    MatchAtStart(line, |action|);
    assert line[..|action|] == action && line[|action| + 1..] == name;
  }

  /** A name holding `:` is split at its last `:`, the head going to the
      action. */
  lemma ColonInNameShiftsSplit(action: string, head: string, tail: string)
    requires action != "" && tail != ""
    requires ':' !in tail
    requires OnOneLine(action) && OnOneLine(head) && OnOneLine(tail)
    ensures DecodeCallback(Encode(action, head + ":" + tail)) == Some((action + ":" + head, tail))
  {
    assert Encode(action, head + ":" + tail) == Encode(action + ":" + head, tail);
    OnOneLineJoin(action, head);
    DecodeEncode(action + ":" + head, tail);
  }

  // ---------------------------------------------------------------------
  // The fishing loop

  const MaxRefreshes: nat := 10

  /** The part of a user's state the scan keeps: the running flag and the
      distinct links found so far, in the order they were first seen. */
  datatype UserState = UserState(isChecking: bool, sessionLinks: seq<string>)

  /** `this.userStates.get(userId) || {}`, with the empty set filled in. */
  function StateOf(states: map<int, UserState>, userId: int): UserState {
    if userId in states then states[userId] else UserState(false, [])
  }

  /** The reply offers link `x`. */
  predicate Offers(r: Result<Extract.ReferralData>, x: string) {
    r.Ok? && r.value.referralLink == x && x != ""
  }

  /** The set after the replies: each offered link that is not there yet is
      added at the end. */
  function Fish(links: seq<string>, replies: seq<Result<Extract.ReferralData>>): (r: seq<string>)
    ensures |links| <= |r| <= |links| + |replies|
  {
    if replies == [] then links
    else
      var prev := Fish(links, replies[..|replies| - 1]);
      var r := replies[|replies| - 1];
      if r.Ok? && r.value.referralLink != "" && r.value.referralLink !in prev
      then prev + [r.value.referralLink]
      else prev
  }

  predicate NoDuplicates(s: seq<string>) {
    forall i, j :: 0 <= i < j < |s| ==> s[i] != s[j]
  }

  /** The set only grows, never by a link it had, by at most one link a
      reply, and never gains a duplicate. */
  lemma {:induction false} FishGrows(links: seq<string>, replies: seq<Result<Extract.ReferralData>>)
    ensures var f := Fish(links, replies);
      && f[..|links|] == links
      && (forall k :: |links| <= k < |f| ==> f[k] !in links)
      && (NoDuplicates(links) ==> NoDuplicates(f))
  {
    if replies != [] {
      var init := replies[..|replies| - 1];
      FishGrows(links, init);
      var prev := Fish(links, init);
      var f := Fish(links, replies);
      if f != prev {
        assert f == prev + [f[|f| - 1]];
        assert f[..|prev|] == prev;
        assert f[..|links|] == prev[..|links|];
        forall k | |links| <= k < |f| ensures f[k] !in links {
          if k < |prev| {
            assert f[k] == prev[k];
          } else {
            assert f[k] !in prev;
            assert links == prev[..|links|];
          }
        }
      }
    }
  }

  /** A link is in the set afterwards exactly when it was before or some
      reply offered it. */
  lemma {:induction false} FishContents(links: seq<string>, replies: seq<Result<Extract.ReferralData>>, x: string)
    ensures x in Fish(links, replies) <==>
      x in links || exists i :: 0 <= i < |replies| && Offers(replies[i], x)
  {
    if replies != [] {
      var n := |replies| - 1;
      var init := replies[..n];
      FishContents(links, init, x);
      if exists i :: 0 <= i < |replies| && Offers(replies[i], x) {
        var i :| 0 <= i < |replies| && Offers(replies[i], x);
        if i < n {
          assert Offers(init[i], x);
        }
      }
      if exists i :: 0 <= i < |init| && Offers(init[i], x) {
        var i :| 0 <= i < |init| && Offers(init[i], x);
        assert Offers(replies[i], x);
      }
    }
  }

  /** The replies of the first `n` fetches of the loop; fetch `i` sees the
      responses `responses(i)`. */
  function Replies(s: Scraper.ReferralScraper, responses: nat -> nat -> Scraper.Response<Extract.Page>, n: nat): (r: seq<Result<Extract.ReferralData>>)
    reads s
    ensures |r| == n
  {
    if n == 0 then [] else Replies(s, responses, n - 1) + [s.ReferralResult(responses(n - 1))]
  }

  /** How many fetches the loop makes: it stops before fetch `i` when the
      flag was cleared or the progress edit throws, and after ten. */
  function StopAt(cancelled: nat -> bool, failsAt: Option<nat>): (n: nat)
    ensures n <= MaxRefreshes
    ensures forall i :: 0 <= i < n ==> !cancelled(i) && failsAt != Some(i)
    ensures n < MaxRefreshes ==> cancelled(n) || failsAt == Some(n)
  {
    var p := (i: nat) => cancelled(i) || failsAt == Some(i);
    match Extract.FirstIndex(p, 0, MaxRefreshes)
    case Some(i) => i
    case None =>
      forall i | 0 <= i < MaxRefreshes ensures !cancelled(i) && failsAt != Some(i) {
        assert !p(i);
      }
      MaxRefreshes
  }

  /** The loop ends by a throw of the progress edit. */
  predicate FailsWhileFishing(cancelled: nat -> bool, failsAt: Option<nat>) {
    var n := StopAt(cancelled, failsAt);
    n < MaxRefreshes && !cancelled(n) && failsAt == Some(n)
  }

  lemma RepliesStep(s: Scraper.ReferralScraper, responses: nat -> nat -> Scraper.Response<Extract.Page>, links: seq<string>, i: nat, r: Result<Extract.ReferralData>)
    requires r == s.ReferralResult(responses(i))
    ensures Fish(links, Replies(s, responses, i + 1)) ==
      var prev := Fish(links, Replies(s, responses, i));
      if r.Ok? && r.value.referralLink != "" && r.value.referralLink !in prev
      then prev + [r.value.referralLink]
      else prev
  {
    var rs := Replies(s, responses, i + 1);
    assert rs[..|rs| - 1] == Replies(s, responses, i);
  }

  /** One pass of the loop body: fetch, and add the link if it is new. */
  method FetchOne(scraper: Scraper.ReferralScraper, responses: nat -> nat -> Scraper.Response<Extract.Page>,
                  links: seq<string>, found: seq<string>, i: nat)
    returns (found': seq<string>)
    requires found == Fish(links, Replies(scraper, responses, i))
    ensures found' == Fish(links, Replies(scraper, responses, i + 1))
    ensures |found| <= |found'|
  {
    var reply := scraper.GetReferralData(responses(i));
    RepliesStep(scraper, responses, links, i, reply.result);
    found' := found;
    if reply.result.Ok? && reply.result.value.referralLink != "" {
      if reply.result.value.referralLink !in found {
        found' := found + [reply.result.value.referralLink];
      }
    }
  }

  /** The loop goes on past fetch `i` when neither stop happens there. */
  lemma StopLater(cancelled: nat -> bool, failsAt: Option<nat>, i: nat)
    requires i < MaxRefreshes && i <= StopAt(cancelled, failsAt)
    requires !cancelled(i) && failsAt != Some(i)
    ensures i + 1 <= StopAt(cancelled, failsAt)
  {
  }

  /** The loop stops at the first fetch where a stop happens, or after ten. */
  lemma StopHere(cancelled: nat -> bool, failsAt: Option<nat>, i: nat)
    requires i <= StopAt(cancelled, failsAt)
    requires i == MaxRefreshes || cancelled(i) || failsAt == Some(i)
    ensures i == StopAt(cancelled, failsAt)
    ensures FailsWhileFishing(cancelled, failsAt) == (i < MaxRefreshes && !cancelled(i) && failsAt == Some(i))
  {
  }

  /** The `for` loop of `handleCheckAllLinks`, on the session's links: it
      stops when the flag was cleared or the progress edit throws. */
  method FishLinks(scraper: Scraper.ReferralScraper, responses: nat -> nat -> Scraper.Response<Extract.Page>,
                   cancelled: nat -> bool, failsAt: Option<nat>, links: seq<string>)
    returns (found: seq<string>, foundNew: nat, fetched: nat, failed: bool)
    ensures fetched == StopAt(cancelled, failsAt)
    ensures failed == FailsWhileFishing(cancelled, failsAt)
    ensures found == Fish(links, Replies(scraper, responses, fetched))
    ensures foundNew == |found| - |links|
  {
    found := links;
    foundNew := 0;
    var i := 0;
    while i < MaxRefreshes && !cancelled(i) && failsAt != Some(i)
      invariant i <= StopAt(cancelled, failsAt)
      invariant found == Fish(links, Replies(scraper, responses, i))
      invariant foundNew == |found| - |links|
      decreases MaxRefreshes - i
    {
      StopLater(cancelled, failsAt, i);
      var before := found;
      found := FetchOne(scraper, responses, links, found, i);
      foundNew := foundNew + (|found| - |before|);
      i := i + 1;
    }
    StopHere(cancelled, failsAt, i);
    failed := i < MaxRefreshes && !cancelled(i);
    fetched := i;
  }

  // ---------------------------------------------------------------------
  // The bot

  /** What one scan ended with. */
  datatype ScanOutcome =
    | Stopped
    | NoLinks
    | Reported(foundNew: nat, total: nat)
    | Failed

  /** The outside world during a scan: the responses of each fetch, a
      concurrent toggle seen before fetch `i`, the Telegram call that throws
      (the progress edit before fetch `i`, or any later one for `i >= 10`),
      and the network probes of the link checks. */
  datatype ScanInputs = ScanInputs(
    responses: nat -> nat -> Scraper.Response<Extract.Page>,
    cancelled: nat -> bool,
    failsAt: Option<nat>,
    probes: nat -> LinkChecker.Probe)

  /** What the scan reports once the loop is over. */
  function Finish(found: seq<string>, foundNew: nat, failed: bool, scan: ScanInputs): ScanOutcome {
    if failed || (scan.failsAt.Some? && scan.failsAt.value >= MaxRefreshes) then Failed
    else if found == [] then NoLinks
    else Reported(foundNew, |found|)
  }

  /** The bulk result `checkMultipleLinks` gives for the session's links. */
  function BulkFor(links: seq<string>, scan: ScanInputs): LinkChecker.BulkResults {
    LinkChecker.BulkOf(links, LinkChecker.Reports(links, scan.probes, LinkChecker.DnsServers))
  }

  /** The replies of the fetches the loop makes before it stops. */
  function FetchedReplies(s: Scraper.ReferralScraper, scan: ScanInputs): (r: seq<Result<Extract.ReferralData>>)
    reads s
    ensures |r| == StopAt(scan.cancelled, scan.failsAt) <= MaxRefreshes
  {
    Replies(s, scan.responses, StopAt(scan.cancelled, scan.failsAt))
  }

  /** The user's state and the outcome after one `handleCheckAllLinks` whose
      fetches got `replies`: a scan already running is only stopped, and the
      flag is off when it returns, whichever way it returns. */
  function ScanOf(before: UserState, replies: seq<Result<Extract.ReferralData>>, scan: ScanInputs): (r: (UserState, ScanOutcome))
    ensures !r.0.isChecking
    ensures r.1 == Stopped <==> before.isChecking
    ensures before.isChecking ==> r.0.sessionLinks == before.sessionLinks
  {
    if before.isChecking then (before.(isChecking := false), Stopped)
    else
      var found := Fish(before.sessionLinks, replies);
      (UserState(false, found), Finish(found, |found| - |before.sessionLinks|, FailsWhileFishing(scan.cancelled, scan.failsAt), scan))
  }

  /** A scan that runs keeps the session's links and adds, after them, the
      distinct links the replies offer that were not there yet; a link is in
      the set afterwards exactly when it was before or a reply offered it. */
  lemma ScanLinks(before: UserState, replies: seq<Result<Extract.ReferralData>>, scan: ScanInputs)
    requires !before.isChecking
    ensures var after := ScanOf(before, replies, scan).0;
      && after.sessionLinks[..|before.sessionLinks|] == before.sessionLinks
      && |after.sessionLinks| <= |before.sessionLinks| + |replies|
      && (forall k :: |before.sessionLinks| <= k < |after.sessionLinks| ==>
            after.sessionLinks[k] !in before.sessionLinks)
      && (NoDuplicates(before.sessionLinks) ==> NoDuplicates(after.sessionLinks))
    ensures var after := ScanOf(before, replies, scan).0;
      forall x :: x in after.sessionLinks <==>
        x in before.sessionLinks || exists i :: 0 <= i < |replies| && Offers(replies[i], x)
  {
    FishGrows(before.sessionLinks, replies);
    forall x ensures x in Fish(before.sessionLinks, replies) <==>
      x in before.sessionLinks || exists i :: 0 <= i < |replies| && Offers(replies[i], x)
    {
      FishContents(before.sessionLinks, replies, x);
    }
  }

  /** A report counts the links that were new and the whole set, and the
      bulk check of the set covers every link of it once. */
  lemma ScanReport(before: UserState, replies: seq<Result<Extract.ReferralData>>, scan: ScanInputs)
    ensures var (after, outcome) := ScanOf(before, replies, scan);
      outcome.Reported? ==>
        && outcome.total == |after.sessionLinks| > 0
        && outcome.foundNew == |after.sessionLinks| - |before.sessionLinks|
        && LinkChecker.TotalChecked(BulkFor(after.sessionLinks, scan)) == outcome.total
  {
    var after := ScanOf(before, replies, scan).0;
    LinkChecker.BulkTotal(after.sessionLinks, scan.probes, LinkChecker.DnsServers);
  }

  /** An account the callback may switch to: known, with a cookie. */
  predicate Usable(accounts: map<string, Config.Account>, name: string) {
    name in accounts && accounts[name].cookie != ""
  }

  /** After the loop: report a throw, or the empty set, or check every
      link of the set (with no progress callback). */
  method FinishScan(found: seq<string>, foundNew: nat, failed: bool, scan: ScanInputs)
    returns (outcome: ScanOutcome, bulk: LinkChecker.BulkResults)
    ensures outcome == Finish(found, foundNew, failed, scan)
    ensures outcome.Reported? ==> bulk == BulkFor(found, scan)
  {
    bulk := LinkChecker.BulkResults([], [], [], [], []);
    if failed {
      return Failed, bulk;
    }
    if found == [] {
      if scan.failsAt.Some? && scan.failsAt.value >= MaxRefreshes {
        return Failed, bulk;
      }
      return NoLinks, bulk;
    }
    if scan.failsAt.Some? && scan.failsAt.value >= MaxRefreshes {
      return Failed, bulk;
    }
    var progress;
    bulk, progress := LinkChecker.CheckMultipleLinks(found, scan.probes, LinkChecker.DnsServers, false);
    outcome := Reported(foundNew, |found|);
  }

  /** The scan proper, once the flag is set: fish, then finish; the flag
      is cleared on the way out. */
  method RunScan(before: UserState, scraper: Scraper.ReferralScraper, scan: ScanInputs)
    returns (after: UserState, outcome: ScanOutcome, bulk: LinkChecker.BulkResults)
    requires !before.isChecking
    ensures (after, outcome) == ScanOf(before, FetchedReplies(scraper, scan), scan)
    ensures outcome.Reported? ==> bulk == BulkFor(after.sessionLinks, scan)
  {
    var found, foundNew, fetched, failed := FishLinks(scraper, scan.responses, scan.cancelled, scan.failsAt, before.sessionLinks);
    ScanRuns(before, FetchedReplies(scraper, scan), scan, found, foundNew, failed);
    after := UserState(false, found);
    outcome, bulk := FinishScan(found, foundNew, failed, scan);
  }

  lemma ScanRuns(before: UserState, replies: seq<Result<Extract.ReferralData>>, scan: ScanInputs,
                 found: seq<string>, foundNew: nat, failed: bool)
    requires !before.isChecking
    requires found == Fish(before.sessionLinks, replies)
    requires foundNew == |found| - |before.sessionLinks|
    requires failed == FailsWhileFishing(scan.cancelled, scan.failsAt)
    ensures ScanOf(before, replies, scan) == (UserState(false, found), Finish(found, foundNew, failed, scan))
  {
  }

  datatype SelectOutcome = NoMatch | Rejected | Ran(action: string, accountName: string)

  /** The scraper is set up for the account, as `setAccountData` leaves it. */
  predicate SetUpFor(s: Scraper.ReferralScraper, account: Config.Account, name: string, id: string, now: int)
    reads s
  {
    && s.currentAccountName == Some(name)
    && s.currentCookie == Some(account.cookie)
    && s.currentReferer == Some(account.referer)
    && s.currentParams == Some(account.params)
    && s.instanceId == id && s.requestTimestamp == now
    && s.Valid()
  }

  /** `new ReferralScraper()` followed by `setAccountData` for the account. */
  method ScraperFor(site: Config.Site, retry: Config.RetryPolicy, account: Config.Account, name: string,
                    freshId: string, freshNow: int, accountId: string, accountNow: int)
    returns (s: Scraper.ReferralScraper)
    ensures fresh(s)
    ensures s.site == site && s.retry == retry
    ensures SetUpFor(s, account, name, accountId, accountNow)
  {
    s := new Scraper.ReferralScraper(site, retry, freshId, freshNow);
    s.SetAccountData(account, name, accountId, accountNow);
  }

  /** How an action leaves the locks and the states: the user's lock is
      released, and only a scan whose callback answer went through changes
      the user's state, to what `ScanOf` says. */
  predicate Acted(locks: map<int, bool>, states: map<int, UserState>, locks': map<int, bool>, states': map<int, UserState>,
                  userId: int, action: string, answerFails: bool, s: Scraper.ReferralScraper, scan: ScanInputs)
    reads s
  {
    && locks' == locks[userId := false]
    && (answerFails || action != "checkalllinks" ==> states' == states)
    && (!answerFails && action == "checkalllinks" ==>
          states' == states[userId := ScanOf(StateOf(states, userId), FetchedReplies(s, scan), scan).0])
  }

  class ReferralBot {
    const accounts: map<string, Config.Account>
    const site: Config.Site
    const retry: Config.RetryPolicy
    var userLocks: map<int, bool>
    var userStates: map<int, UserState>

    constructor(accounts: map<string, Config.Account>, site: Config.Site, retry: Config.RetryPolicy)
      ensures this.accounts == accounts && this.site == site && this.retry == retry
      ensures userLocks == map[] && userStates == map[]
    {
      this.accounts := accounts;
      this.site := site;
      this.retry := retry;
      userLocks := map[];
      userStates := map[];
    }

    /** `handleCheckAllLinks`: the user's state becomes what `ScanOf`
        says, and no other user's state or any lock changes. */
    method HandleCheckAllLinks(userId: int, scraper: Scraper.ReferralScraper, scan: ScanInputs)
      returns (outcome: ScanOutcome, bulk: LinkChecker.BulkResults)
      modifies this
      ensures userLocks == old(userLocks)
      ensures userId in userStates
      ensures userStates == old(userStates)[userId := userStates[userId]]
      ensures (userStates[userId], outcome) == ScanOf(StateOf(old(userStates), userId), FetchedReplies(scraper, scan), scan)
      ensures outcome.Reported? ==> bulk == BulkFor(userStates[userId].sessionLinks, scan)
    {
      var state := StateOf(userStates, userId);
      if state.isChecking {
        userStates := userStates[userId := state.(isChecking := false)];
        return Stopped, LinkChecker.BulkResults([], [], [], [], []);
      }
      userStates := userStates[userId := state.(isChecking := true)];
      var after;
      after, outcome, bulk := RunScan(state, scraper, scan);
      userStates := userStates[userId := after];
    }

    /** The `select_account` callback. Data the pattern does not match
        reaches no handler. An unknown account or one without a cookie is
        refused before the lock is touched or a scraper is built. */
    method SelectAccount(userId: int, data: string, freshId: string, freshNow: int, accountId: string, accountNow: int,
                         answerFails: bool, scan: ScanInputs)
      returns (outcome: SelectOutcome, scraper: Scraper.ReferralScraper?)
      modifies this
      ensures DecodeCallback(data).None? ==>
        outcome == NoMatch && scraper == null && userLocks == old(userLocks) && userStates == old(userStates)
      ensures DecodeCallback(data).Some? && !Usable(accounts, DecodeCallback(data).value.1) ==>
        outcome == Rejected && scraper == null && userLocks == old(userLocks) && userStates == old(userStates)
      ensures DecodeCallback(data).Some? && Usable(accounts, DecodeCallback(data).value.1) ==>
        var (action, name) := DecodeCallback(data).value;
        && outcome == Ran(action, name)
        && scraper != null && fresh(scraper)
        && SetUpFor(scraper, accounts[name], name, accountId, accountNow)
        && Acted(old(userLocks), old(userStates), userLocks, userStates, userId, action, answerFails, scraper, scan)
    {
      var decoded := DecodeCallback(data);
      if decoded.None? {
        return NoMatch, null;
      }
      var (action, name) := decoded.value;
      if name !in accounts || accounts[name].cookie == "" {
        return Rejected, null;
      }
      scraper := RunAction(userId, action, name, freshId, freshNow, accountId, accountNow, answerFails, scan);
      outcome := Ran(action, name);
    }

    /** The account was found: a fresh scraper is set up for it, the action
        runs under the user's lock, and the lock is released whether the
        action finished or a Telegram call threw. */
    method RunAction(userId: int, action: string, name: string, freshId: string, freshNow: int,
                     accountId: string, accountNow: int, answerFails: bool, scan: ScanInputs)
      returns (scraper: Scraper.ReferralScraper)
      requires Usable(accounts, name)
      modifies this
      ensures fresh(scraper)
      ensures SetUpFor(scraper, accounts[name], name, accountId, accountNow)
      ensures Acted(old(userLocks), old(userStates), userLocks, userStates, userId, action, answerFails, scraper, scan)
    {
      if userId !in userLocks {
        userLocks := userLocks[userId := false];
      }
      userLocks := userLocks[userId := true];
      scraper := ScraperFor(site, retry, accounts[name], name, freshId, freshNow, accountId, accountNow);
      Dispatch(userId, action, answerFails, scraper, scan);
    }

    /** The `switch` on the action inside `try ... finally`: the callback
        answer goes first, a scan runs for `checkalllinks`, and the lock is
        released on every path. */
    method Dispatch(userId: int, action: string, answerFails: bool, scraper: Scraper.ReferralScraper, scan: ScanInputs)
      requires userId in userLocks && userLocks[userId]
      modifies this
      ensures Acted(old(userLocks), old(userStates), userLocks, userStates, userId, action, answerFails, scraper, scan)
    {
      if answerFails {
        userLocks := userLocks[userId := false];
        return;
      }
      if action == "checkalllinks" {
        var _, _ := HandleCheckAllLinks(userId, scraper, scan);
      }
      userLocks := userLocks[userId := false];
    }
  }
}
