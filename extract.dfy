/** What the scraper reads out of the pages it fetches: the referral link
    (five fallbacks in order), the player statistics, the commission lines
    and the downline table with its running totals.

    The DOM is an input: each selector `parseHTML` queries is given as the
    text it yields (`Page` and the downline cell rows). */
module Extract {
  import opened Wrappers
  import opened JsText

  // ---------------------------------------------------------------------
  // Inputs

  /** A `.rchist-panel div`: its text and the text of its last `span`. */
  datatype PanelDiv = PanelDiv(text: string, lastSpan: string)

  /** A `span`: its text and the text of the last `span` under its parent. */
  datatype SpanNode = SpanNode(text: string, parentLastSpan: string)

  /** The referral page as the selectors see it. `commissionRows` holds, per
      bordered `div` of the commission panel, the texts of its `span`s. */
  datatype Page = Page(
    refCodeItalic: string,
    spanRefCodeItalic: string,
    spanRefCode: string,
    panelDivs: seq<PanelDiv>,
    spans: seq<SpanNode>,
    commissionRows: seq<seq<string>>)

  // ---------------------------------------------------------------------
  // Leftmost searches

  /** The least index in [from, to) satisfying `p`. */
  function FirstIndex(p: nat -> bool, from: nat, to: nat): (r: Option<nat>)
    decreases to - from
    ensures r.Some? ==> from <= r.value < to && p(r.value)
    ensures r.Some? ==> forall j :: from <= j < r.value ==> !p(j)
    ensures r.None? ==> forall j :: from <= j < to ==> !p(j)
  {
    if from >= to then None
    else if p(from) then Some(from)
    else FirstIndex(p, from + 1, to)
  }

  // ---------------------------------------------------------------------
  // The link regex: https:// then a run of [^\s<>"] containing ?ref=

  predicate UrlChar(c: char) {
    !IsSpace(c) && c != '<' && c != '>' && c != '"'
  }

  /** The longest prefix of `s` made of `UrlChar`s. */
  function UrlRun(s: string): (r: string)
    ensures |r| <= |s| && r == s[..|r|]
    ensures forall i :: 0 <= i < |r| ==> UrlChar(r[i])
    ensures |r| < |s| ==> !UrlChar(s[|r|])
  {
    if s != [] && UrlChar(s[0]) then [s[0]] + UrlRun(s[1..]) else []
  }

  /** `?ref=` occurs in the run after at least one character and before at
      least one more: only then can both `+` groups match. */
  predicate HasRefQuery(run: string) {
    exists j :: 1 <= j && j + 5 < |run| && OccursAt(run, "?ref=", j)
  }

  /** The regex matches at `i`. Its first group backtracks to a `?ref=` inside
      the run and its second group runs to the end of the run, so the match
      is the whole run. */
  predicate LinkAt(html: string, i: nat) {
    OccursAt(html, "https://", i) && HasRefQuery(UrlRun(html[i + 8..]))
  }

  /** `html.match(/https:\/\/[^\s<>"]+\?ref=[^\s<>"]+/)[0]`, if any. */
  function RegexLink(html: string): (r: Option<string>)
    ensures r.Some? ==> StartsWith(r.value, "https://")
    ensures r.None? ==> forall i :: 0 <= i <= |html| ==> !LinkAt(html, i)
  {
    var p := (i: nat) => LinkAt(html, i);
    match FirstIndex(p, 0, |html| + 1)
    case None =>
      forall i | 0 <= i <= |html| ensures !LinkAt(html, i) {
        assert !p(i);
      }
      None
    case Some(i) => Some("https://" + UrlRun(html[i + 8..]))
  }

  /** The regex `userid=([^&]+)` matches at `i`. */
  predicate UseridAt(params: string, i: nat) {
    OccursAt(params, "userid=", i) && i + 7 < |params| && params[i + 7] != '&'
  }

  /** The first capture group of `params.match(/userid=([^&]+)/)`. */
  function Userid(params: string): (r: Option<string>)
    ensures r.Some? ==> r.value != [] && '&' !in r.value
    ensures r.None? ==> forall i :: 0 <= i <= |params| ==> !UseridAt(params, i)
  {
    var p := (i: nat) => UseridAt(params, i);
    match FirstIndex(p, 0, |params| + 1)
    case None =>
      forall i | 0 <= i <= |params| ensures !UseridAt(params, i) {
        assert !p(i);
      }
      None
    case Some(i) => Some(PrefixBefore(params[i + 7..], '&'))
  }

  /** The link is the whole run after the leftmost `https://` at which the
      regex matches. */
  lemma RegexLinkIsLeftmost(html: string, i: nat)
    requires i <= |html| && LinkAt(html, i)
    requires forall j :: 0 <= j < i ==> !LinkAt(html, j)
    ensures RegexLink(html) == Some("https://" + UrlRun(html[i + 8..]))
  {
    var p := (k: nat) => LinkAt(html, k);
    assert p(i);
  }

  /** The group is the text after the leftmost matching `userid=`, up to the
      next `&`. */
  lemma UseridIsLeftmost(params: string, i: nat)
    requires i <= |params| && UseridAt(params, i)
    requires forall j :: 0 <= j < i ==> !UseridAt(params, j)
    ensures Userid(params) == Some(PrefixBefore(params[i + 7..], '&'))
  {
    var p := (k: nat) => UseridAt(params, k);
    assert p(i);
  }

  predicate NonEmpty(s: Option<string>) {
    s.Some? && s.value != ""
  }

  // ---------------------------------------------------------------------
  // Referral link

  /** The link made from the account's `userid=` parameter; empty when the
      account has no name, no parameters or no such parameter. */
  function SyntheticLink(baseUrl: string, name: Option<string>, params: Option<string>): string {
    if NonEmpty(name) && NonEmpty(params) && Userid(params.value).Some?
    then baseUrl + "/register?ref=" + Userid(params.value).value
    else ""
  }

  /** The five candidates, in the order they are tried; a candidate that does
      not apply is the empty string. */
  function Candidates(page: Page, html: string, baseUrl: string, name: Option<string>, params: Option<string>): (c: seq<string>)
    ensures |c| == 5
  {
    [ Trim(page.refCodeItalic),
      Trim(page.spanRefCodeItalic),
      PrefixBefore(Trim(page.spanRefCode), '\n'),
      RegexLink(html).GetOr(""),
      SyntheticLink(baseUrl, name, params) ]
  }

  /** The first non-empty string of the list. */
  function FirstNonEmpty(c: seq<string>): (r: Option<string>)
    ensures r.Some? ==> r.value != [] && r.value in c
    ensures r.None? <==> forall i :: 0 <= i < |c| ==> c[i] == []
    ensures r.Some? ==> exists i :: 0 <= i < |c| && c[i] == r.value && forall j :: 0 <= j < i ==> c[j] == []
  {
    if c == [] then None
    else if c[0] != [] then Some(c[0])
    else
      var r := FirstNonEmpty(c[1..]);
      assert forall i :: 1 <= i < |c| ==> c[i] == c[1..][i - 1];
      if r.Some? then
        var i :| 0 <= i < |c[1..]| && c[1..][i] == r.value && forall j :: 0 <= j < i ==> c[1..][j] == [];
        assert c[i + 1] == r.value;
        r
      else r
  }

  /** The fallback chain of `parseHTML`: each candidate is looked at only
      when every earlier one came out empty. */
  function ReferralLinkOf(page: Page, html: string, baseUrl: string, name: Option<string>, params: Option<string>): Option<string> {
    var first := Trim(page.refCodeItalic);
    var second := Trim(page.spanRefCodeItalic);
    var third := PrefixBefore(Trim(page.spanRefCode), '\n');
    var fourth := RegexLink(html).GetOr("");
    var fifth := SyntheticLink(baseUrl, name, params);
    if first != "" then Some(first)
    else if second != "" then Some(second)
    else if third != "" then Some(third)
    else if fourth != "" then Some(fourth)
    else if fifth != "" then Some(fifth)
    else None
  }

  lemma FirstNonEmptyCons(x: string, rest: seq<string>)
    ensures FirstNonEmpty([x] + rest) == if x != "" then Some(x) else FirstNonEmpty(rest)
  {
    assert ([x] + rest)[1..] == rest;
  }

  lemma FirstOfFive(a: string, b: string, c: string, d: string, e: string)
    ensures FirstNonEmpty([a, b, c, d, e]) ==
      if a != "" then Some(a) else if b != "" then Some(b) else if c != "" then Some(c)
      else if d != "" then Some(d) else if e != "" then Some(e) else None
  {
    FirstNonEmptyCons(e, []);
    assert [d, e] == [d] + [e];
    FirstNonEmptyCons(d, [e]);
    assert [c, d, e] == [c] + [d, e];
    FirstNonEmptyCons(c, [d, e]);
    assert [b, c, d, e] == [b] + [c, d, e];
    FirstNonEmptyCons(b, [c, d, e]);
    assert [a, b, c, d, e] == [a] + [b, c, d, e];
    FirstNonEmptyCons(a, [b, c, d, e]);
  }

  /** The chain picks the first candidate that is not empty. */
  lemma ReferralLinkIsFirstCandidate(page: Page, html: string, baseUrl: string, name: Option<string>, params: Option<string>)
    ensures ReferralLinkOf(page, html, baseUrl, name, params) == FirstNonEmpty(Candidates(page, html, baseUrl, name, params))
  {
    FirstOfFive(Trim(page.refCodeItalic), Trim(page.spanRefCodeItalic), PrefixBefore(Trim(page.spanRefCode), '\n'),
      RegexLink(html).GetOr(""), SyntheticLink(baseUrl, name, params));
  }

  /** The reassignments of the local `referralLink` in `parseHTML`. */
  method FindReferralLink(page: Page, html: string, baseUrl: string, name: Option<string>, params: Option<string>)
    returns (link: Result<string>)
    ensures link.Ok? <==> ReferralLinkOf(page, html, baseUrl, name, params).Some?
    ensures link.Ok? ==> link.value == ReferralLinkOf(page, html, baseUrl, name, params).value
    ensures link.Err? ==> link.error == "Referral link not found in HTML"
  {
    var referralLink := Trim(page.refCodeItalic);
    if referralLink == "" {
      referralLink := Trim(page.spanRefCodeItalic);
    }
    if referralLink == "" {
      var refSpan := Trim(page.spanRefCode);
      referralLink := PrefixBefore(refSpan, '\n');
    }
    if referralLink == "" {
      var m := RegexLink(html);
      referralLink := if m.Some? then m.value else "";
    }
    if referralLink == "" && NonEmpty(name) && NonEmpty(params) {
      var id := Userid(params.value);
      if id.Some? {
        referralLink := baseUrl + "/register?ref=" + id.value;
      }
    }
    if referralLink == "" {
      return Err("Referral link not found in HTML");
    }
    link := Ok(referralLink);
  }

  // ---------------------------------------------------------------------
  // Statistics

  /** (totalPlayers, activePlayers). */
  type Stats = (int, int)

  /** `parseInt(text.replace(/\./g, ''))`: dots are thousands separators. */
  function Number(text: string): Option<int> {
    ParseInt(StripDots(text))
  }

  /** One `.rchist-panel div`: a NaN or zero reading keeps the earlier value. */
  function PanelStep(prev: Stats, d: PanelDiv): Stats {
    var text := Trim(d.text);
    var value := Number(Trim(d.lastSpan));
    if Contains(text, "Total Players Register") then (OrElse(value, prev.0), prev.1)
    else if Contains(text, "Total Active Minggu Ini") then (prev.0, OrElse(value, prev.1))
    else prev
  }

  function PanelStats(divs: seq<PanelDiv>): Stats {
    if divs == [] then (0, 0) else PanelStep(PanelStats(divs[..|divs| - 1]), divs[|divs| - 1])
  }

  /** `parseInt(text.match(/\d+/) ? text.match(/\d+/)[0] : 0)`. */
  function FirstNumber(text: string): int {
    match FirstDigitRun(text)
    case None => 0
    case Some(d) => ParseInt(d).GetOr(0)
  }

  /** One `span` of the page-wide scan: the value under the parent, or else
      the first number in the span's own text. */
  function SpanStep(prev: Stats, s: SpanNode): Stats {
    var text := Trim(s.text);
    var value := OrElse(Number(Trim(s.parentLastSpan)), FirstNumber(text));
    if Contains(text, "Total Players") || Contains(text, "Total Registered") then (value, prev.1)
    else if Contains(text, "Total Active") || Contains(text, "Minggu Ini") then (prev.0, value)
    else prev
  }

  function SpanStats(spans: seq<SpanNode>, start: Stats): Stats {
    if spans == [] then start else SpanStep(SpanStats(spans[..|spans| - 1], start), spans[|spans| - 1])
  }

  /** The page-wide scan runs only when the panel gave no player total. */
  function StatsOf(page: Page): Stats {
    var panel := PanelStats(page.panelDivs);
    if panel.0 == 0 then SpanStats(page.spans, panel) else panel
  }

  /** A panel whose divs carry neither label leaves both counts at 0, and an
      unparsable or zero reading never overrides an earlier one. */
  lemma {:induction false} PanelKeepsEarlier(divs: seq<PanelDiv>, i: nat)
    requires i < |divs|
    requires Number(Trim(divs[i].lastSpan)) in {None, Some(0)}
    ensures PanelStats(divs[..i + 1]) == PanelStats(divs[..i])
  {
    assert divs[..i + 1][..i] == divs[..i];
  }

  lemma {:induction false} PanelWithoutLabels(divs: seq<PanelDiv>)
    requires forall i :: 0 <= i < |divs| ==>
      !Contains(Trim(divs[i].text), "Total Players Register") && !Contains(Trim(divs[i].text), "Total Active Minggu Ini")
    ensures PanelStats(divs) == (0, 0)
  {
    if divs != [] {
      PanelWithoutLabels(divs[..|divs| - 1]);
    }
  }

  /** A non-zero panel total means the span scan does not run: the
      statistics do not depend on the page's other spans at all. */
  lemma SpanScanOnlyWithoutTotal(page: Page, spans': seq<SpanNode>)
    ensures PanelStats(page.panelDivs).0 != 0 ==> StatsOf(page.(spans := spans')) == StatsOf(page) == PanelStats(page.panelDivs)
    ensures page.spans == [] ==> StatsOf(page) == PanelStats(page.panelDivs)
  {
  }

  /** A span whose trimmed text carries none of the four labels. */
  predicate Unlabelled(s: SpanNode) {
    var text := Trim(s.text);
    !Contains(text, "Total Players") && !Contains(text, "Total Registered") &&
    !Contains(text, "Total Active") && !Contains(text, "Minggu Ini")
  }

  /** Spans whose text carries none of the four labels leave the counts the
      panel gave. */
  lemma {:induction false} SpanScanWithoutLabels(spans: seq<SpanNode>, start: Stats)
    requires forall i :: 0 <= i < |spans| ==> Unlabelled(spans[i])
    ensures SpanStats(spans, start) == start
  {
    if spans != [] {
      var n := |spans| - 1;
      var init := spans[..n];
      assert forall i :: 0 <= i < n ==> init[i] == spans[i];
      SpanScanWithoutLabels(init, start);
      assert Unlabelled(spans[n]);
    }
  }

  /** A dot anywhere in the text is ignored by the number reading. */
  lemma DotsIgnored(a: string, b: string)
    ensures Number(a + "." + b) == Number(a + b)
  {
    StripDotsConcat(a + ".", b);
    StripDotsConcat(a, ".");
    StripDotsChar('.');
    StripDotsConcat(a, b);
    assert StripDots(a + ".") == StripDots(a);
    assert StripDots(a + "." + b) == StripDots(a + b);
  }

  /** Dots are removed before parsing, so `1.234` reads as 1234. */
  lemma ThousandsSeparator()
    ensures Number("1.234") == Some(1234)
  {
    assert "1.234"[1..] == ".234" && ".234"[1..] == "234" && "234"[1..] == "34" && "34"[1..] == "4" && "4"[1..] == [];
    assert StripDots("34") == "34";
    assert StripDots("1.234") == "1234";
    ParseIntOf1234();
  }

  lemma ParseIntOf1234()
    ensures ParseInt("1234") == Some(1234)
  {
    var d := "1234";
    DigitPrefixOfDigits(d);
    assert d[..3] == "123" && "123"[..2] == "12" && "12"[..1] == "1" && "1"[..0] == [];
    assert DigitsValue(d, 10) == 1234;
    ParseIntOfDigits(d, 1234);
  }

  /** The `.each` over the panel divs. */
  method ScanPanel(divs: seq<PanelDiv>) returns (totalPlayers: int, activePlayers: int)
    ensures (totalPlayers, activePlayers) == PanelStats(divs)
  {
    totalPlayers, activePlayers := 0, 0;
    var i := 0;
    while i < |divs|
      invariant 0 <= i <= |divs|
      invariant (totalPlayers, activePlayers) == PanelStats(divs[..i])
    {
      assert divs[..i + 1][..i] == divs[..i];
      var text := Trim(divs[i].text);
      var valueSpan := Trim(divs[i].lastSpan);
      if Contains(text, "Total Players Register") {
        totalPlayers := OrElse(Number(valueSpan), totalPlayers);
      } else if Contains(text, "Total Active Minggu Ini") {
        activePlayers := OrElse(Number(valueSpan), activePlayers);
      }
      i := i + 1;
    }
    assert divs[..i] == divs;
  }

  /** The `.each` over every span. */
  method ScanSpans(spans: seq<SpanNode>, totalIn: int, activeIn: int) returns (totalPlayers: int, activePlayers: int)
    ensures (totalPlayers, activePlayers) == SpanStats(spans, (totalIn, activeIn))
  {
    totalPlayers, activePlayers := totalIn, activeIn;
    var i := 0;
    while i < |spans|
      invariant 0 <= i <= |spans|
      invariant (totalPlayers, activePlayers) == SpanStats(spans[..i], (totalIn, activeIn))
    {
      assert spans[..i + 1][..i] == spans[..i];
      var text := Trim(spans[i].text);
      if Contains(text, "Total Players") || Contains(text, "Total Registered") {
        totalPlayers := OrElse(Number(Trim(spans[i].parentLastSpan)), FirstNumber(text));
      } else if Contains(text, "Total Active") || Contains(text, "Minggu Ini") {
        activePlayers := OrElse(Number(Trim(spans[i].parentLastSpan)), FirstNumber(text));
      }
      i := i + 1;
    }
    assert spans[..i] == spans;
  }

  // ---------------------------------------------------------------------
  // Commissions

  /** A bordered row yields a line only with two span texts, both non-empty
      after trimming, and a game text free of "border". */
  predicate Qualifies(row: seq<string>) {
    |row| >= 2 && Trim(row[0]) != "" && Trim(row[1]) != "" && !Contains(Trim(row[0]), "border")
  }

  function CommissionLine(row: seq<string>): string
    requires |row| >= 2
  {
    Trim(row[0]) + ": " + Trim(row[1])
  }

  function Commissions(rows: seq<seq<string>>): (r: seq<string>)
    ensures |r| <= |rows|
  {
    if rows == [] then []
    else
      var n := |rows| - 1;
      Commissions(rows[..n]) + (if Qualifies(rows[n]) then [CommissionLine(rows[n])] else [])
  }

  /** One line per qualifying row, in row order. */
  lemma {:induction false} CommissionsConcat(a: seq<seq<string>>, b: seq<seq<string>>)
    ensures Commissions(a + b) == Commissions(a) + Commissions(b)
  {
    if b == [] {
      assert a + b == a;
    } else {
      var n := |b| - 1;
      assert (a + b)[..|a| + n] == a + b[..n];
      CommissionsConcat(a, b[..n]);
    }
  }

  lemma CommissionsOne(row: seq<string>)
    ensures Commissions([row]) == if Qualifies(row) then [CommissionLine(row)] else []
  {
    assert [row][..0] == [];
  }

  method CollectCommissions(rows: seq<seq<string>>) returns (commissions: seq<string>)
    ensures commissions == Commissions(rows)
  {
    commissions := [];
    var i := 0;
    while i < |rows|
      invariant 0 <= i <= |rows|
      invariant commissions == Commissions(rows[..i])
    {
      assert rows[..i + 1][..i] == rows[..i];
      var spans := rows[i];
      if |spans| >= 2 {
        var gameType := Trim(spans[0]);
        var rate := Trim(spans[1]);
        if gameType != "" && rate != "" && !Contains(gameType, "border") {
          commissions := commissions + [gameType + ": " + rate];
        }
      }
      i := i + 1;
    }
    assert rows[..i] == rows;
  }

  // ---------------------------------------------------------------------
  // The referral page

  datatype ReferralData = ReferralData(
    referralLink: string,
    totalPlayers: int,
    activePlayers: int,
    commissions: seq<string>,
    account: Option<string>,
    rawHtml: string)

  /** `html.substring(0, 500) + '...'`. */
  function RawHtml(html: string): (r: string)
    ensures |r| == (if |html| <= 500 then |html| else 500) + 3
    ensures r[..|r| - 3] == html[..|r| - 3]
    ensures r[|r| - 3..] == "..."
  {
    (if |html| <= 500 then html else html[..500]) + "..."
  }

  /** What `parseHTML` returns for a page. */
  function ParsedReferral(page: Page, html: string, baseUrl: string, name: Option<string>, params: Option<string>): Result<ReferralData> {
    match ReferralLinkOf(page, html, baseUrl, name, params)
    case None => Err("Referral link not found in HTML")
    case Some(link) =>
      var stats := StatsOf(page);
      Ok(ReferralData(link, stats.0, stats.1, Commissions(page.commissionRows), name, RawHtml(html)))
  }

  /** The referral link is the first candidate that is not empty, and the
      page fails to parse only when all five are empty. */
  lemma ReferralFallbackOrder(page: Page, html: string, baseUrl: string, name: Option<string>, params: Option<string>)
    ensures var r := ParsedReferral(page, html, baseUrl, name, params);
      var c := Candidates(page, html, baseUrl, name, params);
      && (r.Err? <==> forall i :: 0 <= i < 5 ==> c[i] == "")
      && (r.Ok? ==> r.value.referralLink != "")
      && (r.Ok? ==> exists i :: 0 <= i < 5 && c[i] == r.value.referralLink && forall j :: 0 <= j < i ==> c[j] == "")
  {
    ReferralLinkIsFirstCandidate(page, html, baseUrl, name, params);
  }

  /** The link is synthesised from `userid=` only when the account has a name
      and parameters and the page offered nothing else. */
  lemma SynthesisedLink(page: Page, html: string, baseUrl: string, name: Option<string>, params: Option<string>, id: string)
    requires forall i :: 0 <= i < 4 ==> Candidates(page, html, baseUrl, name, params)[i] == ""
    requires NonEmpty(name) && NonEmpty(params) && Userid(params.value) == Some(id)
    ensures ParsedReferral(page, html, baseUrl, name, params) ==
      Ok(ReferralData(baseUrl + "/register?ref=" + id, StatsOf(page).0, StatsOf(page).1,
        Commissions(page.commissionRows), name, RawHtml(html)))
  {
    ReferralLinkIsFirstCandidate(page, html, baseUrl, name, params);
    var c := Candidates(page, html, baseUrl, name, params);
    assert c[4] == baseUrl + "/register?ref=" + id;
  }

  /** `parseHTML`. */
  method ParseHTML(page: Page, html: string, baseUrl: string, name: Option<string>, params: Option<string>)
    returns (r: Result<ReferralData>)
    ensures r == ParsedReferral(page, html, baseUrl, name, params)
  {
    var link := FindReferralLink(page, html, baseUrl, name, params);
    if link.Err? {
      return Err(link.error);
    }
    var totalPlayers, activePlayers := ScanPanel(page.panelDivs);
    if totalPlayers == 0 {
      totalPlayers, activePlayers := ScanSpans(page.spans, totalPlayers, activePlayers);
    }
    var commissions := CollectCommissions(page.commissionRows);
    r := Ok(ReferralData(link.value, totalPlayers, activePlayers, commissions, name, RawHtml(html)));
  }

  // ---------------------------------------------------------------------
  // The downline table

  datatype DownlineRow = DownlineRow(no: Option<int>, userId: string, turnover: int, komisi: int)

  datatype DownlineData = DownlineData(
    totalDownlines: nat,
    totalTurnover: int,
    totalKomisi: int,
    downlines: seq<DownlineRow>)

  /** The text of cell `i`; every row the parser reads has at least four. */
  function Cell(tds: seq<string>, i: nat): string {
    if i < |tds| then tds[i] else ""
  }

  /** One `tr[data-ref]`: the number cell as parsed (`NaN` stays `None`), the
      trimmed user id, and turnover and commission read as `parseInt(...) || 0`
      after the dots are stripped. */
  function RowOf(tds: seq<string>): DownlineRow {
    DownlineRow(
      ParseInt(Trim(Cell(tds, 0))),
      Trim(Cell(tds, 1)),
      OrElse(Number(Trim(Cell(tds, 2))), 0),
      OrElse(Number(Trim(Cell(tds, 3))), 0))
  }

  /** The record a row contributes under the row reading `f`: none for a row
      of fewer than four cells. */
  function Kept(tds: seq<string>, f: seq<string> -> DownlineRow): (r: seq<DownlineRow>)
    ensures |r| <= 1
  {
    if |tds| >= 4 then [f(tds)] else []
  }

  /** The kept rows, in table order, each read by `f`. */
  function RowsBy(rows: seq<seq<string>>, f: seq<string> -> DownlineRow): (r: seq<DownlineRow>)
    ensures |r| <= |rows|
  {
    if rows == [] then []
    else
      var n := |rows| - 1;
      RowsBy(rows[..n], f) + Kept(rows[n], f)
  }

  /** The records of `parseDownlineHTML`. */
  function DownlineRows(rows: seq<seq<string>>): seq<DownlineRow> {
    RowsBy(rows, RowOf)
  }

  function TurnoverSum(ds: seq<DownlineRow>): int {
    if ds == [] then 0 else TurnoverSum(ds[..|ds| - 1]) + ds[|ds| - 1].turnover
  }

  function KomisiSum(ds: seq<DownlineRow>): int {
    if ds == [] then 0 else KomisiSum(ds[..|ds| - 1]) + ds[|ds| - 1].komisi
  }

  lemma RowsByPush(xs: seq<seq<string>>, x: seq<string>, f: seq<string> -> DownlineRow)
    ensures RowsBy(xs + [x], f) == RowsBy(xs, f) + Kept(x, f)
  {
    assert (xs + [x])[..|xs|] == xs;
  }

  lemma {:induction false} RowsByConcat(a: seq<seq<string>>, b: seq<seq<string>>, f: seq<string> -> DownlineRow)
    ensures RowsBy(a + b, f) == RowsBy(a, f) + RowsBy(b, f)
  {
    if b == [] {
      assert a + b == a;
    } else {
      var n := |b| - 1;
      var init := b[..n];
      assert b == init + [b[n]];
      assert a + b == (a + init) + [b[n]];
      RowsByConcat(a, init, f);
      RowsByPush(a + init, b[n], f);
      RowsByPush(init, b[n], f);
    }
  }

  /** One record per row with at least four cells, in table order. */
  lemma DownlineRowsConcat(a: seq<seq<string>>, b: seq<seq<string>>)
    ensures DownlineRows(a + b) == DownlineRows(a) + DownlineRows(b)
  {
    RowsByConcat(a, b, RowOf);
  }

  lemma DownlineRowsOne(tds: seq<string>)
    ensures DownlineRows([tds]) == if |tds| >= 4 then [RowOf(tds)] else []
  {
    assert [tds][..0] == [];
  }

  /** The totals are sums over the records, so they add up across any split
      of the table. */
  lemma {:induction false} SumsConcat(a: seq<DownlineRow>, b: seq<DownlineRow>)
    ensures TurnoverSum(a + b) == TurnoverSum(a) + TurnoverSum(b)
    ensures KomisiSum(a + b) == KomisiSum(a) + KomisiSum(b)
  {
    if b == [] {
      assert a + b == a;
    } else {
      var n := |b| - 1;
      var ab := a + b;
      assert ab[..|ab| - 1] == a + b[..n];
      assert ab[|ab| - 1] == b[n];
      SumsConcat(a, b[..n]);
    }
  }

  /** With non-negative readings the totals are non-negative. */
  lemma {:induction false} SumsNonNegative(ds: seq<DownlineRow>)
    requires forall i :: 0 <= i < |ds| ==> ds[i].turnover >= 0 && ds[i].komisi >= 0
    ensures TurnoverSum(ds) >= 0 && KomisiSum(ds) >= 0
  {
    if ds != [] {
      SumsNonNegative(ds[..|ds| - 1]);
    }
  }

  /** One iteration of the row loop keeps the loop's three facts. */
  lemma RowLoopStep(rows: seq<seq<string>>, i: nat, f: seq<string> -> DownlineRow, ds: seq<DownlineRow>)
    requires i < |rows| && ds == RowsBy(rows[..i], f)
    ensures RowsBy(rows[..i + 1], f) == ds + Kept(rows[i], f)
    ensures |rows[i]| >= 4 ==> TurnoverSum(ds + Kept(rows[i], f)) == TurnoverSum(ds) + f(rows[i]).turnover
    ensures |rows[i]| >= 4 ==> KomisiSum(ds + Kept(rows[i], f)) == KomisiSum(ds) + f(rows[i]).komisi
    ensures |rows[i]| < 4 ==> ds + Kept(rows[i], f) == ds
  {
    assert rows[..i + 1][..i] == rows[..i];
    if |rows[i]| >= 4 {
      var e := ds + [f(rows[i])];
      assert e[..|ds|] == ds;
    } else {
      assert ds + [] == ds;
    }
  }

  /** The body of the row loop for row `i`: a row of four or more cells is
      read, kept and added to both totals. */
  method TakeRow(rows: seq<seq<string>>, i: nat, read: seq<string> -> DownlineRow,
                 downlines: seq<DownlineRow>, totalTurnover: int, totalKomisi: int)
    returns (downlines': seq<DownlineRow>, totalTurnover': int, totalKomisi': int)
    requires i < |rows| && downlines == RowsBy(rows[..i], read)
    requires totalTurnover == TurnoverSum(downlines) && totalKomisi == KomisiSum(downlines)
    ensures downlines' == RowsBy(rows[..i + 1], read)
    ensures totalTurnover' == TurnoverSum(downlines') && totalKomisi' == KomisiSum(downlines')
  {
    RowLoopStep(rows, i, read, downlines);
    downlines', totalTurnover', totalKomisi' := downlines, totalTurnover, totalKomisi;
    var tds := rows[i];
    if |tds| >= 4 {
      var row := read(tds);
      downlines' := downlines + [row];
      totalTurnover' := totalTurnover + row.turnover;
      totalKomisi' := totalKomisi + row.komisi;
    }
  }

  /** The row loop of `parseDownlineHTML`, with the per-row reading `read`:
      keep the long enough rows and accumulate both totals as it goes. */
  method AccumulateRows(rows: seq<seq<string>>, read: seq<string> -> DownlineRow) returns (d: DownlineData)
    ensures d.downlines == RowsBy(rows, read)
    ensures d.totalDownlines == |d.downlines|
    ensures d.totalTurnover == TurnoverSum(d.downlines)
    ensures d.totalKomisi == KomisiSum(d.downlines)
  {
    var downlines: seq<DownlineRow> := [];
    var totalTurnover, totalKomisi := 0, 0;
    var i := 0;
    while i < |rows|
      invariant 0 <= i <= |rows|
      invariant downlines == RowsBy(rows[..i], read)
      invariant totalTurnover == TurnoverSum(downlines)
      invariant totalKomisi == KomisiSum(downlines)
    {
      downlines, totalTurnover, totalKomisi := TakeRow(rows, i, read, downlines, totalTurnover, totalKomisi);
      i := i + 1;
    }
    assert rows[..i] == rows;
    d := DownlineData(|downlines|, totalTurnover, totalKomisi, downlines);
  }

  /** What `parseDownlineHTML` returns for a table: the records, their
      count and the two sums. */
  function DownlineOf(rows: seq<seq<string>>): DownlineData {
    var ds := DownlineRows(rows);
    DownlineData(|ds|, TurnoverSum(ds), KomisiSum(ds), ds)
  }

  /** `parseDownlineHTML`. */
  method ParseDownlineHTML(rows: seq<seq<string>>) returns (d: DownlineData)
    ensures d == DownlineOf(rows)
  {
    d := AccumulateRows(rows, RowOf);
  }
}
