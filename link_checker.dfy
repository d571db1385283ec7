/** The accessibility checker: per-pool DNS results keyed by resolver IP, one
    HTTP probe, the classification of the outcome into one of four statuses,
    and the sequential bulk check that partitions a list of URLs by status.

    DNS answers, the HTTP response and which races the overall timer won are
    inputs (a `Probe`); everything else is computed from them. */
module LinkChecker {
  import opened Wrappers
  import opened JsText

  // ---------------------------------------------------------------------
  // Inputs

  /** What `resolver.resolve4` did for one resolver IP. */
  datatype DnsOutcome = Resolved(addresses: seq<string>) | ResolveFailed(message: string)

  /** What `axios.get` did: a response with its status code, or a rejection
      with its message (network error, redirect limit, axios-level timeout). */
  datatype HttpOutcome = Response(status: int) | RequestFailed(message: string)

  /** Everything the outside world decides during one `checkLinkStatus`:
      whether the URL parses (to its hostname, or to the parser's message),
      each resolver's answer per pool and IP, which pools lost the race
      against the overall timer, the HTTP outcome and whether the HTTP probe
      lost that race. */
  datatype Probe = Probe(
    hostname: Result<string>,
    dns: (string, string) -> DnsOutcome,
    dnsTimedOut: string -> bool,
    http: HttpOutcome,
    httpTimedOut: bool)

  // ---------------------------------------------------------------------
  // Configuration

  /** A named resolver pool. */
  datatype DnsServer = DnsServer(name: string, ips: seq<string>)

  /** The pools the checker is constructed with: only Telkom. */
  const DnsServers: map<string, DnsServer> :=
    map["telkom" := DnsServer("Telkom Indonesia", ["202.134.0.155", "202.134.67.66"])]

  // ---------------------------------------------------------------------
  // Results

  datatype DnsResult = DnsResult(success: bool, ips: seq<string>, error: Option<string>)

  datatype HttpResult = HttpResult(success: bool, statusCode: Option<int>, accessible: bool, error: Option<string>)

  /** Pool key to resolver IP to that resolver's result. */
  type DnsResults = map<string, map<string, DnsResult>>

  /** The failure value a resolver gets when its pool lost the race. */
  const DnsTimeout := DnsResult(false, [], Some("timeout"))

  /** The failure value the HTTP probe gets when it lost the race. */
  const HttpTimeout := HttpResult(false, None, false, Some("timeout"))

  /** `checkDNS`: a resolver error becomes a failure value, never an exception. */
  function CheckDNS(o: DnsOutcome): DnsResult {
    match o
    case Resolved(addresses) => DnsResult(true, addresses, None)
    case ResolveFailed(message) => DnsResult(false, [], Some(message))
  }

  /** `checkHTTPAccess`: axios accepts statuses in [200, 500) and rejects the
      rest with "Request failed with status code <n>"; of the accepted ones,
      those below 400 count as accessible. */
  function CheckHTTPAccess(o: HttpOutcome): (r: HttpResult)
    ensures r.accessible <==> o.Response? && 200 <= o.status < 400
    ensures r.success == r.accessible
    ensures o.Response? && 200 <= o.status < 400 ==> r.statusCode == Some(o.status) && r.error == None
    ensures o.Response? && 400 <= o.status < 500 ==>
      r.statusCode == Some(o.status) && r.error == Some("HTTP " + IntToString(o.status))
    ensures !(o.Response? && 200 <= o.status < 500) ==> r.statusCode == None && r.error.Some?
    ensures o.RequestFailed? ==> r.error == Some(o.message)
  {
    match o
    case RequestFailed(message) => HttpResult(false, None, false, Some(message))
    case Response(status) =>
      if 200 <= status < 500 then
        if status < 400 then HttpResult(true, Some(status), true, None)
        else HttpResult(false, Some(status), false, Some("HTTP " + IntToString(status)))
      else
        HttpResult(false, None, false, Some("Request failed with status code " + IntToString(status)))
  }

  // ---------------------------------------------------------------------
  // Classification

  datatype Status = Unknown | Accessible | BlockedByTelkom | FilteredContent | NotResolvable

  datatype Analysis = Analysis(
    dnsResolvable: map<string, bool>,
    httpAccessible: bool,
    blockedByISP: bool,
    blockedByFilter: bool,
    status: Status)

  /** Some resolver of the pool answered. */
  predicate AnyResolved(servers: map<string, DnsResult>) {
    exists ip :: ip in servers && servers[ip].success
  }

  /** Provider to "resolved by at least one of its resolvers", for every
      provider present. */
  function Resolvability(d: DnsResults): (r: map<string, bool>)
    ensures r.Keys == d.Keys
  {
    map p | p in d :: AnyResolved(d[p])
  }

  /** `analysis.dnsResolvable[key]` read as a JavaScript truth value: a missing
      provider is `undefined`, which is falsy. */
  predicate Truthy(m: map<string, bool>, key: string) {
    key in m && m[key]
  }

  /** `analyzeResults`: the if/else chain over the three booleans, starting
      from status `UNKNOWN` and both flags false. */
  function AnalysisOf(d: DnsResults, http: HttpResult): (a: Analysis)
    ensures a.status != Unknown
  {
    var resolvable := Resolvability(d);
    var telkom := Truthy(resolvable, "telkom");
    var other := Truthy(resolvable, "google") || Truthy(resolvable, "cloudflare");
    var initial := Analysis(resolvable, http.accessible, false, false, Unknown);
    if other && !telkom then initial.(blockedByISP := true, status := BlockedByTelkom)
    else if telkom && !http.accessible then initial.(blockedByFilter := true, status := FilteredContent)
    else if telkom && http.accessible then initial.(status := Accessible)
    else if !telkom && !other then initial.(status := NotResolvable)
    else initial
  }

  /** The priority order of the classification, with each flag set only in
      its own branch. */
  lemma ClassificationOrder(d: DnsResults, http: HttpResult)
    ensures var a := AnalysisOf(d, http);
      var telkom := Truthy(a.dnsResolvable, "telkom");
      var other := Truthy(a.dnsResolvable, "google") || Truthy(a.dnsResolvable, "cloudflare");
      && (a.blockedByISP <==> a.status == BlockedByTelkom)
      && (a.blockedByFilter <==> a.status == FilteredContent)
      && (a.status == BlockedByTelkom <==> other && !telkom)
      && (telkom ==> (a.status == FilteredContent <==> !http.accessible))
      && (telkom ==> (a.status == Accessible <==> http.accessible))
      && (a.status == NotResolvable <==> !telkom && !other)
      && a.httpAccessible == http.accessible
  {
  }

  /** A provider counts as resolvable exactly when one of its per-IP results
      succeeded. */
  lemma ResolvableIff(d: DnsResults, http: HttpResult, p: string)
    ensures Truthy(AnalysisOf(d, http).dnsResolvable, p) <==>
      p in d && exists ip :: ip in d[p] && d[p][ip].success
  {
  }

  /** With only the Telkom pool configured, no "other" provider is ever
      present, so `BLOCKED_BY_TELKOM` cannot be reported. */
  lemma ConfiguredPoolsNeverBlock(d: DnsResults, http: HttpResult)
    requires d.Keys == DnsServers.Keys
    ensures AnalysisOf(d, http).status != BlockedByTelkom
    ensures !AnalysisOf(d, http).blockedByISP
  {
    assert "google" !in d && "cloudflare" !in d;
  }

  /** The loop and branches of `analyzeResults`. */
  method AnalyzeResults(hostname: string, d: DnsResults, http: HttpResult) returns (a: Analysis)
    ensures a == AnalysisOf(d, http)
  {
    var resolvable: map<string, bool> := map[];
    var pending := d.Keys;
    while pending != {}
      invariant pending <= d.Keys
      invariant resolvable.Keys == d.Keys - pending
      invariant forall p :: p in resolvable ==> resolvable[p] == AnyResolved(d[p])
      decreases pending
    {
      var p :| p in pending;
      resolvable := resolvable[p := AnyResolved(d[p])];
      pending := pending - {p};
    }
    assert resolvable == Resolvability(d);
    a := Analysis(resolvable, http.accessible, false, false, Unknown);
    var telkom := "telkom" in resolvable && resolvable["telkom"];
    var other := ("google" in resolvable && resolvable["google"])
      || ("cloudflare" in resolvable && resolvable["cloudflare"]);
    if other && !telkom {
      a := a.(blockedByISP := true, status := BlockedByTelkom);
    } else if telkom && !http.accessible {
      a := a.(blockedByFilter := true, status := FilteredContent);
    } else if telkom && http.accessible {
      a := a.(status := Accessible);
    } else if !telkom && !other {
      a := a.(status := NotResolvable);
    }
  }

  // ---------------------------------------------------------------------
  // One link

  datatype CheckResult =
    | Checked(hostname: string, url: string, dnsResults: DnsResults, httpResult: HttpResult, analysis: Analysis)
    | CheckFailed(error: string)

  /** One pool's result object: every configured IP of the pool mapped to its
      resolver's result, or to the timeout value when the pool lost the race. */
  function PoolResults(ips: seq<string>, key: string, probe: Probe): (r: map<string, DnsResult>)
    ensures r.Keys == set ip | ip in ips
    ensures probe.dnsTimedOut(key) ==> forall ip :: ip in r ==> r[ip] == DnsTimeout
    ensures !probe.dnsTimedOut(key) ==> forall ip :: ip in r ==> r[ip] == CheckDNS(probe.dns(key, ip))
  {
    map ip | ip in ips :: if probe.dnsTimedOut(key) then DnsTimeout else CheckDNS(probe.dns(key, ip))
  }

  function DnsResultsOf(servers: map<string, DnsServer>, probe: Probe): DnsResults {
    map key | key in servers :: PoolResults(servers[key].ips, key, probe)
  }

  function HttpResultOf(probe: Probe): HttpResult {
    if probe.httpTimedOut then HttpTimeout else CheckHTTPAccess(probe.http)
  }

  /** `checkLinkStatus`: a URL that does not parse fails the check; otherwise
      every pool's map and the HTTP result are assembled and analysed. */
  function LinkStatus(url: string, probe: Probe, servers: map<string, DnsServer>): CheckResult {
    match probe.hostname
    case Err(e) => CheckFailed(e)
    case Ok(host) =>
      var d := DnsResultsOf(servers, probe);
      var http := HttpResultOf(probe);
      Checked(host, url, d, http, AnalysisOf(d, http))
  }

  /** What a check promises: it fails only when the URL does not parse; each
      pool's map has exactly that pool's IPs as keys; a lost race degrades to
      the timeout value instead of failing the check; the status is one of
      the four verdicts. */
  lemma LinkStatusShape(url: string, probe: Probe, servers: map<string, DnsServer>)
    ensures var r := LinkStatus(url, probe, servers);
      && (r.CheckFailed? <==> probe.hostname.Err?)
      && (r.Checked? ==> r.url == url && r.hostname == probe.hostname.value)
      && (r.Checked? ==> r.dnsResults.Keys == servers.Keys)
      && (r.Checked? ==> forall key :: key in servers ==>
            r.dnsResults[key].Keys == (set ip | ip in servers[key].ips))
      && (r.Checked? ==> forall key, ip :: key in servers && probe.dnsTimedOut(key) && ip in r.dnsResults[key] ==>
            r.dnsResults[key][ip] == DnsTimeout)
      && (r.Checked? && probe.httpTimedOut ==> r.httpResult == HttpTimeout)
      && (r.Checked? ==> r.analysis.status != Unknown)
  {
  }

  /** A resolver error never fails the check, it only marks that resolver:
      a pool counts as resolvable exactly when it did not lose the race and
      one of its resolvers answered. */
  lemma PoolResolvableIff(url: string, probe: Probe, servers: map<string, DnsServer>, key: string)
    requires probe.hostname.Ok?
    ensures var r := LinkStatus(url, probe, servers);
      r.Checked? &&
      (Truthy(r.analysis.dnsResolvable, key) <==>
        key in servers && !probe.dnsTimedOut(key) &&
        exists ip :: ip in servers[key].ips && probe.dns(key, ip).Resolved?)
  {
    var r := LinkStatus(url, probe, servers);
    var d := DnsResultsOf(servers, probe);
    ResolvableIff(d, HttpResultOf(probe), key);
    if key in servers {
      var pool := PoolResults(servers[key].ips, key, probe);
      assert d[key] == pool;
      if !probe.dnsTimedOut(key) {
        forall ip | ip in pool ensures pool[ip].success <==> probe.dns(key, ip).Resolved? {
          assert pool[ip] == CheckDNS(probe.dns(key, ip));
        }
      }
    }
  }

  /** The pool loop of `checkLinkStatus`. */
  method CheckLinkStatus(url: string, probe: Probe, servers: map<string, DnsServer>) returns (r: CheckResult)
    ensures r == LinkStatus(url, probe, servers)
  {
    if probe.hostname.Err? {
      return CheckFailed(probe.hostname.error);
    }
    var hostname := probe.hostname.value;
    var d: DnsResults := map[];
    var pending := servers.Keys;
    while pending != {}
      invariant pending <= servers.Keys
      invariant d.Keys == servers.Keys - pending
      invariant forall key :: key in d ==> d[key] == PoolResults(servers[key].ips, key, probe)
      decreases pending
    {
      var key :| key in pending;
      d := d[key := PoolResults(servers[key].ips, key, probe)];
      pending := pending - {key};
    }
    assert d == DnsResultsOf(servers, probe);
    var http := HttpResultOf(probe);
    var analysis := AnalyzeResults(hostname, d, http);
    r := Checked(hostname, url, d, http, analysis);
  }

  // ---------------------------------------------------------------------
  // Many links

  datatype Summary = Summary(url: string, hostname: string, status: Status)
  datatype ErrorEntry = ErrorEntry(url: string, error: string)

  datatype BulkResults = BulkResults(
    accessible: seq<Summary>,
    blockedByISP: seq<Summary>,
    filtered: seq<Summary>,
    notResolvable: seq<Summary>,
    errors: seq<ErrorEntry>)

  /** The checks of `urls`, in order, the i-th one seeing `probes(i)`. */
  function Reports(urls: seq<string>, probes: nat -> Probe, servers: map<string, DnsServer>): (rs: seq<CheckResult>)
    ensures |rs| == |urls|
    ensures forall i :: 0 <= i < |urls| ==> rs[i] == LinkStatus(urls[i], probes(i), servers)
  {
    seq(|urls|, i requires 0 <= i < |urls| => LinkStatus(urls[i], probes(i), servers))
  }

  /** The summaries of the successful checks with status `s`, in input order. */
  function Select(urls: seq<string>, reports: seq<CheckResult>, s: Status): (r: seq<Summary>)
    requires |urls| == |reports|
    ensures forall x :: x in r ==> x.status == s
  {
    if urls == [] then []
    else
      var n := |urls| - 1;
      Select(urls[..n], reports[..n], s)
      + (if reports[n].Checked? && reports[n].analysis.status == s
         then [Summary(urls[n], reports[n].hostname, s)] else [])
  }

  /** The failed checks, in input order. */
  function Failures(urls: seq<string>, reports: seq<CheckResult>): seq<ErrorEntry>
    requires |urls| == |reports|
  {
    if urls == [] then []
    else
      var n := |urls| - 1;
      Failures(urls[..n], reports[..n])
      + (if reports[n].CheckFailed? then [ErrorEntry(urls[n], reports[n].error)] else [])
  }

  function BulkOf(urls: seq<string>, reports: seq<CheckResult>): BulkResults
    requires |urls| == |reports|
  {
    BulkResults(
      Select(urls, reports, Accessible),
      Select(urls, reports, BlockedByTelkom),
      Select(urls, reports, FilteredContent),
      Select(urls, reports, NotResolvable),
      Failures(urls, reports))
  }

  /** The "Total Checked" figure of `formatBulkReport`. */
  function TotalChecked(b: BulkResults): nat {
    |b.accessible| + |b.blockedByISP| + |b.filtered| + |b.notResolvable| + |b.errors|
  }

  /** Every URL lands in exactly one list: the five lengths add up to the
      number of URLs, provided no successful check is left `UNKNOWN`. */
  lemma {:induction false} EveryUrlCounted(urls: seq<string>, reports: seq<CheckResult>)
    requires |urls| == |reports|
    requires forall i :: 0 <= i < |reports| && reports[i].Checked? ==> reports[i].analysis.status != Unknown
    ensures TotalChecked(BulkOf(urls, reports)) == |urls|
  {
    if urls != [] {
      var n := |urls| - 1;
      EveryUrlCounted(urls[..n], reports[..n]);
    }
  }

  /** The bulk report of a real run accounts for every URL it was given. */
  lemma BulkTotal(urls: seq<string>, probes: nat -> Probe, servers: map<string, DnsServer>)
    ensures TotalChecked(BulkOf(urls, Reports(urls, probes, servers))) == |urls|
  {
    var rs := Reports(urls, probes, servers);
    forall i | 0 <= i < |rs| && rs[i].Checked? ensures rs[i].analysis.status != Unknown {
      LinkStatusShape(urls[i], probes(i), servers);
    }
    EveryUrlCounted(urls, rs);
  }

  function Push(b: BulkResults, url: string, r: CheckResult): BulkResults {
    if r.CheckFailed? then b.(errors := b.errors + [ErrorEntry(url, r.error)])
    else
      var summary := Summary(url, r.hostname, r.analysis.status);
      match r.analysis.status
      case Accessible => b.(accessible := b.accessible + [summary])
      case BlockedByTelkom => b.(blockedByISP := b.blockedByISP + [summary])
      case FilteredContent => b.(filtered := b.filtered + [summary])
      case NotResolvable => b.(notResolvable := b.notResolvable + [summary])
      case Unknown => b
  }

  lemma SelectPush(urls: seq<string>, reports: seq<CheckResult>, url: string, r: CheckResult, s: Status)
    requires |urls| == |reports|
    ensures Select(urls + [url], reports + [r], s) ==
      Select(urls, reports, s) + (if r.Checked? && r.analysis.status == s then [Summary(url, r.hostname, s)] else [])
  {
    assert (urls + [url])[..|urls|] == urls;
    assert (reports + [r])[..|reports|] == reports;
  }

  lemma FailuresPush(urls: seq<string>, reports: seq<CheckResult>, url: string, r: CheckResult)
    requires |urls| == |reports|
    ensures Failures(urls + [url], reports + [r]) ==
      Failures(urls, reports) + (if r.CheckFailed? then [ErrorEntry(url, r.error)] else [])
  {
    assert (urls + [url])[..|urls|] == urls;
    assert (reports + [r])[..|reports|] == reports;
  }

  /** Filing one more result is what the loop's `Push` does. */
  lemma PushExtends(urls: seq<string>, reports: seq<CheckResult>, url: string, r: CheckResult)
    requires |urls| == |reports|
    ensures BulkOf(urls + [url], reports + [r]) == Push(BulkOf(urls, reports), url, r)
  {
    SelectPush(urls, reports, url, r, Accessible);
    SelectPush(urls, reports, url, r, BlockedByTelkom);
    SelectPush(urls, reports, url, r, FilteredContent);
    SelectPush(urls, reports, url, r, NotResolvable);
    FailuresPush(urls, reports, url, r);
  }

  lemma BulkStep(urls: seq<string>, reports: seq<CheckResult>, i: nat)
    requires |urls| == |reports| && i < |urls|
    ensures BulkOf(urls[..i + 1], reports[..i + 1]) == Push(BulkOf(urls[..i], reports[..i]), urls[i], reports[i])
  {
    PushExtends(urls[..i], reports[..i], urls[i], reports[i]);
    assert urls[..i] + [urls[i]] == urls[..i + 1];
    assert reports[..i] + [reports[i]] == reports[..i + 1];
  }

  lemma ReportStep(urls: seq<string>, probes: nat -> Probe, servers: map<string, DnsServer>, i: nat)
    requires i < |urls|
    ensures var rs := Reports(urls, probes, servers);
      BulkOf(urls[..i + 1], rs[..i + 1]) ==
        Push(BulkOf(urls[..i], rs[..i]), urls[i], LinkStatus(urls[i], probes(i), servers))
  {
    BulkStep(urls, Reports(urls, probes, servers), i);
  }

  /** The (done, total) pairs reported after each of the first `n` checks. */
  function Progress(n: nat, total: nat): (r: seq<(nat, nat)>)
    ensures |r| == n
  {
    if n == 0 then [] else Progress(n - 1, total) + [(n, total)]
  }

  /** The `k`-th report says that `k + 1` of `total` are done. */
  lemma {:induction false} ProgressCounts(n: nat, total: nat)
    ensures forall k :: 0 <= k < n ==> Progress(n, total)[k] == (k + 1, total)
  {
    if n > 0 {
      ProgressCounts(n - 1, total);
      assert forall k :: 0 <= k < n - 1 ==> Progress(n, total)[k] == Progress(n - 1, total)[k];
    }
  }

  /** One iteration of the loop: check URL `i`, file its result, and tell
      the progress callback, when there is one, that `i + 1` are done. */
  method CheckAndRecord(urls: seq<string>, probes: nat -> Probe, servers: map<string, DnsServer>, withProgress: bool,
                        ghost rs: seq<CheckResult>, i: nat, b: BulkResults, progress: seq<(nat, nat)>)
    returns (b': BulkResults, progress': seq<(nat, nat)>)
    requires rs == Reports(urls, probes, servers)
    requires i < |urls| && b == BulkOf(urls[..i], rs[..i])
    requires progress == if withProgress then Progress(i, |urls|) else []
    ensures b' == BulkOf(urls[..i + 1], rs[..i + 1])
    ensures progress' == if withProgress then Progress(i + 1, |urls|) else []
  {
    ReportStep(urls, probes, servers, i);
    var result := CheckLinkStatus(urls[i], probes(i), servers);
    b' := Push(b, urls[i], result);
    progress' := progress;
    if withProgress {
      progress' := progress + [(i + 1, |urls|)];
    }
  }

  /** `checkMultipleLinks`: the URLs are checked one after the other; after
      each one, when a progress callback is given, it is told (done, total). */
  method CheckMultipleLinks(urls: seq<string>, probes: nat -> Probe, servers: map<string, DnsServer>, withProgress: bool)
    returns (b: BulkResults, progress: seq<(nat, nat)>)
    ensures b == BulkOf(urls, Reports(urls, probes, servers))
    ensures progress == if withProgress then Progress(|urls|, |urls|) else []
  {
    ghost var rs := Reports(urls, probes, servers);
    b := BulkResults([], [], [], [], []);
    progress := [];
    var i := 0;
    while i < |urls|
      invariant 0 <= i <= |urls|
      invariant b == BulkOf(urls[..i], rs[..i])
      invariant progress == if withProgress then Progress(i, |urls|) else []
    {
      b, progress := CheckAndRecord(urls, probes, servers, withProgress, rs, i, b, progress);
      i := i + 1;
    }
    assert urls[..i] == urls && rs[..i] == rs;
  }
}
