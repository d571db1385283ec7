/** The part of `URLSearchParams` the scraper uses: an ordered list of
    name/value pairs that `append` extends and `set` overrides, parsed from
    and serialized to `a=1&b=2` text. Percent-encoding is not modelled. */
module Query {
  import opened JsText

  /** The pairs of a `URLSearchParams`, in order; names may repeat. */
  type Params = seq<(string, string)>

  predicate HasKey(q: Params, k: string) {
    exists i :: 0 <= i < |q| && q[i].0 == k
  }

  lemma HasKeyTail(q: Params, k: string)
    requires q != [] && q[0].0 != k
    ensures HasKey(q, k) <==> HasKey(q[1..], k)
  {
    if HasKey(q, k) {
      var i :| 0 <= i < |q| && q[i].0 == k;
      assert q[1..][i - 1].0 == k;
    }
    if HasKey(q[1..], k) {
      var i :| 0 <= i < |q[1..]| && q[1..][i].0 == k;
      assert q[i + 1].0 == k;
    }
  }

  /** `getAll(k)`: the values paired with name `k`, in order. */
  function ValuesOf(q: Params, k: string): (r: seq<string>)
    ensures |r| <= |q|
    ensures r == [] <==> !HasKey(q, k)
  {
    if q == [] then []
    else
      var rest := ValuesOf(q[1..], k);
      if q[0].0 == k then [q[0].1] + rest
      else (HasKeyTail(q, k); rest)
  }

  lemma {:induction false} ValuesOfConcat(a: Params, b: Params, k: string)
    ensures ValuesOf(a + b, k) == ValuesOf(a, k) + ValuesOf(b, k)
  {
    if a == [] {
      assert a + b == b;
    } else {
      assert (a + b)[1..] == a[1..] + b;
      ValuesOfConcat(a[1..], b, k);
    }
  }

  /** `append(k, v)`. */
  function Append(q: Params, k: string, v: string): Params {
    q + [(k, v)]
  }

  /** `append` keeps every earlier value of the name and adds `v` last. */
  lemma AppendValues(q: Params, k: string, v: string, k': string)
    ensures ValuesOf(Append(q, k, v), k') == ValuesOf(q, k') + (if k' == k then [v] else [])
  {
    ValuesOfConcat(q, [(k, v)], k');
  }

  /** Every pair except those named `k`, in order. */
  function RemoveKey(q: Params, k: string): (r: Params)
    ensures forall k' :: ValuesOf(r, k') == if k' == k then [] else ValuesOf(q, k')
  {
    if q == [] then []
    else
      var rest := RemoveKey(q[1..], k);
      var r := if q[0].0 == k then rest else [q[0]] + rest;
      assert q[0].0 != k ==> r[1..] == rest;
      r
  }

  /** The first pair named `k` gets value `v`; later pairs named `k` go. */
  function ReplaceFirst(q: Params, k: string, v: string): (r: Params)
    requires HasKey(q, k)
    ensures forall k' :: ValuesOf(r, k') == if k' == k then [v] else ValuesOf(q, k')
  {
    if q[0].0 == k then
      var r := [(k, v)] + RemoveKey(q[1..], k);
      assert r[1..] == RemoveKey(q[1..], k);
      r
    else
      HasKeyTail(q, k);
      var rest := ReplaceFirst(q[1..], k, v);
      var r := [q[0]] + rest;
      assert r[1..] == rest;
      r
  }

  /** `set(k, v)`: replace the first pair named `k` and remove the others,
      or append when there is none. */
  function Set(q: Params, k: string, v: string): Params {
    if HasKey(q, k) then ReplaceFirst(q, k, v) else Append(q, k, v)
  }

  /** After `set(k, v)` the name `k` has exactly the one value `v`, and every
      other name keeps its values in order. */
  lemma SetValues(q: Params, k: string, v: string, k': string)
    ensures ValuesOf(Set(q, k, v), k') == if k' == k then [v] else ValuesOf(q, k')
  {
    if !HasKey(q, k) {
      AppendValues(q, k, v, k');
    }
  }

  /** Every pair of `extra`, in order, passed to `set`. */
  function SetAll(q: Params, extra: Params): Params {
    if extra == [] then q
    else
      var n := |extra| - 1;
      Set(SetAll(q, extra[..n]), extra[n].0, extra[n].1)
  }

  function Last(s: seq<string>): string
    requires s != []
  {
    s[|s| - 1]
  }

  /** Overriding with `set`: a name that occurs in `extra` ends with only the
      value it last has there; any other name keeps what `q` gave it. */
  lemma {:induction false} SetAllValues(q: Params, extra: Params, k: string)
    ensures ValuesOf(SetAll(q, extra), k) ==
      if HasKey(extra, k) then [Last(ValuesOf(extra, k))] else ValuesOf(q, k)
  {
    if extra != [] {
      var n := |extra| - 1;
      var init, p := extra[..n], extra[n];
      assert extra == init + [p];
      ValuesOfConcat(init, [p], k);
      SetAllValues(q, init, k);
      SetValues(SetAll(q, init), p.0, p.1, k);
      var tail := ValuesOf([p], k);
      assert tail == if p.0 == k then [p.1] else [];
      var vs := ValuesOf(extra, k);
      assert vs == ValuesOf(init, k) + tail;
      if p.0 == k {
        assert Last(vs) == p.1;
      } else {
        assert vs == ValuesOf(init, k);
        assert HasKey(extra, k) == HasKey(init, k);
      }
    }
  }

  /** The `for ... of extra` loop calling `set`. */
  method ApplySet(q: Params, extra: Params) returns (r: Params)
    ensures r == SetAll(q, extra)
  {
    r := q;
    var i := 0;
    while i < |extra|
      invariant 0 <= i <= |extra|
      invariant r == SetAll(q, extra[..i])
    {
      assert extra[..i + 1][..i] == extra[..i];
      r := Set(r, extra[i].0, extra[i].1);
      i := i + 1;
    }
    assert extra[..i] == extra;
  }

  /** The `for ... of extra` loop calling `append`: every pair is kept, so a
      name given twice is sent twice. */
  method ApplyAppend(q: Params, extra: Params) returns (r: Params)
    ensures r == q + extra
    ensures forall k :: ValuesOf(r, k) == ValuesOf(q, k) + ValuesOf(extra, k)
  {
    r := q;
    var i := 0;
    while i < |extra|
      invariant 0 <= i <= |extra|
      invariant r == q + extra[..i]
    {
      assert extra[..i + 1] == extra[..i] + [extra[i]];
      r := Append(r, extra[i].0, extra[i].1);
      i := i + 1;
    }
    assert extra[..i] == extra;
    forall k ensures ValuesOf(r, k) == ValuesOf(q, k) + ValuesOf(extra, k) {
      ValuesOfConcat(q, extra, k);
    }
  }

  // ---------------------------------------------------------------------
  // Text form

  /** `s.split(c)`. */
  function SplitOn(s: string, c: char): (parts: seq<string>)
    ensures |parts| >= 1
    ensures forall i :: 0 <= i < |parts| ==> c !in parts[i]
    decreases |s|
  {
    var p := PrefixBefore(s, c);
    if |p| == |s| then [s] else [p] + SplitOn(s[|p| + 1..], c)
  }

  /** `parts.join(c)`. */
  function Join(parts: seq<string>, c: char): string {
    if parts == [] then ""
    else if |parts| == 1 then parts[0]
    else parts[0] + [c] + Join(parts[1..], c)
  }

  lemma PrefixBeforeJoined(a: string, c: char, b: string)
    requires c !in a
    ensures PrefixBefore(a + [c] + b, c) == a
  {
    var s := a + [c] + b;
    assert s[|a|] == c;
    assert s[..|a|] == a;
  }

  lemma {:induction false} SplitJoin(parts: seq<string>, c: char)
    requires |parts| >= 1
    requires forall i :: 0 <= i < |parts| ==> c !in parts[i]
    ensures SplitOn(Join(parts, c), c) == parts
  {
    if |parts| > 1 {
      var rest := Join(parts[1..], c);
      var s := parts[0] + [c] + rest;
      PrefixBeforeJoined(parts[0], c, rest);
      assert s[|parts[0]| + 1..] == rest;
      SplitJoin(parts[1..], c);
    }
  }

  /** One `name=value` segment, split at its first `=`; no `=` means an
      empty value. */
  function ParseSegment(seg: string): (string, string) {
    var k := PrefixBefore(seg, '=');
    if |k| == |seg| then (seg, "") else (k, seg[|k| + 1..])
  }

  function ParseSegments(segs: seq<string>): Params {
    if segs == [] then []
    else (if segs[0] == [] then [] else [ParseSegment(segs[0])]) + ParseSegments(segs[1..])
  }

  /** `new URLSearchParams(s)`: a leading `?` is dropped, segments are split
      on `&`, and empty segments are skipped. */
  function ParseQuery(s: string): Params {
    var t := if s != [] && s[0] == '?' then s[1..] else s;
    ParseSegments(SplitOn(t, '&'))
  }

  function PairTexts(q: Params): (r: seq<string>)
    ensures |r| == |q|
    ensures forall i :: 0 <= i < |q| ==> r[i] == q[i].0 + "=" + q[i].1
  {
    if q == [] then [] else [q[0].0 + "=" + q[0].1] + PairTexts(q[1..])
  }

  /** `toString()`. */
  function Serialize(q: Params): string {
    Join(PairTexts(q), '&')
  }

  /** The pairs can be written so that they parse back. */
  predicate Writable(q: Params) {
    && (forall i :: 0 <= i < |q| ==> '&' !in q[i].0 && '=' !in q[i].0 && '&' !in q[i].1)
    && (q != [] && q[0].0 != [] ==> q[0].0[0] != '?')
  }

  lemma {:induction false} ParseSegmentsOfPairTexts(q: Params)
    requires forall i :: 0 <= i < |q| ==> '=' !in q[i].0
    ensures ParseSegments(PairTexts(q)) == q
  {
    if q != [] {
      var t := PairTexts(q);
      PrefixBeforeJoined(q[0].0, '=', q[0].1);
      assert t[0] == q[0].0 + ['='] + q[0].1;
      assert t[0][|q[0].0| + 1..] == q[0].1;
      assert t[1..] == PairTexts(q[1..]);
      ParseSegmentsOfPairTexts(q[1..]);
    }
  }

  /** Parsing what `toString` wrote gives the same pairs back. */
  lemma ParseSerialize(q: Params)
    requires Writable(q)
    ensures ParseQuery(Serialize(q)) == q
  {
    var t := PairTexts(q);
    if q == [] {
      assert Serialize(q) == "";
      assert SplitOn("", '&') == [""];
      assert ParseSegments([""]) == [] + ParseSegments([]);
    } else {
      SplitJoin(t, '&');
      assert Serialize(q)[0] == t[0][0];
      ParseSegmentsOfPairTexts(q);
    }
  }
}
