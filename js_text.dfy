/** The parts of JavaScript's string and number semantics the bot relies on:
    `includes`, `startsWith`, `trim`, `split(c)[0]`, `replace(/\./g, '')`,
    `toLowerCase` on ASCII, `parseInt` with no radix, the `/\d+/` scan and
    the decimal rendering of an integer (`${n}`). */
module JsText {
  import opened Wrappers

  // ---------------------------------------------------------------------
  // Substrings

  /** `needle` occurs in `s` starting at index `i`. */
  predicate OccursAt(s: string, needle: string, i: int) {
    0 <= i && i + |needle| <= |s| && s[i..i + |needle|] == needle
  }

  /** `s.includes(needle)`: some suffix of `s` starts with `needle`. */
  predicate Contains(s: string, needle: string)
    decreases |s|
  {
    |needle| <= |s| && (s[..|needle|] == needle || (s != [] && Contains(s[1..], needle)))
  }

  /** `includes` holds exactly when the needle occurs at some index. */
  lemma {:induction false} ContainsIff(s: string, needle: string)
    ensures Contains(s, needle) <==> exists i :: OccursAt(s, needle, i)
    decreases |s|
  {
    if |needle| <= |s| {
      if s[..|needle|] == needle {
        assert OccursAt(s, needle, 0);
      } else {
        ContainsIff(s[1..], needle);
        if Contains(s[1..], needle) {
          var i :| OccursAt(s[1..], needle, i);
          assert s[1..][i..i + |needle|] == s[i + 1..i + 1 + |needle|];
          assert OccursAt(s, needle, i + 1);
        }
        if exists i :: OccursAt(s, needle, i) {
          var i :| OccursAt(s, needle, i);
          assert s[1..][i - 1..i - 1 + |needle|] == s[i..i + |needle|];
          assert OccursAt(s[1..], needle, i - 1);
        }
      }
    }
  }

  /** `s.startsWith(prefix)`. */
  predicate StartsWith(s: string, prefix: string) {
    |prefix| <= |s| && s[..|prefix|] == prefix
  }

  /** `s.split(c)[0]`: everything before the first `c`, or all of `s`. */
  function PrefixBefore(s: string, c: char): (r: string)
    ensures |r| <= |s| && r == s[..|r|]
    ensures c !in r
    ensures |r| < |s| ==> s[|r|] == c
  {
    if s == [] || s[0] == c then [] else [s[0]] + PrefixBefore(s[1..], c)
  }

  /** `s.replace(/\./g, '')`. */
  function StripDots(s: string): (r: string)
    ensures forall c :: c in r <==> c in s && c != '.'
    ensures |r| <= |s|
  {
    if s == [] then []
    else (if s[0] == '.' then [] else [s[0]]) + StripDots(s[1..])
  }

  /** `replace` works character by character: removing the dots from a
      concatenation removes them from each part. */
  lemma {:induction false} StripDotsConcat(a: string, b: string)
    ensures StripDots(a + b) == StripDots(a) + StripDots(b)
  {
    if a == [] {
      assert a + b == b;
    } else {
      assert (a + b)[0] == a[0];
      assert (a + b)[1..] == a[1..] + b;
      StripDotsConcat(a[1..], b);
    }
  }

  /** One character: a dot goes, anything else stays. With `StripDotsConcat`
      this fixes the result, order and repetitions included. */
  lemma StripDotsChar(c: char)
    ensures StripDots([c]) == if c == '.' then [] else [c]
  {
    assert [c][1..] == [];
  }

  /** `s.toLowerCase()` for ASCII letters; other characters are kept. */
  function ToLowerAscii(s: string): (r: string)
    ensures |r| == |s|
    ensures forall i :: 0 <= i < |s| ==> r[i] == (if 'A' <= s[i] <= 'Z' then (s[i] as int + 32) as char else s[i])
  {
    if s == [] then []
    else [if 'A' <= s[0] <= 'Z' then (s[0] as int + 32) as char else s[0]] + ToLowerAscii(s[1..])
  }

  // ---------------------------------------------------------------------
  // Whitespace and trim

  /** ECMAScript WhiteSpace and LineTerminator code points: what `trim` and
      `parseInt` skip. */
  predicate IsSpace(c: char) {
    c == '\t' || c == '\n' || c == '\U{B}' || c == '\U{C}' || c == '\r' || c == ' '
    || c == '\U{A0}' || c == '\U{1680}' || ('\U{2000}' <= c <= '\U{200A}')
    || c == '\U{2028}' || c == '\U{2029}' || c == '\U{202F}' || c == '\U{205F}'
    || c == '\U{3000}' || c == '\U{FEFF}'
  }

  /** `s.trimStart()`. What the function promises is kept small; that the
      result is a suffix of `s` and that everything cut off is space is
      `TrimStartSuffix`, since a contract relating a string to slices of
      itself lets the solver unfold slices of slices without end. */
  function TrimStart(s: string): (r: string)
    ensures |r| <= |s|
    ensures r != [] ==> !IsSpace(r[0])
  {
    if s != [] && IsSpace(s[0]) then TrimStart(s[1..]) else s
  }

  lemma {:induction false} TrimStartSuffix(s: string)
    ensures TrimStart(s) == s[|s| - |TrimStart(s)|..]
    ensures forall k :: 0 <= k < |s| - |TrimStart(s)| ==> IsSpace(s[k])
  {
    if s != [] && IsSpace(s[0]) {
      var r := TrimStart(s);
      TrimStartSuffix(s[1..]);
      assert s[1..][|s| - 1 - |r|..] == s[|s| - |r|..];
      assert forall k :: 1 <= k < |s| - |r| ==> s[k] == s[1..][k - 1];
    }
  }

  /** `s.trimEnd()`; `TrimEndPrefix` says that the result is a prefix of `s`
      and that everything cut off is space. */
  function TrimEnd(s: string): (r: string)
    ensures |r| <= |s|
    ensures r != [] ==> !IsSpace(r[|r| - 1])
  {
    if s != [] && IsSpace(s[|s| - 1]) then TrimEnd(s[..|s| - 1]) else s
  }

  lemma {:induction false} TrimEndPrefix(s: string)
    ensures TrimEnd(s) == s[..|TrimEnd(s)|]
    ensures forall k :: |TrimEnd(s)| <= k < |s| ==> IsSpace(s[k])
  {
    if s != [] && IsSpace(s[|s| - 1]) {
      var r := TrimEnd(s);
      TrimEndPrefix(s[..|s| - 1]);
      assert forall k :: |r| <= k < |s| - 1 ==> s[k] == s[..|s| - 1][k];
    }
  }

  /** `s.trim()`. */
  function Trim(s: string): (r: string) {
    TrimEnd(TrimStart(s))
  }

  /** What `trim` returns is a slice of its input with no space at either end,
      and it is empty only when its input is all space. */
  lemma TrimShape(s: string)
    ensures exists i, j :: 0 <= i <= j <= |s| && Trim(s) == s[i..j]
    ensures Trim(s) != [] ==> !IsSpace(Trim(s)[0]) && !IsSpace(Trim(s)[|Trim(s)| - 1])
    ensures Trim(s) == [] ==> forall k :: 0 <= k < |s| ==> IsSpace(s[k])
  {
    var t := TrimStart(s);
    var i := |s| - |t|;
    TrimStartSuffix(s);
    TrimEndPrefix(t);
    assert Trim(s) == s[i..i + |Trim(s)|];
    assert 0 <= i <= i + |Trim(s)| <= |s|;
    if Trim(s) == [] {
      assert t == [];
    }
  }

  lemma TrimIdempotent(s: string)
    ensures Trim(Trim(s)) == Trim(s)
  {
    var r := Trim(s);
    TrimEndPrefix(TrimStart(s));
    assert TrimStart(r) == r;
  }

  // ---------------------------------------------------------------------
  // Numbers

  /** The value of a digit character in bases up to 16; 99 for anything else. */
  function DigitVal(c: char): nat {
    if '0' <= c <= '9' then c as nat - '0' as nat
    else if 'a' <= c <= 'f' then c as nat - 'a' as nat + 10
    else if 'A' <= c <= 'F' then c as nat - 'A' as nat + 10
    else 99
  }

  predicate IsDigitIn(c: char, radix: nat) {
    DigitVal(c) < radix
  }

  /** The longest prefix of `s` made of digits of the given radix. */
  function DigitPrefix(s: string, radix: nat): (d: string)
    ensures |d| <= |s| && d == s[..|d|]
    ensures forall i :: 0 <= i < |d| ==> IsDigitIn(d[i], radix)
    ensures |d| < |s| ==> !IsDigitIn(s[|d|], radix)
  {
    if s != [] && IsDigitIn(s[0], radix) then [s[0]] + DigitPrefix(s[1..], radix) else []
  }

  function DigitsValue(d: string, radix: nat): nat {
    if d == [] then 0 else DigitsValue(d[..|d| - 1], radix) * radix + DigitVal(d[|d| - 1])
  }

  /** The digits after any sign: a `0x`/`0X` prefix switches to base 16,
      then the longest run of digits is read. `None` when there is none. */
  function ParseUnsigned(u: string): Option<nat> {
    var hex := |u| >= 2 && u[0] == '0' && (u[1] == 'x' || u[1] == 'X');
    var radix := if hex then 16 else 10;
    var digits := DigitPrefix(if hex then u[2..] else u, radix);
    if digits == [] then None else Some(DigitsValue(digits, radix))
  }

  /** JavaScript's `parseInt(s)` with no radix: skip leading space, take an
      optional sign, then read the digits. `None` is `NaN`. ("-0" gives
      `Some(0)`: both are falsy.) */
  function ParseInt(s: string): Option<int> {
    var t := TrimStart(s);
    var negative := t != [] && t[0] == '-';
    var u := if t != [] && (t[0] == '-' || t[0] == '+') then t[1..] else t;
    match ParseUnsigned(u)
    case None => None
    case Some(v) => var w: int := v; Some(if negative then -w else w)
  }

  /** `parsed || fallback` for a number: `NaN` and zero are falsy. */
  function OrElse(parsed: Option<int>, fallback: int): (r: int)
    ensures parsed.Some? && parsed.value != 0 ==> r == parsed.value
    ensures parsed.None? || parsed.value == 0 ==> r == fallback
  {
    if parsed.Some? && parsed.value != 0 then parsed.value else fallback
  }

  function DigitChar(d: nat): char
    requires d < 10
  {
    "0123456789"[d]
  }

  /** The decimal rendering of a natural number. */
  function NatToString(n: nat): (s: string)
    ensures |s| >= 1
    ensures forall i :: 0 <= i < |s| ==> '0' <= s[i] <= '9'
  {
    if n < 10 then [DigitChar(n)] else NatToString(n / 10) + [DigitChar(n % 10)]
  }

  /** `${i}` for an integer. */
  function IntToString(i: int): string {
    if i < 0 then "-" + NatToString(-i) else NatToString(i)
  }

  lemma {:induction false} DigitPrefixOfDigits(s: string)
    requires forall i :: 0 <= i < |s| ==> '0' <= s[i] <= '9'
    ensures DigitPrefix(s, 10) == s
  {
    if s != [] {
      DigitPrefixOfDigits(s[1..]);
    }
  }

  lemma DigitValOfDigitChar(d: nat)
    requires d < 10
    ensures DigitVal(DigitChar(d)) == d
  {
  }

  lemma {:induction false} DigitsValueOfNatToString(n: nat)
    ensures DigitsValue(NatToString(n), 10) == n
  {
    var s := NatToString(n);
    if n < 10 {
      DigitValOfDigitChar(n);
      assert s[..0] == [];
    } else {
      var q, d := n / 10, n % 10;
      assert s == NatToString(q) + [DigitChar(d)];
      assert s[..|s| - 1] == NatToString(q);
      DigitValOfDigitChar(d);
      DigitsValueOfNatToString(q);
      assert DigitsValue(s, 10) == q * 10 + d;
    }
  }

  lemma ParseUnsignedOfNatToString(n: nat)
    ensures ParseUnsigned(NatToString(n)) == Some(n)
  {
    var d := NatToString(n);
    DigitPrefixOfDigits(d);
    DigitsValueOfNatToString(n);
    assert !(|d| >= 2 && (d[1] == 'x' || d[1] == 'X'));
  }

  lemma TrimStartKeeps(s: string)
    requires s != [] && !IsSpace(s[0])
    ensures TrimStart(s) == s
  {
  }

  lemma ParseIntOfDigits(d: string, v: nat)
    requires d != [] && '0' <= d[0] <= '9'
    requires ParseUnsigned(d) == Some(v)
    ensures ParseInt(d) == Some(v)
  {
    TrimStartKeeps(d);
  }

  lemma ParseIntOfNegDigits(d: string, v: nat)
    requires d != [] && '0' <= d[0] <= '9'
    requires ParseUnsigned(d) == Some(v)
    ensures ParseInt("-" + d) == Some(-(v as int))
  {
    var m := "-" + d;
    TrimStartKeeps(m);
    assert m[1..] == d;
  }

  /** `parseInt` reads back every integer that `${i}` writes. */
  lemma ParseIntOfIntToString(i: int)
    ensures ParseInt(IntToString(i)) == Some(i)
  {
    var n: nat := if i < 0 then -i else i;
    ParseUnsignedOfNatToString(n);
    if i < 0 { ParseIntOfNegDigits(NatToString(n), n); } else { ParseIntOfDigits(NatToString(n), n); }
  }

  /** `text.match(/\d+/)[0]`: the first run of decimal digits, if any. */
  function FirstDigitRun(s: string): (r: Option<string>)
    ensures r.Some? ==> r.value != [] && forall i :: 0 <= i < |r.value| ==> '0' <= r.value[i] <= '9'
    ensures r.None? <==> forall i :: 0 <= i < |s| ==> !('0' <= s[i] <= '9')
  {
    if s == [] then None
    else if '0' <= s[0] <= '9' then Some(DigitPrefix(s, 10))
    else
      var r := FirstDigitRun(s[1..]);
      assert forall i :: 1 <= i < |s| ==> s[i] == s[1..][i - 1];
      r
  }

  /** The run `match(/\d+/)` finds starts at the first digit of `s` and, by
      `DigitPrefix`, is the longest run of digits from there. */
  lemma {:induction false} FirstDigitRunAt(s: string, i: nat)
    requires i < |s| && '0' <= s[i] <= '9'
    requires forall k :: 0 <= k < i ==> !('0' <= s[k] <= '9')
    ensures FirstDigitRun(s) == Some(DigitPrefix(s[i..], 10))
  {
    if i > 0 {
      assert forall k :: 0 <= k < i - 1 ==> s[1..][k] == s[k + 1];
      FirstDigitRunAt(s[1..], i - 1);
      assert s[1..][i - 1..] == s[i..];
    }
  }

  lemma {:induction false} DigitPrefixThen(d: string, t: string)
    requires forall i :: 0 <= i < |d| ==> '0' <= d[i] <= '9'
    requires t == [] || !IsDigitIn(t[0], 10)
    ensures DigitPrefix(d + t, 10) == d
  {
    if d != [] {
      assert (d + t)[1..] == d[1..] + t;
      DigitPrefixThen(d[1..], t);
    } else {
      assert d + t == t;
    }
  }

  /** With no `0x` in front, the digits are read in base 10. */
  lemma ParseUnsignedDecimal(u: string, d: string)
    requires !(|u| >= 2 && u[0] == '0' && (u[1] == 'x' || u[1] == 'X'))
    requires d != [] && DigitPrefix(u, 10) == d
    ensures ParseUnsigned(u) == Some(DigitsValue(d, 10))
  {
  }

  /** `parseInt` reads the leading decimal digits and ignores whatever text
      follows them, unless a lone `0` before `x` makes it hexadecimal. */
  lemma ParseIntLeadingDigits(d: string, t: string)
    requires d != [] && forall i :: 0 <= i < |d| ==> '0' <= d[i] <= '9'
    requires t == [] || !IsDigitIn(t[0], 10)
    requires !(d == "0" && t != [] && (t[0] == 'x' || t[0] == 'X'))
    ensures ParseInt(d + t) == Some(DigitsValue(d, 10))
  {
    var u := d + t;
    assert u[0] == d[0];
    DigitPrefixThen(d, t);
    if |u| >= 2 && u[0] == '0' {
      if |d| >= 2 {
        assert u[1] == d[1];
      } else {
        assert u[1] == t[0];
      }
    }
    ParseUnsignedDecimal(u, d);
    ParseIntOfDigits(u, DigitsValue(d, 10));
  }
}
