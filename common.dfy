/**
 * Option/Result wrappers and the character and number helpers shared by the frame codec, the address codec
 * and the payload parsers: Python-style slicing, digit classes, and
 * fixed-width decimal/hexadecimal rendering and parsing (the `%02d`,
 * `{:02X}` and `int(s, 16)` idioms of the protocol code).
 */
module Common {

  datatype Option<T> = None | Some(value: T)

  /** The outcome of an operation that may raise: Err carries the exception. */
  datatype Result<T, E> = Ok(value: T) | Err(error: E)

  /** Python's `s[i:j]` for non-negative bounds: out-of-range bounds are clamped. */
  function PySlice(s: string, i: nat, j: nat): (r: string)
    ensures |r| == if j <= i || |s| <= i then 0 else (if j <= |s| then j else |s|) - i
    ensures i <= j <= |s| ==> r == s[i..j]
    ensures forall k :: 0 <= k < |r| ==> r[k] == s[i + k]
  {
    var hi := if j <= |s| then j else |s|;
    var lo := if i <= hi then i else hi;
    s[lo..hi]
  }

  /** Python's `s[i:]`. */
  function PyTail(s: string, i: nat): (r: string)
    ensures i <= |s| ==> r == s[i..]
    ensures |s| <= i ==> r == ""
  {
    if i <= |s| then s[i..] else ""
  }

  /** Python's `s[-n:]`. */
  function PyLast(s: string, n: nat): (r: string)
    ensures |r| == if n <= |s| then n else |s|
    ensures r == s[|s| - |r|..]
  {
    if n <= |s| then s[|s| - n..] else s
  }

  predicate IsAsciiDigit(c: char) { '0' <= c <= '9' }

  predicate IsUpperHex(c: char) { '0' <= c <= '9' || 'A' <= c <= 'F' }

  predicate AllDigits(s: string) { forall k :: 0 <= k < |s| ==> IsAsciiDigit(s[k]) }

  predicate AllUpperHex(s: string) { forall k :: 0 <= k < |s| ==> IsUpperHex(s[k]) }

  /** The value of one digit character, in any base up to 16; -1 for a non-digit. */
  function CharValue(c: char): (v: int)
    ensures -1 <= v < 16
    ensures IsAsciiDigit(c) <==> 0 <= v < 10
    ensures IsUpperHex(c) ==> 0 <= v
  {
    if '0' <= c <= '9' then c as int - '0' as int
    else if 'A' <= c <= 'F' then c as int - 'A' as int + 10
    else if 'a' <= c <= 'f' then c as int - 'a' as int + 10
    else -1
  }

  predicate IsDigitIn(c: char, base: nat) { 0 <= CharValue(c) < base }

  predicate AllDigitsIn(s: string, base: nat) { forall k :: 0 <= k < |s| ==> IsDigitIn(s[k], base) }

  /** The upper-case digit character for `d` (as `%d` and `%X` print it). */
  function DigitChar(d: nat): (c: char)
    requires d < 16
    ensures CharValue(c) == d && IsUpperHex(c)
    ensures d < 10 ==> IsAsciiDigit(c)
  {
    if d < 10 then ('0' as int + d) as char else ('A' as int + d - 10) as char
  }

  function Pow(b: nat, e: nat): (r: nat)
    ensures b >= 1 ==> r >= 1
  {
    if e == 0 then 1 else b * Pow(b, e - 1)
  }

  /** The positional value of a digit string in `base` (most significant first). */
  function ValueIn(s: string, base: nat): (v: nat)
    requires AllDigitsIn(s, base)
  {
    if |s| == 0 then 0
    else
      assert forall k :: 0 <= k < |s| - 1 ==> s[..|s| - 1][k] == s[k];
      ValueIn(s[..|s| - 1], base) * base + CharValue(s[|s| - 1])
  }

  /**
   * Python's `int(s, base)` on a plain digit string, which is all its callers
   * pass: the value of a non-empty string of digits of the base, else None.
   */
  function ParseInt(s: string, base: nat): (r: Option<nat>)
    ensures r.Some? <==> |s| > 0 && AllDigitsIn(s, base)
  {
    if |s| > 0 && AllDigitsIn(s, base) then Some(ValueIn(s, base)) else None
  }

  /** The digits of `n` in `base` without leading zeros ("0" for zero). */
  function Render(n: nat, base: nat): (s: string)
    requires 2 <= base <= 16
    ensures |s| >= 1 && AllDigitsIn(s, base) && AllUpperHex(s)
    ensures base == 10 ==> AllDigits(s)
  {
    if n < base then [DigitChar(n)]
    else
      Recombine(n, base);
      var r, c := Render(n / base, base), DigitChar(n % base);
      assert forall k :: 0 <= k < |r| ==> (r + [c])[k] == r[k];
      r + [c]
  }

  /** Left-pads with '0' up to `w` characters; a longer string is kept whole. */
  function PadZeros(s: string, w: nat): (r: string)
    ensures |r| == if |s| >= w then |s| else w
    ensures exists z :: 0 <= z <= |r| && r == Zeros(z) + s
  {
    if |s| >= w then (assert s == Zeros(0) + s; s) else Zeros(w - |s|) + s
  }

  function Zeros(n: nat): (r: string)
    ensures |r| == n && forall k :: 0 <= k < n ==> r[k] == '0'
  {
    if n == 0 then "" else "0" + Zeros(n - 1)
  }

  /** `f"{n:0{w}d}"` for base 10, `f"{n:0{w}X}"` for base 16. */
  function Format(n: nat, base: nat, w: nat): (s: string)
    requires 2 <= base <= 16
    ensures |s| >= w && AllDigitsIn(s, base) && AllUpperHex(s)
    ensures base == 10 ==> AllDigits(s)
  {
    var r := Render(n, base);
    var p := PadZeros(r, w);
    var z :| 0 <= z <= |p| && p == Zeros(z) + r;
    assert forall k :: 0 <= k < |p| ==> p[k] == (if k < z then '0' else r[k - z]);
    p
  }

  lemma {:induction false} ValueOfRender(n: nat, base: nat)
    requires 2 <= base <= 16
    ensures ValueIn(Render(n, base), base) == n
    decreases n
  {
    if n < base {
      ValueOfDigit(n, base);
    } else {
      var q, r := n / base, n % base;
      Recombine(n, base);
      ValueOfRender(q, base);
      var t := Render(q, base);
      assert Render(n, base) == t + [DigitChar(r)];
      ValueAppend(t, DigitChar(r), base);
    }
  }

  lemma ValueOfDigit(n: nat, base: nat)
    requires 2 <= base <= 16 && n < base
    ensures ValueIn(Render(n, base), base) == n
  {
    var c := DigitChar(n);
    assert Render(n, base) == [c];
    assert [c][..0] == [];
    assert ValueIn([c], base) == ValueIn([], base) * base + CharValue(c);
  }

  lemma {:induction false} ValueBelowPow(s: string, base: nat)
    requires 2 <= base && AllDigitsIn(s, base)
    ensures ValueIn(s, base) < Pow(base, |s|)
    decreases |s|
  {
    if |s| > 0 {
      var t := s[..|s| - 1];
      ValueBelowPow(t, base);
      assert s == t + [s[|s| - 1]];
      ValueAppend(t, s[|s| - 1], base);
      StepBound(ValueIn(t, base), CharValue(s[|s| - 1]), base, Pow(base, |t|));
      assert Pow(base, |s|) == base * Pow(base, |t|);
    }
  }

  lemma ValueAppend(t: string, c: char, base: nat)
    requires AllDigitsIn(t, base) && IsDigitIn(c, base)
    ensures AllDigitsIn(t + [c], base)
    ensures ValueIn(t + [c], base) == ValueIn(t, base) * base + CharValue(c)
  {
    assert (t + [c])[..|t|] == t;
  }

  lemma {:induction false} ValueIgnoresLeadingZeros(z: nat, s: string, base: nat)
    requires 2 <= base <= 16 && AllDigitsIn(s, base)
    ensures AllDigitsIn(Zeros(z) + s, base)
    ensures ValueIn(Zeros(z) + s, base) == ValueIn(s, base)
    decreases |s|
  {
    var t := Zeros(z) + s;
    assert forall k :: 0 <= k < |t| ==> t[k] == (if k < z then '0' else s[k - z]);
    if |s| == 0 {
      ZerosValue(z, base);
      assert t == Zeros(z);
    } else {
      assert t[..|t| - 1] == Zeros(z) + s[..|s| - 1];
      ValueIgnoresLeadingZeros(z, s[..|s| - 1], base);
    }
  }

  lemma {:induction false} ZerosValue(z: nat, base: nat)
    requires 2 <= base <= 16
    ensures AllDigitsIn(Zeros(z), base) && ValueIn(Zeros(z), base) == 0
  {
    if z > 0 {
      assert Zeros(z)[..z - 1] == Zeros(z - 1);
      ZerosValue(z - 1, base);
    }
  }

  /** Formatting then parsing gives the number back: `int(f"{n:0{w}X}", 16) == n`. */
  lemma ParseFormat(n: nat, base: nat, w: nat)
    requires 2 <= base <= 16
    ensures ParseInt(Format(n, base, w), base) == Some(n)
  {
    var r := Render(n, base);
    var p := PadZeros(r, w);
    var z :| 0 <= z <= |p| && p == Zeros(z) + r;
    ValueOfRender(n, base);
    ValueIgnoresLeadingZeros(z, r, base);
  }

  /** A number below base^w renders in at most w digits. */
  lemma {:induction false} RenderLength(n: nat, base: nat, w: nat)
    requires 2 <= base <= 16 && n < Pow(base, w)
    ensures |Render(n, base)| <= if w == 0 then 1 else w
    decreases n
  {
    if n >= base {
      assert Pow(base, 0) == 1 && Pow(base, 1) == base;
      assert w >= 2;
      Recombine(n, base);
      QuotientBelowPow(n, base, w);
      RenderLength(n / base, base, w - 1);
    }
  }

  /** A number below base^w formats to exactly w characters. */
  lemma FormatWidth(n: nat, base: nat, w: nat)
    requires 2 <= base <= 16 && w >= 1 && n < Pow(base, w)
    ensures |Format(n, base, w)| == w
  {
    RenderLength(n, base, w);
  }

  /** Parsing a fixed-width digit string and formatting it back at that width is the identity. */
  lemma {:induction false} FormatValue(s: string, base: nat)
    requires 2 <= base <= 16 && |s| >= 1 && AllDigitsIn(s, base) && AllUpperHex(s)
    ensures Format(ValueIn(s, base), base, |s|) == s
  {
    var n := ValueIn(s, base);
    ValueBelowPow(s, base);
    FormatWidth(n, base, |s|);
    ParseFormat(n, base, |s|);
    DigitsInjective(Format(n, base, |s|), s, base);
  }

  /** Two upper-case digit strings of equal length with equal value are equal. */
  lemma {:induction false} DigitsInjective(a: string, b: string, base: nat)
    requires 2 <= base <= 16 && |a| == |b|
    requires AllDigitsIn(a, base) && AllDigitsIn(b, base) && AllUpperHex(a) && AllUpperHex(b)
    requires ValueIn(a, base) == ValueIn(b, base)
    ensures a == b
    decreases |a|
  {
    if |a| > 0 {
      var n := |a| - 1;
      var da, db := CharValue(a[n]), CharValue(b[n]);
      var ha, hb := ValueIn(a[..n], base), ValueIn(b[..n], base);
      assert ha * base + da == hb * base + db;
      assert da == db && ha == hb by {
        DivModUnique(ha, da, hb, db, base);
      }
      DigitsInjective(a[..n], b[..n], base);
      UpperHexInjective(a[n], b[n]);
      assert a == a[..n] + [a[n]] && b == b[..n] + [b[n]];
    }
  }

  lemma DivModUnique(q1: nat, r1: nat, q2: nat, r2: nat, m: nat)
    requires m > 0 && r1 < m && r2 < m && q1 * m + r1 == q2 * m + r2
    ensures q1 == q2 && r1 == r2
  {
    if q1 < q2 {
      MulLe(q1 + 1, q2, m);
    } else if q2 < q1 {
      MulLe(q2 + 1, q1, m);
    }
  }

  lemma QuotientBelowPow(n: nat, base: nat, w: nat)
    requires 2 <= base && 1 <= w && n < Pow(base, w)
    ensures n / base < Pow(base, w - 1)
  {
    var p := Pow(base, w - 1);
    assert Pow(base, w) == base * p;
    DivMod(n, base);
    if n / base >= p {
      MulLe(p, n / base, base);
    }
  }

  lemma Recombine(n: nat, base: nat)
    requires 2 <= base <= n
    ensures (n / base) * base + n % base == n && n % base < base && n / base < n
  {
  }

  lemma StepBound(hi: nat, d: nat, base: nat, p: nat)
    requires hi < p && d < base
    ensures hi * base + d < base * p
  {
    MulLe(hi + 1, p, base);
  }

  lemma MulLe(a: nat, b: nat, c: nat)
    requires a <= b
    ensures a * c <= b * c
  {
    var d := b - a;
    assert b * c == a * c + d * c;
  }

  lemma DivMod(n: nat, m: nat)
    requires m > 0
    ensures n == (n / m) * m + n % m && 0 <= n % m < m
  {
  }

  lemma UpperHexInjective(c: char, d: char)
    requires IsUpperHex(c) && IsUpperHex(d) && CharValue(c) == CharValue(d)
    ensures c == d
  {
  }

  // ------------------------------------------------------------ str methods

  /** The characters `str.strip()` removes: Python's whitespace, `str.isspace()`. */
  predicate IsSpace(c: char)
  {
    c == ' ' || ('\t' <= c <= '\r') || ('\U{001C}' <= c <= '\U{001F}')
    || c == '\U{0085}' || c == '\U{00A0}' || c == '\U{1680}' || ('\U{2000}' <= c <= '\U{200A}')
    || c == '\U{2028}' || c == '\U{2029}' || c == '\U{202F}' || c == '\U{205F}' || c == '\U{3000}'
  }

  /** Index of the first non-whitespace character at or after `i`. */
  function SkipSpaces(s: string, i: nat): (j: nat)
    requires i <= |s|
    ensures i <= j <= |s| && (j < |s| ==> !IsSpace(s[j]))
    ensures forall k :: i <= k < j ==> IsSpace(s[k])
    decreases |s| - i
  {
    if i < |s| && IsSpace(s[i]) then SkipSpaces(s, i + 1) else i
  }

  /** End of `s[lo..hi]` once its trailing whitespace is dropped. */
  function TrimEnd(s: string, lo: nat, hi: nat): (e: nat)
    requires lo <= hi <= |s|
    ensures lo <= e <= hi && (lo < e ==> !IsSpace(s[e - 1]))
    ensures forall k :: e <= k < hi ==> IsSpace(s[k])
    decreases hi
  {
    if lo < hi && IsSpace(s[hi - 1]) then TrimEnd(s, lo, hi - 1) else hi
  }

  predicate IsStripped(s: string) { |s| > 0 ==> !IsSpace(s[0]) && !IsSpace(s[|s| - 1]) }

  /** `s` is `r` at offset `i` with only whitespace around it. */
  predicate SpacedAt(s: string, i: int, r: string)
  {
    0 <= i <= |s| - |r| && r == s[i..i + |r|]
    && (forall k :: 0 <= k < i ==> IsSpace(s[k]))
    && (forall k :: i + |r| <= k < |s| ==> IsSpace(s[k]))
  }

  /** `str.strip()`: the longest middle slice without surrounding whitespace. */
  function Strip(s: string): (r: string)
    ensures IsStripped(r)
    ensures SpacedAt(s, SkipSpaces(s, 0), r)
  {
    var i := SkipSpaces(s, 0);
    var e := TrimEnd(s, i, |s|);
    assert i < e ==> s[i..e][0] == s[i];
    s[i..e]
  }

  /**
   * `Strip` is determined by what it promises: a stripped string with only
   * whitespace around it is the strip of the whole.
   */
  lemma StripUnique(s: string, i: nat, r: string)
    requires SpacedAt(s, i, r) && IsStripped(r)
    ensures Strip(s) == r
  {
    var j := SkipSpaces(s, 0);
    if |r| > 0 {
      assert s[i] == r[0] && s[i + |r| - 1] == r[|r| - 1];
      assert j == i;
      assert TrimEnd(s, i, |s|) == i + |r|;
    } else {
      assert j == |s|;
    }
  }

  /** A stripped string is its own strip. */
  lemma StripStripped(s: string)
    requires IsStripped(s)
    ensures Strip(s) == s
  {
    assert s[0..|s|] == s;
    StripUnique(s, 0, s);
  }

  /** A field that follows `prev` inside `whole` sits at offset `|prev|`. */
  lemma FieldAt(prev: string, x: string, whole: string)
    requires prev + x <= whole
    ensures |prev| + |x| <= |whole| && whole[|prev|..|prev| + |x|] == x
  {
    assert whole[..|prev| + |x|] == prev + x;
    assert (prev + x)[|prev|..] == x;
  }

  /** A slice of a suffix is a slice of the whole, shifted by where the suffix starts. */
  lemma Shift(s: string, t: string, k: nat, i: nat, j: nat)
    requires k <= |s| && s[k..] == t && i <= j <= |t|
    ensures k + j <= |s| && s[k + i..k + j] == t[i..j]
  {
    assert s[k + i..k + j] == s[k..][i..j];
  }

  /** `s.partition(c)`: the text before the first `c`, whether it occurs, and the rest. */
  function Partition(s: string, c: char): (r: (string, bool, string))
    ensures c !in r.0
    ensures r.1 ==> s == r.0 + [c] + r.2
    ensures !r.1 ==> r.0 == s && r.2 == ""
  {
    if |s| == 0 then ("", false, "")
    else if s[0] == c then ("", true, s[1..])
    else
      var p := Partition(s[1..], c);
      ([s[0]] + p.0, p.1, p.2)
  }
}
