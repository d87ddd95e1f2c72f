/**
 String helpers that stand for Python's string built-ins: literal matching,
 `str.strip`, `str.lstrip(ch)`, slicing, `", ".join`, and decimal digits.
 */
module Text {

  /** The literal `lit` occurs in `s` at position `k`. */
  predicate LitAt(s: string, k: nat, lit: string) {
    k + |lit| <= |s| && s[k..k + |lit|] == lit
  }

  lemma LitChar(s: string, k: nat, lit: string, t: nat)
    requires LitAt(s, k, lit) && t < |lit|
    ensures s[k + t] == lit[t]
  {
    assert s[k..k + |lit|][t] == s[k + t];
  }

  lemma LitConcat(s: string, k: nat, a: string, b: string)
    ensures LitAt(s, k, a + b) <==> LitAt(s, k, a) && LitAt(s, k + |a|, b)
  {
    if LitAt(s, k, a) && LitAt(s, k + |a|, b) {
      assert s[k..k + |a + b|] == s[k..k + |a|] + s[k + |a|..k + |a| + |b|];
    }
    if LitAt(s, k, a + b) {
      assert s[k..k + |a|] == s[k..k + |a + b|][..|a|];
      assert s[k + |a|..k + |a| + |b|] == s[k..k + |a + b|][|a|..];
    }
  }

  /** A piece of a literal found at `k` is found at the corresponding offset. */
  lemma LitInside(s: string, k: nat, lit: string, off: nat, part: string)
    requires LitAt(s, k, lit) && off + |part| <= |lit| && lit[off..off + |part|] == part
    ensures LitAt(s, k + off, part)
  {
    var whole := s[k..k + |lit|];
    forall t | 0 <= t < |part|
      ensures s[k + off..k + off + |part|][t] == part[t]
    {
      assert whole[off + t] == s[k + off + t];
      assert whole[off..off + |part|][t] == whole[off + t];
    }
  }

  /** Python's `sub in s` for strings, searching from position `k` onwards. */
  function ContainsFrom(s: string, sub: string, k: nat): (b: bool)
    requires k <= |s|
    decreases |s| - k
    ensures b <==> exists i :: k <= i <= |s| && LitAt(s, i, sub)
  {
    if LitAt(s, k, sub) then true
    else if k == |s| then false
    else ContainsFrom(s, sub, k + 1)
  }

  predicate Contains(s: string, sub: string) {
    ContainsFrom(s, sub, 0)
  }

  // ---------------------------------------------------------------------------
  // Slicing and stripping.

  /** `s[:n]` for a non-negative bound: the first `n` characters, or all of `s`. */
  function Take<T>(s: seq<T>, n: nat): (r: seq<T>)
    ensures |r| == if |s| <= n then |s| else n
    ensures r == s[..|r|]
  {
    if |s| <= n then s else s[..n]
  }

  /** The characters `str.isspace()` accepts (Python's whitespace set). */
  predicate IsSpace(c: char) {
    ('\t' <= c <= '\r') || ('\U{1C}' <= c <= ' ') || c == '\U{85}' || c == '\U{A0}' ||
    c == '\U{1680}' || ('\U{2000}' <= c <= '\U{200A}') || c == '\U{2028}' || c == '\U{2029}' ||
    c == '\U{202F}' || c == '\U{205F}' || c == '\U{3000}'
  }

  function StripLeft(s: string): (r: string)
    ensures |r| <= |s| && r == s[|s| - |r|..]
    ensures r == [] || !IsSpace(r[0])
    ensures forall i :: 0 <= i < |s| - |r| ==> IsSpace(s[i])
  {
    if s == [] || !IsSpace(s[0]) then s else StripLeft(s[1..])
  }

  function StripRight(s: string): (r: string)
    ensures |r| <= |s| && r == s[..|r|]
    ensures r == [] || !IsSpace(r[|r| - 1])
    ensures forall i :: |r| <= i < |s| ==> IsSpace(s[i])
  {
    if s == [] || !IsSpace(s[|s| - 1]) then s else StripRight(s[..|s| - 1])
  }

  /** `str.strip()`: drop leading and trailing whitespace. */
  function Strip(s: string): (r: string)
    ensures exists i, j :: (0 <= i <= j <= |s| && r == s[i..j]
      && (forall t :: 0 <= t < i ==> IsSpace(s[t]))
      && (forall t :: j <= t < |s| ==> IsSpace(s[t])))
    ensures r == [] || (!IsSpace(r[0]) && !IsSpace(r[|r| - 1]))
  {
    var left := StripLeft(s);
    var r := StripRight(left);
    var i := |s| - |left|;
    assert r == s[i..i + |r|];
    r
  }

  /** `str.lstrip(c)`: drop every leading occurrence of `c`. */
  function LStripChar(s: string, c: char): (r: string)
    ensures |r| <= |s| && r == s[|s| - |r|..]
    ensures r == [] || r[0] != c
    ensures forall i :: 0 <= i < |s| - |r| ==> s[i] == c
  {
    if s == [] || s[0] != c then s else LStripChar(s[1..], c)
  }

  /** `sep.join(parts)`. */
  function Join(parts: seq<string>, sep: string): (r: string)
    ensures parts == [] ==> r == ""
    ensures |parts| == 1 ==> r == parts[0]
  {
    if parts == [] then ""
    else if |parts| == 1 then parts[0]
    else parts[0] + sep + Join(parts[1..], sep)
  }

  // ---------------------------------------------------------------------------
  // Decimal digits (ASCII only).

  predicate IsDigit(c: char) {
    '0' <= c <= '9'
  }

  function DigitValue(c: char): nat
    requires IsDigit(c)
  {
    (c as int) - ('0' as int)
  }

  function DigitChar(d: nat): (c: char)
    requires d < 10
    ensures IsDigit(c) && DigitValue(c) == d
  {
    (('0' as int) + d) as char
  }

  predicate AllDigits(ds: string) {
    forall i :: 0 <= i < |ds| ==> IsDigit(ds[i])
  }

  /** `int(ds)` for a string of ASCII digits; leading zeros are allowed. */
  function DigitsValue(ds: string): nat
    requires AllDigits(ds)
  {
    if ds == [] then 0 else DigitsValue(ds[..|ds| - 1]) * 10 + DigitValue(ds[|ds| - 1])
  }

  /** The decimal representation of a natural number, without leading zeros. */
  function NatToDigits(n: nat): (ds: string)
    ensures |ds| > 0 && AllDigits(ds)
  {
    if n < 10 then [DigitChar(n)] else NatToDigits(n / 10) + [DigitChar(n % 10)]
  }

  /** Reading back a written number gives the number. */
  lemma {:induction false} DigitsRoundTrip(n: nat)
    ensures DigitsValue(NatToDigits(n)) == n
  {
    var ds := NatToDigits(n);
    if n >= 10 {
      DigitsRoundTrip(n / 10);
      assert ds[..|ds| - 1] == NatToDigits(n / 10);
    }
  }
}
