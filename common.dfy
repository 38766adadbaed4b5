/** Values and Python built-in behaviour shared by the gateway's modules: optional values,
    the scalar JSON values that filters and request parameters carry, Python's slicing,
    floor division, `str` of an integer and `str.split(sep)[0]`. */
module Common {

  /** A possibly absent value: a missing dictionary key, a query argument Flask could not
      find or convert. */
  datatype Option<+T> = None | Some(value: T) {

    /** `d.get(key, default)`: the value when present, the default otherwise. */
    function GetOr(default: T): T {
      match this
      case Some(v) => v
      case None => default
    }
  }

  /** The scalar JSON values that reach filter maps, upstream parameters and schema
      instances: a Python `int`, a Python `float` (modelled as a real, never NaN or
      infinite) or a `str`. */
  datatype Json = JInt(i: int) | JReal(r: real) | JStr(s: string)

  /** The numeric value of a JSON number, or None for a string. */
  function AsNumber(j: Json): Option<real> {
    match j
    case JInt(i) => Some(i as real)
    case JReal(r) => Some(r)
    case JStr(_) => None
  }

  function Min(a: int, b: int): int {
    if a <= b then a else b
  }

  /** Python's normalisation of one slice bound `i` against a sequence of length `n`:
      negative bounds count from the end, and the result is clamped to `[0, n]`. */
  function SliceBound(i: int, n: nat): (b: nat)
    ensures b <= n
  {
    if i < 0 then (if i + n < 0 then 0 else i + n)
    else if i > n then n
    else i
  }

  /** Python's `s[lo:hi]`, which never fails. */
  function PySlice<T>(s: seq<T>, lo: int, hi: int): (r: seq<T>)
    ensures SliceBound(lo, |s|) + |r| <= |s|
    ensures r == s[SliceBound(lo, |s|)..SliceBound(lo, |s|) + |r|]
    ensures |r| == if SliceBound(lo, |s|) < SliceBound(hi, |s|) then SliceBound(hi, |s|) - SliceBound(lo, |s|) else 0
  {
    var a := SliceBound(lo, |s|);
    var b := SliceBound(hi, |s|);
    if a < b then s[a..b] else []
  }

  /** With non-negative bounds, a Python slice is the ordinary sub-sequence clipped to the
      end of the list, so it is at most `hi - lo` long and a prefix when `lo == 0`. */
  lemma PySliceNonNegative<T>(s: seq<T>, lo: int, hi: int)
    requires 0 <= lo <= hi
    ensures Min(lo, |s|) <= Min(hi, |s|)
    ensures PySlice(s, lo, hi) == s[Min(lo, |s|)..Min(hi, |s|)]
    ensures |PySlice(s, lo, hi)| <= hi - lo
    ensures lo == 0 ==> PySlice(s, lo, hi) <= s
  {
  }

  /** With negative bounds inside the list, a Python slice counts both bounds from the end:
      `s[lo:hi]` is `s[|s|+lo .. |s|+hi]`, and empty when `hi` does not exceed `lo`. */
  lemma PySliceNegative<T>(s: seq<T>, lo: int, hi: int)
    requires -|s| <= lo < 0 && -|s| <= hi < 0
    ensures lo < hi ==> PySlice(s, lo, hi) == s[|s| + lo..|s| + hi]
    ensures hi <= lo ==> PySlice(s, lo, hi) == []
  {
  }

  /** Python's `a // b`: the quotient rounded toward negative infinity. */
  function FloorDiv(a: int, b: int): (q: int)
    requires b != 0
    ensures b > 0 ==> q * b <= a < q * b + b
    ensures b < 0 ==> q * b + b < a <= q * b
  {
    if b > 0 then a / b else (-a) / (-b)
  }

  predicate IsDigit(c: char) {
    '0' <= c <= '9'
  }

  /** A non-empty run of ASCII decimal digits. */
  predicate IsDecimal(s: string) {
    |s| > 0 && forall k :: 0 <= k < |s| ==> IsDigit(s[k])
  }

  function DigitChar(d: nat): (c: char)
    requires d < 10
    ensures IsDigit(c) && c as int - '0' as int == d
  {
    ('0' as int + d) as char
  }

  /** `str(n)` for a non-negative integer: its decimal digits, most significant first,
      without leading zeros. */
  function DecimalString(n: nat): (s: string)
    ensures IsDecimal(s)
    ensures s[0] == '0' ==> n == 0
    decreases n
  {
    if n < 10 then [DigitChar(n)] else DecimalString(n / 10) + [DigitChar(n % 10)]
  }

  /** `str(n)` for any integer. */
  function IntString(n: int): (s: string)
    ensures n >= 0 ==> IsDecimal(s)
    ensures n < 0 ==> |s| > 1 && s[0] == '-' && IsDecimal(s[1..])
    ensures n >= 0 ==> DecimalValue(s) == n
    ensures n < 0 ==> DecimalValue(s[1..]) == -n
  {
    DecimalRoundTrip(if n < 0 then -n else n);
    if n < 0 then "-" + DecimalString(-n) else DecimalString(n)
  }

  /** The number a run of decimal digits denotes. */
  function DecimalValue(s: string): nat
    requires forall k :: 0 <= k < |s| ==> IsDigit(s[k])
  {
    if |s| == 0 then 0
    else
      assert IsDigit(s[|s| - 1]);
      DecimalValue(s[..|s| - 1]) * 10 + (s[|s| - 1] as int - '0' as int)
  }

  /** Reading back the digits `str` writes gives the number again. */
  lemma {:induction false} DecimalRoundTrip(n: nat)
    ensures DecimalValue(DecimalString(n)) == n
  {
    if n >= 10 {
      DecimalRoundTrip(n / 10);
      var s := DecimalString(n);
      assert s[..|s| - 1] == DecimalString(n / 10);
    }
  }

  /** `s.split(sep)[0]`: the text before the first `sep`, or all of `s` when it has none. */
  function TextBefore(s: string, sep: char): (t: string)
    ensures t <= s
    ensures sep !in t
    ensures t == s || (|t| < |s| && s[|t|] == sep)
  {
    if s == [] || s[0] == sep then [] else [s[0]] + TextBefore(s[1..], sep)
  }

  /** Whatever follows the first separator does not affect the text before it. */
  lemma {:induction false} TextBeforeSeparator(a: string, sep: char, rest: string)
    requires sep !in a
    ensures TextBefore(a + [sep] + rest, sep) == a
  {
    if a != [] {
      assert (a + [sep] + rest)[1..] == a[1..] + [sep] + rest;
      TextBeforeSeparator(a[1..], sep, rest);
    }
  }

  /** `a` occurs in `b` in order, possibly with elements of `b` left out between. */
  predicate IsSubsequence<T(==)>(a: seq<T>, b: seq<T>)
    decreases |b|
  {
    if b == [] then a == []
    else (a != [] && a[0] == b[0] && IsSubsequence(a[1..], b[1..])) || IsSubsequence(a, b[1..])
  }
}
