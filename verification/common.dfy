/**
 * Small helpers shared by every module: an option type and the
 * min/max/clamp idioms the consoles use (`Math.min`, `Math.max`,
 * Python's `min`/`max`).
 */
module Common {

  datatype Option<T> = None | Some(value: T)

  function MinR(a: real, b: real): real { if a <= b then a else b }
  function MaxR(a: real, b: real): real { if a >= b then a else b }
  function MinI(a: int, b: int): int { if a <= b then a else b }
  function MaxI(a: int, b: int): int { if a >= b then a else b }

  /** `max(lo, min(hi, x))`: pins `x` into `[lo, hi]`. */
  function ClampR(lo: real, hi: real, x: real): (r: real)
    requires lo <= hi
    ensures lo <= r <= hi
    ensures lo <= x <= hi ==> r == x
    ensures x < lo ==> r == lo
    ensures x > hi ==> r == hi
  {
    MaxR(lo, MinR(hi, x))
  }

  /** Every element of `s` occurs once. */
  predicate Distinct<T(==)>(s: seq<T>)
  {
    forall i, j :: 0 <= i < j < |s| ==> s[i] != s[j]
  }

  /** `[lo, lo + 1, ..., hi - 1]`. */
  function Range(lo: nat, hi: nat): (r: seq<nat>)
    requires lo <= hi
    ensures |r| == hi - lo
    ensures forall k :: 0 <= k < |r| ==> r[k] == lo + k
  {
    seq(hi - lo, k requires 0 <= k < hi - lo => lo + k)
  }

  /** JavaScript's `array.slice(0, n)` / Python's `s[:n]` for `n >= 0`. */
  function Take<T>(s: seq<T>, n: nat): (r: seq<T>)
    ensures |r| == MinI(|s|, n)
    ensures r == s[..|r|]
  {
    if |s| <= n then s else s[..n]
  }

  /** `[x, ...xs].slice(0, cap)`. */
  function Pushed<T>(x: T, xs: seq<T>, cap: nat): seq<T>
  {
    Take([x] + xs, cap)
  }

  /** The new element comes first and the older ones follow, the oldest dropped beyond the cap. */
  lemma {:induction false} PushedNewestFirst<T>(x: T, xs: seq<T>, cap: nat)
    requires cap >= 1
    ensures var r := Pushed(x, xs, cap);
      |r| == MinI(|xs| + 1, cap) && r[0] == x && r[1..] == Take(xs, cap - 1)
  {
  }

  /** A fraction of a part over its whole lies in [0, 1]. */
  lemma {:induction false} FractionInUnit(a: real, b: real)
    requires 0.0 <= a <= b && b > 0.0
    ensures 0.0 <= a / b <= 1.0
  {
  }

  /**
   * The characters `String.prototype.trim` removes: the white space and
   * line terminators of ECMAScript, that is tab, vertical tab, form feed,
   * space, no-break space, the byte-order mark, every other space separator
   * (Unicode category Zs) and the four line terminators.
   */
  predicate IsSpace(c: char)
  {
    c == ' ' || c == '\t' || c == '\n' || c == '\r' || c == '\U{B}' || c == '\U{C}' ||
    c == '\U{A0}' || c == '\U{2028}' || c == '\U{2029}' || c == '\U{FEFF}' ||
    c == '\U{1680}' || ('\U{2000}' <= c <= '\U{200A}') || c == '\U{202F}' || c == '\U{205F}' || c == '\U{3000}'
  }

  /** Whether `text.trim()` is empty. */
  predicate Blank(text: string)
  {
    forall k :: 0 <= k < |text| ==> IsSpace(text[k])
  }

  /** A decimal digit. */
  predicate IsDigit(c: char) { '0' as int <= c as int <= '9' as int }

  /** The length of the run of digits `s` starts with. */
  function DigitRun(s: string): (n: nat)
    ensures n <= |s|
    ensures forall k :: 0 <= k < n ==> IsDigit(s[k])
    ensures n < |s| ==> !IsDigit(s[n])
  {
    if s != [] && IsDigit(s[0]) then 1 + DigitRun(s[1..]) else 0
  }

  /** The value of a string of digits, most significant first. */
  function DigitsValue(ds: string): nat
    requires forall k :: 0 <= k < |ds| ==> IsDigit(ds[k])
  {
    if ds == [] then 0
    else
      assert IsDigit(ds[|ds| - 1]);
      var last: int := ds[|ds| - 1] as int - '0' as int;
      DigitsValue(ds[..|ds| - 1]) * 10 + last
  }

  lemma {:induction false} DigitRunAll(s: string)
    requires forall k :: 0 <= k < |s| ==> IsDigit(s[k])
    ensures DigitRun(s) == |s|
  {
    if s != [] {
      DigitRunAll(s[1..]);
    }
  }

  /** The decimal digits of `n` without leading zeros. */
  function Show(n: nat): (s: string)
    ensures |s| >= 1 && forall k :: 0 <= k < |s| ==> IsDigit(s[k])
    decreases n
  {
    var d := ['0' + (n % 10) as char];
    if n < 10 then d else Show(n / 10) + d
  }

  lemma {:induction false} ShowValue(n: nat)
    ensures DigitsValue(Show(n)) == n
    decreases n
  {
    var s := Show(n);
    if n >= 10 {
      ShowValue(n / 10);
      assert s[..|s| - 1] == Show(n / 10);
    }
  }

  /** `s.startsWith(prefix)`. */
  predicate StartsWith(s: string, prefix: string)
  {
    |prefix| <= |s| && s[..|prefix|] == prefix
  }

  /** `10^n`. */
  function Pow10(n: nat): (p: nat)
    ensures p >= 1
  {
    if n == 0 then 1 else 10 * Pow10(n - 1)
  }

  /** A single or double quote: the class `['"]`. */
  predicate IsQuote(c: char) { c == '\'' || c == '"' }
}
