/** The two standard-library routines whose exact edge cases the library depends on:
    `parseInt(text)` (used for `data-limit`) and `Array.prototype.slice` (used for limits and pages). */
module JsBuiltins {
  import opened Wrappers
  import opened JsValue

  /** The white space `parseInt` skips: WhiteSpace and LineTerminator of ECMAScript. */
  predicate IsJsSpace(c: char) {
    c == ' ' || c == '\t' || c == '\n' || c == '\r' || c == '\U{B}' || c == '\U{C}'
    || c == '\U{A0}' || c == '\U{FEFF}' || c == '\U{1680}' || ('\U{2000}' <= c <= '\U{200A}')
    || c == '\U{2028}' || c == '\U{2029}' || c == '\U{202F}' || c == '\U{205F}' || c == '\U{3000}'
  }

  function TrimStart(s: string): (t: string)
    ensures |t| <= |s| && t == s[|s| - |t|..]
    ensures t != [] ==> !IsJsSpace(t[0])
    decreases |s|
  {
    if s != [] && IsJsSpace(s[0]) then TrimStart(s[1..]) else s
  }

  predicate IsHexDigit(c: char) {
    IsDigit(c) || 'a' <= c <= 'f' || 'A' <= c <= 'F'
  }

  function HexDigitValue(c: char): nat
    requires IsHexDigit(c)
  {
    if IsDigit(c) then DigitValue(c)
    else if 'a' <= c <= 'f' then c as int - 'a' as int + 10
    else c as int - 'A' as int + 10
  }

  /** The longest prefix of s made of (hexadecimal when `hex`) digits. */
  function DigitPrefix(s: string, hex: bool): (d: string)
    ensures d <= s
    ensures forall i :: 0 <= i < |d| ==> if hex then IsHexDigit(d[i]) else IsDigit(d[i])
    ensures |d| < |s| ==> !(if hex then IsHexDigit(s[|d|]) else IsDigit(s[|d|]))
    decreases |s|
  {
    if s != [] && (if hex then IsHexDigit(s[0]) else IsDigit(s[0])) then [s[0]] + DigitPrefix(s[1..], hex)
    else ""
  }

  function HexValue(s: string): nat
    requires forall i :: 0 <= i < |s| ==> IsHexDigit(s[i])
    decreases |s|
  {
    if s == [] then 0 else HexValue(s[..|s| - 1]) * 16 + HexDigitValue(s[|s| - 1])
  }

  /** `parseInt(s)` with no radix; None stands for NaN. Leading white space and one sign are skipped,
      a `0x`/`0X` prefix selects base 16, and the longest run of digits that follows is read;
      with no digit at all the answer is NaN. */
  function ParseInt(s: string): Option<int> {
    var t := TrimStart(s);
    var neg := t != [] && t[0] == '-';
    var u := if t != [] && (t[0] == '-' || t[0] == '+') then t[1..] else t;
    if |u| >= 2 && u[0] == '0' && (u[1] == 'x' || u[1] == 'X') then
      var d := DigitPrefix(u[2..], true);
      var v: int := if d == "" then 0 else HexValue(d);
      if d == "" then None else Some(if neg then -v else v)
    else
      var d := DigitPrefix(u, false);
      var v: int := if d == "" then 0 else DecimalValue(d);
      if d == "" then None else Some(if neg then -v else v)
  }

  lemma {:induction false} DecimalValueOfNatToString(n: nat)
    ensures DecimalValue(NatToString(n)) == n
    decreases n
  {
    var s := NatToString(n);
    if n >= 10 {
      DecimalValueOfNatToString(n / 10);
      assert s[..|s| - 1] == NatToString(n / 10);
    }
  }

  lemma DigitPrefixOfDigits(s: string)
    requires AllDigits(s)
    ensures DigitPrefix(s, false) == s
  {
  }

  /** parseInt reads a canonical numeral without sign as its value. */
  lemma ParseIntOfNatToString(m: nat)
    ensures ParseInt(NatToString(m)) == Some(m)
  {
    var digits := NatToString(m);
    DecimalValueOfNatToString(m);
    DigitPrefixOfDigits(digits);
    assert IsDigit(digits[0]);
    assert TrimStart(digits) == digits;
    assert |digits| >= 2 ==> IsDigit(digits[1]);
  }

  lemma ParseIntOfNegative(digits: string)
    requires digits != [] && AllDigits(digits)
    ensures ParseInt("-" + digits) == Some(-(DecimalValue(digits) as int))
  {
    var text := "-" + digits;
    assert TrimStart(text) == text;
    assert text[1..] == digits;
    assert text[0] == '-';
    DigitPrefixOfDigits(digits);
    assert IsDigit(digits[0]);
  }

  /** parseInt reads back every integer that String() prints. */
  lemma ParseIntOfIntToString(n: int)
    ensures ParseInt(IntToString(n)) == Some(n)
  {
    if n < 0 {
      var m: nat := -n;
      DecimalValueOfNatToString(m);
      ParseIntOfNegative(NatToString(m));
      assert IntToString(n) == "-" + NatToString(m);
    } else {
      ParseIntOfNatToString(n);
      assert IntToString(n) == NatToString(n);
    }
  }

  /** Where `slice` starts or stops for an argument k on a sequence of length len: a negative k
      counts back from the end, and the result is clamped to 0..len. */
  function RelativeIndex(k: int, len: nat): (r: nat)
    ensures r <= len
    ensures 0 <= k <= len ==> r == k
    ensures k > len ==> r == len
    ensures k < 0 ==> r == if len + k < 0 then 0 else len + k
  {
    if k < 0 then (if len + k < 0 then 0 else len + k) else if k > len then len else k
  }

  /** `xs.slice(start, end)`. */
  function Slice<T>(xs: seq<T>, start: int, end: int): seq<T> {
    var from, to := RelativeIndex(start, |xs|), RelativeIndex(end, |xs|);
    if from < to then xs[from..to] else []
  }

  /** slice(0, n) with a non-negative n is the first min(n, |xs|) elements. */
  lemma SlicePrefix<T>(xs: seq<T>, n: int)
    requires n >= 0
    ensures Slice(xs, 0, n) == xs[..if n < |xs| then n else |xs|]
  {
  }

  /** slice(0, n) with a negative n drops the last -n elements. */
  lemma SliceNegativeEnd<T>(xs: seq<T>, n: int)
    requires n < 0
    ensures Slice(xs, 0, n) == if |xs| + n <= 0 then [] else xs[..|xs| + n]
  {
  }
}
