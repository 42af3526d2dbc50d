/** JavaScript values as the library sees them once a GraphQL response, a stored JSON text or a
    dataset attribute has been read, and the few language rules the library leans on: truthiness,
    `typeof x === 'object'`, property reads, `String(x)` and what JSON.stringify keeps. Numbers are
    integers here; the library only counts, compares and prints whole numbers itself. */
module JsValue {
  import opened Wrappers

  datatype Value =
    | Undefined
    | Null
    | Bool(b: bool)
    | Num(n: int)
    | Str(s: string)
    | Arr(items: seq<Value>)
    | Obj(fields: map<string, Value>)

  /** `if (v)` : false, 0, "", null and undefined are falsy; every array and object is truthy. */
  predicate Truthy(v: Value) {
    match v
    case Undefined => false
    case Null => false
    case Bool(b) => b
    case Num(n) => n != 0
    case Str(s) => s != ""
    case Arr(_) => true
    case Obj(_) => true
  }

  predicate Nullish(v: Value) {
    v.Undefined? || v.Null?
  }

  /** `typeof v === 'object'`, which includes null. */
  predicate IsObjectType(v: Value) {
    v.Null? || v.Arr? || v.Obj?
  }

  predicate IsDigit(c: char) {
    '0' <= c <= '9'
  }

  function DigitValue(c: char): nat
    requires IsDigit(c)
  {
    c as int - '0' as int
  }

  predicate AllDigits(s: string) {
    forall i :: 0 <= i < |s| ==> IsDigit(s[i])
  }

  /** The value of a string of decimal digits. */
  function DecimalValue(s: string): nat
    requires AllDigits(s)
    decreases |s|
  {
    if s == [] then 0 else DecimalValue(s[..|s| - 1]) * 10 + DigitValue(s[|s| - 1])
  }

  /** The canonical decimal numeral of n (no leading zeros). */
  function NatToString(n: nat): (s: string)
    ensures |s| > 0 && AllDigits(s)
    ensures s[0] == '0' ==> n == 0 && s == "0"
    decreases n
  {
    if n < 10 then [('0' as int + n) as char]
    else NatToString(n / 10) + [('0' as int + n % 10) as char]
  }

  /** `String(n)` for an integer. */
  function IntToString(n: int): string {
    if n < 0 then "-" + NatToString(-n) else NatToString(n)
  }

  /** A property name that designates an array element: a canonical decimal numeral. */
  function IndexKey(key: string): Option<nat> {
    if |key| > 0 && AllDigits(key) && (key[0] != '0' || |key| == 1) then Some(DecimalValue(key))
    else None
  }

  /** Sequence-like indexing shared by arrays and strings. */
  function Element<T>(xs: seq<T>, key: string): Option<T> {
    match IndexKey(key)
    case Some(i) => if i < |xs| then Some(xs[i]) else None
    case None => None
  }

  /** The property read `v[key]` (equivalently `v.key`). It throws exactly when v is null or undefined;
      arrays and strings answer `length` and their element indices; a missing property is undefined. */
  function Prop(v: Value, key: string): (r: Result<Value>)
    ensures r.Err? <==> Nullish(v)
    ensures r.Err? ==> r.error.TypeError?
    ensures v.Obj? ==> r == Ok(if key in v.fields then v.fields[key] else Undefined)
  {
    match v
    case Undefined => Err(TypeError("Cannot read properties of undefined (reading '" + key + "')"))
    case Null => Err(TypeError("Cannot read properties of null (reading '" + key + "')"))
    case Obj(m) => Ok(if key in m then m[key] else Undefined)
    case Arr(xs) =>
      if key == "length" then Ok(Num(|xs|))
      else Ok(match Element(xs, key) case Some(x) => x case None => Undefined)
    case Str(s) =>
      if key == "length" then Ok(Num(|s|))
      else Ok(match Element(s, key) case Some(c) => Str([c]) case None => Undefined)
    case _ => Ok(Undefined)
  }

  /** A property read that cannot throw, used where the source has just checked that v is truthy. */
  function Get(v: Value, key: string): Value
    requires !Nullish(v)
  {
    Prop(v, key).value
  }

  /** The number an arithmetic operator or a comparison sees for v; None stands for NaN.
      Strings, arrays and objects are taken as NaN (their numeric conversion is not modelled). */
  function NumberOf(v: Value): Option<int> {
    match v
    case Num(n) => Some(n)
    case Bool(b) => Some(if b then 1 else 0)
    case Null => Some(0)
    case _ => None
  }

  /** `v.length > 0` for a value that is not null or undefined. */
  predicate LengthPositive(v: Value)
    requires !Nullish(v)
  {
    match NumberOf(Get(v, "length"))
    case Some(n) => n > 0
    case None => false
  }

  /** `xs.join(sep)` over strings. */
  function Join(ss: seq<string>, sep: string): string
    decreases |ss|
  {
    if ss == [] then "" else if |ss| == 1 then ss[0] else ss[0] + sep + Join(ss[1..], sep)
  }

  /** `String(v)`. Arrays print as their elements joined by commas, null and undefined elements
      as the empty string. */
  function ToStr(v: Value): string
    decreases v
  {
    match v
    case Undefined => "undefined"
    case Null => "null"
    case Bool(b) => if b then "true" else "false"
    case Num(n) => IntToString(n)
    case Str(s) => s
    case Arr(xs) => Join(seq(|xs|, i requires 0 <= i < |xs| => if Nullish(xs[i]) then "" else ToStr(xs[i])), ",")
    case Obj(_) => "[object Object]"
  }

  /** What `JSON.parse(JSON.stringify(v))` gives back for a value that sits inside an array or
      object: undefined array elements become null and undefined object fields disappear. */
  function Normalize(v: Value): Value
    decreases v
  {
    match v
    case Undefined => Null
    case Arr(xs) => Arr(seq(|xs|, i requires 0 <= i < |xs| => Normalize(xs[i])))
    case Obj(m) => Obj(map k | k in m && !m[k].Undefined? :: Normalize(m[k]))
    case _ => v
  }

  /** A value that JSON can carry unchanged: no undefined anywhere. */
  predicate JsonClean(v: Value)
    decreases v
  {
    match v
    case Undefined => false
    case Arr(xs) => forall i :: 0 <= i < |xs| ==> JsonClean(xs[i])
    case Obj(m) => forall k :: k in m ==> JsonClean(m[k])
    case _ => true
  }

  /** Normalize yields JSON-clean values, leaves JSON-clean values alone, and so is idempotent. */
  lemma {:induction false} NormalizeIsClean(v: Value)
    ensures JsonClean(Normalize(v))
    decreases v
  {
    match v
    case Undefined =>
    case Arr(xs) =>
      forall i | 0 <= i < |xs| ensures JsonClean(Normalize(v).items[i]) {
        NormalizeIsClean(xs[i]);
      }
    case Obj(m) =>
      forall k | k in Normalize(v).fields ensures JsonClean(Normalize(v).fields[k]) {
        NormalizeIsClean(m[k]);
      }
    case _ =>
  }

  lemma {:induction false} NormalizeKeepsClean(v: Value)
    requires JsonClean(v)
    ensures Normalize(v) == v
    decreases v
  {
    match v
    case Arr(xs) =>
      forall i | 0 <= i < |xs| ensures Normalize(xs[i]) == xs[i] {
        NormalizeKeepsClean(xs[i]);
      }
      assert Normalize(v).items == xs;
    case Obj(m) =>
      forall k | k in m ensures Normalize(m[k]) == m[k] {
        NormalizeKeepsClean(m[k]);
      }
      assert Normalize(v).fields == m;
    case _ =>
  }

  lemma NormalizeIdempotent(v: Value)
    ensures Normalize(Normalize(v)) == Normalize(v)
  {
    NormalizeIsClean(v);
    NormalizeKeepsClean(Normalize(v));
  }
}
