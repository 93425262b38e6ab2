/** Option and Result, used for absent values and for render passes that throw. */
module Wrappers {
  datatype Option<+T> = None | Some(value: T)

  datatype Result<+T, +E> = Ok(value: T) | Err(error: E)
}

/**
 * The JavaScript values that the components read from fetched data, and the
 * few language operations they apply to them: truthiness, `||`, `typeof`,
 * `Array.isArray`, string coercion in template literals, `substring`,
 * `slice` and `toFixed(1)`.
 */
module Js {

  /** A JavaScript number. Finite numbers are limited to integers. */
  datatype Number = NaN | Integral(value: int) | Infinity(negative: bool)

  /** A JavaScript value as it can arrive in a field of fetched data. */
  datatype Value =
    | Undefined
    | Null
    | Bool(b: bool)
    | Num(n: Number)
    | Str(s: string)
    | Arr(elems: seq<Value>)
    | Obj

  /** ToBoolean: undefined, null, false, 0, NaN and "" are the falsy values. */
  predicate Truthy(v: Value)
    ensures !Truthy(v) <==>
      v.Undefined? || v.Null? || v == Bool(false) || v == Num(NaN) || v == Num(Integral(0)) || v == Str("")
  {
    match v
    case Undefined => false
    case Null => false
    case Bool(b) => b
    case Num(n) => !n.NaN? && n != Integral(0)
    case Str(s) => s != ""
    case Arr(_) => true
    case Obj => true
  }

  /** The expression `a || b`: `a` when it is truthy, `b` otherwise. */
  function Or(a: Value, b: Value): (r: Value)
    ensures r == a || r == b
    ensures Truthy(r) <==> Truthy(a) || Truthy(b)
    ensures Truthy(a) ==> r == a
    ensures !Truthy(a) ==> r == b
  {
    if Truthy(a) then a else b
  }

  /** The expression `typeof v`; arrays and null are "object". */
  function TypeOf(v: Value): (r: string)
    ensures r == "number" <==> v.Num?
    ensures r == "string" <==> v.Str?
    ensures r == "object" <==> v.Null? || v.Arr? || v.Obj?
  {
    match v
    case Undefined => "undefined"
    case Null => "object"
    case Bool(_) => "boolean"
    case Num(_) => "number"
    case Str(_) => "string"
    case Arr(_) => "object"
    case Obj => "object"
  }

  /** The expression `Array.isArray(v)`. */
  predicate IsArray(v: Value)
    ensures IsArray(v) <==> v.Arr?
    ensures IsArray(v) ==> TypeOf(v) == "object"
  {
    v.Arr?
  }

  function Min(a: int, b: int): int {
    if a <= b then a else b
  }

  predicate IsDigit(c: char) {
    '0' <= c <= '9'
  }

  function DigitChar(d: nat): (c: char)
    requires d < 10
    ensures IsDigit(c) && DigitValue(c) == d
  {
    ('0' as int + d) as char
  }

  /** The decimal digits of `n`, most significant first, without leading zeros. */
  function NatToDecimal(n: nat): (r: string)
    ensures |r| > 0
    ensures forall k :: 0 <= k < |r| ==> IsDigit(r[k])
    ensures |r| > 1 ==> r[0] != '0'
    ensures r[0] == '0' <==> n == 0
    decreases n
  {
    if n < 10 then [DigitChar(n)] else NatToDecimal(n / 10) + [DigitChar(n % 10)]
  }

  function DigitValue(c: char): nat
    requires IsDigit(c)
  {
    (c as int) - ('0' as int)
  }

  predicate AllDigits(s: string) {
    forall k :: 0 <= k < |s| ==> IsDigit(s[k])
  }

  /** The number a string of decimal digits denotes; the inverse of NatToDecimal. */
  function DecimalValue(s: string): nat
    requires AllDigits(s)
  {
    if s == [] then 0
    else DecimalValue(s[..|s| - 1]) * 10 + DigitValue(s[|s| - 1])
  }

  lemma {:induction false} DecimalRoundTrip(n: nat)
    ensures DecimalValue(NatToDecimal(n)) == n
    decreases n
  {
    if n >= 10 {
      var prefix := NatToDecimal(n / 10);
      var s := NatToDecimal(n);
      assert s == prefix + [DigitChar(n % 10)];
      assert s[..|s| - 1] == prefix;
      DecimalRoundTrip(n / 10);
    }
  }

  /**
   * Number-to-string conversion of an integer, as `String(i)` gives it: a minus
   * sign for a negative integer, then the digits of the magnitude without
   * leading zeros.
   */
  function IntToDecimal(i: int): (r: string)
    ensures |r| > 0
    ensures r[0] == '-' <==> i < 0
    ensures i >= 0 ==> AllDigits(r) && DecimalValue(r) == i
    ensures i >= 0 && |r| > 1 ==> r[0] != '0'
    ensures i < 0 ==> |r| >= 2 && AllDigits(r[1..]) && DecimalValue(r[1..]) == -i
    ensures i < 0 ==> r[1] != '0'
  {
    DecimalRoundTrip(if i < 0 then -i else i);
    if i < 0 then
      var r := "-" + NatToDecimal(-i);
      assert r[1..] == NatToDecimal(-i);
      r
    else NatToDecimal(i)
  }

  /** Distinct integers print differently. */
  lemma IntToDecimalInjective(a: int, b: int)
    requires IntToDecimal(a) == IntToDecimal(b)
    ensures a == b
  {
  }

  /** Number-to-string conversion, as `String(n)` gives it for the numbers of this model. */
  function NumberToString(n: Number): (r: string)
    ensures n.NaN? ==> r == "NaN"
    ensures n.Infinity? && !n.negative ==> r == "Infinity"
    ensures n.Infinity? && n.negative ==> r == "-Infinity"
    ensures n.Integral? ==> r == IntToDecimal(n.value)
    ensures n.Integral? && n.value >= 0 ==> AllDigits(r) && DecimalValue(r) == n.value
    ensures n.Integral? && n.value < 0 ==> |r| >= 2 && r[0] == '-' && DecimalValue(r[1..]) == -n.value
  {
    match n
    case NaN => "NaN"
    case Integral(i) => IntToDecimal(i)
    case Infinity(negative) => if negative then "-Infinity" else "Infinity"
  }

  /** The sum of the lengths of `parts`. */
  function TotalLength(parts: seq<string>): nat {
    if parts == [] then 0 else TotalLength(parts[..|parts| - 1]) + |parts[|parts| - 1]|
  }

  /**
   * `parts.join(sep)`: the concatenation of `parts` with `sep` between
   * neighbours. It starts with the first part, ends with the last, and is as
   * long as the parts plus one separator per neighbouring pair.
   */
  function JoinWith(parts: seq<string>, sep: string): (r: string)
    ensures parts == [] ==> r == ""
    ensures |parts| > 0 ==> |r| == TotalLength(parts) + (|parts| - 1) * |sep|
    ensures |parts| > 0 ==> |parts[0]| <= |r| && r[..|parts[0]|] == parts[0]
    ensures |parts| > 0 ==> r[|r| - |parts[|parts| - 1]|..] == parts[|parts| - 1]
  {
    if parts == [] then ""
    else if |parts| == 1 then parts[0]
    else
      var init := parts[..|parts| - 1];
      assert init[0] == parts[0];
      JoinWith(init, sep) + sep + parts[|parts| - 1]
  }

  /** Joining from the back, as `JoinWith` is defined. */
  lemma JoinWithLast(parts: seq<string>, sep: string)
    requires |parts| >= 2
    ensures JoinWith(parts, sep) == JoinWith(parts[..|parts| - 1], sep) + sep + parts[|parts| - 1]
  {
  }

  lemma DropFirstDropLast<T>(s: seq<T>)
    requires |s| >= 2
    ensures s[..|s| - 1][1..] == s[1..][..|s| - 2] == s[1..|s| - 1]
  {
  }

  lemma ConcatAssoc(a: string, b: string, c: string, d: string, e: string)
    ensures (a + b + c) + d + e == a + b + (c + d + e)
  {
  }

  /** Joining from the front: the first part, the separator, then the rest joined. */
  lemma {:induction false} JoinWithFirst(parts: seq<string>, sep: string)
    requires |parts| >= 2
    ensures JoinWith(parts, sep) == parts[0] + sep + JoinWith(parts[1..], sep)
    decreases |parts|
  {
    var init := parts[..|parts| - 1];
    if |parts| == 2 {
      assert init == [parts[0]];
      assert parts[1..] == [parts[1]];
    } else {
      var rest := parts[1..];
      var first, last := parts[0], parts[|parts| - 1];
      JoinWithLast(parts, sep);
      JoinWithFirst(init, sep);
      JoinWithLast(rest, sep);
      DropFirstDropLast(parts);
      var middle := JoinWith(parts[1..|parts| - 1], sep);
      ConcatAssoc(first, sep, middle, sep, last);
    }
  }

  /**
   * String coercion, as a template literal `${v}` applies it. An array joins
   * its elements with "," and shows null and undefined elements as "".
   */
  function ToString(v: Value): (r: string)
    ensures v.Undefined? ==> r == "undefined"
    ensures v.Null? ==> r == "null"
    ensures v.Bool? ==> r == if v.b then "true" else "false"
    ensures v.Num? ==> r == NumberToString(v.n)
    ensures v.Str? ==> r == v.s
    ensures v.Obj? ==> r == "[object Object]"
    ensures v.Arr? && v.elems == [] ==> r == ""
    ensures v.Arr? ==>
      r == JoinWith(seq(|v.elems|, k requires 0 <= k < |v.elems| => ElementString(v.elems[k])), ",")
    decreases v, 0
  {
    match v
    case Undefined => "undefined"
    case Null => "null"
    case Bool(b) => if b then "true" else "false"
    case Num(n) => NumberToString(n)
    case Str(s) => s
    case Arr(es) =>
      JoinWith(seq(|es|, k requires 0 <= k < |es| => ElementString(es[k])), ",")
    case Obj => "[object Object]"
  }

  /** The string form of an element inside an array: null and undefined show as "". */
  function ElementString(e: Value): (r: string)
    ensures (e.Undefined? || e.Null?) ==> r == ""
    ensures !e.Undefined? && !e.Null? ==> r == ToString(e)
    decreases e, 1
  {
    if e.Undefined? || e.Null? then "" else ToString(e)
  }

  /** `${[x]}` is the element's own string form. */
  lemma ToStringSingleton(x: Value)
    ensures ToString(Arr([x])) == ElementString(x)
  {
  }

  /** `${[x, y]}` is the two element strings joined by ",": `${[null, "a"]}` is ",a". */
  lemma ToStringPair(x: Value, y: Value)
    ensures ToString(Arr([x, y])) == ElementString(x) + "," + ElementString(y)
  {
    var es := [x, y];
    var parts := seq(|es|, k requires 0 <= k < |es| => ElementString(es[k]));
    assert parts == [ElementString(x), ElementString(y)];
    JoinWithTwo(ElementString(x), ElementString(y), ",");
  }

  lemma JoinWithTwo(a: string, b: string, sep: string)
    ensures JoinWith([a, b], sep) == a + sep + b
  {
  }

  /**
   * `n.toFixed(1)`, exact on the numbers this model has: an integer prints as
   * an optional minus sign, the decimal digits of its magnitude and ".0".
   */
  function ToFixed1(n: Number): (r: string)
    ensures n.Integral? ==> |r| >= 3 && r[|r| - 2..] == ".0"
    ensures n.Integral? ==> (r[0] == '-' <==> n.value < 0)
    ensures n.Integral? && n.value >= 0 ==>
      AllDigits(r[..|r| - 2]) && DecimalValue(r[..|r| - 2]) == n.value
    ensures n.Integral? && n.value < 0 ==>
      |r| >= 4 && AllDigits(r[1..|r| - 2]) && DecimalValue(r[1..|r| - 2]) == -n.value
    ensures n.Integral? && n.value >= 0 && |r| > 3 ==> r[0] != '0'
    ensures n.Integral? && n.value < 0 ==> r[1] != '0'
    ensures n.NaN? ==> r == "NaN"
    ensures n.Infinity? ==> r == if n.negative then "-Infinity" else "Infinity"
  {
    match n
    case Integral(i) =>
      var digits := NatToDecimal(if i < 0 then -i else i);
      DecimalRoundTrip(if i < 0 then -i else i);
      var r := IntToDecimal(i) + ".0";
      assert i >= 0 ==> r[..|r| - 2] == digits;
      assert i < 0 ==> r[1..|r| - 2] == digits;
      r
    case _ => NumberToString(n)
  }

  function Clamp(x: int, len: nat): (r: nat)
    ensures r <= len
  {
    if x < 0 then 0 else if x > len then len else x
  }

  /**
   * `s.substring(start, end)`: both arguments are clamped to [0, |s|] and
   * swapped when the first is the larger.
   */
  function Substring(s: string, start: int, end: int): (r: string)
    ensures |r| <= |s|
    ensures 0 <= start <= end ==> r == s[Min(start, |s|)..Min(end, |s|)]
    ensures 0 <= end <= start ==> r == s[Min(end, |s|)..Min(start, |s|)]
  {
    var a, b := Clamp(start, |s|), Clamp(end, |s|);
    if a <= b then s[a..b] else s[b..a]
  }

  /** A relative index of `slice`: negative values count from the end. */
  function RelativeIndex(x: int, len: nat): (r: nat)
    ensures r <= len
  {
    if x < 0 then (if len + x < 0 then 0 else len + x) else if x > len then len else x
  }

  /** `a.slice(start, end)`. */
  function Slice<T>(a: seq<T>, start: int, end: int): (r: seq<T>)
    ensures |r| <= |a|
    ensures 0 <= start <= end ==> r == a[Min(start, |a|)..Min(end, |a|)]
  {
    var lo, hi := RelativeIndex(start, |a|), RelativeIndex(end, |a|);
    if lo < hi then a[lo..hi] else []
  }
}
