/** The JavaScript values a JSON request body carries, and the coercions the
    handlers apply to them: truthiness, property access and `Number(...)`. */
module Js {
  import opened Wrappers
  import opened Text

  datatype Value =
    | Undefined
    | Null
    | Bool(b: bool)
    | Num(n: real)
    | NaN
    | Str(s: string)
    | Arr(items: seq<Value>)
    | Obj(props: map<string, Value>)

  /** What `if (v)` and `v && ...` test. */
  predicate Truthy(v: Value) {
    match v
    case Undefined => false
    case Null => false
    case NaN => false
    case Bool(b) => b
    case Num(n) => n != 0.0
    case Str(s) => s != ""
    case Arr(_) => true
    case Obj(_) => true
  }

  /** `v.key` on a value that is not null or undefined: an object's own
      property, undefined for everything else. */
  function Get(v: Value, key: string): Value {
    if v.Obj? && key in v.props then v.props[key] else Undefined
  }

  /** `v || fallback`. */
  function Or(v: Value, fallback: Value): (r: Value)
    ensures Truthy(v) ==> r == v
    ensures !Truthy(v) ==> r == fallback
  {
    if Truthy(v) then v else fallback
  }

  predicate IsDigit(c: char) {
    '0' <= c <= '9'
  }

  predicate AllDigits(s: string) {
    forall i :: 0 <= i < |s| ==> IsDigit(s[i])
  }

  function Pow10(n: nat): (r: nat)
    ensures r >= 1
  {
    if n == 0 then 1 else 10 * Pow10(n - 1)
  }

  /** The value of a string of decimal digits, most significant first. */
  function DigitsValue(s: string): (v: nat)
    requires AllDigits(s)
    ensures v < Pow10(|s|)
  {
    if s == [] then 0
    else 10 * DigitsValue(s[..|s| - 1]) + (s[|s| - 1] as int - '0' as int)
  }

  /** An unsigned decimal literal: digits, optionally a point and more
      digits, or a point and at least one digit. */
  function ParseUnsigned(s: string): (r: Option<real>)
    ensures r.Some? ==> r.value >= 0.0
  {
    match IndexOf(s, ".")
    case None =>
      if s != [] && AllDigits(s) then Some(DigitsValue(s) as real) else None
    case Some(p) =>
      var whole, fraction := s[..p], s[p + 1..];
      if (whole != [] || fraction != []) && AllDigits(whole) && AllDigits(fraction)
      then Some(DigitsValue(whole) as real + DigitsValue(fraction) as real / Pow10(|fraction|) as real)
      else None
  }

  /** A decimal literal with an optional sign. */
  function ParseDecimal(s: string): Option<real> {
    if s != [] && s[0] == '-' then
      match ParseUnsigned(s[1..])
      case Some(x) => Some(-x)
      case None => None
    else if s != [] && s[0] == '+' then ParseUnsigned(s[1..])
    else ParseUnsigned(s)
  }

  /** `Number(v)`: always a number or NaN. A string is trimmed; blank is 0.
      An array is read through its `toString`, the `join(',')` of its
      items: the empty array is 0, one with two or more items holds a comma
      and is NaN, and a one-element array reads as its item's spelling,
      which is empty for `null` and `undefined`, a word for a boolean or an
      object, and the item's own spelling otherwise. */
  function ToNumber(v: Value): (r: Value)
    ensures r.Num? || r.NaN?
  {
    match v
    case Undefined => NaN
    case Null => Num(0.0)
    case Bool(b) => if b then Num(1.0) else Num(0.0)
    case Num(n) => v
    case NaN => NaN
    case Str(s) =>
      var t := Trim(s);
      if t == [] then Num(0.0)
      else (match ParseDecimal(t) case Some(x) => Num(x) case None => NaN)
    case Arr(items) =>
      if items == [] then Num(0.0)
      else if |items| > 1 then NaN
      else (match items[0]
            case Undefined => Num(0.0)
            case Null => Num(0.0)
            case Bool(_) => NaN
            case Obj(_) => NaN
            case _ => ToNumber(items[0]))
    case Obj(_) => NaN
  }

  /** The decimal spelling of a natural number, the partner of `DigitsValue`. */
  function Show(n: nat): (s: string)
    ensures s != [] && AllDigits(s)
  {
    if n < 10 then [('0' as int + n) as char]
    else Show(n / 10) + [('0' as int + n % 10) as char]
  }

  lemma {:induction false} DigitsValueShow(n: nat)
    ensures DigitsValue(Show(n)) == n
  {
    if n >= 10 {
      var s := Show(n);
      assert s[..|s| - 1] == Show(n / 10);
      DigitsValueShow(n / 10);
    }
  }

  /** A number sent as its decimal digits is read back as that number. */
  lemma ToNumberShow(n: nat)
    ensures ToNumber(Str(Show(n))) == Num(n as real)
  {
    var s := Show(n);
    assert IsDigit(s[0]) && IsDigit(s[|s| - 1]);
    TrimmedEdges(s);
    DigitsValueShow(n);
    NoPointInDigits(s);
    assert ParseUnsigned(s) == Some(n as real);
    assert ParseDecimal(s) == Some(n as real);
  }

  /** A number sent as a one-element array of its decimal digits is read
      as that number, the same as the digits alone. */
  lemma ArrayOfDigits(n: nat)
    ensures ToNumber(Arr([Str(Show(n))])) == ToNumber(Str(Show(n))) == Num(n as real)
  {
    ToNumberShow(n);
  }

  /** An array of two or more items is NaN, whatever the items. */
  lemma LongArrayIsNaN(items: seq<Value>)
    requires |items| >= 2
    ensures ToNumber(Arr(items)) == NaN
  {
  }

  lemma NoPointInDigits(s: string)
    requires AllDigits(s)
    ensures IndexOf(s, ".") == None
  {
    forall i | 0 <= i <= |s|
      ensures !OccursAt(s, ".", i)
    {
      if i < |s| {
        assert s[i..i + 1][0] == s[i] && IsDigit(s[i]);
      }
    }
  }

  /** A number spelled with a fraction keeps its fraction: `"85.5"` is 85.5. */
  lemma DecimalFraction()
    ensures ToNumber(Str("85.5")) == Num(85.5)
  {
    var s := "85.5";
    assert Trim(s) == s by { TrimmedEdges(s); }
    assert ParseUnsigned(s) == Some(85.5) by { PointValue(s); }
  }

  lemma PointValue(s: string)
    requires s == "85.5"
    ensures ParseUnsigned(s) == Some(85.5)
  {
    FirstPoint(s, 2);
    assert s[..2] == "85" && s[3..] == "5";
    assert DigitsValue("85") == 85 by { assert "85"[..1] == "8"; }
  }

  /** The first point of `s` is at `p`. */
  lemma FirstPoint(s: string, p: nat)
    requires p < |s| && s[p] == '.'
    requires forall j :: 0 <= j < p ==> s[j] != '.'
    ensures IndexOf(s, ".") == Some(p)
  {
    assert s[p..p + 1] == ".";
    assert OccursAt(s, ".", p);
    forall j | 0 <= j < p
      ensures !OccursAt(s, ".", j)
    {
      assert s[j..j + 1][0] == s[j];
    }
  }

  /** Text that is not a number is NaN, and NaN is falsy. */
  lemma WordIsNaN()
    ensures ToNumber(Str("ten")) == NaN && !Truthy(NaN)
  {
    var s := "ten";
    assert Trim(s) == s by { TrimmedEdges(s); }
    assert ParseDecimal(s) == None by { NotDecimal(s); }
  }

  /** A word starting with a letter and holding no point is not a decimal. */
  lemma NotDecimal(s: string)
    requires s != [] && !IsDigit(s[0]) && s[0] != '-' && s[0] != '+' && s[0] != '.'
    requires forall j :: 0 <= j < |s| ==> s[j] != '.'
    ensures ParseDecimal(s) == None
  {
    assert IndexOf(s, ".") == None by {
      forall i | 0 <= i <= |s|
        ensures !OccursAt(s, ".", i)
      {
        if i < |s| {
          assert s[i..i + 1][0] == s[i];
        }
      }
    }
    assert !AllDigits(s);
  }
}
