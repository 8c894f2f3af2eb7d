/**
 * JavaScript values as the components handle them, with the language's
 * truthiness, `a || b`, `String(v)`, `===` and property reads made explicit.
 */
module Js {
  import opened Wrappers
  import opened Text

  /**
   * A JSON-like value. Numbers are integers; NaN, fractions and -0 are not
   * modelled. Arrays and objects are values without identity.
   */
  datatype Value =
    | Undefined | Null | Bool(b: bool) | Num(n: int) | Str(s: string)
    | Arr(items: seq<Value>)
    | Obj(fields: map<string, Value>)

  /** A plain object: property name to value. A missing name reads as `undefined`. */
  type Object = map<string, Value>

  /** The values JavaScript treats as false (NaN and -0 are not modelled). */
  const Falsy: set<Value> := {Undefined, Null, Bool(false), Num(0), Str([])}

  /** JavaScript truthiness: `undefined`, `null`, `false`, `0` and `''` are falsy; arrays are truthy. */
  predicate Truthy(v: Value)
    ensures Truthy(v) <==> v !in Falsy
  {
    match v
    case Undefined => false
    case Null => false
    case Bool(b) => b
    case Num(n) => n != 0
    case Str(s) => s != []
    case Arr(_) => true
    case Obj(_) => true
  }

  /** `a || b`: the first operand when it is truthy, otherwise the second. */
  function Or(a: Value, b: Value): Value {
    if Truthy(a) then a else b
  }

  /** `String(v)`, which template literals and `URLSearchParams.append` apply to their arguments. */
  function ToText(v: Value): (r: string)
    ensures v.Str? ==> r == v.s
    ensures v.Undefined? ==> r == "undefined"
    ensures v.Null? ==> r == "null"
    ensures v.Bool? ==> (r == "true" <==> v.b)
  {
    match v
    case Undefined => "undefined"
    case Null => "null"
    case Bool(b) => if b then "true" else "false"
    case Num(n) => IntToDecimal(n)
    case Str(s) => s
    case Arr(items) =>
      // `Array.prototype.join` renders null and undefined elements as ''
      Join(seq(|items|, i requires 0 <= i < |items| =>
                 if items[i].Undefined? || items[i].Null? then "" else ToText(items[i])), ",")
    case Obj(_) => "[object Object]"
  }

  /**
   * `a === b`. Arrays and objects compare by identity; the model has no
   * identities, so no two of them are taken to be the same object.
   */
  predicate StrictEquals(a: Value, b: Value) {
    a == b && !a.Arr? && !a.Obj?
  }

  /**
   * `Number(s)` for a string whose numeric value is an integer written in
   * decimal, with an optional sign, or in hexadecimal after `0x`; `None`
   * stands for NaN. Surrounding whitespace is ignored and the empty string
   * is 0.
   */
  function StringToInteger(s: string): (r: Option<int>)
    ensures Trim(s) == [] ==> r == Some(0)
    ensures AllDigits(Trim(s)) ==> r == Some(DecimalValue(Trim(s)))
  {
    var t := Trim(s);
    if t == [] then Some(0)
    else if AllDigits(t) then Some(DecimalValue(t))
    else if |t| > 1 && (t[0] == '+' || t[0] == '-') && AllDigits(t[1..]) then
      var m: int := DecimalValue(t[1..]);
      Some(if t[0] == '-' then -m else m)
    else if |t| > 2 && t[0] == '0' && (t[1] == 'x' || t[1] == 'X') && AllHex(t[2..]) then
      Some(HexValue(t[2..]))
    else None
  }

  /** `Number` reads back the text `String` gives an integer. */
  lemma NumberTextRoundTrip(n: int)
    ensures StringToInteger(ToText(Num(n))) == Some(n)
  {
    if n < 0 {
      NegativeDecimalText(-n);
      assert ToText(Num(n)) == "-" + NatToDecimal(-n);
    } else {
      DecimalText(n);
      assert ToText(Num(n)) == NatToDecimal(n);
    }
  }

  /** `Number` reads a decimal rendering back. */
  lemma DecimalText(m: nat)
    ensures StringToInteger(NatToDecimal(m)) == Some(m)
  {
    var d := NatToDecimal(m);
    assert IsDigit(d[0]) && IsDigit(d[|d| - 1]);
    TrimOfTrimmed(d);
    DecimalRoundTrip(m);
  }

  /** `Number` reads a minus sign before a decimal rendering as the negated number. */
  lemma NegativeDecimalText(m: nat)
    ensures StringToInteger("-" + NatToDecimal(m)) == Some(-(m as int))
  {
    var d := NatToDecimal(m);
    var s := "-" + d;
    assert s[0] == '-' && s[1..] == d;
    assert IsTrimmed(s) by {
      assert s[|s| - 1] == d[|d| - 1] && IsDigit(d[|d| - 1]);
    }
    TrimOfTrimmed(s);
    assert !IsDigit(s[0]);
    DecimalRoundTrip(m);
  }

  /** `Number(v)` when it is an integer; `None` for NaN. */
  function ToInteger(v: Value): (r: Option<int>)
    ensures v.Num? ==> r == Some(v.n)
    ensures v.Undefined? ==> r.None?
    ensures v.Str? ==> r == StringToInteger(v.s)
    ensures !Truthy(v) && !v.Undefined? ==> r == Some(0)
  {
    match v
    case Undefined => None
    case Null => Some(0)
    case Bool(b) => Some(if b then 1 else 0)
    case Num(n) => Some(n)
    case Str(s) => StringToInteger(s)
    case _ => StringToInteger(ToText(v))  // arrays and objects convert through their string form
  }

  /**
   * `parseInt(s)` without a radix: leading whitespace and one sign are
   * skipped, a `0x` or `0X` prefix selects hexadecimal, and the longest run of
   * digits that follows is read; `None` (NaN) when that run is empty.
   */
  function ParseInt(s: string): (r: Option<int>)
    ensures var t := s[LeadingSpaces(s)..];
            r.Some? ==> |t| > 0 && (IsDigit(t[0]) || ((t[0] == '-' || t[0] == '+') && |t| > 1 && IsDigit(t[1])))
    ensures var t := s[LeadingSpaces(s)..];
            r.Some? && r.value < 0 ==> t[0] == '-'
    ensures var t := s[LeadingSpaces(s)..];
            |t| > 0 && IsDigit(t[0]) && !(|t| >= 2 && t[0] == '0' && (t[1] == 'x' || t[1] == 'X')) ==>
              r.Some? && r.value >= 0
  {
    var t := s[LeadingSpaces(s)..];
    var negative := |t| > 0 && t[0] == '-';
    var u := if |t| > 0 && (t[0] == '-' || t[0] == '+') then t[1..] else t;
    var magnitude :=
      if |u| >= 2 && u[0] == '0' && (u[1] == 'x' || u[1] == 'X') then
        var h := u[2..];
        var k := PrefixRun(h, IsHexDigit);
        if k == 0 then None else Some(HexValue(h[..k]))
      else
        var k := PrefixRun(u, IsDigit);
        if k == 0 then None else Some(DecimalValue(u[..k]));
    match magnitude
    case None => None
    case Some(m) =>
      var i: int := m;
      Some(if negative then -i else i)
  }

  /** `parseInt` reads back the rendering of a positive integer, whatever non-digit text follows it. */
  lemma ParseIntOfDecimal(n: nat, rest: string)
    requires 0 < n
    requires rest == [] || !IsDigit(rest[0])
    ensures ParseInt(NatToDecimal(n) + rest) == Some(n)
  {
    var d := NatToDecimal(n);
    var s := d + rest;
    assert s[0] == d[0] && IsDigit(d[0]);
    assert LeadingSpaces(s) == 0;
    assert s[0..] == s;
    var k := PrefixRun(s, IsDigit);
    assert forall i :: 0 <= i < |d| ==> s[i] == d[i];
    if rest != [] {
      assert s[|d|] == rest[0];
    }
    assert k == |d|;
    assert s[..k] == d;
    DecimalRoundTrip(n);
  }

  /** `{...a, ...b}`: every property of `b`, and those of `a` that `b` does not have. */
  function Spread(a: Object, b: Object): (r: Object)
    ensures forall k :: k in r <==> k in a || k in b
    ensures forall k :: k in b ==> r[k] == b[k]
    ensures forall k :: k in a && k !in b ==> r[k] == a[k]
  {
    a + b
  }

  /** The property read `o.key`. */
  function Get(o: Object, key: string): Value {
    if key in o then o[key] else Undefined
  }
}
