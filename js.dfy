/** The values a request body or a form field can hold once parsed from
    JSON, and the few ECMAScript operations on them that the validators and
    routes rely on: property access, truthiness, `Number.isInteger`, the
    conversion to a string and the type name zod reports. Numbers are exact reals; `NaN` is its own value. */
module Js {
  import opened Text

  datatype JsValue =
    | Undefined
    | Null
    | Bool(b: bool)
    | Num(n: real)
    | NaN
    | Str(s: string)
    | Arr(items: seq<JsValue>)
    | Obj(fields: map<string, JsValue>)

  /** `v[key]`: the field when `v` is an object that has it, `undefined` otherwise. */
  function Get(v: JsValue, key: string): (r: JsValue)
    ensures v.Obj? && key in v.fields ==> r == v.fields[key]
    ensures !(v.Obj? && key in v.fields) ==> r.Undefined?
  {
    if v.Obj? && key in v.fields then v.fields[key] else Undefined
  }

  /** ECMAScript truthiness: `undefined`, `null`, `false`, `0`, `NaN` and the
      empty string are falsy, everything else is truthy. */
  predicate Truthy(v: JsValue)
  {
    match v
    case Undefined => false
    case Null => false
    case Bool(b) => b
    case Num(n) => n != 0.0
    case NaN => false
    case Str(s) => s != ""
    case Arr(_) => true
    case Obj(_) => true
  }

  /** `Number.isInteger` on a number that is not `NaN`. */
  predicate IsInteger(x: real)
  {
    x == x.Floor as real
  }

  /** The name zod gives the type of a value it did not expect. */
  function TypeName(v: JsValue): (r: string)
    ensures r != ""
  {
    match v
    case Undefined => "undefined"
    case Null => "null"
    case Bool(_) => "boolean"
    case Num(_) => "number"
    case NaN => "nan"
    case Str(_) => "string"
    case Arr(_) => "array"
    case Obj(_) => "object"
  }

  /** The outcome of converting a value to a string: its text, a number
      whose text the model does not spell out, or a thrown `TypeError`. */
  datatype Conversion = Converted(text: string) | Unspelled | Throws

  /** `String(v)` as `RegExp.prototype.test` applies it. An object converts
      through its `toString`: an own `"toString"` key, which in parsed JSON
      is never a function, makes the conversion fall back to `valueOf`,
      which gives back the object itself, so the conversion throws. A
      number is written out when it is a whole number below 10^21 in
      magnitude and is `Unspelled` otherwise. */
  function StringForm(v: JsValue): (r: Conversion)
    decreases v
  {
    match v
    case Undefined => Converted("undefined")
    case Null => Converted("null")
    case Bool(b) => Converted(if b then "true" else "false")
    case Num(n) =>
      if IsInteger(n) && -1e21 < n < 1e21 then
        var i := n.Floor;
        Converted(if i < 0 then "-" + NatText(-i) else NatText(i))
      else Unspelled
    case NaN => Converted("NaN")
    case Str(s) => Converted(s)
    case Arr(items) => JoinedForm(items)
    case Obj(fields) => if "toString" in fields then Throws else Converted("[object Object]")
  }

  /** `Array.prototype.join(",")`: `null` and `undefined` items are written
      as nothing, every other item as its string form; an item whose
      conversion throws makes the whole join throw. */
  function JoinedForm(items: seq<JsValue>): (r: Conversion)
    decreases items
  {
    if items == [] then Converted("")
    else
      var first := if items[0].Null? || items[0].Undefined? then Converted("") else StringForm(items[0]);
      if |items| == 1 then first
      else
        var rest := JoinedForm(items[1..]);
        if first.Throws? || rest.Throws? then Throws
        else if first.Unspelled? || rest.Unspelled? then Unspelled
        else Converted(first.text + "," + rest.text)
  }

  /** The value is, or holds at any depth of arrays, an object with an own
      `"toString"` key. */
  predicate HoldsOwnToString(v: JsValue)
    decreases v
  {
    match v
    case Obj(fields) => "toString" in fields
    case Arr(items) => exists i | 0 <= i < |items| :: HoldsOwnToString(items[i])
    case _ => false
  }

  /** The conversion throws exactly for the values that hold an object with
      an own `"toString"` key. */
  lemma {:induction false} ThrowsIffOwnToString(v: JsValue)
    ensures StringForm(v).Throws? <==> HoldsOwnToString(v)
    decreases v
  {
    if v.Arr? {
      JoinThrowsIffOwnToString(v.items);
    }
  }

  lemma {:induction false} JoinThrowsIffOwnToString(items: seq<JsValue>)
    ensures JoinedForm(items).Throws? <==> exists i | 0 <= i < |items| :: HoldsOwnToString(items[i])
    decreases items
  {
    if items != [] {
      ThrowsIffOwnToString(items[0]);
      if |items| > 1 {
        JoinThrowsIffOwnToString(items[1..]);
        if exists i | 0 <= i < |items| :: HoldsOwnToString(items[i]) {
          var i :| 0 <= i < |items| && HoldsOwnToString(items[i]);
          if i > 0 {
            assert HoldsOwnToString(items[1..][i - 1]);
          }
        }
        if exists j | 0 <= j < |items[1..]| :: HoldsOwnToString(items[1..][j]) {
          var j :| 0 <= j < |items[1..]| && HoldsOwnToString(items[1..][j]);
          assert HoldsOwnToString(items[j + 1]);
        }
      }
    }
  }

  /** A string is its own string form, and a one-item array reads as its item. */
  lemma StringFormOfStrings(s: string)
    ensures StringForm(Str(s)) == Converted(s)
    ensures StringForm(Arr([Str(s)])) == Converted(s)
    ensures StringForm(Arr([Str(s), Null])) == Converted(s + ",")
  {
    var items := [Str(s), Null];
    assert items[1..] == [Null];
    assert JoinedForm(items[1..]) == Converted("");
    assert StringForm(items[0]) == Converted(s);
    assert JoinedForm(items) == Converted(s + "," + "");
    assert s + "," + "" == s + ",";
  }

  /** A whole number is written as its decimal digits, read back by `Number`. */
  lemma WholeNumberForm(i: nat)
    requires (i as real) < 1e21
    ensures StringForm(Num(i as real)).Converted?
    ensures AllDigits(StringForm(Num(i as real)).text)
    ensures DigitsValue(StringForm(Num(i as real)).text) == i
  {
    assert (i as real).Floor == i;
    NatTextRoundTrip(i);
  }
}
