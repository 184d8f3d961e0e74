/** The meaning of the zod (version 3) building blocks the schemas use:
    `z.object`, `z.string().min().max()`, `z.number()` with `int`, `min` and
    `max` checks, `z.boolean()` and `.optional()`. A value of the wrong type
    stops its field with one "invalid type" issue; otherwise every check that
    fails adds its message, in the order the checks were declared. An object
    reports its fields' issues in the order of its shape. */
module Zod {
  import opened Js

  /** One validation issue: the field it is about ("" for the body itself) and its message. */
  datatype Issue = Issue(path: string, message: string)

  datatype Parsed<T> = Success(value: T) | Failure(issues: seq<Issue>)

  /** zod's default text for a value of the wrong type; a missing value is "Required". */
  function InvalidType(expected: string, v: JsValue): (m: string)
    ensures v.Undefined? <==> m == "Required"
    ensures !v.Undefined? ==> m == "Expected " + expected + ", received " + TypeName(v)
  {
    if v.Undefined? then "Required"
    else
      var m := "Expected " + expected + ", received " + TypeName(v);
      assert m[0] == 'E';
      m
  }

  /** A string value whose length lies in `[lo, hi]`. */
  predicate FitsLength(v: JsValue, lo: nat, hi: nat)
  {
    v.Str? && lo <= |v.s| <= hi
  }

  /** `z.string().min(lo, loMessage).max(hi, hiMessage)` applied to `v`. */
  function StringChecks(v: JsValue, lo: nat, loMessage: string, hi: nat, hiMessage: string): (r: seq<string>)
    requires lo <= hi
    ensures r == [] <==> FitsLength(v, lo, hi)
    ensures |r| <= 1
    ensures !v.Str? ==> r == [InvalidType("string", v)]
    ensures v.Str? && |v.s| < lo ==> r == [loMessage]
    ensures v.Str? && hi < |v.s| ==> r == [hiMessage]
  {
    if !v.Str? then [InvalidType("string", v)]
    else (if |v.s| < lo then [loMessage] else []) + (if |v.s| > hi then [hiMessage] else [])
  }

  /** A check of `z.number()`: `.int()`, `.min(bound, message)` or `.max(bound, message)`. */
  datatype NumberCheck = IntCheck | MinCheck(bound: real, message: string) | MaxCheck(bound: real, message: string)

  predicate Passes(c: NumberCheck, x: real)
  {
    match c
    case IntCheck => IsInteger(x)
    case MinCheck(bound, _) => x >= bound
    case MaxCheck(bound, _) => x <= bound
  }

  function CheckMessage(c: NumberCheck): string
  {
    match c
    case IntCheck => "Expected integer, received float"
    case MinCheck(_, message) => message
    case MaxCheck(_, message) => message
  }

  /** The messages of the checks `x` fails, in declaration order. */
  function FailedChecks(checks: seq<NumberCheck>, x: real): (r: seq<string>)
    ensures r == [] <==> forall i :: 0 <= i < |checks| ==> Passes(checks[i], x)
    ensures |r| <= |checks|
    ensures checks != [] && !Passes(checks[0], x) ==> r != [] && r[0] == CheckMessage(checks[0])
  {
    if checks == [] then []
    else (if Passes(checks[0], x) then [] else [CheckMessage(checks[0])]) + FailedChecks(checks[1..], x)
  }

  /** A number value that passes every check. */
  predicate NumberPasses(v: JsValue, checks: seq<NumberCheck>)
  {
    v.Num? && forall i :: 0 <= i < |checks| ==> Passes(checks[i], v.n)
  }

  /** `z.number()` followed by `checks`; `NaN` is of the wrong type. */
  function NumberChecks(v: JsValue, checks: seq<NumberCheck>): (r: seq<string>)
    ensures r == [] <==> NumberPasses(v, checks)
    ensures !v.Num? ==> r == [InvalidType("number", v)]
    ensures v.Num? ==> r == FailedChecks(checks, v.n)
  {
    if !v.Num? then [InvalidType("number", v)] else FailedChecks(checks, v.n)
  }

  /** Three checks pass exactly when each of them passes; the messages of a
      failure start with the first check that fails. */
  lemma ThreeChecks(v: JsValue, a: NumberCheck, b: NumberCheck, c: NumberCheck)
    ensures NumberPasses(v, [a, b, c]) <==> v.Num? && Passes(a, v.n) && Passes(b, v.n) && Passes(c, v.n)
    ensures v.Num? && Passes(a, v.n) && !Passes(b, v.n) ==> NumberChecks(v, [a, b, c])[0] == CheckMessage(b)
    ensures v.Num? && Passes(a, v.n) && Passes(b, v.n) && !Passes(c, v.n) ==> NumberChecks(v, [a, b, c])[0] == CheckMessage(c)
  {
    var checks := [a, b, c];
    assert checks[1..] == [b, c] && [b, c][1..] == [c];
    if v.Num? {
      var x := v.n;
      assert FailedChecks(checks, x) == (if Passes(a, x) then [] else [CheckMessage(a)]) + FailedChecks([b, c], x);
      assert FailedChecks([b, c], x) == (if Passes(b, x) then [] else [CheckMessage(b)]) + FailedChecks([c], x);
      if Passes(a, x) && Passes(b, x) && Passes(c, x) {
        forall i | 0 <= i < 3
          ensures Passes(checks[i], x)
        {
        }
      }
    }
  }

  /** `z.boolean()`. */
  function BooleanChecks(v: JsValue): (r: seq<string>)
    ensures r == [] <==> v.Bool?
    ensures !v.Bool? ==> r == [InvalidType("boolean", v)]
  {
    if v.Bool? then [] else [InvalidType("boolean", v)]
  }

  /** `.optional()`: a missing value passes, a present one is checked. */
  function OrMissing(v: JsValue, present: seq<string>): seq<string>
  {
    if v.Undefined? then [] else present
  }

  /** The messages of one field, each placed at that field's path. */
  function AtPath(key: string, messages: seq<string>): (r: seq<Issue>)
    ensures |r| == |messages|
    ensures forall i :: 0 <= i < |r| ==> r[i] == Issue(key, messages[i])
  {
    seq(|messages|, i requires 0 <= i < |messages| => Issue(key, messages[i]))
  }

  /** The one issue `z.object` reports for a body that is not an object. */
  function NotAnObject(body: JsValue): seq<Issue>
  {
    [Issue("", InvalidType("object", body))]
  }
}
