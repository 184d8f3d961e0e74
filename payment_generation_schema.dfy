/** The payment generation form's schema: each of month and year is first
    normalised (blank, `null` and `NaN` become missing, a string of decimal
    digits becomes its number) and then range-checked, with the form's own
    messages for a missing value and for a value of the wrong type. There is
    no integer check. */
module PaymentGenerationSchema {
  import opened Js
  import opened Zod
  import opened Text
  import Schemas

  datatype PaymentGenerationFormData = PaymentGenerationFormData(month: real, year: real)

  /** A value the normalisation turns into "missing". */
  predicate Blank(v: JsValue)
  {
    v == Str("") || v.Undefined? || v.Null? || v.NaN?
  }

  /** The `preprocess` step both fields share. */
  function Preprocess(v: JsValue): (r: JsValue)
    ensures Blank(v) ==> r.Undefined?
    ensures v.Str? && AllDigits(v.s) ==> r == Num(DigitsValue(v.s) as real)
    ensures !Blank(v) && !(v.Str? && AllDigits(v.s)) ==> r == v
    ensures !r.Null? && !r.NaN? && r != Str("") && !(r.Str? && AllDigits(r.s))
  {
    if v == Str("") || v.Undefined? || v.Null? then Undefined
    else if v.NaN? then Undefined
    else if v.Str? && AllDigits(v.s) then Num(DigitsValue(v.s) as real)
    else v
  }

  /** Normalising twice is normalising once. */
  lemma PreprocessIdempotent(v: JsValue)
    ensures Preprocess(Preprocess(v)) == Preprocess(v)
  {
  }

  /** A field value the schema accepts: after normalisation, a number in `[lo, hi]`. */
  predicate AcceptedIn(v: JsValue, lo: real, hi: real)
  {
    Preprocess(v).Num? && lo <= Preprocess(v).n <= hi
  }

  /** One field: missing, then wrong type, then the two range checks. */
  function FieldChecks(v: JsValue, requiredMessage: string, typeMessage: string,
                       lo: real, hi: real, rangeMessage: string): (r: seq<string>)
    requires lo <= hi
    ensures r == [] <==> AcceptedIn(v, lo, hi)
    ensures |r| <= 1
    ensures Preprocess(v).Undefined? ==> r == [requiredMessage]
    ensures !Preprocess(v).Undefined? && !Preprocess(v).Num? ==> r == [typeMessage]
    ensures Preprocess(v).Num? && !(lo <= Preprocess(v).n <= hi) ==> r == [rangeMessage]
  {
    var p := Preprocess(v);
    if p.Undefined? then [requiredMessage]
    else if !p.Num? then [typeMessage]
    else
      var checks := [MinCheck(lo, rangeMessage), MaxCheck(hi, rangeMessage)];
      assert checks[1..] == [MaxCheck(hi, rangeMessage)];
      FailedChecks(checks, p.n)
  }

  function MonthChecks(v: JsValue): (r: seq<string>)
    ensures r == [] <==> AcceptedIn(v, 1.0, 12.0)
  {
    FieldChecks(v, "Month is required", "Month must be a number", 1.0, 12.0, "Month must be between 1 and 12")
  }

  function YearChecks(v: JsValue): (r: seq<string>)
    ensures r == [] <==> AcceptedIn(v, 1900.0, 2100.0)
  {
    FieldChecks(v, "Year is required", "Year must be a number", 1900.0, 2100.0, "Year must be between 1900 and 2100")
  }

  /** `paymentGenerationSchema.safeParse(body)`. */
  function ParsePaymentGeneration(body: JsValue): (r: Parsed<PaymentGenerationFormData>)
    ensures r.Success? <==> body.Obj? && AcceptedIn(Get(body, "month"), 1.0, 12.0) && AcceptedIn(Get(body, "year"), 1900.0, 2100.0)
    ensures r.Success? ==> && r.value.month == Preprocess(Get(body, "month")).n
                           && r.value.year == Preprocess(Get(body, "year")).n
    ensures r.Failure? ==> r.issues != []
  {
    if !body.Obj? then Failure(NotAnObject(body))
    else
      var month, year := Get(body, "month"), Get(body, "year");
      var issues := AtPath("month", MonthChecks(month)) + AtPath("year", YearChecks(year));
      if issues == [] then Success(PaymentGenerationFormData(Preprocess(month).n, Preprocess(year).n))
      else Failure(issues)
  }

  /** An empty string, `null`, a missing field and `NaN` are all reported as missing. */
  lemma BlankIsRequired(v: JsValue, w: JsValue)
    requires Blank(v)
    ensures ParsePaymentGeneration(Schemas.PeriodBody(v, Num(2024.0))).issues[0] == Issue("month", "Month is required")
    ensures AcceptedIn(w, 1.0, 12.0) ==>
              ParsePaymentGeneration(Schemas.PeriodBody(w, v)).issues == [Issue("year", "Year is required")]
  {
    var b1, b2 := Schemas.PeriodBody(v, Num(2024.0)), Schemas.PeriodBody(w, v);
    assert Get(b1, "month") == v && Get(b2, "month") == w && Get(b2, "year") == v;
  }

  /** A string of decimal digits is read as the number it spells. */
  lemma DigitStringsAreNumbers(s: string, year: JsValue)
    requires AllDigits(s)
    ensures ParsePaymentGeneration(Schemas.PeriodBody(Str(s), year))
            == ParsePaymentGeneration(Schemas.PeriodBody(Num(DigitsValue(s) as real), year))
  {
    var b1, b2 := Schemas.PeriodBody(Str(s), year), Schemas.PeriodBody(Num(DigitsValue(s) as real), year);
    assert Get(b1, "month") == Str(s) && Get(b2, "month") == Num(DigitsValue(s) as real);
    assert Get(b1, "year") == year && Get(b2, "year") == year;
  }

  /** Any other non-empty string, such as "January", is of the wrong type. */
  lemma OtherStringsAreNotNumbers(s: string)
    requires s != "" && !AllDigits(s)
    ensures ParsePaymentGeneration(Schemas.PeriodBody(Str(s), Num(2024.0))).issues[0] == Issue("month", "Month must be a number")
  {
    var body := Schemas.PeriodBody(Str(s), Num(2024.0));
    assert Get(body, "month") == Str(s);
  }

  /** There is no integer check: a fractional month passes unchanged. */
  lemma FractionalMonthPasses()
    ensures ParsePaymentGeneration(Schemas.PeriodBody(Num(1.5), Num(2024.0))) == Success(PaymentGenerationFormData(1.5, 2024.0))
  {
    var b := Schemas.PeriodBody(Num(1.5), Num(2024.0));
    assert Get(b, "month") == Num(1.5) && Get(b, "year") == Num(2024.0);
  }

  /** A fractional year passes too. */
  lemma FractionalYearPasses()
    ensures ParsePaymentGeneration(Schemas.PeriodBody(Num(1.0), Num(2024.5))).Success?
  {
    var b := Schemas.PeriodBody(Num(1.0), Num(2024.5));
    assert Get(b, "month") == Num(1.0) && Get(b, "year") == Num(2024.5);
  }

  /** The two fields are reported independently, month first. */
  lemma BothFieldsReported()
    ensures ParsePaymentGeneration(Schemas.PeriodBody(Num(0.0), Num(1800.0))).issues
            == [Issue("month", "Month must be between 1 and 12"), Issue("year", "Year must be between 1900 and 2100")]
  {
    var b := Schemas.PeriodBody(Num(0.0), Num(1800.0));
    assert Get(b, "month") == Num(0.0) && Get(b, "year") == Num(1800.0);
  }

  /** Every period the server's `generatePaymentsSchema` accepts, the form's
      schema accepts with the same month and year. */
  lemma FormSchemaIsLooserThanServer(body: JsValue)
    requires Schemas.ParseGeneratePayments(body).Success?
    ensures ParsePaymentGeneration(body).Success?
    ensures ParsePaymentGeneration(body).value.month == Schemas.ParseGeneratePayments(body).value.month as real
    ensures ParsePaymentGeneration(body).value.year == Schemas.ParseGeneratePayments(body).value.year as real
  {
  }

  /** The converse fails: the form lets a fraction through, which the server refuses. */
  lemma ServerRefusesFraction()
    ensures Schemas.ParseGeneratePayments(Schemas.PeriodBody(Num(1.5), Num(2024.0))).Failure?
  {
    var b := Schemas.PeriodBody(Num(1.5), Num(2024.0));
    assert Get(b, "month") == Num(1.5);
  }

  /** The converse fails for a digit string too: the form reads "3" as March,
      the server refuses a string month. */
  lemma ServerRefusesDigitString()
    ensures Schemas.ParseGeneratePayments(Schemas.PeriodBody(Str("3"), Num(2024.0))).Failure?
    ensures ParsePaymentGeneration(Schemas.PeriodBody(Str("3"), Num(2024.0))).Success?
  {
    var b := Schemas.PeriodBody(Str("3"), Num(2024.0));
    assert Get(b, "month") == Str("3") && Get(b, "year") == Num(2024.0);
    assert AllDigits("3") && DigitsValue("3") == 3 by {
      assert "3"[..0] == "";
    }
  }
}
