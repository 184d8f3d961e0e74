/** The payment type form's client-side rules: the flat form's name rule, and
    an amount typed as text that must be present, must read as a number
    with `parseFloat`, and must lie in [0, 1000000). The command carries the
    trimmed name and the parsed amount; JSON turns a non-finite amount into
    `null`. */
module PaymentTypeForm {
  import opened Optional
  import opened Text
  import opened Js
  import opened Zod
  import opened Tables
  import opened NumberParse
  import FlatForm
  import Schemas

  datatype PaymentTypeFormData = PaymentTypeFormData(name: string, baseAmount: string)

  /** The amount the form accepts: a finite parse in [0, 1000000). */
  predicate AmountAccepted(text: string)
  {
    var x := ParseFloat(Trim(text));
    x.Finite? && 0.0 <= x.value < 1000000.0
  }

  /** The amount's else-if ladder: at most one message, from the first check that fails. */
  function AmountError(text: string): (e: Option<string>)
    ensures e.None? <==> AmountAccepted(text)
    ensures Trim(text) == "" ==> e == Some("Base amount is required")
    ensures Trim(text) != "" && ParseFloat(Trim(text)).NotANumber? ==> e == Some("Base amount must be a valid number")
    ensures Trim(text) != "" && (ParseFloat(Trim(text)).NegInfinity? || (ParseFloat(Trim(text)).Finite? && ParseFloat(Trim(text)).value < 0.0))
            ==> e == Some("Base amount must be non-negative")
    ensures Trim(text) != "" && (ParseFloat(Trim(text)).PosInfinity? || (ParseFloat(Trim(text)).Finite? && ParseFloat(Trim(text)).value >= 1000000.0))
            ==> e == Some("Base amount must be less than 1,000,000")
  {
    var trimmed := Trim(text);
    if trimmed == "" then
      assert AllSpace(trimmed);
      Some("Base amount is required")
    else
      match ParseFloat(trimmed)
      case NotANumber => Some("Base amount must be a valid number")
      case NegInfinity => Some("Base amount must be non-negative")
      case PosInfinity => Some("Base amount must be less than 1,000,000")
      case Finite(x) =>
        if x < 0.0 then Some("Base amount must be non-negative")
        else if x >= 1000000.0 then Some("Base amount must be less than 1,000,000")
        else None
  }

  /** `validatePaymentTypeForm`: the name and the amount are judged independently. */
  function ValidatePaymentTypeForm(d: PaymentTypeFormData): (errors: map<string, string>)
    ensures errors.Keys <= {"name", "base_amount"}
    ensures "name" in errors <==> FlatForm.NameError(d.name).Some?
    ensures "name" in errors ==> errors["name"] == FlatForm.NameError(d.name).value
    ensures "base_amount" in errors <==> !AmountAccepted(d.baseAmount)
    ensures "base_amount" in errors ==> errors["base_amount"] == AmountError(d.baseAmount).value
    ensures errors == map[] <==> Trim(d.name) != "" && |d.name| <= 100 && AmountAccepted(d.baseAmount)
  {
    var errors := FlatForm.Put(map[], "name", FlatForm.NameError(d.name));
    var errors := FlatForm.Put(errors, "base_amount", AmountError(d.baseAmount));
    assert "name" in errors ==> errors["name"] == FlatForm.NameError(d.name).value;
    errors
  }

  /** `isFormValid`: both trimmed texts are non-empty. */
  predicate IsFormValid(d: PaymentTypeFormData)
  {
    Trim(d.name) != "" && Trim(d.baseAmount) != ""
  }

  /** A number as `JSON.stringify` writes it: `NaN` and the infinities become `null`. */
  function ToJson(x: JsNumber): (v: JsValue)
    ensures x.Finite? ==> v == Num(x.value)
    ensures !x.Finite? ==> v == Null
  {
    if x.Finite? then Num(x.value) else Null
  }

  /** The request body sent on submit: the trimmed name and the parsed amount. */
  function CommandBody(d: PaymentTypeFormData): JsValue
  {
    Schemas.PaymentTypeBody(Str(Trim(d.name)), ToJson(ParseFloat(Trim(d.baseAmount))))
  }

  /** A form that validates can be submitted. */
  lemma ValidFormCanBeSubmitted(d: PaymentTypeFormData)
    ensures ValidatePaymentTypeForm(d) == map[] ==> IsFormValid(d)
  {
  }

  /** Every body the server schema accepts carries an amount the form accepts. */
  lemma ServerAcceptedAmountPassesForm(d: PaymentTypeFormData)
    ensures Schemas.ParseCreatePaymentType(CommandBody(d)).Success? ==> AmountAccepted(d.baseAmount)
  {
    var body := CommandBody(d);
    assert Get(body, "base_amount") == ToJson(ParseFloat(Trim(d.baseAmount)));
  }

  /** A validated form whose amount is at most 999999.99 passes the server
      schema, as exactly the trimmed name and the parsed amount. */
  lemma ValidFormWithinServerBound(d: PaymentTypeFormData, x: real)
    requires ValidatePaymentTypeForm(d) == map[]
    requires ParseFloat(Trim(d.baseAmount)) == Finite(x) && x <= 999999.99
    ensures Schemas.ParseCreatePaymentType(CommandBody(d)) == Success(CreatePaymentTypeCommand(Trim(d.name), x))
  {
    var body := CommandBody(d);
    assert Get(body, "name") == Str(Trim(d.name)) && Get(body, "base_amount") == Num(x);
    FlatForm.TrimmedLength(d.name);
  }

  /** Between the two bounds the form accepts an amount that the server then
      refuses as too large, with the amount as the only issue; "999999.995"
      reads as such an amount (`NumberParse.ReadsAsItsValue`). */
  lemma AmountBetweenTheBounds(d: PaymentTypeFormData, x: real)
    requires Trim(d.name) != "" && |d.name| <= 100
    requires ParseFloat(Trim(d.baseAmount)) == Finite(x) && 999999.99 < x < 1000000.0
    ensures ValidatePaymentTypeForm(d) == map[]
    ensures Schemas.ParseCreatePaymentType(CommandBody(d)).issues
            == [Issue("base_amount", "Base amount must be less than 1,000,000")]
  {
    assert CommandBody(d) == Schemas.PaymentTypeBody(Str(Trim(d.name)), Num(x));
    FlatForm.TrimmedLength(d.name);
    Schemas.AmountAboveBoundIsTheOnlyIssue(Trim(d.name), x);
  }
}
