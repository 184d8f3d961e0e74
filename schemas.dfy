/** The six request-body schemas of the flats API, each read as a parse
    from a JSON body to a command or a list of issues. The bounds and the
    messages are the schemas' own; where a schema gives no message, zod's
    default text is used. None of them trims a string. */
module Schemas {
  import opened Optional
  import opened Js
  import opened Zod
  import opened Tables

  function NameChecks(v: JsValue): (r: seq<string>)
    ensures r == [] <==> FitsLength(v, 1, 100)
  {
    StringChecks(v, 1, "Name is required", 100, "Name must be at most 100 characters")
  }

  function AddressChecks(v: JsValue): (r: seq<string>)
    ensures r == [] <==> FitsLength(v, 1, 200)
  {
    StringChecks(v, 1, "Address is required", 200, "Address must be at most 200 characters")
  }

  /** The base amount's range, inclusive at both ends. */
  predicate AmountInRange(v: JsValue)
  {
    v.Num? && 0.0 <= v.n <= 999999.99
  }

  function BaseAmountChecks(v: JsValue): (r: seq<string>)
    ensures r == [] <==> AmountInRange(v)
  {
    NumberChecks(v, [MinCheck(0.0, "Base amount must be non-negative"),
                     MaxCheck(999999.99, "Base amount must be less than 1,000,000")])
  }

  /** An integer number in `[lo, hi]`. */
  predicate IntegerIn(v: JsValue, lo: int, hi: int)
  {
    v.Num? && IsInteger(v.n) && lo as real <= v.n <= hi as real
  }

  function MonthChecks(v: JsValue): (r: seq<string>)
    ensures r == [] <==> IntegerIn(v, 1, 12)
  {
    ThreeChecks(v, IntCheck, MinCheck(1.0, "Month must be between 1 and 12"), MaxCheck(12.0, "Month must be between 1 and 12"));
    NumberChecks(v, [IntCheck, MinCheck(1.0, "Month must be between 1 and 12"),
                     MaxCheck(12.0, "Month must be between 1 and 12")])
  }

  function YearChecks(v: JsValue): (r: seq<string>)
    ensures r == [] <==> IntegerIn(v, 1900, 2100)
  {
    ThreeChecks(v, IntCheck, MinCheck(1900.0, "Year must be between 1900 and 2100"), MaxCheck(2100.0, "Year must be between 1900 and 2100"));
    NumberChecks(v, [IntCheck, MinCheck(1900.0, "Year must be between 1900 and 2100"),
                     MaxCheck(2100.0, "Year must be between 1900 and 2100")])
  }

  /** The filter's month and year use the same ranges with zod's default texts. */
  function FilterMonthChecks(v: JsValue): (r: seq<string>)
    ensures r == [] <==> v.Undefined? || IntegerIn(v, 1, 12)
  {
    ThreeChecks(v, IntCheck, MinCheck(1.0, "Number must be greater than or equal to 1"), MaxCheck(12.0, "Number must be less than or equal to 12"));
    OrMissing(v, NumberChecks(v, [IntCheck, MinCheck(1.0, "Number must be greater than or equal to 1"),
                                 MaxCheck(12.0, "Number must be less than or equal to 12")]))
  }

  function FilterYearChecks(v: JsValue): (r: seq<string>)
    ensures r == [] <==> v.Undefined? || IntegerIn(v, 1900, 2100)
  {
    ThreeChecks(v, IntCheck, MinCheck(1900.0, "Number must be greater than or equal to 1900"), MaxCheck(2100.0, "Number must be less than or equal to 2100"));
    OrMissing(v, NumberChecks(v, [IntCheck, MinCheck(1900.0, "Number must be greater than or equal to 1900"),
                                 MaxCheck(2100.0, "Number must be less than or equal to 2100")]))
  }

  /** A present optional string, or `None` when the field is missing. */
  function OptionalString(v: JsValue): Option<string>
    requires v.Undefined? || v.Str?
  {
    if v.Undefined? then None else Some(v.s)
  }

  /** `createFlatSchema`: both fields are strings of length 1..100 and 1..200. */
  function ParseCreateFlat(body: JsValue): (r: Parsed<CreateFlatCommand>)
    ensures r.Success? <==> body.Obj? && FitsLength(Get(body, "name"), 1, 100) && FitsLength(Get(body, "address"), 1, 200)
    ensures r.Success? ==> r.value == CreateFlatCommand(Get(body, "name").s, Get(body, "address").s)
    ensures r.Failure? ==> r.issues != []
  {
    if !body.Obj? then Failure(NotAnObject(body))
    else
      var name, address := Get(body, "name"), Get(body, "address");
      var issues := AtPath("name", NameChecks(name)) + AtPath("address", AddressChecks(address));
      if issues == [] then Success(CreateFlatCommand(name.s, address.s)) else Failure(issues)
  }

  /** `updateFlatSchema`: each field may be missing; a present one obeys the create rule. */
  function ParseUpdateFlat(body: JsValue): (r: Parsed<UpdateFlatCommand>)
    ensures r.Success? <==> && body.Obj?
                            && (Get(body, "name").Undefined? || FitsLength(Get(body, "name"), 1, 100))
                            && (Get(body, "address").Undefined? || FitsLength(Get(body, "address"), 1, 200))
    ensures r.Success? ==> r.value == UpdateFlatCommand(OptionalString(Get(body, "name")), OptionalString(Get(body, "address")))
    ensures r.Failure? ==> r.issues != []
  {
    if !body.Obj? then Failure(NotAnObject(body))
    else
      var name, address := Get(body, "name"), Get(body, "address");
      var issues := AtPath("name", OrMissing(name, NameChecks(name)))
                    + AtPath("address", OrMissing(address, AddressChecks(address)));
      if issues == [] then Success(UpdateFlatCommand(OptionalString(name), OptionalString(address)))
      else Failure(issues)
  }

  /** `createPaymentTypeSchema`: a name of length 1..100 and a base amount in [0, 999999.99]. */
  function ParseCreatePaymentType(body: JsValue): (r: Parsed<CreatePaymentTypeCommand>)
    ensures r.Success? <==> body.Obj? && FitsLength(Get(body, "name"), 1, 100) && AmountInRange(Get(body, "base_amount"))
    ensures r.Success? ==> r.value == CreatePaymentTypeCommand(Get(body, "name").s, Get(body, "base_amount").n)
    ensures r.Failure? ==> r.issues != []
  {
    if !body.Obj? then Failure(NotAnObject(body))
    else
      var name, amount := Get(body, "name"), Get(body, "base_amount");
      var issues := AtPath("name", NameChecks(name)) + AtPath("base_amount", BaseAmountChecks(amount));
      if issues == [] then Success(CreatePaymentTypeCommand(name.s, amount.n)) else Failure(issues)
  }

  /** `updatePaymentTypeSchema`: both fields optional, the same rules when present. */
  function ParseUpdatePaymentType(body: JsValue): (r: Parsed<UpdatePaymentTypeCommand>)
    ensures r.Success? <==> && body.Obj?
                            && (Get(body, "name").Undefined? || FitsLength(Get(body, "name"), 1, 100))
                            && (Get(body, "base_amount").Undefined? || AmountInRange(Get(body, "base_amount")))
    ensures r.Success? ==> && r.value.name == OptionalString(Get(body, "name"))
                           && (Get(body, "base_amount").Undefined? <==> r.value.baseAmount.None?)
                           && (r.value.baseAmount.Some? ==> r.value.baseAmount.value == Get(body, "base_amount").n)
    ensures r.Failure? ==> r.issues != []
  {
    if !body.Obj? then Failure(NotAnObject(body))
    else
      var name, amount := Get(body, "name"), Get(body, "base_amount");
      var issues := AtPath("name", OrMissing(name, NameChecks(name)))
                    + AtPath("base_amount", OrMissing(amount, BaseAmountChecks(amount)));
      if issues == [] then
        Success(UpdatePaymentTypeCommand(OptionalString(name), if amount.Undefined? then None else Some(amount.n)))
      else Failure(issues)
  }

  /** `generatePaymentsSchema`: an integer month in 1..12 and an integer year in 1900..2100. */
  function ParseGeneratePayments(body: JsValue): (r: Parsed<GeneratePaymentsCommand>)
    ensures r.Success? <==> body.Obj? && IntegerIn(Get(body, "month"), 1, 12) && IntegerIn(Get(body, "year"), 1900, 2100)
    ensures r.Success? ==> && r.value.month as real == Get(body, "month").n && 1 <= r.value.month <= 12
                           && r.value.year as real == Get(body, "year").n && 1900 <= r.value.year <= 2100
    ensures r.Failure? ==> r.issues != []
  {
    if !body.Obj? then Failure(NotAnObject(body))
    else
      var month, year := Get(body, "month"), Get(body, "year");
      var issues := AtPath("month", MonthChecks(month)) + AtPath("year", YearChecks(year));
      if issues == [] then Success(GeneratePaymentsCommand(month.n.Floor, year.n.Floor)) else Failure(issues)
  }

  /** `paymentFiltersSchema`: every field optional; month and year as in generation, `is_paid` a boolean. */
  function ParsePaymentFilters(body: JsValue): (r: Parsed<PaymentFilters>)
    ensures r.Success? <==> && body.Obj?
                            && (Get(body, "month").Undefined? || IntegerIn(Get(body, "month"), 1, 12))
                            && (Get(body, "year").Undefined? || IntegerIn(Get(body, "year"), 1900, 2100))
                            && (Get(body, "is_paid").Undefined? || Get(body, "is_paid").Bool?)
    ensures r.Success? ==> && (r.value.month.None? <==> Get(body, "month").Undefined?)
                           && (r.value.month.Some? ==> r.value.month.value as real == Get(body, "month").n)
                           && (r.value.year.None? <==> Get(body, "year").Undefined?)
                           && (r.value.year.Some? ==> r.value.year.value as real == Get(body, "year").n)
                           && (r.value.isPaid.None? <==> Get(body, "is_paid").Undefined?)
                           && (r.value.isPaid.Some? ==> r.value.isPaid.value == Get(body, "is_paid").b)
    ensures r.Failure? ==> r.issues != []
  {
    if !body.Obj? then Failure(NotAnObject(body))
    else
      var month, year, isPaid := Get(body, "month"), Get(body, "year"), Get(body, "is_paid");
      var issues := AtPath("month", FilterMonthChecks(month)) + AtPath("year", FilterYearChecks(year))
                    + AtPath("is_paid", OrMissing(isPaid, BooleanChecks(isPaid)));
      if issues == [] then
        Success(PaymentFilters(if month.Undefined? then None else Some(month.n.Floor),
                               if year.Undefined? then None else Some(year.n.Floor),
                               if isPaid.Undefined? then None else Some(isPaid.b)))
      else Failure(issues)
  }

  /** A body with a name and an address and nothing else. */
  function FlatBody(name: JsValue, address: JsValue): JsValue
  {
    Obj(map["name" := name, "address" := address])
  }

  /** The create-flat schema checks its two fields independently: each field
      that fails contributes exactly one issue, the name's before the address's. */
  lemma CreateFlatOneIssuePerField(name: JsValue, address: JsValue)
    ensures var r := ParseCreateFlat(FlatBody(name, address));
            var nameFails, addressFails := !FitsLength(name, 1, 100), !FitsLength(address, 1, 200);
            && (r.Failure? ==> |r.issues| == (if nameFails then 1 else 0) + (if addressFails then 1 else 0))
            && (r.Failure? ==> (r.issues[0].path == "name" <==> nameFails))
            && (r.Failure? && nameFails && addressFails ==> r.issues[1].path == "address")
  {
    var body := FlatBody(name, address);
    assert Get(body, "name") == name && Get(body, "address") == address;
  }

  /** The first message the schema reports for each kind of bad field. */
  lemma CreateFlatFirstMessages(name: string, address: string)
    ensures name == "" ==> ParseCreateFlat(FlatBody(Str(name), Str(address))).issues[0].message == "Name is required"
    ensures |name| > 100 ==> ParseCreateFlat(FlatBody(Str(name), Str(address))).issues[0].message == "Name must be at most 100 characters"
    ensures 1 <= |name| <= 100 && address == "" ==>
              ParseCreateFlat(FlatBody(Str(name), Str(address))).issues[0] == Issue("address", "Address is required")
    ensures 1 <= |name| <= 100 && |address| > 200 ==>
              ParseCreateFlat(FlatBody(Str(name), Str(address))).issues[0] == Issue("address", "Address must be at most 200 characters")
  {
    var body := FlatBody(Str(name), Str(address));
    assert Get(body, "name") == Str(name) && Get(body, "address") == Str(address);
  }

  /** The schemas do not trim: a name made only of white space passes. */
  lemma SchemaAcceptsBlankName(name: string, address: string)
    requires 1 <= |name| <= 100 && 1 <= |address| <= 200
    ensures ParseCreateFlat(FlatBody(Str(name), Str(address))) == Success(CreateFlatCommand(name, address))
  {
    var body := FlatBody(Str(name), Str(address));
    assert Get(body, "name") == Str(name) && Get(body, "address") == Str(address);
  }

  /** An empty update is accepted and changes nothing; an empty name is still rejected. */
  lemma UpdateFlatOptionalFields()
    ensures ParseUpdateFlat(Obj(map[])) == Success(UpdateFlatCommand(None, None))
    ensures ParseUpdateFlat(Obj(map["name" := Str("")])).Failure?
  {
    assert Get(Obj(map["name" := Str("")]), "name") == Str("");
  }

  /** Whatever the create schema accepts, the update schema accepts as a full update. */
  lemma CreateFlatAcceptedByUpdate(body: JsValue)
    requires ParseCreateFlat(body).Success?
    ensures ParseUpdateFlat(body) == Success(UpdateFlatCommand(Some(ParseCreateFlat(body).value.name),
                                                               Some(ParseCreateFlat(body).value.address)))
  {
  }

  /** A body with a name and a base amount. */
  function PaymentTypeBody(name: JsValue, amount: JsValue): JsValue
  {
    Obj(map["name" := name, "base_amount" := amount])
  }

  /** The amount bound is inclusive at 0 and 999999.99; the first failing
      check names the side that was crossed. */
  lemma BaseAmountBoundaries(amount: real)
    ensures var r := ParseCreatePaymentType(PaymentTypeBody(Str("Rent"), Num(amount)));
            && (r.Success? <==> 0.0 <= amount <= 999999.99)
            && (amount < 0.0 ==> r.issues[0] == Issue("base_amount", "Base amount must be non-negative"))
            && (amount > 999999.99 ==> r.issues[0] == Issue("base_amount", "Base amount must be less than 1,000,000"))
  {
    var body := PaymentTypeBody(Str("Rent"), Num(amount));
    assert Get(body, "name") == Str("Rent") && Get(body, "base_amount") == Num(amount);
  }

  /** Above the upper bound, with a valid name, the amount's upper check is the only issue. */
  lemma AmountAboveBoundIsTheOnlyIssue(name: string, amount: real)
    requires 1 <= |name| <= 100 && amount > 999999.99
    ensures ParseCreatePaymentType(PaymentTypeBody(Str(name), Num(amount))).issues
            == [Issue("base_amount", "Base amount must be less than 1,000,000")]
  {
    var body := PaymentTypeBody(Str(name), Num(amount));
    assert Get(body, "name") == Str(name) && Get(body, "base_amount") == Num(amount);
    var checks := [MinCheck(0.0, "Base amount must be non-negative"),
                   MaxCheck(999999.99, "Base amount must be less than 1,000,000")];
    assert checks[1..] == [checks[1]];
    assert BaseAmountChecks(Num(amount)) == ["Base amount must be less than 1,000,000"];
  }

  /** A present base amount in an update obeys the same bound. */
  lemma UpdatePaymentTypeAmountBound(amount: real)
    ensures ParseUpdatePaymentType(Obj(map["base_amount" := Num(amount)])).Success? <==> 0.0 <= amount <= 999999.99
  {
    assert Get(Obj(map["base_amount" := Num(amount)]), "base_amount") == Num(amount);
  }

  /** A body with a month and a year. */
  function PeriodBody(month: JsValue, year: JsValue): JsValue
  {
    Obj(map["month" := month, "year" := year])
  }

  /** Generation needs whole numbers: a fractional month or year is rejected
      with zod's integer message, and an out-of-range integer with the schema's text. */
  lemma GeneratePaymentsRejections(month: real, year: real)
    ensures var r := ParseGeneratePayments(PeriodBody(Num(month), Num(year)));
            && (!IsInteger(month) ==> r.issues[0] == Issue("month", "Expected integer, received float"))
            && (IsInteger(month) && (month < 1.0 || month > 12.0) ==>
                  r.issues[0] == Issue("month", "Month must be between 1 and 12"))
            && (IntegerIn(Num(month), 1, 12) && IsInteger(year) && (year < 1900.0 || year > 2100.0) ==>
                  r.issues[0] == Issue("year", "Year must be between 1900 and 2100"))
  {
    var body := PeriodBody(Num(month), Num(year));
    assert Get(body, "month") == Num(month) && Get(body, "year") == Num(year);
    ThreeChecks(Num(month), IntCheck, MinCheck(1.0, "Month must be between 1 and 12"),
                MaxCheck(12.0, "Month must be between 1 and 12"));
    ThreeChecks(Num(year), IntCheck, MinCheck(1900.0, "Year must be between 1900 and 2100"),
                MaxCheck(2100.0, "Year must be between 1900 and 2100"));
  }

  /** The filters accept an empty body, and `is_paid` must be a real boolean. */
  lemma PaymentFiltersOptional()
    ensures ParsePaymentFilters(Obj(map[])) == Success(PaymentFilters(None, None, None))
    ensures ParsePaymentFilters(Obj(map["is_paid" := Str("true")])).Failure?
  {
    assert Get(Obj(map["is_paid" := Str("true")]), "is_paid") == Str("true");
  }
}
