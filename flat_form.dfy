/** The flat form's client-side rules: a name and an address that must not
    be blank once trimmed and whose untrimmed length is bounded, an enabled
    submit button once both trimmed values are non-empty, and a command built
    from the trimmed values. Errors are a map from field name to message
    holding only the fields that failed. */
module FlatForm {
  import opened Optional
  import opened Text
  import opened Js
  import opened Zod
  import opened Tables
  import Schemas

  datatype FlatFormData = FlatFormData(name: string, address: string)

  /** One text field: blank after trimming is "required"; otherwise the
      untrimmed text may be at most `limit` characters long. */
  function TextFieldError(value: string, limit: nat, requiredMessage: string, tooLongMessage: string): (e: Option<string>)
    ensures e.None? <==> Trim(value) != "" && |value| <= limit
    ensures Trim(value) == "" ==> e == Some(requiredMessage)
    ensures Trim(value) != "" && |value| > limit ==> e == Some(tooLongMessage)
  {
    if Trim(value) == "" then Some(requiredMessage)
    else if |value| > limit then Some(tooLongMessage)
    else None
  }

  /** `errors` with `key` set when there is an error to report. */
  function Put(errors: map<string, string>, key: string, e: Option<string>): (r: map<string, string>)
    ensures e.Some? ==> r == errors[key := e.value]
    ensures e.None? ==> r == errors
  {
    if e.Some? then errors[key := e.value] else errors
  }

  function NameError(name: string): Option<string>
  {
    TextFieldError(name, 100, "Name is required", "Name must be at most 100 characters")
  }

  function AddressError(address: string): Option<string>
  {
    TextFieldError(address, 200, "Address is required", "Address must be at most 200 characters")
  }

  /** `validateFlatForm`: the name and the address are judged independently,
      and the result is empty exactly when both pass. */
  function ValidateFlatForm(d: FlatFormData): (errors: map<string, string>)
    ensures errors.Keys <= {"name", "address"}
    ensures "name" in errors <==> Trim(d.name) == "" || |d.name| > 100
    ensures "name" in errors ==> errors["name"] == (if Trim(d.name) == "" then "Name is required"
                                                    else "Name must be at most 100 characters")
    ensures "address" in errors <==> Trim(d.address) == "" || |d.address| > 200
    ensures "address" in errors ==> errors["address"] == (if Trim(d.address) == "" then "Address is required"
                                                          else "Address must be at most 200 characters")
    ensures errors == map[] <==> Trim(d.name) != "" && |d.name| <= 100 && Trim(d.address) != "" && |d.address| <= 200
  {
    var errors := Put(map[], "name", NameError(d.name));
    var errors := Put(errors, "address", AddressError(d.address));
    assert "name" in errors ==> errors["name"] == NameError(d.name).value;
    errors
  }

  /** `isFormValid`, which enables the submit button. */
  predicate IsFormValid(d: FlatFormData)
  {
    Trim(d.name) != "" && Trim(d.address) != ""
  }

  /** The command sent on submit, for creating and for editing alike. */
  function FlatCommand(d: FlatFormData): CreateFlatCommand
  {
    CreateFlatCommand(Trim(d.name), Trim(d.address))
  }

  /** The request body the command becomes. */
  function CommandBody(d: FlatFormData): JsValue
  {
    Schemas.FlatBody(Str(Trim(d.name)), Str(Trim(d.address)))
  }

  /** The submit button is a weaker guard than validation: a form that
      validates can be submitted, and when the button is enabled the only
      errors validation can still report are the length errors. */
  lemma SubmitGuardIsWeakerThanValidation(d: FlatFormData)
    ensures ValidateFlatForm(d) == map[] ==> IsFormValid(d)
    ensures IsFormValid(d) && "name" in ValidateFlatForm(d) ==> ValidateFlatForm(d)["name"] == "Name must be at most 100 characters"
    ensures IsFormValid(d) && "address" in ValidateFlatForm(d) ==> ValidateFlatForm(d)["address"] == "Address must be at most 200 characters"
  {
  }

  /** The sent command carries no surrounding white space. */
  lemma CommandIsTrimmed(d: FlatFormData)
    ensures Trim(FlatCommand(d).name) == FlatCommand(d).name
    ensures Trim(FlatCommand(d).address) == FlatCommand(d).address
  {
    TrimIdempotent(d.name);
    TrimIdempotent(d.address);
  }

  /** A trimmed text that is not blank is between 1 character and the untrimmed length. */
  lemma TrimmedLength(s: string)
    requires Trim(s) != ""
    ensures 1 <= |Trim(s)| <= |s|
  {
    TrimIsCore(s);
  }

  /** Whatever the form lets through, the server's create and update schemas
      accept, as exactly the trimmed command. */
  lemma ValidFormPassesSchemas(d: FlatFormData)
    requires ValidateFlatForm(d) == map[]
    ensures Schemas.ParseCreateFlat(CommandBody(d)) == Success(FlatCommand(d))
    ensures Schemas.ParseUpdateFlat(CommandBody(d)) == Success(UpdateFlatCommand(Some(Trim(d.name)), Some(Trim(d.address))))
  {
    TrimmedLength(d.name);
    TrimmedLength(d.address);
    var body := CommandBody(d);
    assert Get(body, "name") == Str(Trim(d.name)) && Get(body, "address") == Str(Trim(d.address));
  }

  /** The form's trimmed rule is stricter than the schema's raw length: a
      name made only of white space is refused by the form and accepted by the schema. */
  lemma BlankNameOnlyTheFormRefuses(name: string, address: string)
    requires AllSpace(name) && 1 <= |name| <= 100
    requires Trim(address) != "" && |address| <= 200
    ensures ValidateFlatForm(FlatFormData(name, address)) == map["name" := "Name is required"]
    ensures Schemas.ParseCreateFlat(Schemas.FlatBody(Str(name), Str(address))).Success?
  {
    TrimEmptyIffAllSpace(name);
    TrimmedLength(address);
    Schemas.SchemaAcceptsBlankName(name, address);
    var errors := ValidateFlatForm(FlatFormData(name, address));
    assert errors.Keys == {"name"};
  }
}
