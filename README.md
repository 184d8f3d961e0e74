# flats-manager: a Dafny model of the payment and debt core

flats-manager is a web application for landlords. An owner registers, logs in and
records flats. For each flat the owner sets up payment types: recurring charges such as
rent or a utility, each with a base amount. From these the owner generates one payment
per type for a month of a year, then marks the payments paid one at a time. A flat's
debt is the sum of its unpaid payments. The dashboard lists the owner's flats with
their debts and filters and sorts them.

This project models the following:

- **The flats service.** It is a class over three tables: flats, payment types and
  payments. Every operation checks its identifiers, checks ownership, and then reads
  or writes the tables. A table whose queries fail is part of the state, so every
  error path is modelled.
- **The request-body schemas.** Both the server's schemas and the payment generation
  form's schema are modelled. Zod's building blocks are given their meaning on a small
  model of JSON values.
- **The client-side validators.** These are the flat form, the payment type form, the
  register form and the login form, including the e-mail pattern. The `parseFloat` the
  amount rule relies on is modelled on exact reals.
- **The form state.** This is the `useFormState` hook and the login form's own state,
  modelled as classes whose methods change fields.
- **The view derivations.** These are the flat detail view models and statistics, the
  flats list cards, the payment status badge, the generation preview and the month
  names.
- **The dashboard grid.** Its filter and sort block is a method that sorts an array in
  place.
- **The middleware's redirect rule.**
- **The register and login routes.** Both are ladders of checks followed by a call to
  the authentication service.

The main properties proved are these:

- **Debt.** A flat's debt is the sum of its unpaid payments. Generating payments raises
  it by exactly the total of the flat's base amounts. That is also the total the
  preview announces. Marking a payment paid lowers the debt by exactly that payment's
  contribution.
- **Table integrity.** Every mutation keeps the tables consistent: unique keys and
  intact references. This includes the delete cascade.
- **The dashboard.** It lists exactly the user's flats, newest first, with their debts.
- **Ownership.** Every read and write is gated by ownership. An identifier that is not
  well-formed never reaches the store.
- **Forms against the server.** The forms and the server's schemas disagree in three
  places, each proved.
  - A blank name runs the other way: the flat form trims and refuses it, while the
    schema accepts it (`FlatForm.BlankNameOnlyTheFormRefuses`).
  - An amount between 999999.99 and 1000000 passes the payment-type form and is refused
    by the server (`PaymentTypeForm.AmountBetweenTheBounds`).
  - A fractional month or year, such as 1.5 or 2024.5, passes the generation form's
    schema and is kept as is (`PaymentGenerationSchema.FractionalMonthPasses`,
    `FractionalYearPasses`), while the server refuses it
    (`PaymentGenerationSchema.ServerRefusesFraction`). In the page, only the month
    `<select>` with its options 1 to 12 (src/components/GeneratePaymentsForm.tsx:115-131)
    and the browser's default step check on the number input for the year
    (src/components/GeneratePaymentsForm.tsx:141-149) stand in the way. Neither is
    part of this model.

  Otherwise, what the flat form and the payment-type form let through passes the
  server's schema (`FlatForm.ValidFormPassesSchemas`,
  `PaymentTypeForm.ValidFormWithinServerBound`).
- **Auth routes.** The routes answer in a fixed order of checks. The register route
  answers 409 exactly for duplicate-like service messages. Its address pattern is tried
  on the value's string form, so an address wrapped in an array gets through
  (`RegisterRoute.ArrayEmailReachesService`).
- **Middleware.** It never redirects to a page it would redirect again.

Store behaviour that is not visible in the service itself is stated as an assumption of
the model: the cascade on delete and fresh identifiers. The clock, locale formatting and
the authentication service enter as parameters.

The model follows the code, also where the code's own comments and tests suggest otherwise:

- **Duplicate periods.** Generating payments does not check for an existing period. The
  comment at src/lib/services/flats.service.ts:548 speaks of ignoring conflicts due to a
  unique constraint, but the insert asks for no such handling, and no unique constraint
  on (payment type, month, year) appears in the database types.
  A second generation for the same period therefore adds a second payment per type
  (`Tables.RepeatedGenerationDuplicatesPeriod`).
- **Marking a payment paid.** The update (src/lib/services/flats.service.ts:611-619) has
  no condition on `is_paid`, so the code does not refuse a payment that is already paid.
  It marks the payment paid again with the new timestamp (`Tables.MarkPaidTwiceRestamps`).
- **Months and years in the generation form.** The form's schema has no integer check,
  so fractional months and years pass it (`PaymentGenerationSchema.FractionalMonthPasses`, `PaymentGenerationSchema.FractionalYearPasses`).
  Its normalisation also turns a string of digits into the number it spells, so a year
  sent as "2024" is accepted (`PaymentGenerationSchema.DigitStringsAreNumbers`). The
  schema's test file (src/lib/validation/payment-generation.schema.test.ts:71-77) expects
  that year to be refused as "Year must be a number".

## Model

| member | source | states |
|---|---|---|
| Uuid.IsValidUuidMeansGroupedHex | src/lib/services/flats.service.ts:18-21 | the positional identifier check accepts exactly the strings of five dash-separated hex groups of lengths 8-4-4-4-12, in either case |
| Uuid.ValidUuidIsGroupedHex | src/lib/services/flats.service.ts:18-21 | an identifier passing the positional check splits into five hex groups of lengths 8-4-4-4-12 joined by dashes |
| Uuid.GroupedHexIsValidUuid | src/lib/services/flats.service.ts:18-21 | five such groups joined by dashes pass the positional check |
| Uuid.AcceptedLowerCaseUuid | src/lib/services/flats.service.ts:18-21 | an identifier in lower case passes |
| Uuid.AcceptedUpperCaseUuid | src/lib/services/flats.service.ts:18-21 | the same identifier in upper case passes (the pattern's `i` flag) |
| Uuid.RejectedUuidExamples | src/lib/services/flats.service.ts:18-21 | the empty string, free text, a dashless identifier and one with a non-hex letter are refused |
| Service.ErrorMessage | src/lib/services/flats.service.ts:36-39 | a malformed identifier reads "Invalid <kind> ID format: <id>"; a store failure carries the operation's "Failed to …" text |
| Service.CheckIds | src/lib/services/flats.service.ts:158-166 | the opening check passes iff both identifiers are well-formed, and the entity identifier is reported before the user identifier |
| Service.DebtByFlat | src/lib/services/flats.service.ts:91-101 | the loop over the fetched unpaid payments leaves, for every flat id, the flat's debt as defined by `Debt` (0 for flats absent from the map) |
| Service.FlatsService.constructor | src/lib/services/flats.service.ts:28 | the service starts over the given consistent tables |
| Service.FlatsService.GetFlatsWithDebt | src/lib/services/flats.service.ts:34-108 | a malformed user id and each failing query give their error in query order; otherwise the result is the user's flats, newest first, each with its debt |
| Service.FlatsService.GetAllFlats | src/lib/services/flats.service.ts:114-150 | exactly the user's flats, ordered by creation time descending; malformed id and store failure as errors |
| Service.FlatsService.GetFlatById | src/lib/services/flats.service.ts:157-184 | a flat is returned iff one with this id belongs to the user, and it is that flat; a flat of another user reads as absent |
| Service.FlatsService.CreateFlat | src/lib/services/flats.service.ts:190-212 | on success exactly one row is appended with the fresh id, the user, the command's fields and the creation time; nothing else changes and the tables stay consistent |
| Service.FlatsService.UpdateFlat | src/lib/services/flats.service.ts:219-254 | an owned flat gets the present fields of the command, absent ones keep their value; a flat not owned gives no result and no change |
| Service.FlatsService.DeleteFlat | src/lib/services/flats.service.ts:261-285 | afterwards the user owns no flat with the id and the result is true, even when nothing was deleted; the flat's payment types and their payments go with it and the tables stay consistent |
| Service.FlatsService.GetPaymentTypes | src/lib/services/flats.service.ts:292-320 | for an owned flat, exactly its payment types, newest first; none for a flat the user does not own |
| Service.FlatsService.CreatePaymentType | src/lib/services/flats.service.ts:327-363 | for an owned flat exactly one row is appended under that flat; a flat not owned changes nothing; the tables stay consistent |
| Service.FlatsService.UpdatePaymentType | src/lib/services/flats.service.ts:370-421 | a payment type whose flat belongs to the user gets the command's present fields; any other gives no result and no change |
| Service.FlatsService.GetPayments | src/lib/services/flats.service.ts:428-504 | for an owned flat, the listing of its payments that pass the filters, latest period first, with their type names; an empty list otherwise |
| Service.FlatsService.GeneratePayments | src/lib/services/flats.service.ts:511-571 | for an owned flat with payment types, one unpaid payment per type for the period at the type's base amount is appended and returned; no types gives an empty list, a flat not owned gives no result |
| Service.FlatsService.InsertGenerated | src/lib/services/flats.service.ts:548-570 | the payments table grows by one unpaid payment per type for the period, in the types' order, each returned with its type's name, and the store stays consistent |
| Service.FlatsService.MarkPaymentAsPaid | src/lib/services/flats.service.ts:578-626 | a payment reached through its type and flat as the user's is marked paid at `now`, whatever its previous state; any other gives no result and no change |
| Tables.FindOwnedFlat | src/lib/services/flats.service.ts:168-173 | the lookup finds a flat iff one has this id and owner, and what it finds has them |
| Tables.FindType | src/lib/services/flats.service.ts:95 | the lookup finds a type iff its id is in the table |
| Tables.FindTypeUnique | src/lib/services/flats.service.ts:95-96 | with unique ids the lookup finds the one row carrying the id |
| Tables.FlatsOfUser | src/lib/services/flats.service.ts:43-47 | exactly the flats whose owner is the user |
| Tables.OrderingsAreTotalPreorders | src/lib/services/flats.service.ts:481-483 | the three orders the queries use (creation time, creation time, period then creation time) are total preorders |
| Tables.OwnedFlatsNewestFirst | src/lib/services/flats.service.ts:43-47 | the user's flats, each as often as in the table, ordered newest first |
| Tables.OwnedFlatsSameMembers | src/lib/services/flats.service.ts:53-55 | sorting adds and drops no flat, so the empty-result test is the same before and after |
| Tables.TypesOfFlats | src/lib/services/flats.service.ts:60-63 | exactly the payment types of the given flats |
| Tables.TypesOfFlatNewestFirst | src/lib/services/flats.service.ts:308-313 | the flat's payment types, ordered newest first |
| Tables.UnpaidOfTypes | src/lib/services/flats.service.ts:80-84 | exactly the unpaid payments of the given types |
| Tables.DebtAppend | src/lib/services/flats.service.ts:91-101 | the debt of two batches of payments is the sum of their debts |
| Tables.DebtNonNegative | src/lib/services/flats.service.ts:91-101 | with no negative amounts a debt is never negative |
| Tables.DebtZeroWhenNothingContributes | src/lib/services/flats.service.ts:104-107 | payments that are paid or of unknown types contribute nothing, so the debt is 0 |
| Tables.DebtZeroWithoutPaymentTypes | src/lib/services/flats.service.ts:104-107 | a flat without payment types has debt 0 |
| Tables.DebtZeroWhenAllPaid | src/lib/services/flats.service.ts:80-84 | when every payment is paid the debt is 0 |
| Tables.DebtOfFetchedPayments | src/lib/services/flats.service.ts:80-84 | restricting the payments to the unpaid ones of the fetched types leaves every debt unchanged |
| Tables.FindTypeAmongFlats | src/lib/services/flats.service.ts:91-96 | looking a type up among the types of a set of flats finds it iff it belongs to one of them |
| Tables.DebtAmongOwnedTypes | src/lib/services/flats.service.ts:60-66 | for an owned flat the debt computed against the fetched types equals its debt against all types |
| Tables.Candidates | src/lib/services/flats.service.ts:539-546 | one row per type: fresh id, the type's id and base amount, the period, unpaid and no paid time |
| Tables.GenerationRaisesDebt | src/lib/services/flats.service.ts:539-557 | generation raises the flat's debt by exactly the sum of the generated types' base amounts |
| Tables.CandidatesDebt | src/lib/services/flats.service.ts:539-546 | the generated rows alone owe exactly the sum of the base amounts |
| Tables.RepeatedGenerationDuplicatesPeriod | src/lib/services/flats.service.ts:548-552 | generating twice for the same period leaves two payments of one type for that period, since nothing checks for an existing one |
| Tables.MarkPaidRows | src/lib/services/flats.service.ts:611-619 | every row with the id becomes paid at `now`; every other row is unchanged |
| Tables.MarkPaidLowersDebt | src/lib/services/flats.service.ts:611-619 | paying one payment lowers its flat's debt by exactly what it contributed and leaves other flats' debts |
| Tables.MarkPaidUnchangedWithoutId | src/lib/services/flats.service.ts:611-619 | an update for an absent id changes no row |
| Tables.MarkPaidTwiceRestamps | src/lib/services/flats.service.ts:611-619 | marking twice leaves the payment paid with the second timestamp |
| Tables.Filter | src/components/FlatsGrid.tsx:32-44 | the kept rows are exactly those in the input that pass the test |
| Tables.FlatsWithout | src/lib/services/flats.service.ts:272-276 | the delete keeps exactly the rows not matching both id and owner |
| Tables.TypesOutsideFlat | src/lib/services/flats.service.ts:272-276 | the cascade keeps exactly the payment types of other flats |
| Tables.PaymentsOutsideTypes | src/lib/services/flats.service.ts:272-276 | the cascade keeps exactly the payments of remaining types |
| Tables.DeleteCascadeKeepsValid | src/lib/services/flats.service.ts:261-285 | deleting a flat together with its types and their payments keeps keys unique and references intact |
| Tables.ApplyFlatUpdate | src/lib/services/flats.service.ts:236-239 | present fields replace the stored ones, absent ones keep them, keys and timestamps unchanged |
| Tables.UpdateFlatRows | src/lib/services/flats.service.ts:236-243 | only the row matching id and owner is updated |
| Tables.ApplyTypeUpdate | src/lib/services/flats.service.ts:405-414 | present fields replace the stored ones, the flat and keys are unchanged |
| Tables.UpdateTypeRows | src/lib/services/flats.service.ts:405-414 | only the row with the id is updated |
| Tables.FlatUpdateKeepsValid | src/lib/services/flats.service.ts:234-243 | a flat update touches neither keys nor references, so the tables stay consistent |
| Tables.TypeUpdateKeepsValid | src/lib/services/flats.service.ts:405-414 | a payment type update keeps keys and the type's flat, so the tables stay consistent |
| Tables.MarkPaidKeepsValid | src/lib/services/flats.service.ts:611-619 | marking paid keeps keys and payment types, so the tables stay consistent |
| Tables.FlatInsertKeepsValid | src/lib/services/flats.service.ts:197-205 | inserting a flat with a fresh id keeps the tables consistent |
| Tables.TypeInsertKeepsValid | src/lib/services/flats.service.ts:348-356 | inserting a type with a fresh id under an existing flat keeps the tables consistent |
| Tables.GenerationKeepsValid | src/lib/services/flats.service.ts:548-552 | inserting the generated rows with fresh ids keeps the tables consistent |
| Tables.TypeOwner | src/lib/services/flats.service.ts:386-403 | the join finds an owner iff the type and its flat exist, and it is that flat's owner |
| Tables.PaymentOwner | src/lib/services/flats.service.ts:589-609 | the owner of a payment is the owner of its type's flat |
| Tables.PaymentOwnerInValidTables | src/lib/services/flats.service.ts:589-609 | in consistent tables every payment has a type and a flat, so the join never breaks |
| Tables.RowsWithDebts | src/lib/services/flats.service.ts:104-107 | one dashboard row per flat, carrying the debt from the map or 0 |
| Tables.DashboardWithoutTypes | src/lib/services/flats.service.ts:69-75 | when the user's flats have no payment types the early return with zero debts is the dashboard |
| Tables.DashboardFromFetched | src/lib/services/flats.service.ts:77-107 | debts summed over the fetched rows only are the flats' true debts, so the early returns and the full path agree |
| Tables.DashboardListsOwnedFlats | src/lib/services/flats.service.ts:34-108 | every dashboard row is one of the user's flats with its debt, and every flat of the user has a row |
| Tables.PaymentsMatching | src/lib/services/flats.service.ts:466-479 | exactly the payments of the given types that pass every present filter |
| Tables.WithTypeNames | src/lib/services/flats.service.ts:492-503 | one output row per payment, with its type's name or "" |
| Tables.FlatPaymentsListingSound | src/lib/services/flats.service.ts:428-504 | every listed row is a payment of one of the flat's types that passes the filters, listed latest period first |
| Tables.FlatPaymentsListingComplete | src/lib/services/flats.service.ts:466-479 | every payment of the flat that passes the filters is listed |
| Tables.FlatPaymentsListingWithoutTypes | src/lib/services/flats.service.ts:459-461 | a flat without payment types lists nothing |
| Tables.GenerationTypes | src/lib/services/flats.service.ts:531-535 | the types generation reads are exactly the flat's types |
| Ordering.SortBy | src/lib/services/flats.service.ts:47 | the ordering the store applies: a permutation of its input |
| Ordering.SortBySorted | src/lib/services/flats.service.ts:47 | the result is ordered by any total preorder |
| Ordering.SortInPlace | src/components/FlatsGrid.tsx:47-62 | the array is sorted in place into the comparator's order and is a permutation of what it held |
| Ordering.SiftIntoPrefix | src/components/FlatsGrid.tsx:47-62 | one step of the sort: an ordered prefix grows by one element and the array keeps its elements |
| Text.TrimIsCore | src/components/FlatForm.tsx:28 | `trim` keeps the part between a white-space prefix and suffix, and neither end of the result is white space |
| Text.TrimEmptyIffAllSpace | src/components/FlatForm.tsx:28-29 | a string trims to nothing iff every character is white space |
| Text.TrimIdempotent | src/components/FlatForm.tsx:106-107 | trimming twice is trimming once |
| Text.AsciiLower | src/pages/api/auth/register.ts:22 | lower-casing keeps the length and maps each ASCII capital to its lower-case letter |
| NumberParse.ParseFloat | src/components/PaymentTypeForm.tsx:41 | white space only reads as NaN |
| NumberParse.ParseFloatSkipsSpace | src/components/PaymentTypeForm.tsx:41 | leading white space does not change what is read |
| NumberParse.ParseFloatStartingWithDigit | src/components/PaymentTypeForm.tsx:41 | text starting with a digit is read as an unsigned decimal, or NaN |
| NumberParse.ParseFloatDecimal | src/components/PaymentTypeForm.tsx:41 | a numeral with a fraction reads as its exact value, whatever non-numeric text follows |
| NumberParse.ParseFloatWhole | src/components/PaymentTypeForm.tsx:41 | a run of digits reads as its value, whatever non-numeric text follows |
| NumberParse.ParseFloatNegates | src/components/PaymentTypeForm.tsx:41-45 | a leading minus negates what follows, keeping finiteness |
| NumberParse.ReadsAsItsValue | src/components/PaymentTypeForm.tsx:41-47 | "999999.995" reads as exactly 999999.995 |
| Js.Get | src/pages/api/auth/register.ts:31-32 | a field of an object that has it is its value; anything else is `undefined` |
| Zod.InvalidType | src/lib/validation/schemas.ts:6-9 | a missing value is "Required"; another value of the wrong type names the expected and the received type |
| Zod.StringChecks | src/lib/validation/schemas.ts:7 | no message iff a string of length within bounds; otherwise exactly the first failing check's message |
| Zod.FailedChecks | src/lib/validation/schemas.ts:24-27 | no message iff every check passes; the first failing check comes first |
| Zod.NumberChecks | src/lib/validation/schemas.ts:24-27 | a non-number (NaN included) is a type error; a number gets the messages of its failed checks |
| Zod.ThreeChecks | src/lib/validation/schemas.ts:45-52 | three checks pass iff each passes, and the first failing one is reported first |
| Zod.BooleanChecks | src/lib/validation/schemas.ts:60 | only a boolean passes |
| Schemas.NameChecks | src/lib/validation/schemas.ts:7 | a name passes iff it is a string of length 1..100 |
| Schemas.AddressChecks | src/lib/validation/schemas.ts:8 | an address passes iff it is a string of length 1..200 |
| Schemas.BaseAmountChecks | src/lib/validation/schemas.ts:24-27 | an amount passes iff it is a number in [0, 999999.99] |
| Schemas.MonthChecks | src/lib/validation/schemas.ts:46 | a month passes iff it is an integer in 1..12 |
| Schemas.YearChecks | src/lib/validation/schemas.ts:47-51 | a year passes iff it is an integer in 1900..2100 |
| Schemas.FilterMonthChecks | src/lib/validation/schemas.ts:58 | an absent month or an integer in 1..12 passes |
| Schemas.FilterYearChecks | src/lib/validation/schemas.ts:59 | an absent year or an integer in 1900..2100 passes |
| Schemas.ParseCreateFlat | src/lib/validation/schemas.ts:6-9 | success iff an object with a valid name and address, yielding those; a failure always has an issue |
| Schemas.ParseUpdateFlat | src/lib/validation/schemas.ts:14-17 | success iff each present field is valid; absent fields are absent in the command |
| Schemas.ParseCreatePaymentType | src/lib/validation/schemas.ts:22-28 | success iff an object with a valid name and an amount in range, yielding those |
| Schemas.ParseUpdatePaymentType | src/lib/validation/schemas.ts:33-40 | success iff each present field is valid, absent ones stay absent |
| Schemas.ParseGeneratePayments | src/lib/validation/schemas.ts:45-52 | success iff integer month 1..12 and year 1900..2100, yielding them |
| Schemas.ParsePaymentFilters | src/lib/validation/schemas.ts:57-61 | success iff every present filter is valid; absent filters stay absent |
| Schemas.CreateFlatOneIssuePerField | src/lib/validation/schemas.ts:6-9 | each bad field yields exactly one issue at its own path, independently of the other |
| Schemas.CreateFlatFirstMessages | src/lib/validation/schemas.ts:7-8 | the first message for an empty or too long name or address is the schema's text |
| Schemas.SchemaAcceptsBlankName | src/lib/validation/schemas.ts:7 | the schema does not trim: any name of length 1..100 passes, white space included |
| Schemas.UpdateFlatOptionalFields | src/lib/validation/schemas.ts:14-17 | an empty update passes and changes nothing; a present empty name fails |
| Schemas.CreateFlatAcceptedByUpdate | src/lib/validation/schemas.ts:6-17 | every body the create schema accepts, the update schema accepts as a full update |
| Schemas.BaseAmountBoundaries | src/lib/validation/schemas.ts:24-27 | 0 and 999999.99 pass, below 0 and above 999999.99 fail with their own message |
| Schemas.AmountAboveBoundIsTheOnlyIssue | src/lib/validation/schemas.ts:22-28 | with a valid name an amount above the bound yields only the upper-bound issue |
| Schemas.UpdatePaymentTypeAmountBound | src/lib/validation/schemas.ts:35-39 | a present amount in an update passes iff it is in [0, 999999.99] |
| Schemas.GeneratePaymentsRejections | src/lib/validation/schemas.ts:45-52 | fractional or out-of-range months and years are refused with the period's messages |
| Schemas.PaymentFiltersOptional | src/lib/validation/schemas.ts:57-61 | an empty filter body passes; a string "true" is not a boolean |
| PaymentGenerationSchema.Preprocess | src/lib/validation/payment-generation.schema.ts:9-14 | blank values become missing, digit strings become their number, anything else passes through |
| PaymentGenerationSchema.PreprocessIdempotent | src/lib/validation/payment-generation.schema.ts:9-14 | normalising twice is normalising once |
| PaymentGenerationSchema.FieldChecks | src/lib/validation/payment-generation.schema.ts:15-21 | at most one message: missing, then wrong type, then out of range; none iff the value is accepted |
| PaymentGenerationSchema.MonthChecks | src/lib/validation/payment-generation.schema.ts:8-22 | a month passes iff it normalises to a number in [1, 12] |
| PaymentGenerationSchema.YearChecks | src/lib/validation/payment-generation.schema.ts:23-37 | a year passes iff it normalises to a number in [1900, 2100] |
| PaymentGenerationSchema.ParsePaymentGeneration | src/lib/validation/payment-generation.schema.ts:7-38 | success iff both fields are accepted, yielding the normalised numbers |
| PaymentGenerationSchema.BlankIsRequired | src/lib/validation/payment-generation.schema.ts:10-11 | "", null, a missing field and NaN are all reported as required |
| PaymentGenerationSchema.DigitStringsAreNumbers | src/lib/validation/payment-generation.schema.ts:12 | a digit string is read as the number it spells |
| PaymentGenerationSchema.OtherStringsAreNotNumbers | src/lib/validation/payment-generation.schema.ts:12-18 | another non-empty string is of the wrong type |
| PaymentGenerationSchema.FractionalMonthPasses | src/lib/validation/payment-generation.schema.ts:15-21 | there is no integer check: month 1.5 passes and is kept as 1.5 |
| PaymentGenerationSchema.FractionalYearPasses | src/lib/validation/payment-generation.schema.ts:30-36 | year 2024.5 passes too |
| PaymentGenerationSchema.BothFieldsReported | src/lib/validation/payment-generation.schema.ts:15-36 | an out-of-range month and an out-of-range year are both reported, month first |
| PaymentGenerationSchema.FormSchemaIsLooserThanServer | src/lib/validation/payment-generation.schema.ts:7-38 | every period the server accepts the form accepts with the same month and year |
| PaymentGenerationSchema.ServerRefusesFraction | src/lib/validation/payment-generation.schema.ts:7-38 | the converse fails: the server refuses a fractional month the form lets through |
| PaymentGenerationSchema.ServerRefusesDigitString | src/lib/validation/payment-generation.schema.ts:8-14 | the converse fails for the digit string "3" too: the form reads it as March, the server refuses it |
| Email.IsEmailAddressMeansPattern | src/components/auth/RegisterForm.tsx:19 | the positional test accepts exactly the strings the pattern matches |
| Email.PatternMeansEmailAddress | src/components/auth/RegisterForm.tsx:19 | three non-empty runs without white space or `@`, joined by `@` and a dot, pass the test |
| Email.EmailAddressMatchesPattern | src/components/auth/RegisterForm.tsx:19 | every string that passes the test splits as the pattern says |
| Email.AcceptedEmailExample | src/components/auth/LoginForm.tsx:21 | a plain address passes |
| Email.DotPlacementExamples | src/components/auth/LoginForm.tsx:21 | a dot straight after the `@` counts only when another dot follows ("a@.b.c" passes, "a@.bc" does not), and a final dot never counts |
| Email.RejectedEmailShapes | src/components/auth/LoginForm.tsx:21 | white space anywhere, two `@`, a leading `@` or no dot make an address invalid |
| Email.RejectedEmailExamples | src/components/auth/LoginForm.tsx:21 | addresses without a dot in the domain, without a local part, with a space or with two `@` are refused |
| Email.EmailAddressIsUnpadded | src/components/auth/RegisterForm.tsx:19-22 | a valid address has nothing to trim and is not empty |
| Email.FieldError | src/components/auth/RegisterForm.tsx:19-24 | no message iff the address is valid; blank is "required", anything else invalid is "valid email" |
| Email.PaddedAddressIsInvalid | src/components/auth/LoginForm.tsx:21-26 | leading white space makes an address invalid rather than blank |
| FlatForm.TextFieldError | src/components/FlatForm.tsx:27-42 | no message iff the trimmed text is non-empty and the raw text within the limit; blank comes first |
| FlatForm.Put | src/components/FlatForm.tsx:25-43 | the errors object gains the key exactly when there is a message |
| FlatForm.ValidateFlatForm | src/components/FlatForm.tsx:24-44 | a message for each field that is blank or too long, with the rule's text; none iff both fields pass |
| FlatForm.SubmitGuardIsWeakerThanValidation | src/components/FlatForm.tsx:187 | a valid form enables submit; an enabled form can still fail only on a length |
| FlatForm.CommandIsTrimmed | src/components/FlatForm.tsx:105-108 | the sent command has no surrounding white space |
| FlatForm.TrimmedLength | src/components/FlatForm.tsx:28-33 | a non-blank trimmed text has length between 1 and the raw length |
| FlatForm.ValidFormPassesSchemas | src/components/FlatForm.tsx:105-108 | every command from a valid form passes the create and update schemas unchanged |
| FlatForm.BlankNameOnlyTheFormRefuses | src/components/FlatForm.tsx:28-30 | a name of white space only is refused by the form but accepted by the schema |
| PaymentTypeForm.AmountError | src/components/PaymentTypeForm.tsx:36-49 | no message iff the parse is a finite number in [0, 1000000); otherwise the first failing step's text |
| PaymentTypeForm.ValidatePaymentTypeForm | src/components/PaymentTypeForm.tsx:25-52 | a name message as in the flat form and an amount message as above, judged independently |
| PaymentTypeForm.ToJson | src/components/PaymentTypeForm.tsx:111-114 | a finite number is sent as itself; NaN and the infinities become null |
| PaymentTypeForm.ValidFormCanBeSubmitted | src/components/PaymentTypeForm.tsx:181 | a valid form enables submit |
| PaymentTypeForm.ServerAcceptedAmountPassesForm | src/components/PaymentTypeForm.tsx:111-114 | every body the server accepts carries an amount the form accepts |
| PaymentTypeForm.ValidFormWithinServerBound | src/components/PaymentTypeForm.tsx:111-114 | a valid form with an amount at most 999999.99 passes the server with the trimmed name and the parsed amount |
| PaymentTypeForm.AmountBetweenTheBounds | src/components/PaymentTypeForm.tsx:46-47 | an amount in (999999.99, 1000000) passes the form but the server refuses it with the upper-bound message |
| RegisterForm.PasswordError | src/components/auth/RegisterForm.tsx:27-31 | no message iff at least 8 characters; empty is "required", shorter is "too short" |
| RegisterForm.ConfirmError | src/components/auth/RegisterForm.tsx:34-38 | no message iff non-empty and equal to the password |
| RegisterForm.RegisterErrors.AsMap | src/components/auth/RegisterForm.tsx:15-41 | a key is present exactly when its field has a message; empty map iff no errors |
| RegisterForm.ValidateRegisterForm | src/components/auth/RegisterForm.tsx:15-41 | three independent rules; no errors iff valid e-mail, 8+ character password and matching confirmation |
| RegisterForm.SubmissionBody | src/components/auth/RegisterForm.tsx:99-102 | the body carries the e-mail and password untrimmed and no confirmation |
| RegisterForm.MismatchIsReportedOnConfirmation | src/components/auth/RegisterForm.tsx:34-38 | a mismatch is reported on the confirmation only |
| RegisterForm.MatchingConfirmation | src/components/auth/RegisterForm.tsx:34-38 | equal non-empty passwords silence the confirmation rule |
| LoginForm.ValidateLogin | src/components/auth/LoginForm.tsx:17-34 | the shared e-mail rule and a non-empty password; no errors iff both hold |
| LoginForm.RegisteredCredentialsPassLogin | src/components/auth/LoginForm.tsx:17-34 | every registration the register form lets through passes the login form |
| LoginForm.LoginIsLooserOnPasswords | src/components/auth/LoginForm.tsx:29-31 | a 1 to 7 character password passes login but not registration, and the e-mail message is the same |
| LoginForm.LoginFormState.constructor | src/components/auth/LoginForm.tsx:43-48 | empty texts, no errors, not submitting |
| LoginForm.LoginFormState.HandleEmailChange | src/components/auth/LoginForm.tsx:50-60 | the e-mail takes the value and only its error is cleared |
| LoginForm.LoginFormState.HandlePasswordChange | src/components/auth/LoginForm.tsx:62-72 | the password takes the value and only its error is cleared |
| LoginForm.LoginFormState.BeginSubmit | src/components/auth/LoginForm.tsx:78-92 | the request is sent iff validation passes; otherwise the validation errors are shown; texts unchanged |
| LoginForm.LoginFormState.SubmissionRejected | src/components/auth/LoginForm.tsx:106-112 | the server's error, or the fixed text when it has none, is the only error, and submitting ends |
| LoginForm.LoginFormState.SubmissionFailed | src/components/auth/LoginForm.tsx:117-122 | the generic text is the only error, and submitting ends |
| LoginForm.EditEmailThenSubmit | src/components/auth/LoginForm.tsx:50-92 | after editing the e-mail, a submit is sent iff the new e-mail and the password pass, and a refusal reports the e-mail exactly when it is invalid |
| FormState.Reported | src/components/hooks/useFormState.ts:43-46 | the validator's messages as stored errors, one per reported field |
| FormState.FormStateHook.constructor | src/components/hooks/useFormState.ts:33-36 | the initial data, no errors, neither flag |
| FormState.FormStateHook.UpdateField | src/components/hooks/useFormState.ts:38-41 | one field takes the value, its error alone is cleared, flags unchanged |
| FormState.FormStateHook.SetErrors | src/components/hooks/useFormState.ts:62 | the errors are replaced as a whole, nothing else changes |
| FormState.FormStateHook.SetSubmitting | src/components/hooks/useFormState.ts:63 | only the submitting flag changes |
| FormState.FormStateHook.SetSuccess | src/components/hooks/useFormState.ts:64 | only the success flag changes |
| FormState.FormStateHook.Validate | src/components/hooks/useFormState.ts:43-47 | the errors become exactly the validator's report, and the result is true iff it reported nothing |
| FormState.FormStateHook.Reset | src/components/hooks/useFormState.ts:49-54 | back to the first render's state |
| FormState.EditThenValidate | src/components/hooks/useFormState.ts:38-47 | after an edit, validation reports on the edited data |
| FlatDetail.ToPaymentTypeViewModel | src/lib/flat-detail-transformers.ts:14-22 | the payment type's fields copied |
| FlatDetail.ToPaymentViewModel | src/lib/flat-detail-transformers.ts:27-45 | fields copied; editable iff unpaid; overdue iff unpaid and due before now |
| FlatDetail.OverdueBoundaries | src/lib/flat-detail-transformers.ts:28-30 | a paid payment, one due exactly now and one without due date are not overdue |
| FlatDetail.OverdueStaysOverdue | src/lib/flat-detail-transformers.ts:28-30 | once overdue, a payment stays overdue as time passes |
| FlatDetail.UnpaidEntries | src/lib/flat-detail-transformers.ts:54 | exactly the unpaid payments |
| FlatDetail.CalculateFlatStats | src/lib/flat-detail-transformers.ts:50-62 | type count, unpaid count and the sum of unpaid amounts |
| FlatDetail.FlatStatsAreOutstanding | src/lib/flat-detail-transformers.ts:50-62 | the total debt equals the amount still owed and the pending count the number unpaid; no payments give zeros |
| FlatDetail.PayingLowersStats | src/lib/flat-detail-transformers.ts:54-55 | paying one listed payment lowers the total by its amount and the pending count by one |
| FlatDetail.TransformFlatDetailData | src/lib/flat-detail-transformers.ts:67-78 | the flat, its statistics, and one view model per type and per payment in order |
| FlatsList.ToCardViewModel | src/lib/flats-list-transformers.ts:52-74 | fields copied, the details link, and overdue status iff debt is positive |
| FlatsList.EveryCardIsOk | src/lib/flats-list-transformers.ts:57 | with the debt fixed at 0 every card is in order |
| FlatsList.DetailsUrlInjective | src/lib/flats-list-transformers.ts:52-74 | different flats get different links |
| FlatsList.TransformFlatsListData | src/lib/flats-list-transformers.ts:37-45 | one card per flat in order, the count, and empty iff there are none |
| PaymentStatus.GetPaymentStatus | src/lib/payment-status.ts:9-13 | paid first, then overdue, then pending |
| PaymentStatus.GetPaymentBadgeVariant | src/lib/payment-status.ts:18-22 | success, destructive or warning by the same precedence |
| PaymentStatus.GetPaymentBadgeLabel | src/lib/payment-status.ts:27-31 | "Paid", "Overdue" or "Pending" by the same precedence |
| PaymentStatus.BadgeFollowsStatus | src/lib/payment-status.ts:9-31 | two payments share a badge variant and label iff they share a status |
| PaymentStatus.StatusOfBuiltViewModel | src/lib/payment-status.ts:9-13 | on a built view model: overdue iff unpaid and due before now |
| PaymentPreview.ComputePreview | src/components/hooks/usePaymentPreview.ts:27-46 | one item per type with its id, name, base amount and that amount formatted, the count, and the formatted total |
| PaymentPreview.PreviewTotalIsBaseAmountTotal | src/components/hooks/usePaymentPreview.ts:36 | the total is the sum of the base amounts, 0 for no types |
| PaymentPreview.PreviewTotalIsDebtIncrease | src/components/hooks/usePaymentPreview.ts:27-46 | what the preview announces is exactly how much generating raises the debt |
| Formatters.GetMonthName | src/lib/formatters.ts:18-24 | the English name for a whole number 1..12, otherwise "" |
| Formatters.MonthNamesDistinct | src/lib/formatters.ts:18-24 | the twelve names are distinct and non-empty |
| Formatters.GetMonthNameInjective | src/lib/formatters.ts:18-24 | two months with the same non-empty name are equal |
| FlatsGrid.SearchStage | src/components/FlatsGrid.tsx:32-37 | a blank query keeps everything; otherwise exactly the flats whose folded name or address contains the folded query |
| FlatsGrid.StatusStage | src/components/FlatsGrid.tsx:40-44 | exactly the flats matching the status: positive debt, zero debt or all |
| FlatsGrid.Before | src/components/FlatsGrid.tsx:47-62 | each option's comparator: name collation, debt or creation time, descending or ascending |
| FlatsGrid.BeforeIsTotalPreorder | src/components/FlatsGrid.tsx:47-62 | every option is a consistent comparator when the collation is |
| FlatsGrid.FilterAndSort | src/components/FlatsGrid.tsx:28-65 | the result holds exactly the selected flats, each as often as in the input, sorted by the option |
| FlatsGrid.FilterIsSubMultiset | src/components/FlatsGrid.tsx:34-43 | filtering never adds or duplicates a flat |
| FlatsGrid.SelectionIsSubsetOfInput | src/components/FlatsGrid.tsx:29-44 | the selection is a sub-multiset of the input, and a flat is selected iff it passes both tests |
| FlatsGrid.BlankQueryFiltersNothing | src/components/FlatsGrid.tsx:32 | a white-space query applies no text filter |
| FlatsGrid.StatusesSplitNonNegativeDebts | src/components/FlatsGrid.tsx:40-44 | a non-negative debt matches exactly one of debt and paid; a negative one neither |
| FlatsGrid.SortedByOption | src/components/FlatsGrid.tsx:52-59 | the debt and date options order the result as their names say |
| Middleware.Locals | src/middleware/index.ts:33-38 | a user is recorded iff the session has one; a missing e-mail is recorded as "" |
| Middleware.Decide | src/middleware/index.ts:41-53 | anonymous requests off the public list go to login, signed-in requests for an auth page go to the dashboard, everything else proceeds, each as an iff |
| Middleware.OnRequest | src/middleware/index.ts:28-55 | a user is recorded iff the session has one, with its id; an anonymous request outside the public paths goes to the login page, and only then; a signed-in request for an auth page goes to the dashboard, and only then |
| Middleware.NextIsGuarded | src/middleware/index.ts:41-53 | only public paths reach an anonymous handler, and auth pages never reach a signed-in one |
| Middleware.PublicMembershipIsExact | src/middleware/index.ts:6-13 | membership compares whole paths: a trailing slash or an unlisted path is not public |
| Middleware.SignedInPublicPathsProceed | src/middleware/index.ts:41-53 | public paths other than the auth pages proceed for everyone |
| Middleware.RedirectTargetIsFinal | src/middleware/index.ts:41-53 | following a redirect never leads to another redirect |
| AuthApi.CommonChecks | src/pages/api/auth/register.ts:31-45 | a body that cannot be destructured is a 500, a missing field a 400, otherwise the route goes on |
| RegisterRoute.FriendlyError | src/pages/api/auth/register.ts:20-26 | duplicate-like messages give the duplicate text; others are looked up exactly with the default as fallback |
| RegisterRoute.Respond | src/pages/api/auth/register.ts:77-124 | a service error is 409 if duplicate-like else 400 with the friendly text; no user is 400; otherwise accepted with the user |
| RegisterRoute.Register | src/pages/api/auth/register.ts:28-137 | the checks in order (body, fields, e-mail pattern on the value's string form, length) decide the first refusal; a string conversion that throws is the `catch`'s 500; only a body passing all reaches the service |
| RegisterRoute.ArrayEmailReachesService | src/pages/api/auth/register.ts:47-59 | an address wrapped in a one-item array passes the pattern, since `test` reads its string form, and reaches the service as the array |
| RegisterRoute.ObjectEmailIsRefused | src/pages/api/auth/register.ts:47-59 | an object without an own `"toString"` key as e-mail is refused with the invalid-address text: its string form holds a space |
| RegisterRoute.OwnToStringEmailIsUnexpected | src/pages/api/auth/register.ts:47-49 | an e-mail that is or holds (inside arrays) an object with an own `"toString"` key makes the test throw, answered 500 with the unexpected-error text |
| RegisterRoute.OwnToStringExamples | src/pages/api/auth/register.ts:125-136 | `{"toString":1}` and `["a@b.co",{"toString":1}]` as e-mail both get the 500 |
| Js.ThrowsIffOwnToString | src/pages/api/auth/register.ts:49 | converting a value to a string throws exactly when it is or holds an object with an own `"toString"` key |
| Js.StringFormOfStrings | src/pages/api/auth/register.ts:49 | a string converts to itself, a one-item array to its item, and a `null` item to nothing between the commas |
| Js.WholeNumberForm | src/pages/api/auth/register.ts:49 | a whole number converts to its decimal digits, which read back as the number |
| Text.NatTextRoundTrip | src/pages/api/auth/register.ts:49 | the decimal text of a natural number is all digits and reads back as that number |
| RegisterRoute.LowerKeepsOccurrence | src/pages/api/auth/register.ts:22 | lower-casing keeps an occurrence of a lower-case word |
| RegisterRoute.DuplicateKeysAreDuplicateLike | src/pages/api/auth/register.ts:9-15 | both messages mapped to the duplicate text are duplicate-like |
| RegisterRoute.ConflictIffAlreadyRegistered | src/pages/api/auth/register.ts:77-93 | a refusal is a 409 iff its text is the duplicate text iff the message is duplicate-like |
| RegisterRoute.UnknownMessageFallsBack | src/pages/api/auth/register.ts:20-26 | an unmapped, not duplicate-like message gives the default text with 400 |
| RegisterRoute.ServiceErrorIsRefused | src/pages/api/auth/register.ts:77-108 | only a body passing every check is accepted, and a service error is always a 400 or 409 |
| RegisterRoute.MissingFieldComesFirst | src/pages/api/auth/register.ts:35-45 | a missing field is reported before anything else |
| RegisterRoute.FormSubmissionReachesService | src/components/auth/RegisterForm.tsx:99-102 | what the register form submits passes every route check and reaches the service unchanged |
| LoginRoute.FriendlyError | src/pages/api/auth/login.ts:19-21 | exact lookup with the default text as fallback |
| LoginRoute.Respond | src/pages/api/auth/login.ts:45-67 | every failure is a 401 with the friendly text or the no-user text; otherwise accepted |
| LoginRoute.Login | src/pages/api/auth/login.ts:23-94 | body and field checks as in registration, then the service's answer; the status is always 200, 400, 401 or 500 |
| LoginRoute.UnknownUserLooksLikeWrongPassword | src/pages/api/auth/login.ts:9-14 | an unknown account and a wrong password read the same |
| LoginRoute.UnmappedMessageFallsBack | src/pages/api/auth/login.ts:19-21 | an unmapped message gives the default text |
| LoginRoute.RefusalsCarryText | src/pages/api/auth/login.ts:23-94 | every refusal carries a non-empty text |
| LoginRoute.FormSubmissionReachesService | src/components/auth/LoginForm.tsx:95-102 | what the login form submits reaches the service unchanged |
| LoginRoute.LoginChecksAreLooser | src/pages/api/auth/login.ts:30-40 | every body passing the register checks passes the login checks |
| LoginRoute.ShortPasswordOnlyStopsRegistration | src/pages/api/auth/register.ts:62-72 | a short password with a valid address is refused by registration but passed to the login service |

## Left out

- Store access, logging and asynchrony are not modelled. The Supabase client becomes three in-memory tables plus a set of failing tables, and `console.error` calls are dropped.
- Service.ErrorMessage: a store failure's text is the service's fixed "Failed to …" prefix, without the store's own ": <message>" suffix, because that text comes from the database.
- Service.FlatsService.UpdatePaymentType: the "Failed to update payment type" error after a successful ownership read is not reachable in the model, because a failing table already fails the read. The same holds for "Failed to mark payment as paid" in MarkPaymentAsPaid.
- Service.FlatsService.MarkPaymentAsPaid: a fetch error other than "no row" (PGRST116) is modelled only as a failing table. A missing payment is modelled as the "no row" case.
- The delete cascade is a stated assumption about the store. The database types show the foreign keys but not their ON DELETE rule.
- Fresh identifiers and timestamps come from parameters (`newId`, `now`), not from the database's defaults or the clock. `updated_at` triggers are not modelled.
- JavaScript numbers are exact reals. Floating-point rounding in sums and in `parseFloat` is not modelled, and neither are exponents beyond what the parse reads or values past the double range.
- String lengths count characters of the model's strings, not UTF-16 code units.
- `toLowerCase` in the register route is ASCII-only (Text.AsciiLower). In the grid, lower-casing (`fold`) and `localeCompare` (`nameLe`) are parameters, with the collation assumed to be a total preorder.
- FlatsGrid.FilterAndSort: the result is proved to be a sorted permutation of the selection. The stability of `Array.prototype.sort` is not stated.
- FlatsGrid.Before: the comparator's `default: return 0` branch is not modelled, because the option type admits only the five options.
- Date strings are integer timestamps. `new Date(...)` parsing, `Intl` currency formatting (a `formatCurrency` parameter) and the date formatting of the views are left out.
- The register and login routes take the parsed body as a parameter (`None` when it is not JSON). Reading the request, setting cookies and the authentication service itself (a function parameter) are left out, as are `auth.service.ts` and the logout route, which only forward to the service.
- RegisterRoute.ValidEmail: the string form of a number is spelled out only for whole numbers below 10^21 in magnitude; an e-mail value that is or holds any other number (such as `["a@b", 1.5]`) is refused by the model, while the route tests that number's ECMAScript text.
- RegisterRoute.TooShort: a password that is neither a string nor an array is treated as having no length, so it is never too short. An object with a numeric `length` field is not modelled.
- RegisterRoute.FriendlyError and LoginRoute.FriendlyError: keys inherited from `Object.prototype` (such as "toString") are not in the model's maps.
- The middleware's session lookup (`getUser` on the cookies) is a parameter: the user it found, if any.
- The generation page's controls are left out: the month `<select>` offers only 1 to 12, and the year's number input has the browser's default step check. The model judges the form's schema alone, so a fractional month or year passes it.
- React rendering, focus handling, navigation and `fetch` are left out. Each form's state changes are the methods of its class, applied one at a time without React's batching.
- The payment view model's due date is a parameter, because the payments table has no due date column. The rows the service returns carry none, so in the application as written every payment is shown as not overdue; `FlatDetail.OverdueBoundaries` and `FlatDetail.OverdueStaysOverdue` describe the transformer for a due date it would be given, not behaviour the pages show today.
