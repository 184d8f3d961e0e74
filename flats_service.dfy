/** The flats service: every operation checks its identifiers, then reads or
    writes the three tables held by the store, and reports a failing table
    as an error. The store is the object's state; the tables in `failing`
    answer every query with an error. */
module Service {
  import opened Optional
  import opened Uuid
  import opened Tables

  datatype IdKind = UserId | FlatId | PaymentTypeId | PaymentId

  datatype ServiceError =
    | InvalidIdFormat(kind: IdKind, id: string)
    | StoreFailure(message: string)

  datatype Result<T> = Ok(value: T) | Err(error: ServiceError)

  function KindName(kind: IdKind): string
  {
    match kind
    case UserId => "user"
    case FlatId => "flat"
    case PaymentTypeId => "payment type"
    case PaymentId => "payment"
  }

  /** The text of the `Error` the service throws. */
  function ErrorMessage(e: ServiceError): (m: string)
    ensures e.InvalidIdFormat? ==> m == "Invalid " + KindName(e.kind) + " ID format: " + e.id
    ensures e.StoreFailure? ==> m == e.message
  {
    match e
    case InvalidIdFormat(kind, id) => "Invalid " + KindName(kind) + " ID format: " + id
    case StoreFailure(message) => message
  }

  /** The check that opens every operation: the entity's identifier first,
      then the user's. */
  function CheckIds(kind: IdKind, entityId: string, userId: string): (e: Option<ServiceError>)
    ensures e.None? <==> IsValidUuid(entityId) && IsValidUuid(userId)
    ensures !IsValidUuid(entityId) ==> e == Some(InvalidIdFormat(kind, entityId))
    ensures IsValidUuid(entityId) && !IsValidUuid(userId) ==> e == Some(InvalidIdFormat(UserId, userId))
  {
    if !IsValidUuid(entityId) then Some(InvalidIdFormat(kind, entityId))
    else if !IsValidUuid(userId) then Some(InvalidIdFormat(UserId, userId))
    else None
  }

  /** The `forEach` over the fetched unpaid payments: each payment whose type
      is among `types` adds its amount to the entry of that type's flat. The
      entry of every flat ends up as the flat's debt. */
  method DebtByFlat(types: seq<PaymentType>, unpaid: seq<Payment>) returns (debtByFlat: map<string, real>)
    requires forall p :: p in unpaid ==> !p.isPaid
    ensures forall fid :: Lookup(debtByFlat, fid) == Debt(fid, types, unpaid)
  {
    debtByFlat := map[];
    var i := 0;
    while i < |unpaid|
      invariant 0 <= i <= |unpaid|
      invariant forall fid :: Lookup(debtByFlat, fid) == Debt(fid, types, unpaid[..i])
    {
      var p := unpaid[i];
      assert p in unpaid;
      match FindType(types, p.paymentTypeId) {
        case Some(t) =>
          debtByFlat := debtByFlat[t.flatId := Lookup(debtByFlat, t.flatId) + p.amount];
        case None =>
      }
      assert unpaid[..i + 1][..i] == unpaid[..i];
      i := i + 1;
    }
    assert unpaid[..i] == unpaid;
  }

  class FlatsService {
    var flats: seq<Flat>
    var paymentTypes: seq<PaymentType>
    var payments: seq<Payment>
    /** The tables whose queries currently fail. */
    var failing: set<Table>

    /** Unique primary keys and intact foreign keys; deleting a flat is
        assumed to cascade to its payment types and their payments. */
    ghost predicate Valid()
      reads this
    {
      TablesValid(flats, paymentTypes, payments)
    }

    constructor(flats0: seq<Flat>, types0: seq<PaymentType>, payments0: seq<Payment>, failing0: set<Table>)
      requires TablesValid(flats0, types0, payments0)
      ensures Valid()
      ensures flats == flats0 && paymentTypes == types0 && payments == payments0 && failing == failing0
    {
      flats, paymentTypes, payments, failing := flats0, types0, payments0, failing0;
    }

    /** Every flat of the user with the sum of its unpaid payments. */
    method GetFlatsWithDebt(userId: string) returns (r: Result<seq<DashboardFlat>>)
      requires Valid()
      ensures !IsValidUuid(userId) ==> r == Err(InvalidIdFormat(UserId, userId))
      ensures IsValidUuid(userId) && FlatsTable in failing ==> r == Err(StoreFailure("Failed to fetch flats"))
      ensures (IsValidUuid(userId) && FlatsTable !in failing && FlatsOfUser(flats, userId) != []
               && PaymentTypesTable in failing) ==> r == Err(StoreFailure("Failed to fetch payment types"))
      ensures (IsValidUuid(userId) && FlatsTable !in failing && PaymentTypesTable !in failing
               && FlatsOfUser(flats, userId) != []
               && TypesOfFlats(paymentTypes, IdSet(FlatIds(OwnedFlatsNewestFirst(flats, userId)))) != []
               && PaymentsTable in failing) ==> r == Err(StoreFailure("Failed to fetch payments"))
      ensures IsValidUuid(userId) && failing == {} ==> r.Ok?
      ensures r.Ok? ==> r.value == Dashboard(flats, paymentTypes, payments, userId)
    {
      if !IsValidUuid(userId) {
        return Err(InvalidIdFormat(UserId, userId));
      }
      if FlatsTable in failing {
        return Err(StoreFailure("Failed to fetch flats"));
      }
      var owned := OwnedFlatsNewestFirst(flats, userId);
      OwnedFlatsSameMembers(flats, userId);
      if owned == [] {
        return Ok([]);
      }
      var ids := IdSet(FlatIds(owned));
      if PaymentTypesTable in failing {
        return Err(StoreFailure("Failed to fetch payment types"));
      }
      var types := TypesOfFlats(paymentTypes, ids);
      if types == [] {
        DashboardWithoutTypes(flats, paymentTypes, payments, userId);
        return Ok(RowsWithDebts(owned, map[]));
      }
      if PaymentsTable in failing {
        return Err(StoreFailure("Failed to fetch payments"));
      }
      var unpaid := UnpaidOfTypes(payments, IdSet(TypeIds(types)));
      var debtByFlat := DebtByFlat(types, unpaid);
      DashboardFromFetched(flats, paymentTypes, payments, userId, debtByFlat);
      return Ok(RowsWithDebts(owned, debtByFlat));
    }

    /** The user's flats, newest first. */
    method GetAllFlats(userId: string) returns (r: Result<seq<Flat>>)
      ensures !IsValidUuid(userId) ==> r == Err(InvalidIdFormat(UserId, userId))
      ensures IsValidUuid(userId) && FlatsTable in failing ==> r == Err(StoreFailure("Failed to fetch flats"))
      ensures IsValidUuid(userId) && FlatsTable !in failing ==> r.Ok?
      ensures r.Ok? ==> multiset(r.value) == multiset(FlatsOfUser(flats, userId))
                        && forall i, j :: 0 <= i < j < |r.value| ==> r.value[i].createdAt >= r.value[j].createdAt
    {
      if !IsValidUuid(userId) {
        return Err(InvalidIdFormat(UserId, userId));
      }
      if FlatsTable in failing {
        return Err(StoreFailure("Failed to fetch flats"));
      }
      var owned := OwnedFlatsNewestFirst(flats, userId);
      assert forall i, j :: 0 <= i < j < |owned| ==> NewestFlatFirst(owned[i], owned[j]);
      return Ok(owned);
    }

    /** The flat with this id if the user owns it; a missing flat and a flat of
        another user both give None. */
    method GetFlatById(flatId: string, userId: string) returns (r: Result<Option<Flat>>)
      ensures CheckIds(FlatId, flatId, userId).Some? ==> r == Err(CheckIds(FlatId, flatId, userId).value)
      ensures CheckIds(FlatId, flatId, userId).None? && FlatsTable in failing ==>
                r == Err(StoreFailure("Failed to fetch flat"))
      ensures CheckIds(FlatId, flatId, userId).None? && FlatsTable !in failing ==> r.Ok?
      ensures r.Ok? ==> (r.value.Some? <==> exists f :: f in flats && f.id == flatId && f.userId == userId)
      ensures r.Ok? && r.value.Some? ==> r.value.value in flats && r.value.value.id == flatId && r.value.value.userId == userId
    {
      var e := CheckIds(FlatId, flatId, userId);
      if e.Some? {
        return Err(e.value);
      }
      if FlatsTable in failing {
        return Err(StoreFailure("Failed to fetch flat"));
      }
      return Ok(FindOwnedFlat(flats, flatId, userId));
    }

    method CreateFlat(userId: string, command: CreateFlatCommand, newId: string, now: int) returns (r: Result<Flat>)
      requires Valid()
      requires newId !in FlatIds(flats)
      modifies this
      ensures Valid()
      ensures !IsValidUuid(userId) ==> r == Err(InvalidIdFormat(UserId, userId)) && unchanged(this)
      ensures IsValidUuid(userId) && FlatsTable in failing ==>
                r == Err(StoreFailure("Failed to create flat")) && unchanged(this)
      ensures IsValidUuid(userId) && FlatsTable !in old(failing) ==>
                var row := Flat(newId, userId, command.name, command.address, now, now);
                && r == Ok(row) && flats == old(flats) + [row]
                && paymentTypes == old(paymentTypes) && payments == old(payments) && failing == old(failing)
    {
      if !IsValidUuid(userId) {
        return Err(InvalidIdFormat(UserId, userId));
      }
      if FlatsTable in failing {
        return Err(StoreFailure("Failed to create flat"));
      }
      var row := Flat(newId, userId, command.name, command.address, now, now);
      FlatInsertKeepsValid(flats, paymentTypes, payments, row);
      flats := flats + [row];
      return Ok(row);
    }

    method UpdateFlat(flatId: string, userId: string, command: UpdateFlatCommand) returns (r: Result<Option<Flat>>)
      requires Valid()
      modifies this
      ensures Valid()
      ensures CheckIds(FlatId, flatId, userId).Some? ==>
                r == Err(CheckIds(FlatId, flatId, userId).value) && unchanged(this)
      ensures CheckIds(FlatId, flatId, userId).None? && FlatsTable in failing ==>
                r == Err(StoreFailure("Failed to update flat")) && unchanged(this)
      ensures (CheckIds(FlatId, flatId, userId).None? && FlatsTable !in old(failing)
               && FindOwnedFlat(old(flats), flatId, userId).None?) ==> r == Ok(None) && unchanged(this)
      ensures (CheckIds(FlatId, flatId, userId).None? && FlatsTable !in old(failing)
               && FindOwnedFlat(old(flats), flatId, userId).Some?) ==>
                && r == Ok(Some(ApplyFlatUpdate(FindOwnedFlat(old(flats), flatId, userId).value, command)))
                && flats == UpdateFlatRows(old(flats), flatId, userId, command)
                && paymentTypes == old(paymentTypes) && payments == old(payments) && failing == old(failing)
    {
      var e := CheckIds(FlatId, flatId, userId);
      if e.Some? {
        return Err(e.value);
      }
      if FlatsTable in failing {
        return Err(StoreFailure("Failed to update flat"));
      }
      var found := FindOwnedFlat(flats, flatId, userId);
      if found.None? {
        return Ok(None);
      }
      FlatUpdateKeepsValid(flats, paymentTypes, payments, flatId, userId, command);
      flats := UpdateFlatRows(flats, flatId, userId, command);
      return Ok(Some(ApplyFlatUpdate(found.value, command)));
    }

    /** Deletes the user's flat (with its payment types and payments) and
        reports whether the flat is gone afterwards, which it always is once
        the delete went through, also when there was nothing to delete. */
    method DeleteFlat(flatId: string, userId: string) returns (r: Result<bool>)
      requires Valid()
      modifies this
      ensures Valid()
      ensures CheckIds(FlatId, flatId, userId).Some? ==>
                r == Err(CheckIds(FlatId, flatId, userId).value) && unchanged(this)
      ensures CheckIds(FlatId, flatId, userId).None? && FlatsTable in failing ==>
                r == Err(StoreFailure("Failed to delete flat")) && unchanged(this)
      ensures CheckIds(FlatId, flatId, userId).None? && FlatsTable !in old(failing) ==>
                && r == Ok(true) && FindOwnedFlat(flats, flatId, userId).None? && failing == old(failing)
      ensures (CheckIds(FlatId, flatId, userId).None? && FlatsTable !in old(failing)
               && FindOwnedFlat(old(flats), flatId, userId).None?) ==> unchanged(this)
      ensures (CheckIds(FlatId, flatId, userId).None? && FlatsTable !in old(failing)
               && FindOwnedFlat(old(flats), flatId, userId).Some?) ==>
                && flats == FlatsWithout(old(flats), flatId, userId)
                && paymentTypes == TypesOutsideFlat(old(paymentTypes), flatId)
                && payments == PaymentsOutsideTypes(old(payments), IdSet(TypeIds(TypesOfFlats(old(paymentTypes), {flatId}))))
    {
      var e := CheckIds(FlatId, flatId, userId);
      if e.Some? {
        return Err(e.value);
      }
      if FlatsTable in failing {
        return Err(StoreFailure("Failed to delete flat"));
      }
      if FindOwnedFlat(flats, flatId, userId).Some? {
        var gone := IdSet(TypeIds(TypesOfFlats(paymentTypes, {flatId})));
        DeleteCascadeKeepsValid(flats, paymentTypes, payments, flatId, userId);
        flats := FlatsWithout(flats, flatId, userId);
        paymentTypes := TypesOutsideFlat(paymentTypes, flatId);
        payments := PaymentsOutsideTypes(payments, gone);
      }
      var check := GetFlatById(flatId, userId);
      r := match check
        case Ok(found) => Ok(found.None?)
        case Err(error) => Err(error);
    }

    /** The payment types of the user's flat, newest first; none for a flat
        the user does not own. */
    method GetPaymentTypes(flatId: string, userId: string) returns (r: Result<seq<PaymentType>>)
      ensures CheckIds(FlatId, flatId, userId).Some? ==> r == Err(CheckIds(FlatId, flatId, userId).value)
      ensures CheckIds(FlatId, flatId, userId).None? && FlatsTable in failing ==>
                r == Err(StoreFailure("Failed to fetch flat"))
      ensures (CheckIds(FlatId, flatId, userId).None? && FlatsTable !in failing
               && FindOwnedFlat(flats, flatId, userId).None?) ==> r == Ok([])
      ensures (CheckIds(FlatId, flatId, userId).None? && FlatsTable !in failing
               && FindOwnedFlat(flats, flatId, userId).Some? && PaymentTypesTable in failing) ==>
                r == Err(StoreFailure("Failed to fetch payment types"))
      ensures (CheckIds(FlatId, flatId, userId).None? && FlatsTable !in failing
               && FindOwnedFlat(flats, flatId, userId).Some? && PaymentTypesTable !in failing) ==>
                r == Ok(TypesOfFlatNewestFirst(paymentTypes, flatId))
    {
      var flat := GetFlatById(flatId, userId);
      if flat.Err? {
        return Err(flat.error);
      }
      if flat.value.None? {
        return Ok([]);
      }
      if PaymentTypesTable in failing {
        return Err(StoreFailure("Failed to fetch payment types"));
      }
      return Ok(TypesOfFlatNewestFirst(paymentTypes, flatId));
    }

    method CreatePaymentType(flatId: string, userId: string, command: CreatePaymentTypeCommand, newId: string, now: int)
      returns (r: Result<Option<PaymentType>>)
      requires Valid()
      requires newId !in TypeIds(paymentTypes)
      modifies this
      ensures Valid()
      ensures CheckIds(FlatId, flatId, userId).Some? ==>
                r == Err(CheckIds(FlatId, flatId, userId).value) && unchanged(this)
      ensures CheckIds(FlatId, flatId, userId).None? && FlatsTable in failing ==>
                r == Err(StoreFailure("Failed to fetch flat")) && unchanged(this)
      ensures (CheckIds(FlatId, flatId, userId).None? && FlatsTable !in old(failing)
               && FindOwnedFlat(old(flats), flatId, userId).None?) ==> r == Ok(None) && unchanged(this)
      ensures (CheckIds(FlatId, flatId, userId).None? && FlatsTable !in old(failing)
               && FindOwnedFlat(old(flats), flatId, userId).Some? && PaymentTypesTable in old(failing)) ==>
                r == Err(StoreFailure("Failed to create payment type")) && unchanged(this)
      ensures (CheckIds(FlatId, flatId, userId).None? && FlatsTable !in old(failing)
               && FindOwnedFlat(old(flats), flatId, userId).Some? && PaymentTypesTable !in old(failing)) ==>
                var row := PaymentType(newId, flatId, command.name, command.baseAmount, now, now);
                && r == Ok(Some(row)) && paymentTypes == old(paymentTypes) + [row]
                && flats == old(flats) && payments == old(payments) && failing == old(failing)
    {
      var flat := GetFlatById(flatId, userId);
      if flat.Err? {
        return Err(flat.error);
      }
      if flat.value.None? {
        return Ok(None);
      }
      if PaymentTypesTable in failing {
        return Err(StoreFailure("Failed to create payment type"));
      }
      var row := PaymentType(newId, flatId, command.name, command.baseAmount, now, now);
      TypeInsertKeepsValid(flats, paymentTypes, payments, row);
      paymentTypes := paymentTypes + [row];
      return Ok(Some(row));
    }

    /** Updates a payment type of one of the user's flats; ownership is read
        through the type's flat. */
    method UpdatePaymentType(typeId: string, userId: string, command: UpdatePaymentTypeCommand)
      returns (r: Result<Option<PaymentType>>)
      requires Valid()
      modifies this
      ensures Valid()
      ensures CheckIds(PaymentTypeId, typeId, userId).Some? ==>
                r == Err(CheckIds(PaymentTypeId, typeId, userId).value) && unchanged(this)
      ensures CheckIds(PaymentTypeId, typeId, userId).None? && (PaymentTypesTable in failing || FlatsTable in failing) ==>
                r == Err(StoreFailure("Failed to fetch payment type")) && unchanged(this)
      ensures (CheckIds(PaymentTypeId, typeId, userId).None? && PaymentTypesTable !in old(failing) && FlatsTable !in old(failing)
               && TypeOwner(old(flats), old(paymentTypes), typeId) != Some(userId)) ==> r == Ok(None) && unchanged(this)
      ensures (CheckIds(PaymentTypeId, typeId, userId).None? && PaymentTypesTable !in old(failing) && FlatsTable !in old(failing)
               && TypeOwner(old(flats), old(paymentTypes), typeId) == Some(userId)) ==>
                && r == Ok(Some(ApplyTypeUpdate(FindType(old(paymentTypes), typeId).value, command)))
                && paymentTypes == UpdateTypeRows(old(paymentTypes), typeId, command)
                && flats == old(flats) && payments == old(payments) && failing == old(failing)
    {
      var e := CheckIds(PaymentTypeId, typeId, userId);
      if e.Some? {
        return Err(e.value);
      }
      if PaymentTypesTable in failing || FlatsTable in failing {
        return Err(StoreFailure("Failed to fetch payment type"));
      }
      if TypeOwner(flats, paymentTypes, typeId) != Some(userId) {
        return Ok(None);
      }
      var found := FindType(paymentTypes, typeId).value;
      TypeUpdateKeepsValid(flats, paymentTypes, payments, typeId, command);
      paymentTypes := UpdateTypeRows(paymentTypes, typeId, command);
      return Ok(Some(ApplyTypeUpdate(found, command)));
    }

    /** The payments of the user's flat that pass the filters, latest period
        first, with their payment type's name. */
    method GetPayments(flatId: string, userId: string, filters: PaymentFilters) returns (r: Result<seq<PaymentWithTypeName>>)
      ensures CheckIds(FlatId, flatId, userId).Some? ==> r == Err(CheckIds(FlatId, flatId, userId).value)
      ensures CheckIds(FlatId, flatId, userId).None? && FlatsTable in failing ==>
                r == Err(StoreFailure("Failed to fetch flat"))
      ensures (CheckIds(FlatId, flatId, userId).None? && FlatsTable !in failing
               && FindOwnedFlat(flats, flatId, userId).None?) ==> r == Ok([])
      ensures (CheckIds(FlatId, flatId, userId).None? && FlatsTable !in failing
               && FindOwnedFlat(flats, flatId, userId).Some? && PaymentTypesTable in failing) ==>
                r == Err(StoreFailure("Failed to fetch payment types"))
      ensures (CheckIds(FlatId, flatId, userId).None? && FlatsTable !in failing
               && FindOwnedFlat(flats, flatId, userId).Some? && PaymentTypesTable !in failing
               && TypesOfFlats(paymentTypes, {flatId}) != [] && PaymentsTable in failing) ==>
                r == Err(StoreFailure("Failed to fetch payments"))
      ensures CheckIds(FlatId, flatId, userId).None? && failing == {} ==> r.Ok?
      ensures r.Ok? ==> r.value == [] || r.value == FlatPaymentsListing(paymentTypes, payments, flatId, filters)
      ensures r.Ok? && FindOwnedFlat(flats, flatId, userId).Some? ==>
                r.value == FlatPaymentsListing(paymentTypes, payments, flatId, filters)
    {
      var flat := GetFlatById(flatId, userId);
      if flat.Err? {
        return Err(flat.error);
      }
      if flat.value.None? {
        return Ok([]);
      }
      if PaymentTypesTable in failing {
        return Err(StoreFailure("Failed to fetch payment types"));
      }
      var types := TypesOfFlats(paymentTypes, {flatId});
      if types == [] {
        FlatPaymentsListingWithoutTypes(paymentTypes, payments, flatId, filters);
        return Ok([]);
      }
      if PaymentsTable in failing {
        return Err(StoreFailure("Failed to fetch payments"));
      }
      return Ok(FlatPaymentsListing(paymentTypes, payments, flatId, filters));
    }

    /** One new unpaid payment per payment type of the user's flat, for the
        requested period, at the type's base amount. Nothing checks whether
        the period was generated before. */
    method GeneratePayments(flatId: string, userId: string, command: GeneratePaymentsCommand, newId: nat -> string, now: int)
      returns (r: Result<Option<seq<PaymentWithTypeName>>>)
      requires Valid()
      requires FreshIdSource(newId, PaymentIds(payments))
      modifies this
      ensures Valid()
      ensures CheckIds(FlatId, flatId, userId).Some? ==>
                r == Err(CheckIds(FlatId, flatId, userId).value) && unchanged(this)
      ensures CheckIds(FlatId, flatId, userId).None? && FlatsTable in failing ==>
                r == Err(StoreFailure("Failed to fetch flat")) && unchanged(this)
      ensures (CheckIds(FlatId, flatId, userId).None? && FlatsTable !in old(failing)
               && FindOwnedFlat(old(flats), flatId, userId).None?) ==> r == Ok(None) && unchanged(this)
      ensures (CheckIds(FlatId, flatId, userId).None? && FlatsTable !in old(failing)
               && FindOwnedFlat(old(flats), flatId, userId).Some? && PaymentTypesTable in old(failing)) ==>
                r == Err(StoreFailure("Failed to fetch payment types")) && unchanged(this)
      ensures (CheckIds(FlatId, flatId, userId).None? && FlatsTable !in old(failing)
               && FindOwnedFlat(old(flats), flatId, userId).Some? && PaymentTypesTable !in old(failing)
               && TypesOfFlats(old(paymentTypes), {flatId}) == []) ==> r == Ok(Some([])) && unchanged(this)
      ensures (CheckIds(FlatId, flatId, userId).None? && FlatsTable !in old(failing)
               && FindOwnedFlat(old(flats), flatId, userId).Some? && PaymentTypesTable !in old(failing)
               && TypesOfFlats(old(paymentTypes), {flatId}) != [] && PaymentsTable in old(failing)) ==>
                r == Err(StoreFailure("Failed to generate payments")) && unchanged(this)
      ensures (CheckIds(FlatId, flatId, userId).None? && old(failing) == {}
               && FindOwnedFlat(old(flats), flatId, userId).Some?
               && TypesOfFlats(old(paymentTypes), {flatId}) != []) ==>
                var types := TypesOfFlatNewestFirst(old(paymentTypes), flatId);
                var rows := Candidates(types, command.month, command.year, newId, now);
                && payments == old(payments) + rows
                && r.Ok? && r.value.Some? && |r.value.value| == |types|
                && (forall k :: 0 <= k < |types| ==> r.value.value[k] == PaymentWithTypeName(rows[k], types[k].name))
                && flats == old(flats) && paymentTypes == old(paymentTypes) && failing == old(failing)
    {
      var flat := GetFlatById(flatId, userId);
      if flat.Err? {
        return Err(flat.error);
      }
      if flat.value.None? {
        return Ok(None);
      }
      var fetched := GetPaymentTypes(flatId, userId);
      if fetched.Err? {
        return Err(fetched.error);
      }
      var types := fetched.value;
      GenerationTypes(paymentTypes, flatId);
      if types == [] {
        return Ok(Some([]));
      }
      if PaymentsTable in failing {
        return Err(StoreFailure("Failed to generate payments"));
      }
      var named := InsertGenerated(flatId, types, command, newId, now);
      return Ok(Some(named));
    }

    /** The batch insert of `generatePayments` and the rows it reads back,
        each with its payment type's name. */
    method InsertGenerated(flatId: string, types: seq<PaymentType>, command: GeneratePaymentsCommand,
                           newId: nat -> string, now: int)
      returns (named: seq<PaymentWithTypeName>)
      requires Valid()
      requires FreshIdSource(newId, PaymentIds(payments))
      requires types == TypesOfFlatNewestFirst(paymentTypes, flatId)
      modifies this
      ensures Valid()
      ensures var rows := Candidates(types, command.month, command.year, newId, now);
              && payments == old(payments) + rows
              && |named| == |types|
              && (forall k :: 0 <= k < |types| ==> named[k] == PaymentWithTypeName(rows[k], types[k].name))
      ensures flats == old(flats) && paymentTypes == old(paymentTypes) && failing == old(failing)
    {
      GenerationTypes(paymentTypes, flatId);
      var rows := Candidates(types, command.month, command.year, newId, now);
      named := WithTypeNames(rows, paymentTypes);
      forall k | 0 <= k < |types| ensures named[k] == PaymentWithTypeName(rows[k], types[k].name) {
        assert rows[k].paymentTypeId == types[k].id;
      }
      GenerationKeepsValid(flats, paymentTypes, payments, types, command.month, command.year, newId, now);
      payments := payments + rows;
    }

    /** Marks a payment of one of the user's flats as paid at `now`,
        whatever its previous state; ownership is read through the payment's
        type and flat. */
    method MarkPaymentAsPaid(paymentId: string, userId: string, now: int) returns (r: Result<Option<Payment>>)
      requires Valid()
      modifies this
      ensures Valid()
      ensures CheckIds(PaymentId, paymentId, userId).Some? ==>
                r == Err(CheckIds(PaymentId, paymentId, userId).value) && unchanged(this)
      ensures (CheckIds(PaymentId, paymentId, userId).None?
               && (PaymentsTable in failing || PaymentTypesTable in failing || FlatsTable in failing)) ==>
                r == Err(StoreFailure("Failed to fetch payment")) && unchanged(this)
      ensures (CheckIds(PaymentId, paymentId, userId).None? && old(failing) == {}
               && PaymentOwner(old(flats), old(paymentTypes), old(payments), paymentId) != Some(userId)) ==>
                r == Ok(None) && unchanged(this)
      ensures (CheckIds(PaymentId, paymentId, userId).None? && old(failing) == {}
               && PaymentOwner(old(flats), old(paymentTypes), old(payments), paymentId) == Some(userId)) ==>
                && r == Ok(Some(FindPayment(old(payments), paymentId).value.(isPaid := true, paidAt := Some(now))))
                && payments == MarkPaidRows(old(payments), paymentId, now)
                && flats == old(flats) && paymentTypes == old(paymentTypes) && failing == old(failing)
    {
      var e := CheckIds(PaymentId, paymentId, userId);
      if e.Some? {
        return Err(e.value);
      }
      if PaymentsTable in failing || PaymentTypesTable in failing || FlatsTable in failing {
        return Err(StoreFailure("Failed to fetch payment"));
      }
      if PaymentOwner(flats, paymentTypes, payments, paymentId) != Some(userId) {
        return Ok(None);
      }
      var found := FindPayment(payments, paymentId).value;
      MarkPaidKeepsValid(flats, paymentTypes, payments, paymentId, now);
      payments := MarkPaidRows(payments, paymentId, now);
      return Ok(Some(found.(isPaid := true, paidAt := Some(now))));
    }
  }
}
