module Optional {
  datatype Option<T> = None | Some(value: T)
}

/** The three tables the flats service reads and writes (flats,
    payment_types, payments), the queries it issues against them, and the
    debt a flat owes. Timestamps are integers; amounts are exact reals. */
module Tables {
  import opened Optional
  import opened Ordering

  datatype Flat = Flat(id: string, userId: string, name: string, address: string,
                       createdAt: int, updatedAt: int)

  datatype PaymentType = PaymentType(id: string, flatId: string, name: string, baseAmount: real,
                                     createdAt: int, updatedAt: int)

  datatype Payment = Payment(id: string, paymentTypeId: string, amount: real, month: int, year: int,
                             isPaid: bool, paidAt: Option<int>, createdAt: int, updatedAt: int)

  /** A dashboard row: the flat's own columns and the debt computed for it. */
  datatype DashboardFlat = DashboardFlat(id: string, name: string, address: string,
                                         createdAt: int, updatedAt: int, debt: real)

  /** A payment with the name of its payment type joined on. */
  datatype PaymentWithTypeName = PaymentWithTypeName(payment: Payment, paymentTypeName: string)

  datatype Table = FlatsTable | PaymentTypesTable | PaymentsTable

  // ---------------------------------------------------------------------
  // Keys and integrity

  /** The primary keys of each table, in table order. The three row types
      share no common supertype, so each table has its own projection. */
  function FlatIds(s: seq<Flat>): (r: seq<string>)
    ensures |r| == |s| && forall i :: 0 <= i < |s| ==> r[i] == s[i].id
    ensures forall x :: x in s ==> x.id in r
  {
    seq(|s|, i requires 0 <= i < |s| => s[i].id)
  }

  function TypeIds(s: seq<PaymentType>): (r: seq<string>)
    ensures |r| == |s| && forall i :: 0 <= i < |s| ==> r[i] == s[i].id
    ensures forall x :: x in s ==> x.id in r
  {
    seq(|s|, i requires 0 <= i < |s| => s[i].id)
  }

  function PaymentIds(s: seq<Payment>): (r: seq<string>)
    ensures |r| == |s| && forall i :: 0 <= i < |s| ==> r[i] == s[i].id
    ensures forall x :: x in s ==> x.id in r
  {
    seq(|s|, i requires 0 <= i < |s| => s[i].id)
  }

  predicate Distinct(s: seq<string>)
  {
    forall i, j :: 0 <= i < j < |s| ==> s[i] != s[j]
  }

  /** Primary keys are unique, every payment type's flat exists and every
      payment's payment type exists (the two foreign keys of the schema). */
  predicate TablesValid(flats: seq<Flat>, types: seq<PaymentType>, payments: seq<Payment>)
  {
    && Distinct(FlatIds(flats)) && Distinct(TypeIds(types)) && Distinct(PaymentIds(payments))
    && (forall t :: t in types ==> t.flatId in FlatIds(flats))
    && (forall p :: p in payments ==> p.paymentTypeId in TypeIds(types))
  }

  // ---------------------------------------------------------------------
  // Single-row lookups. With unique primary keys the first match is the only
  // one, which is what `.single()` returns.

  /** `flats.eq("id", flatId).eq("user_id", userId).single()`. */
  function FindOwnedFlat(flats: seq<Flat>, flatId: string, userId: string): (r: Option<Flat>)
    ensures r.Some? ==> r.value in flats && r.value.id == flatId && r.value.userId == userId
    ensures r.None? <==> forall f :: f in flats ==> !(f.id == flatId && f.userId == userId)
  {
    if flats == [] then None
    else if flats[0].id == flatId && flats[0].userId == userId then Some(flats[0])
    else FindOwnedFlat(flats[1..], flatId, userId)
  }

  /** The flat row with a given id, whoever owns it. */
  function FindFlat(flats: seq<Flat>, flatId: string): (r: Option<Flat>)
    ensures r.Some? ==> r.value in flats && r.value.id == flatId
    ensures r.None? <==> flatId !in FlatIds(flats)
  {
    if flats == [] then None
    else if flats[0].id == flatId then Some(flats[0])
    else
      assert FlatIds(flats) == [flats[0].id] + FlatIds(flats[1..]);
      FindFlat(flats[1..], flatId)
  }

  /** `paymentTypes.find((pt) => pt.id === id)`. */
  function FindType(types: seq<PaymentType>, typeId: string): (r: Option<PaymentType>)
    ensures r.Some? ==> r.value in types && r.value.id == typeId
    ensures r.None? <==> typeId !in TypeIds(types)
  {
    if types == [] then None
    else if types[0].id == typeId then Some(types[0])
    else
      assert TypeIds(types) == [types[0].id] + TypeIds(types[1..]);
      FindType(types[1..], typeId)
  }

  function FindPayment(payments: seq<Payment>, paymentId: string): (r: Option<Payment>)
    ensures r.Some? ==> r.value in payments && r.value.id == paymentId
    ensures r.None? <==> paymentId !in PaymentIds(payments)
  {
    if payments == [] then None
    else if payments[0].id == paymentId then Some(payments[0])
    else
      assert PaymentIds(payments) == [payments[0].id] + PaymentIds(payments[1..]);
      FindPayment(payments[1..], paymentId)
  }

  /** With unique ids, the lookup finds the one row that carries the id. */
  lemma {:induction false} FindTypeUnique(types: seq<PaymentType>, t: PaymentType)
    requires Distinct(TypeIds(types))
    requires t in types
    ensures FindType(types, t.id) == Some(t)
  {
    if types[0] != t {
      assert t in types[1..];
      assert TypeIds(types[1..]) == TypeIds(types)[1..];
      FindTypeUnique(types[1..], t);
    }
  }

  // ---------------------------------------------------------------------
  // Multi-row queries, in table order unless an ORDER BY is applied.

  /** `flats.eq("user_id", userId)`. */
  function FlatsOfUser(flats: seq<Flat>, userId: string): (r: seq<Flat>)
    ensures forall f :: f in r <==> f in flats && f.userId == userId
  {
    if flats == [] then []
    else (if flats[0].userId == userId then [flats[0]] else []) + FlatsOfUser(flats[1..], userId)
  }

  predicate NewestFlatFirst(a: Flat, b: Flat)
  {
    a.createdAt >= b.createdAt
  }

  predicate NewestTypeFirst(a: PaymentType, b: PaymentType)
  {
    a.createdAt >= b.createdAt
  }

  /** `.order("year", desc).order("month", desc).order("created_at", desc)`. */
  predicate LatestPeriodFirst(a: Payment, b: Payment)
  {
    a.year > b.year
    || (a.year == b.year && (a.month > b.month || (a.month == b.month && a.createdAt >= b.createdAt)))
  }

  lemma OrderingsAreTotalPreorders()
    ensures TotalPreorder(NewestFlatFirst)
    ensures TotalPreorder(NewestTypeFirst)
    ensures TotalPreorder(LatestPeriodFirst)
  {
  }

  /** The user's flats, newest first. */
  function OwnedFlatsNewestFirst(flats: seq<Flat>, userId: string): (r: seq<Flat>)
    ensures multiset(r) == multiset(FlatsOfUser(flats, userId))
    ensures Sorted(r, NewestFlatFirst)
  {
    OrderingsAreTotalPreorders();
    SortBySorted(FlatsOfUser(flats, userId), NewestFlatFirst);
    SortBy(FlatsOfUser(flats, userId), NewestFlatFirst)
  }

  /** Sorting the user's flats neither adds nor drops one. */
  lemma OwnedFlatsSameMembers(flats: seq<Flat>, userId: string)
    ensures forall f :: f in OwnedFlatsNewestFirst(flats, userId) <==> f in flats && f.userId == userId
    ensures OwnedFlatsNewestFirst(flats, userId) == [] <==> FlatsOfUser(flats, userId) == []
  {
    var owned := OwnedFlatsNewestFirst(flats, userId);
    var base := FlatsOfUser(flats, userId);
    assert forall f :: f in owned <==> f in multiset(owned);
    assert forall f :: f in base <==> f in multiset(base);
    assert |owned| == |base| by {
      assert |multiset(owned)| == |multiset(base)|;
    }
  }

  /** `payment_types.in("flat_id", flatIds)`. */
  function TypesOfFlats(types: seq<PaymentType>, flatIds: set<string>): (r: seq<PaymentType>)
    ensures forall t :: t in r <==> t in types && t.flatId in flatIds
  {
    if types == [] then []
    else (if types[0].flatId in flatIds then [types[0]] else []) + TypesOfFlats(types[1..], flatIds)
  }

  /** A flat's payment types, newest first (`getPaymentTypes`). */
  function TypesOfFlatNewestFirst(types: seq<PaymentType>, flatId: string): (r: seq<PaymentType>)
    ensures multiset(r) == multiset(TypesOfFlats(types, {flatId}))
    ensures Sorted(r, NewestTypeFirst)
  {
    OrderingsAreTotalPreorders();
    SortBySorted(TypesOfFlats(types, {flatId}), NewestTypeFirst);
    SortBy(TypesOfFlats(types, {flatId}), NewestTypeFirst)
  }

  /** `payments.in("payment_type_id", typeIds).eq("is_paid", false)`. */
  function UnpaidOfTypes(payments: seq<Payment>, typeIds: set<string>): (r: seq<Payment>)
    ensures forall p :: p in r <==> p in payments && p.paymentTypeId in typeIds && !p.isPaid
  {
    if payments == [] then []
    else
      var init := payments[..|payments| - 1];
      var last := payments[|payments| - 1];
      assert payments == init + [last];
      UnpaidOfTypes(init, typeIds) + (if last.paymentTypeId in typeIds && !last.isPaid then [last] else [])
  }

  function IdSet(s: seq<string>): (r: set<string>)
    ensures forall x :: x in r <==> x in s
  {
    set x | x in s
  }

  // ---------------------------------------------------------------------
  // Debt

  /** What one payment adds to a flat's debt: its amount when it is unpaid
      and its payment type, looked up in `types`, belongs to the flat. */
  function Contribution(flatId: string, types: seq<PaymentType>, p: Payment): real
  {
    match FindType(types, p.paymentTypeId)
    case Some(t) => if !p.isPaid && t.flatId == flatId then p.amount else 0.0
    case None => 0.0
  }

  /** The debt of a flat: the sum of the amounts of the unpaid payments whose
      payment type belongs to it. */
  function Debt(flatId: string, types: seq<PaymentType>, payments: seq<Payment>): real
  {
    if payments == [] then 0.0
    else Debt(flatId, types, payments[..|payments| - 1]) + Contribution(flatId, types, payments[|payments| - 1])
  }

  lemma {:induction false} DebtAppend(flatId: string, types: seq<PaymentType>, a: seq<Payment>, b: seq<Payment>)
    ensures Debt(flatId, types, a + b) == Debt(flatId, types, a) + Debt(flatId, types, b)
  {
    if b != [] {
      assert (a + b)[..|a + b| - 1] == a + b[..|b| - 1];
      DebtAppend(flatId, types, a, b[..|b| - 1]);
    } else {
      assert a + b == a;
    }
  }

  /** A debt is the sum of non-negative terms when no amount is negative. */
  lemma {:induction false} DebtNonNegative(flatId: string, types: seq<PaymentType>, payments: seq<Payment>)
    requires forall p :: p in payments ==> p.amount >= 0.0
    ensures Debt(flatId, types, payments) >= 0.0
  {
    if payments != [] {
      DebtNonNegative(flatId, types, payments[..|payments| - 1]);
    }
  }

  /** Payments that contribute nothing leave the debt at 0: in particular a
      flat without payment types, and a flat whose payments are all paid. */
  lemma {:induction false} DebtZeroWhenNothingContributes(flatId: string, types: seq<PaymentType>, payments: seq<Payment>)
    requires forall p :: p in payments ==> p.isPaid || p.paymentTypeId !in TypeIds(types)
                                           || FindType(types, p.paymentTypeId).value.flatId != flatId
    ensures Debt(flatId, types, payments) == 0.0
  {
    if payments != [] {
      DebtZeroWhenNothingContributes(flatId, types, payments[..|payments| - 1]);
    }
  }

  lemma DebtZeroWithoutPaymentTypes(flatId: string, types: seq<PaymentType>, payments: seq<Payment>)
    requires forall t :: t in types ==> t.flatId != flatId
    ensures Debt(flatId, types, payments) == 0.0
  {
    DebtZeroWhenNothingContributes(flatId, types, payments);
  }

  lemma DebtZeroWhenAllPaid(flatId: string, types: seq<PaymentType>, payments: seq<Payment>)
    requires forall p :: p in payments ==> p.isPaid
    ensures Debt(flatId, types, payments) == 0.0
  {
    DebtZeroWhenNothingContributes(flatId, types, payments);
  }

  /** Restricting the payments to the unpaid ones of the fetched types does
      not change any flat's debt computed against those types. */
  lemma {:induction false} DebtOfFetchedPayments(flatId: string, types: seq<PaymentType>, payments: seq<Payment>)
    ensures Debt(flatId, types, UnpaidOfTypes(payments, IdSet(TypeIds(types)))) == Debt(flatId, types, payments)
  {
    if payments != [] {
      var init := payments[..|payments| - 1];
      var last := payments[|payments| - 1];
      var ids := IdSet(TypeIds(types));
      DebtOfFetchedPayments(flatId, types, init);
      var tail := if last.paymentTypeId in ids && !last.isPaid then [last] else [];
      DebtAppend(flatId, types, UnpaidOfTypes(init, ids), tail);
      if tail == [] {
        assert Contribution(flatId, types, last) == 0.0;
      } else {
        assert Debt(flatId, types, tail) == Contribution(flatId, types, last) by {
          assert tail[..0] == [];
        }
      }
    }
  }

  /** Looking a payment type up among the types of a set of flats finds what
      the lookup in the whole table finds, when that type's flat is in the set. */
  lemma {:induction false} FindTypeAmongFlats(types: seq<PaymentType>, flatIds: set<string>, typeId: string)
    requires Distinct(TypeIds(types))
    ensures FindType(TypesOfFlats(types, flatIds), typeId)
            == if FindType(types, typeId).Some? && FindType(types, typeId).value.flatId in flatIds
               then FindType(types, typeId) else None
  {
    if types != [] {
      var rest := types[1..];
      var head := if types[0].flatId in flatIds then [types[0]] else [];
      assert TypesOfFlats(types, flatIds) == head + TypesOfFlats(rest, flatIds);
      assert TypeIds(rest) == TypeIds(types)[1..];
      FindTypeAmongFlats(rest, flatIds, typeId);
      if types[0].id == typeId {
        assert forall m :: 0 <= m < |rest| ==> TypeIds(rest)[m] == TypeIds(types)[m + 1] != TypeIds(types)[0];
        assert FindType(rest, typeId) == None;
      } else {
        FindTypeSkipsOther(head, TypesOfFlats(rest, flatIds), typeId);
      }
    }
  }

  lemma FindTypeSkipsOther(head: seq<PaymentType>, tail: seq<PaymentType>, typeId: string)
    requires |head| <= 1 && (head != [] ==> head[0].id != typeId)
    ensures FindType(head + tail, typeId) == FindType(tail, typeId)
  {
    if head != [] {
      assert (head + tail)[1..] == tail;
    } else {
      assert head + tail == tail;
    }
  }

  /** The debt computed against the types of the user's flats is the flat's
      debt against the whole table, for each of those flats. */
  lemma {:induction false} DebtAmongOwnedTypes(flatId: string, flatIds: set<string>, types: seq<PaymentType>, payments: seq<Payment>)
    requires Distinct(TypeIds(types))
    requires flatId in flatIds
    ensures Debt(flatId, TypesOfFlats(types, flatIds), payments) == Debt(flatId, types, payments)
  {
    if payments != [] {
      DebtAmongOwnedTypes(flatId, flatIds, types, payments[..|payments| - 1]);
      FindTypeAmongFlats(types, flatIds, payments[|payments| - 1].paymentTypeId);
    }
  }

  // ---------------------------------------------------------------------
  // Generation and payment

  /** The rows `generatePayments` inserts: one unpaid payment per payment
      type, in the types' order, for the requested period, at the type's
      current base amount. `newId(k)` is the identifier the store draws for
      the k-th row. */
  function Candidates(types: seq<PaymentType>, month: int, year: int, newId: nat -> string, now: int): (r: seq<Payment>)
    ensures |r| == |types|
    ensures forall k :: 0 <= k < |types| ==>
              r[k] == Payment(newId(k), types[k].id, types[k].baseAmount, month, year, false, None, now, now)
  {
    seq(|types|, k requires 0 <= k < |types| =>
      Payment(newId(k), types[k].id, types[k].baseAmount, month, year, false, None, now, now))
  }

  function BaseAmountTotal(types: seq<PaymentType>): real
  {
    if types == [] then 0.0 else BaseAmountTotal(types[..|types| - 1]) + types[|types| - 1].baseAmount
  }

  /** Generating payments for types of a flat raises that flat's debt by the
      sum of their base amounts. */
  lemma {:induction false} GenerationRaisesDebt(flatId: string, types: seq<PaymentType>, flatTypes: seq<PaymentType>,
                                                payments: seq<Payment>, month: int, year: int, newId: nat -> string, now: int)
    requires Distinct(TypeIds(types))
    requires forall t :: t in flatTypes ==> t in types && t.flatId == flatId
    ensures Debt(flatId, types, payments + Candidates(flatTypes, month, year, newId, now))
            == Debt(flatId, types, payments) + BaseAmountTotal(flatTypes)
  {
    DebtAppend(flatId, types, payments, Candidates(flatTypes, month, year, newId, now));
    CandidatesDebt(flatId, types, flatTypes, month, year, newId, now);
  }

  lemma {:induction false} CandidatesDebt(flatId: string, types: seq<PaymentType>, flatTypes: seq<PaymentType>,
                                          month: int, year: int, newId: nat -> string, now: int)
    requires Distinct(TypeIds(types))
    requires forall t :: t in flatTypes ==> t in types && t.flatId == flatId
    ensures Debt(flatId, types, Candidates(flatTypes, month, year, newId, now)) == BaseAmountTotal(flatTypes)
  {
    if flatTypes != [] {
      var n := |flatTypes| - 1;
      var c := Candidates(flatTypes, month, year, newId, now);
      assert c[..n] == Candidates(flatTypes[..n], month, year, newId, now);
      CandidatesDebt(flatId, types, flatTypes[..n], month, year, newId, now);
      FindTypeUnique(types, flatTypes[n]);
    }
  }

  /** Nothing stops a second generation for the same period: the table then
      holds two payments for the same payment type, month and year. */
  lemma RepeatedGenerationDuplicatesPeriod(types: seq<PaymentType>, payments: seq<Payment>, month: int, year: int,
                                           newId1: nat -> string, now1: int, newId2: nat -> string, now2: int)
    requires types != []
    ensures var after := payments + Candidates(types, month, year, newId1, now1)
                                  + Candidates(types, month, year, newId2, now2);
            exists i, j :: 0 <= i < j < |after|
              && after[i].paymentTypeId == after[j].paymentTypeId
              && after[i].month == after[j].month && after[i].year == after[j].year
  {
    var after := payments + Candidates(types, month, year, newId1, now1)
                          + Candidates(types, month, year, newId2, now2);
    var i, j := |payments|, |payments| + |types|;
    assert after[i].paymentTypeId == types[0].id == after[j].paymentTypeId;
  }

  /** The update `markPaymentAsPaid` issues: every row with the id becomes
      paid, stamped with `now`, whatever its previous state. */
  function MarkPaidRows(payments: seq<Payment>, paymentId: string, now: int): (r: seq<Payment>)
    ensures |r| == |payments|
    ensures forall i :: 0 <= i < |payments| ==>
              r[i] == if payments[i].id == paymentId then payments[i].(isPaid := true, paidAt := Some(now))
                      else payments[i]
  {
    seq(|payments|, i requires 0 <= i < |payments| =>
      if payments[i].id == paymentId then payments[i].(isPaid := true, paidAt := Some(now)) else payments[i])
  }

  /** Paying a payment lowers its flat's debt by exactly what it contributed. */
  lemma {:induction false} MarkPaidLowersDebt(flatId: string, types: seq<PaymentType>, payments: seq<Payment>, k: nat, now: int)
    requires Distinct(PaymentIds(payments))
    requires k < |payments|
    ensures Debt(flatId, types, MarkPaidRows(payments, payments[k].id, now))
            == Debt(flatId, types, payments) - Contribution(flatId, types, payments[k])
  {
    var n := |payments| - 1;
    var id := payments[k].id;
    var marked := MarkPaidRows(payments, id, now);
    assert marked[..n] == MarkPaidRows(payments[..n], id, now);
    assert PaymentIds(payments[..n]) == PaymentIds(payments)[..n];
    if k < n {
      MarkPaidLowersDebt(flatId, types, payments[..n], k, now);
      assert PaymentIds(payments)[k] != PaymentIds(payments)[n];
      assert marked[n] == payments[n];
    } else {
      MarkPaidUnchangedWithoutId(flatId, types, payments[..n], id, now);
      assert Contribution(flatId, types, marked[n]) == 0.0;
    }
  }

  lemma {:induction false} MarkPaidUnchangedWithoutId(flatId: string, types: seq<PaymentType>, payments: seq<Payment>,
                                                      paymentId: string, now: int)
    requires paymentId !in PaymentIds(payments)
    ensures MarkPaidRows(payments, paymentId, now) == payments
  {
    var r := MarkPaidRows(payments, paymentId, now);
    forall i | 0 <= i < |payments| ensures r[i] == payments[i] {
      assert PaymentIds(payments)[i] == payments[i].id;
    }
  }

  /** Marking twice leaves the payment paid with the second timestamp: the
      first `paid_at` is overwritten. */
  lemma MarkPaidTwiceRestamps(payments: seq<Payment>, paymentId: string, now1: int, now2: int, i: nat)
    requires i < |payments| && payments[i].id == paymentId
    ensures MarkPaidRows(MarkPaidRows(payments, paymentId, now1), paymentId, now2)[i].paidAt == Some(now2)
    ensures MarkPaidRows(MarkPaidRows(payments, paymentId, now1), paymentId, now2)[i].isPaid
  {
  }

  // ---------------------------------------------------------------------
  // Commands

  datatype CreateFlatCommand = CreateFlatCommand(name: string, address: string)

  /** An absent field is left out of the update and keeps its stored value. */
  datatype UpdateFlatCommand = UpdateFlatCommand(name: Option<string>, address: Option<string>)

  datatype CreatePaymentTypeCommand = CreatePaymentTypeCommand(name: string, baseAmount: real)

  datatype UpdatePaymentTypeCommand = UpdatePaymentTypeCommand(name: Option<string>, baseAmount: Option<real>)

  datatype GeneratePaymentsCommand = GeneratePaymentsCommand(month: int, year: int)

  /** The optional equality filters of the payments listing. */
  datatype PaymentFilters = PaymentFilters(month: Option<int>, year: Option<int>, isPaid: Option<bool>)

  // ---------------------------------------------------------------------
  // Row filters and the DELETE cascade

  function Filter<T(!new)>(s: seq<T>, keep: T -> bool): (r: seq<T>)
    ensures |r| <= |s|
    ensures forall x :: x in r <==> x in s && keep(x)
  {
    if s == [] then []
    else if keep(s[0]) then [s[0]] + Filter(s[1..], keep)
    else Filter(s[1..], keep)
  }

  lemma {:induction false} FilterNothingKept<T(!new)>(s: seq<T>, keep: T -> bool)
    requires forall x :: x in s ==> !keep(x)
    ensures Filter(s, keep) == []
  {
    if s != [] {
      assert s[0] in s;
      FilterNothingKept(s[1..], keep);
    }
  }

  predicate KeysDistinct<T>(s: seq<T>, key: T -> string)
  {
    forall i, j :: 0 <= i < j < |s| ==> key(s[i]) != key(s[j])
  }

  /** Dropping rows never makes two remaining rows share a key. */
  lemma {:induction false} FilterKeepsKeysDistinct<T(!new)>(s: seq<T>, keep: T -> bool, key: T -> string)
    requires KeysDistinct(s, key)
    ensures KeysDistinct(Filter(s, keep), key)
  {
    if s != [] {
      var tail := s[1..];
      assert KeysDistinct(tail, key) by {
        forall i, j | 0 <= i < j < |tail| ensures key(tail[i]) != key(tail[j]) {
          assert tail[i] == s[i + 1] && tail[j] == s[j + 1];
        }
      }
      FilterKeepsKeysDistinct(tail, keep, key);
      var rest := Filter(tail, keep);
      if keep(s[0]) {
        var r := [s[0]] + rest;
        forall i, j | 0 <= i < j < |r|
          ensures key(r[i]) != key(r[j])
        {
          if i == 0 {
            assert r[j] == rest[j - 1];
            assert r[j] in tail;
            var m :| 0 <= m < |tail| && tail[m] == r[j];
            assert s[m + 1] == r[j];
          } else {
            assert r[i] == rest[i - 1] && r[j] == rest[j - 1];
          }
        }
        assert KeysDistinct(r, key);
      }
    }
  }

  function FlatKey(f: Flat): string { f.id }
  function TypeKey(t: PaymentType): string { t.id }
  function PaymentKey(p: Payment): string { p.id }

  /** `flats.delete().eq("id", flatId).eq("user_id", userId)`. */
  function FlatsWithout(flats: seq<Flat>, flatId: string, userId: string): (r: seq<Flat>)
    ensures forall f :: f in r <==> f in flats && !(f.id == flatId && f.userId == userId)
  {
    Filter(flats, (f: Flat) => !(f.id == flatId && f.userId == userId))
  }

  /** What the cascade leaves of the payment types when a flat goes. */
  function TypesOutsideFlat(types: seq<PaymentType>, flatId: string): (r: seq<PaymentType>)
    ensures forall t :: t in r <==> t in types && t.flatId != flatId
  {
    Filter(types, (t: PaymentType) => t.flatId != flatId)
  }

  /** What the cascade leaves of the payments when payment types go. */
  function PaymentsOutsideTypes(payments: seq<Payment>, typeIds: set<string>): (r: seq<Payment>)
    ensures forall p :: p in r <==> p in payments && p.paymentTypeId !in typeIds
  {
    Filter(payments, (p: Payment) => p.paymentTypeId !in typeIds)
  }

  lemma FlatIdsDistinctByKey(s: seq<Flat>)
    ensures Distinct(FlatIds(s)) <==> KeysDistinct(s, FlatKey)
  {
  }

  lemma TypeIdsDistinctByKey(s: seq<PaymentType>)
    ensures Distinct(TypeIds(s)) <==> KeysDistinct(s, TypeKey)
  {
  }

  lemma PaymentIdsDistinctByKey(s: seq<Payment>)
    ensures Distinct(PaymentIds(s)) <==> KeysDistinct(s, PaymentKey)
  {
  }

  /** Deleting an owned flat together with its payment types and their
      payments leaves the tables consistent: nothing refers to a row that is
      gone. */
  lemma DeleteCascadeKeepsValid(flats: seq<Flat>, types: seq<PaymentType>, payments: seq<Payment>, flatId: string, userId: string)
    requires TablesValid(flats, types, payments)
    ensures TablesValid(FlatsWithout(flats, flatId, userId), TypesOutsideFlat(types, flatId),
                        PaymentsOutsideTypes(payments, IdSet(TypeIds(TypesOfFlats(types, {flatId})))))
  {
    var gone := IdSet(TypeIds(TypesOfFlats(types, {flatId})));
    CascadeKeepsKeysDistinct(flats, types, payments, flatId, userId, gone);
    CascadeKeepsReferences(flats, types, payments, flatId, userId);
  }

  lemma CascadeKeepsKeysDistinct(flats: seq<Flat>, types: seq<PaymentType>, payments: seq<Payment>,
                                 flatId: string, userId: string, gone: set<string>)
    requires Distinct(FlatIds(flats)) && Distinct(TypeIds(types)) && Distinct(PaymentIds(payments))
    ensures Distinct(FlatIds(FlatsWithout(flats, flatId, userId)))
    ensures Distinct(TypeIds(TypesOutsideFlat(types, flatId)))
    ensures Distinct(PaymentIds(PaymentsOutsideTypes(payments, gone)))
  {
    FlatIdsDistinctByKey(flats);
    FlatIdsDistinctByKey(FlatsWithout(flats, flatId, userId));
    FilterKeepsKeysDistinct(flats, (f: Flat) => !(f.id == flatId && f.userId == userId), FlatKey);
    TypeIdsDistinctByKey(types);
    TypeIdsDistinctByKey(TypesOutsideFlat(types, flatId));
    FilterKeepsKeysDistinct(types, (t: PaymentType) => t.flatId != flatId, TypeKey);
    PaymentIdsDistinctByKey(payments);
    PaymentIdsDistinctByKey(PaymentsOutsideTypes(payments, gone));
    FilterKeepsKeysDistinct(payments, (p: Payment) => p.paymentTypeId !in gone, PaymentKey);
  }

  lemma CascadeKeepsReferences(flats: seq<Flat>, types: seq<PaymentType>, payments: seq<Payment>, flatId: string, userId: string)
    requires forall t :: t in types ==> t.flatId in FlatIds(flats)
    requires forall p :: p in payments ==> p.paymentTypeId in TypeIds(types)
    ensures forall t :: t in TypesOutsideFlat(types, flatId) ==> t.flatId in FlatIds(FlatsWithout(flats, flatId, userId))
    ensures var gone := IdSet(TypeIds(TypesOfFlats(types, {flatId})));
            forall p :: p in PaymentsOutsideTypes(payments, gone) ==> p.paymentTypeId in TypeIds(TypesOutsideFlat(types, flatId))
  {
    var flats' := FlatsWithout(flats, flatId, userId);
    var types' := TypesOutsideFlat(types, flatId);
    var gone := IdSet(TypeIds(TypesOfFlats(types, {flatId})));
    forall t | t in types'
      ensures t.flatId in FlatIds(flats')
    {
      var k :| 0 <= k < |flats| && FlatIds(flats)[k] == t.flatId;
      assert flats[k] in flats';
    }
    forall p | p in PaymentsOutsideTypes(payments, gone)
      ensures p.paymentTypeId in TypeIds(types')
    {
      var k :| 0 <= k < |types| && TypeIds(types)[k] == p.paymentTypeId;
      assert types[k] !in TypesOfFlats(types, {flatId});
      assert types[k] in types';
    }
  }

  // ---------------------------------------------------------------------
  // UPDATE statements

  function ApplyFlatUpdate(f: Flat, c: UpdateFlatCommand): (r: Flat)
    ensures r.id == f.id && r.userId == f.userId && r.createdAt == f.createdAt && r.updatedAt == f.updatedAt
    ensures r.name == (if c.name.Some? then c.name.value else f.name)
    ensures r.address == (if c.address.Some? then c.address.value else f.address)
  {
    f.(name := if c.name.Some? then c.name.value else f.name,
       address := if c.address.Some? then c.address.value else f.address)
  }

  /** `flats.update(...).eq("id", flatId).eq("user_id", userId)`. */
  function UpdateFlatRows(flats: seq<Flat>, flatId: string, userId: string, c: UpdateFlatCommand): (r: seq<Flat>)
    ensures |r| == |flats|
    ensures forall i :: 0 <= i < |flats| ==>
              r[i] == if flats[i].id == flatId && flats[i].userId == userId then ApplyFlatUpdate(flats[i], c) else flats[i]
  {
    seq(|flats|, i requires 0 <= i < |flats| =>
      if flats[i].id == flatId && flats[i].userId == userId then ApplyFlatUpdate(flats[i], c) else flats[i])
  }

  function ApplyTypeUpdate(t: PaymentType, c: UpdatePaymentTypeCommand): (r: PaymentType)
    ensures r.id == t.id && r.flatId == t.flatId && r.createdAt == t.createdAt && r.updatedAt == t.updatedAt
    ensures r.name == (if c.name.Some? then c.name.value else t.name)
    ensures r.baseAmount == (if c.baseAmount.Some? then c.baseAmount.value else t.baseAmount)
  {
    t.(name := if c.name.Some? then c.name.value else t.name,
       baseAmount := if c.baseAmount.Some? then c.baseAmount.value else t.baseAmount)
  }

  /** `payment_types.update(...).eq("id", typeId)`. */
  function UpdateTypeRows(types: seq<PaymentType>, typeId: string, c: UpdatePaymentTypeCommand): (r: seq<PaymentType>)
    ensures |r| == |types|
    ensures forall i :: 0 <= i < |types| ==>
              r[i] == if types[i].id == typeId then ApplyTypeUpdate(types[i], c) else types[i]
  {
    seq(|types|, i requires 0 <= i < |types| =>
      if types[i].id == typeId then ApplyTypeUpdate(types[i], c) else types[i])
  }

  /** A flat update touches neither keys nor references, so consistency survives it. */
  lemma FlatUpdateKeepsValid(flats: seq<Flat>, types: seq<PaymentType>, payments: seq<Payment>,
                             flatId: string, userId: string, fc: UpdateFlatCommand)
    requires TablesValid(flats, types, payments)
    ensures TablesValid(UpdateFlatRows(flats, flatId, userId, fc), types, payments)
  {
    assert FlatIds(UpdateFlatRows(flats, flatId, userId, fc)) == FlatIds(flats);
  }

  /** A payment type update keeps the type's key and its flat. */
  lemma TypeUpdateKeepsValid(flats: seq<Flat>, types: seq<PaymentType>, payments: seq<Payment>,
                             typeId: string, tc: UpdatePaymentTypeCommand)
    requires TablesValid(flats, types, payments)
    ensures TablesValid(flats, UpdateTypeRows(types, typeId, tc), payments)
  {
    var types' := UpdateTypeRows(types, typeId, tc);
    assert TypeIds(types') == TypeIds(types);
    forall t | t in types' ensures t.flatId in FlatIds(flats) {
      var k :| 0 <= k < |types'| && types'[k] == t;
      assert types[k] in types;
    }
  }

  /** Marking payments paid keeps their keys and their payment types. */
  lemma MarkPaidKeepsValid(flats: seq<Flat>, types: seq<PaymentType>, payments: seq<Payment>,
                           paymentId: string, now: int)
    requires TablesValid(flats, types, payments)
    ensures TablesValid(flats, types, MarkPaidRows(payments, paymentId, now))
  {
    var payments' := MarkPaidRows(payments, paymentId, now);
    assert PaymentIds(payments') == PaymentIds(payments);
    forall p | p in payments' ensures p.paymentTypeId in TypeIds(types) {
      var k :| 0 <= k < |payments'| && payments'[k] == p;
      assert payments[k] in payments;
    }
  }

  // ---------------------------------------------------------------------
  // INSERT statements

  /** The store draws pairwise different identifiers that are not in use yet. */
  ghost predicate FreshIdSource(newId: nat -> string, used: seq<string>)
  {
    && (forall k: nat, k': nat :: k != k' ==> newId(k) != newId(k'))
    && (forall k: nat :: newId(k) !in used)
  }

  lemma FlatInsertKeepsValid(flats: seq<Flat>, types: seq<PaymentType>, payments: seq<Payment>, f: Flat)
    requires TablesValid(flats, types, payments)
    requires f.id !in FlatIds(flats)
    ensures TablesValid(flats + [f], types, payments)
  {
    assert FlatIds(flats + [f]) == FlatIds(flats) + [f.id];
    forall u | u in types ensures u.flatId in FlatIds(flats + [f]) {
      var k :| 0 <= k < |flats| && FlatIds(flats)[k] == u.flatId;
      assert (flats + [f])[k] == flats[k];
    }
  }

  lemma TypeInsertKeepsValid(flats: seq<Flat>, types: seq<PaymentType>, payments: seq<Payment>, t: PaymentType)
    requires TablesValid(flats, types, payments)
    requires t.id !in TypeIds(types) && t.flatId in FlatIds(flats)
    ensures TablesValid(flats, types + [t], payments)
  {
    assert TypeIds(types + [t]) == TypeIds(types) + [t.id];
  }

  /** Inserting the generated rows keeps the tables consistent when the
      identifiers are fresh and the rows' payment types exist. */
  lemma GenerationKeepsValid(flats: seq<Flat>, types: seq<PaymentType>, payments: seq<Payment>,
                             flatTypes: seq<PaymentType>, month: int, year: int, newId: nat -> string, now: int)
    requires TablesValid(flats, types, payments)
    requires forall t :: t in flatTypes ==> t in types
    requires FreshIdSource(newId, PaymentIds(payments))
    ensures TablesValid(flats, types, payments + Candidates(flatTypes, month, year, newId, now))
  {
    var c := Candidates(flatTypes, month, year, newId, now);
    var all := payments + c;
    var n := |payments|;
    forall i, j | 0 <= i < j < |all| ensures PaymentIds(all)[i] != PaymentIds(all)[j] {
      if j >= n {
        assert all[j] == c[j - n] && c[j - n].id == newId(j - n);
        if i >= n {
          assert all[i] == c[i - n] && c[i - n].id == newId(i - n);
        } else {
          assert all[i] == payments[i] && PaymentIds(payments)[i] == payments[i].id;
        }
      } else {
        assert all[i] == payments[i] && all[j] == payments[j];
        assert PaymentIds(payments)[i] != PaymentIds(payments)[j];
      }
    }
    forall p | p in all ensures p.paymentTypeId in TypeIds(types) {
      if p !in payments {
        var k :| 0 <= k < |c| && c[k] == p;
        assert flatTypes[k] in types;
      }
    }
  }

  // ---------------------------------------------------------------------
  // Ownership through joins

  /** `payment_types.select("*, flats!inner(user_id)").eq("id", typeId)`:
      the owner of a payment type's flat, or None when the inner join finds
      no row. */
  function TypeOwner(flats: seq<Flat>, types: seq<PaymentType>, typeId: string): (r: Option<string>)
    ensures r.Some? <==> exists t :: t in types && t.id == typeId && FindFlat(flats, FindType(types, typeId).value.flatId).Some?
    ensures r.Some? ==> r.value == FindFlat(flats, FindType(types, typeId).value.flatId).value.userId
  {
    match FindType(types, typeId)
    case None => None
    case Some(t) =>
      match FindFlat(flats, t.flatId)
      case None => None
      case Some(f) => Some(f.userId)
  }

  /** The owner reached from a payment through its payment type and flat. */
  function PaymentOwner(flats: seq<Flat>, types: seq<PaymentType>, payments: seq<Payment>, paymentId: string): (r: Option<string>)
    ensures r.Some? ==> FindPayment(payments, paymentId).Some?
    ensures r.Some? ==> r == TypeOwner(flats, types, FindPayment(payments, paymentId).value.paymentTypeId)
  {
    match FindPayment(payments, paymentId)
    case None => None
    case Some(p) => TypeOwner(flats, types, p.paymentTypeId)
  }

  /** In consistent tables the join always finds the chain, so the owner of
      an existing payment is the user of the flat its payment type belongs to. */
  lemma PaymentOwnerInValidTables(flats: seq<Flat>, types: seq<PaymentType>, payments: seq<Payment>, p: Payment)
    requires TablesValid(flats, types, payments)
    requires p in payments
    ensures exists t, f :: t in types && f in flats && t.id == p.paymentTypeId && f.id == t.flatId
                           && PaymentOwner(flats, types, payments, p.id) == Some(f.userId)
  {
    PaymentIdsDistinctByKey(payments);
    var q := FindPayment(payments, p.id).value;
    assert q == p by {
      var i :| 0 <= i < |payments| && payments[i] == p;
      var j :| 0 <= j < |payments| && payments[j] == q;
      assert PaymentKey(payments[i]) == PaymentKey(payments[j]);
    }
    var t := FindType(types, p.paymentTypeId).value;
    var f := FindFlat(flats, t.flatId).value;
    assert t in types && f in flats;
  }

  // ---------------------------------------------------------------------
  // The dashboard

  /** `map.get(key) || 0`. */
  function Lookup(m: map<string, real>, key: string): real
  {
    if key in m then m[key] else 0.0
  }

  function DashboardRow(f: Flat, debt: real): DashboardFlat
  {
    DashboardFlat(f.id, f.name, address := f.address, createdAt := f.createdAt, updatedAt := f.updatedAt, debt := debt)
  }

  /** The dashboard of a user: each of their flats, newest first, with its debt. */
  function Dashboard(flats: seq<Flat>, types: seq<PaymentType>, payments: seq<Payment>, userId: string): seq<DashboardFlat>
  {
    var owned := OwnedFlatsNewestFirst(flats, userId);
    seq(|owned|, k requires 0 <= k < |owned| => DashboardRow(owned[k], Debt(owned[k].id, types, payments)))
  }

  /** The dashboard rows of `owned` with the debts recorded in `debtByFlat`
      (`debtByFlat.get(flat.id) || 0`). */
  function RowsWithDebts(owned: seq<Flat>, debtByFlat: map<string, real>): (r: seq<DashboardFlat>)
    ensures |r| == |owned|
    ensures forall k :: 0 <= k < |owned| ==> r[k] == DashboardRow(owned[k], Lookup(debtByFlat, owned[k].id))
  {
    seq(|owned|, k requires 0 <= k < |owned| => DashboardRow(owned[k], Lookup(debtByFlat, owned[k].id)))
  }

  /** When the user's flats have no payment types, every dashboard debt is 0. */
  lemma DashboardWithoutTypes(flats: seq<Flat>, types: seq<PaymentType>, payments: seq<Payment>, userId: string)
    requires TypesOfFlats(types, IdSet(FlatIds(OwnedFlatsNewestFirst(flats, userId)))) == []
    ensures Dashboard(flats, types, payments, userId) == RowsWithDebts(OwnedFlatsNewestFirst(flats, userId), map[])
  {
    var owned := OwnedFlatsNewestFirst(flats, userId);
    var ids := IdSet(FlatIds(owned));
    forall k | 0 <= k < |owned|
      ensures Debt(owned[k].id, types, payments) == 0.0
    {
      assert FlatIds(owned)[k] == owned[k].id;
      DebtZeroWithoutPaymentTypes(owned[k].id, types, payments);
    }
  }

  /** Debts summed over the fetched unpaid payments of the fetched types are
      the dashboard's debts. */
  lemma DashboardFromFetched(flats: seq<Flat>, types: seq<PaymentType>, payments: seq<Payment>, userId: string,
                             debtByFlat: map<string, real>)
    requires Distinct(TypeIds(types))
    requires var fetched := TypesOfFlats(types, IdSet(FlatIds(OwnedFlatsNewestFirst(flats, userId))));
             forall fid :: Lookup(debtByFlat, fid) == Debt(fid, fetched, UnpaidOfTypes(payments, IdSet(TypeIds(fetched))))
    ensures Dashboard(flats, types, payments, userId) == RowsWithDebts(OwnedFlatsNewestFirst(flats, userId), debtByFlat)
  {
    var owned := OwnedFlatsNewestFirst(flats, userId);
    var ids := IdSet(FlatIds(owned));
    var fetched := TypesOfFlats(types, ids);
    forall k | 0 <= k < |owned|
      ensures Lookup(debtByFlat, owned[k].id) == Debt(owned[k].id, types, payments)
    {
      assert FlatIds(owned)[k] == owned[k].id;
      DebtOfFetchedPayments(owned[k].id, fetched, payments);
      DebtAmongOwnedTypes(owned[k].id, ids, types, payments);
    }
  }

  /** The dashboard has as many rows as the user has flats. */
  lemma DashboardRowCount(flats: seq<Flat>, types: seq<PaymentType>, payments: seq<Payment>, userId: string)
    ensures |Dashboard(flats, types, payments, userId)| == |FlatsOfUser(flats, userId)|
  {
    var owned := OwnedFlatsNewestFirst(flats, userId);
    assert |multiset(owned)| == |multiset(FlatsOfUser(flats, userId))|;
  }

  /** Every row of the dashboard is one of the user's flats with its debt,
      and every flat of the user has a row. */
  lemma DashboardRowsAreOwnedFlats(flats: seq<Flat>, types: seq<PaymentType>, payments: seq<Payment>, userId: string)
    ensures var r := Dashboard(flats, types, payments, userId);
            && (forall k :: 0 <= k < |r| ==>
                  exists f :: f in flats && f.userId == userId && r[k] == DashboardRow(f, Debt(f.id, types, payments)))
            && (forall f :: f in flats && f.userId == userId ==>
                  exists k :: 0 <= k < |r| && r[k] == DashboardRow(f, Debt(f.id, types, payments)))
  {
    var owned := OwnedFlatsNewestFirst(flats, userId);
    var r := Dashboard(flats, types, payments, userId);
    forall k | 0 <= k < |r|
      ensures exists f :: f in flats && f.userId == userId && r[k] == DashboardRow(f, Debt(f.id, types, payments))
    {
      assert owned[k] in multiset(FlatsOfUser(flats, userId));
    }
    forall f | f in flats && f.userId == userId
      ensures exists k :: 0 <= k < |r| && r[k] == DashboardRow(f, Debt(f.id, types, payments))
    {
      assert f in multiset(owned);
      var k :| 0 <= k < |owned| && owned[k] == f;
      assert r[k] == DashboardRow(f, Debt(f.id, types, payments));
    }
  }

  /** The dashboard's rows run from the newest flat to the oldest. */
  lemma DashboardNewestFirst(flats: seq<Flat>, types: seq<PaymentType>, payments: seq<Payment>, userId: string)
    ensures var r := Dashboard(flats, types, payments, userId);
            forall i, j :: 0 <= i < j < |r| ==> r[i].createdAt >= r[j].createdAt
  {
    var owned := OwnedFlatsNewestFirst(flats, userId);
    var r := Dashboard(flats, types, payments, userId);
    forall i, j | 0 <= i < j < |r| ensures r[i].createdAt >= r[j].createdAt {
      assert NewestFlatFirst(owned[i], owned[j]);
    }
  }

  /** One row per owned flat and no other: every row is one of the user's
      flats with its debt, every flat of the user has a row, and the rows run
      from the newest flat to the oldest. */
  lemma DashboardListsOwnedFlats(flats: seq<Flat>, types: seq<PaymentType>, payments: seq<Payment>, userId: string)
    ensures var r := Dashboard(flats, types, payments, userId);
            && |r| == |FlatsOfUser(flats, userId)|
            && (forall k :: 0 <= k < |r| ==>
                  exists f :: f in flats && f.userId == userId && r[k] == DashboardRow(f, Debt(f.id, types, payments)))
            && (forall f :: f in flats && f.userId == userId ==>
                  exists k :: 0 <= k < |r| && r[k] == DashboardRow(f, Debt(f.id, types, payments)))
            && (forall i, j :: 0 <= i < j < |r| ==> r[i].createdAt >= r[j].createdAt)
  {
    DashboardRowCount(flats, types, payments, userId);
    DashboardRowsAreOwnedFlats(flats, types, payments, userId);
    DashboardNewestFirst(flats, types, payments, userId);
  }

  // ---------------------------------------------------------------------
  // The payments listing

  predicate MatchesFilters(p: Payment, filters: PaymentFilters)
  {
    && (filters.month.Some? ==> p.month == filters.month.value)
    && (filters.year.Some? ==> p.year == filters.year.value)
    && (filters.isPaid.Some? ==> p.isPaid == filters.isPaid.value)
  }

  /** `payments.in("payment_type_id", typeIds)` narrowed by the filters. */
  function PaymentsMatching(payments: seq<Payment>, typeIds: set<string>, filters: PaymentFilters): (r: seq<Payment>)
    ensures forall p :: p in r <==> p in payments && p.paymentTypeId in typeIds && MatchesFilters(p, filters)
  {
    Filter(payments, (p: Payment) => p.paymentTypeId in typeIds && MatchesFilters(p, filters))
  }

  /** `payment.payment_types?.name || ""`. */
  function TypeName(types: seq<PaymentType>, typeId: string): string
  {
    match FindType(types, typeId)
    case Some(t) => t.name
    case None => ""
  }

  function WithTypeNames(ps: seq<Payment>, types: seq<PaymentType>): (r: seq<PaymentWithTypeName>)
    ensures |r| == |ps|
    ensures forall i :: 0 <= i < |ps| ==> r[i] == PaymentWithTypeName(ps[i], TypeName(types, ps[i].paymentTypeId))
  {
    seq(|ps|, i requires 0 <= i < |ps| => PaymentWithTypeName(ps[i], TypeName(types, ps[i].paymentTypeId)))
  }

  /** The payments of one flat that pass the filters, latest period first,
      each with its payment type's name. */
  function FlatPaymentsListing(types: seq<PaymentType>, payments: seq<Payment>, flatId: string, filters: PaymentFilters): seq<PaymentWithTypeName>
  {
    var matching := PaymentsMatching(payments, IdSet(TypeIds(TypesOfFlats(types, {flatId}))), filters);
    WithTypeNames(SortBy(matching, LatestPeriodFirst), types)
  }

  /** One row of the listing is a payment of the flat that passes the
      filters, named after its payment type. */
  lemma FlatPaymentsListingRow(types: seq<PaymentType>, payments: seq<Payment>, flatId: string, filters: PaymentFilters, i: int)
    requires Distinct(TypeIds(types))
    requires 0 <= i < |FlatPaymentsListing(types, payments, flatId, filters)|
    ensures var row := FlatPaymentsListing(types, payments, flatId, filters)[i];
            && row.payment in payments && MatchesFilters(row.payment, filters)
            && FindType(types, row.payment.paymentTypeId).Some?
            && FindType(types, row.payment.paymentTypeId).value.flatId == flatId
            && row.paymentTypeName == FindType(types, row.payment.paymentTypeId).value.name
  {
    var flatTypes := TypesOfFlats(types, {flatId});
    var ids := IdSet(TypeIds(flatTypes));
    var matching := PaymentsMatching(payments, ids, filters);
    var sorted := SortBy(matching, LatestPeriodFirst);
    var p := sorted[i];
    assert FlatPaymentsListing(types, payments, flatId, filters)[i]
           == PaymentWithTypeName(p, TypeName(types, p.paymentTypeId));
    assert p in multiset(matching);
    assert p in matching;
    FlatTypeFound(types, flatId, p.paymentTypeId);
  }

  /** A type id among the flat's payment types finds a type of that flat. */
  lemma FlatTypeFound(types: seq<PaymentType>, flatId: string, typeId: string)
    requires Distinct(TypeIds(types))
    requires typeId in IdSet(TypeIds(TypesOfFlats(types, {flatId})))
    ensures FindType(types, typeId).Some? && FindType(types, typeId).value.flatId == flatId
  {
    var flatTypes := TypesOfFlats(types, {flatId});
    var k :| 0 <= k < |TypeIds(flatTypes)| && TypeIds(flatTypes)[k] == typeId;
    FindTypeUnique(types, flatTypes[k]);
  }

  /** The listing runs from the latest period to the earliest. */
  lemma FlatPaymentsListingOrdered(types: seq<PaymentType>, payments: seq<Payment>, flatId: string, filters: PaymentFilters)
    ensures var r := FlatPaymentsListing(types, payments, flatId, filters);
            forall i, j :: 0 <= i < j < |r| ==> LatestPeriodFirst(r[i].payment, r[j].payment)
  {
    var flatTypes := TypesOfFlats(types, {flatId});
    var matching := PaymentsMatching(payments, IdSet(TypeIds(flatTypes)), filters);
    OrderingsAreTotalPreorders();
    SortBySorted(matching, LatestPeriodFirst);
  }

  /** Every row of the listing is a payment of the flat that passes the
      filters, named after its payment type, and the rows run from the latest
      period to the earliest. */
  lemma FlatPaymentsListingSound(types: seq<PaymentType>, payments: seq<Payment>, flatId: string, filters: PaymentFilters)
    requires Distinct(TypeIds(types))
    ensures var r := FlatPaymentsListing(types, payments, flatId, filters);
            && (forall i :: 0 <= i < |r| ==>
                  && r[i].payment in payments && MatchesFilters(r[i].payment, filters)
                  && FindType(types, r[i].payment.paymentTypeId).Some?
                  && FindType(types, r[i].payment.paymentTypeId).value.flatId == flatId
                  && r[i].paymentTypeName == FindType(types, r[i].payment.paymentTypeId).value.name)
            && (forall i, j :: 0 <= i < j < |r| ==> LatestPeriodFirst(r[i].payment, r[j].payment))
  {
    forall i | 0 <= i < |FlatPaymentsListing(types, payments, flatId, filters)|
      ensures var row := FlatPaymentsListing(types, payments, flatId, filters)[i];
              && row.payment in payments && MatchesFilters(row.payment, filters)
              && FindType(types, row.payment.paymentTypeId).Some?
              && FindType(types, row.payment.paymentTypeId).value.flatId == flatId
              && row.paymentTypeName == FindType(types, row.payment.paymentTypeId).value.name
    {
      FlatPaymentsListingRow(types, payments, flatId, filters, i);
    }
    FlatPaymentsListingOrdered(types, payments, flatId, filters);
  }

  /** Every payment of the flat that passes the filters appears in the listing. */
  lemma FlatPaymentsListingComplete(types: seq<PaymentType>, payments: seq<Payment>, flatId: string, filters: PaymentFilters, p: Payment)
    requires p in payments && MatchesFilters(p, filters)
    requires FindType(types, p.paymentTypeId).Some? && FindType(types, p.paymentTypeId).value.flatId == flatId
    ensures exists i :: 0 <= i < |FlatPaymentsListing(types, payments, flatId, filters)|
                        && FlatPaymentsListing(types, payments, flatId, filters)[i].payment == p
  {
    var flatTypes := TypesOfFlats(types, {flatId});
    var matching := PaymentsMatching(payments, IdSet(TypeIds(flatTypes)), filters);
    var sorted := SortBy(matching, LatestPeriodFirst);
    var t := FindType(types, p.paymentTypeId).value;
    assert t in flatTypes;
    assert p in matching;
    assert p in multiset(sorted);
    var i :| 0 <= i < |sorted| && sorted[i] == p;
    assert FlatPaymentsListing(types, payments, flatId, filters)[i].payment == p;
  }

  /** A flat without payment types has no payments to list. */
  lemma FlatPaymentsListingWithoutTypes(types: seq<PaymentType>, payments: seq<Payment>, flatId: string, filters: PaymentFilters)
    requires TypesOfFlats(types, {flatId}) == []
    ensures FlatPaymentsListing(types, payments, flatId, filters) == []
  {
    var ids := IdSet(TypeIds(TypesOfFlats(types, {flatId})));
    assert ids == {};
    FilterNothingKept(payments, (p: Payment) => p.paymentTypeId in ids && MatchesFilters(p, filters));
  }

  /** The payment types `generatePayments` reads are rows of the table that
      belong to the flat, as many as the flat has, and the join names each
      generated row after its own type. */
  lemma GenerationTypes(types: seq<PaymentType>, flatId: string)
    requires Distinct(TypeIds(types))
    ensures var sorted := TypesOfFlatNewestFirst(types, flatId);
            && |sorted| == |TypesOfFlats(types, {flatId})|
            && (forall t :: t in sorted ==> t in types && t.flatId == flatId)
            && (forall k :: 0 <= k < |sorted| ==> TypeName(types, sorted[k].id) == sorted[k].name)
  {
    var sorted := TypesOfFlatNewestFirst(types, flatId);
    var base := TypesOfFlats(types, {flatId});
    assert |multiset(sorted)| == |multiset(base)|;
    forall t | t in sorted ensures t in types && t.flatId == flatId {
      assert t in multiset(base);
    }
    forall k | 0 <= k < |sorted| ensures TypeName(types, sorted[k].id) == sorted[k].name {
      assert sorted[k] in sorted;
      FindTypeUnique(types, sorted[k]);
    }
  }
}
