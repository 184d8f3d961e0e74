/** The flat detail page's view models: payment types and payments copied
    into display records, the overdue and editable flags, and the flat's
    statistics. Times are integers; a due date that is missing or does not
    parse is `None`, and no instant is later than it. */
module FlatDetail {
  import opened Optional
  import opened Tables

  /** A listed payment together with the due date the page receives with it. */
  datatype DatedPayment = DatedPayment(entry: PaymentWithTypeName, dueDate: Option<int>)

  datatype PaymentTypeViewModel = PaymentTypeViewModel(id: string, name: string, baseAmount: real,
                                                       createdAt: int, updatedAt: int)

  datatype PaymentViewModel = PaymentViewModel(
    id: string, paymentTypeId: string, paymentTypeName: string, amount: real,
    dueDate: Option<int>, isPaid: bool, paidAt: Option<int>, month: int, year: int,
    canEdit: bool, isOverdue: bool)

  datatype FlatStats = FlatStats(totalDebt: real, paymentTypesCount: nat, pendingPaymentsCount: nat)

  datatype FlatDetailViewModel = FlatDetailViewModel(flat: Flat, stats: FlatStats,
                                                     paymentTypes: seq<PaymentTypeViewModel>,
                                                     payments: seq<PaymentViewModel>)

  function ToPaymentTypeViewModel(t: PaymentType): (v: PaymentTypeViewModel)
    ensures v.id == t.id && v.name == t.name && v.baseAmount == t.baseAmount
    ensures v.createdAt == t.createdAt && v.updatedAt == t.updatedAt
  {
    PaymentTypeViewModel(t.id, t.name, t.baseAmount, t.createdAt, t.updatedAt)
  }

  /** `dueDate < now`, false when the due date is not a date. */
  predicate DueBefore(dueDate: Option<int>, now: int)
  {
    dueDate.Some? && dueDate.value < now
  }

  /** The payment's own fields copied; it can be edited exactly while it is
      unpaid, and it is overdue when it is unpaid and its due date has passed. */
  function ToPaymentViewModel(d: DatedPayment, now: int): (v: PaymentViewModel)
    ensures var p := d.entry.payment;
            && v.id == p.id && v.paymentTypeId == p.paymentTypeId && v.paymentTypeName == d.entry.paymentTypeName
            && v.amount == p.amount && v.dueDate == d.dueDate && v.isPaid == p.isPaid && v.paidAt == p.paidAt
            && v.month == p.month && v.year == p.year
    ensures v.canEdit <==> !v.isPaid
    ensures v.isOverdue <==> !v.isPaid && DueBefore(v.dueDate, now)
  {
    var p := d.entry.payment;
    PaymentViewModel(p.id, p.paymentTypeId, d.entry.paymentTypeName, p.amount, d.dueDate, p.isPaid, p.paidAt,
                     p.month, p.year, !p.isPaid, !p.isPaid && DueBefore(d.dueDate, now))
  }

  /** A paid payment is never overdue, however long ago it was due; a payment
      due exactly now is not overdue yet; a payment without a readable due
      date is never overdue. */
  lemma OverdueBoundaries(d: DatedPayment, now: int)
    ensures d.entry.payment.isPaid ==> !ToPaymentViewModel(d, now).isOverdue
    ensures d.dueDate == Some(now) ==> !ToPaymentViewModel(d, now).isOverdue
    ensures d.dueDate.None? ==> !ToPaymentViewModel(d, now).isOverdue
    ensures ToPaymentViewModel(d, now).isOverdue ==> ToPaymentViewModel(d, now).canEdit
  {
  }

  /** Becoming overdue is monotone in time: once overdue, a payment stays
      overdue at every later instant until it is paid. */
  lemma OverdueStaysOverdue(d: DatedPayment, now: int, later: int)
    requires now <= later
    ensures ToPaymentViewModel(d, now).isOverdue ==> ToPaymentViewModel(d, later).isOverdue
  {
  }

  /** `payments.filter((p) => !p.is_paid)`. */
  function UnpaidEntries(ps: seq<DatedPayment>): (r: seq<DatedPayment>)
    ensures |r| <= |ps|
    ensures forall d :: d in r <==> d in ps && !d.entry.payment.isPaid
  {
    Filter(ps, (d: DatedPayment) => !d.entry.payment.isPaid)
  }

  /** `reduce((sum, p) => sum + p.amount, 0)`, a left fold. */
  function SumAmounts(ps: seq<DatedPayment>): real
  {
    if ps == [] then 0.0 else SumAmounts(ps[..|ps| - 1]) + ps[|ps| - 1].entry.payment.amount
  }

  /** What is still owed, defined directly: the amount of every unpaid
      payment and nothing for a paid one. */
  function Outstanding(ps: seq<DatedPayment>): real
  {
    if ps == [] then 0.0
    else (if ps[0].entry.payment.isPaid then 0.0 else ps[0].entry.payment.amount) + Outstanding(ps[1..])
  }

  function CountUnpaid(ps: seq<DatedPayment>): nat
  {
    if ps == [] then 0 else (if ps[0].entry.payment.isPaid then 0 else 1) + CountUnpaid(ps[1..])
  }

  function CalculateFlatStats(ps: seq<DatedPayment>, types: seq<PaymentType>): (s: FlatStats)
    ensures s.paymentTypesCount == |types|
    ensures s.pendingPaymentsCount == |UnpaidEntries(ps)|
    ensures s.totalDebt == SumAmounts(UnpaidEntries(ps))
  {
    var unpaid := UnpaidEntries(ps);
    FlatStats(SumAmounts(unpaid), |types|, |unpaid|)
  }

  lemma SumAmountsCons(d: DatedPayment, ps: seq<DatedPayment>)
    ensures SumAmounts([d] + ps) == d.entry.payment.amount + SumAmounts(ps)
    decreases |ps|
  {
    if ps != [] {
      var n := |ps| - 1;
      assert ([d] + ps)[..|[d] + ps| - 1] == [d] + ps[..n];
      SumAmountsCons(d, ps[..n]);
    } else {
      assert [d] + ps == [d];
    }
  }

  /** The statistics say what is owed: the total debt is the sum of the unpaid
      amounts, the pending count is the number of unpaid payments, and both
      are 0 for an empty list. */
  lemma {:induction false} FlatStatsAreOutstanding(ps: seq<DatedPayment>, types: seq<PaymentType>)
    ensures CalculateFlatStats(ps, types).totalDebt == Outstanding(ps)
    ensures CalculateFlatStats(ps, types).pendingPaymentsCount == CountUnpaid(ps)
    ensures ps == [] ==> CalculateFlatStats(ps, types) == FlatStats(0.0, |types|, 0)
  {
    if ps != [] {
      FlatStatsAreOutstanding(ps[1..], types);
      var keep := (d: DatedPayment) => !d.entry.payment.isPaid;
      assert UnpaidEntries(ps) == (if keep(ps[0]) then [ps[0]] else []) + UnpaidEntries(ps[1..]);
      if keep(ps[0]) {
        SumAmountsCons(ps[0], UnpaidEntries(ps[1..]));
      }
    }
  }

  /** Paying one listed payment lowers the total debt by its amount and the
      pending count by one. */
  lemma {:induction false} PayingLowersStats(ps: seq<DatedPayment>, k: nat, paidAt: int)
    requires k < |ps| && !ps[k].entry.payment.isPaid
    ensures var paid := ps[k].(entry := ps[k].entry.(payment := ps[k].entry.payment.(isPaid := true, paidAt := Some(paidAt))));
            && Outstanding(ps[k := paid]) == Outstanding(ps) - ps[k].entry.payment.amount
            && CountUnpaid(ps[k := paid]) + 1 == CountUnpaid(ps)
  {
    var paid := ps[k].(entry := ps[k].entry.(payment := ps[k].entry.payment.(isPaid := true, paidAt := Some(paidAt))));
    if k > 0 {
      PayingLowersStats(ps[1..], k - 1, paidAt);
      assert ps[k := paid][1..] == ps[1..][k - 1 := paid];
    } else {
      assert ps[k := paid][1..] == ps[1..];
    }
  }

  function TransformFlatDetailData(flat: Flat, types: seq<PaymentType>, ps: seq<DatedPayment>, now: int): (v: FlatDetailViewModel)
    ensures v.flat == flat
    ensures v.stats == CalculateFlatStats(ps, types)
    ensures |v.paymentTypes| == |types| && forall i :: 0 <= i < |types| ==> v.paymentTypes[i] == ToPaymentTypeViewModel(types[i])
    ensures |v.payments| == |ps| && forall i :: 0 <= i < |ps| ==> v.payments[i] == ToPaymentViewModel(ps[i], now)
  {
    FlatDetailViewModel(flat, CalculateFlatStats(ps, types),
                        seq(|types|, i requires 0 <= i < |types| => ToPaymentTypeViewModel(types[i])),
                        seq(|ps|, i requires 0 <= i < |ps| => ToPaymentViewModel(ps[i], now)))
  }
}
