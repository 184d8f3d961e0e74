/** The status a payment row shows and the badge that displays it. */
module PaymentStatus {
  import opened Optional
  import opened FlatDetail

  datatype Status = Paid | Overdue | Pending

  datatype BadgeVariant = Success | Destructive | Warning

  /** Paid comes first, then overdue, then pending. */
  function GetPaymentStatus(p: PaymentViewModel): (s: Status)
    ensures s == Paid <==> p.isPaid
    ensures s == Overdue <==> !p.isPaid && p.isOverdue
    ensures s == Pending <==> !p.isPaid && !p.isOverdue
  {
    if p.isPaid then Paid else if p.isOverdue then Overdue else Pending
  }

  function GetPaymentBadgeVariant(p: PaymentViewModel): (v: BadgeVariant)
    ensures p.isPaid ==> v == Success
    ensures !p.isPaid && p.isOverdue ==> v == Destructive
    ensures !p.isPaid && !p.isOverdue ==> v == Warning
  {
    if p.isPaid then Success else if p.isOverdue then Destructive else Warning
  }

  function GetPaymentBadgeLabel(p: PaymentViewModel): (l: string)
    ensures p.isPaid ==> l == "Paid"
    ensures !p.isPaid && p.isOverdue ==> l == "Overdue"
    ensures !p.isPaid && !p.isOverdue ==> l == "Pending"
  {
    if p.isPaid then "Paid" else if p.isOverdue then "Overdue" else "Pending"
  }

  /** The badge follows the status: payments with the same status get the
      same variant and the same label, and different statuses get different
      ones. */
  lemma BadgeFollowsStatus(p: PaymentViewModel, q: PaymentViewModel)
    ensures GetPaymentStatus(p) == GetPaymentStatus(q) <==> GetPaymentBadgeVariant(p) == GetPaymentBadgeVariant(q)
    ensures GetPaymentStatus(p) == GetPaymentStatus(q) <==> GetPaymentBadgeLabel(p) == GetPaymentBadgeLabel(q)
  {
  }

  /** On a view model built from a payment, a paid payment shows as paid
      whatever its due date, and an unpaid one due exactly now shows as
      pending. */
  lemma StatusOfBuiltViewModel(d: DatedPayment, now: int)
    ensures d.entry.payment.isPaid ==> GetPaymentStatus(ToPaymentViewModel(d, now)) == Paid
    ensures !d.entry.payment.isPaid && d.dueDate == Some(now) ==> GetPaymentStatus(ToPaymentViewModel(d, now)) == Pending
    ensures GetPaymentStatus(ToPaymentViewModel(d, now)) == Overdue <==> !d.entry.payment.isPaid && DueBefore(d.dueDate, now)
  {
  }
}
