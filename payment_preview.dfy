/** The preview shown before generating payments: one item per payment type
    and their total. Formatted amounts come from the locale formatter and
    are not interpreted here. */
module PaymentPreview {
  import opened Tables

  datatype PreviewItem = PreviewItem(paymentTypeId: string, paymentTypeName: string, amount: real, formattedAmount: string)

  datatype PreviewSummary = PreviewSummary(count: nat, totalAmount: real, formattedTotalAmount: string)

  datatype Preview = Preview(items: seq<PreviewItem>, summary: PreviewSummary)

  /** `items.reduce((sum, item) => sum + item.amount, 0)`. */
  function SumItems(items: seq<PreviewItem>): real
  {
    if items == [] then 0.0 else SumItems(items[..|items| - 1]) + items[|items| - 1].amount
  }

  function ToItem(t: PaymentType, formatCurrency: real -> string): PreviewItem
  {
    PreviewItem(t.id, t.name, t.baseAmount, formatCurrency(t.baseAmount))
  }

  function ComputePreview(types: seq<PaymentType>, formatCurrency: real -> string): (p: Preview)
    ensures |p.items| == |types|
    ensures forall i :: 0 <= i < |types| ==>
              && p.items[i].paymentTypeId == types[i].id && p.items[i].paymentTypeName == types[i].name
              && p.items[i].amount == types[i].baseAmount
              && p.items[i].formattedAmount == formatCurrency(types[i].baseAmount)
    ensures p.summary.count == |types|
    ensures p.summary.formattedTotalAmount == formatCurrency(p.summary.totalAmount)
  {
    var items := seq(|types|, i requires 0 <= i < |types| => ToItem(types[i], formatCurrency));
    var total := SumItems(items);
    Preview(items, PreviewSummary(|items|, total, formatCurrency(total)))
  }

  /** The preview's total is the sum of the base amounts, and 0 when there
      are no payment types. */
  lemma {:induction false} PreviewTotalIsBaseAmountTotal(types: seq<PaymentType>, formatCurrency: real -> string)
    ensures ComputePreview(types, formatCurrency).summary.totalAmount == BaseAmountTotal(types)
    ensures types == [] ==> ComputePreview(types, formatCurrency).summary.totalAmount == 0.0
  {
    if types != [] {
      var n := |types| - 1;
      PreviewTotalIsBaseAmountTotal(types[..n], formatCurrency);
      assert ComputePreview(types, formatCurrency).items[..n] == ComputePreview(types[..n], formatCurrency).items;
    }
  }

  /** What the preview announces is what generation adds: after generating
      the period from the same payment types, the flat's debt has grown by
      exactly the preview's total. */
  lemma PreviewTotalIsDebtIncrease(flatId: string, types: seq<PaymentType>, flatTypes: seq<PaymentType>,
                                   payments: seq<Payment>, month: int, year: int, newId: nat -> string, now: int,
                                   formatCurrency: real -> string)
    requires Distinct(TypeIds(types))
    requires forall t :: t in flatTypes ==> t in types && t.flatId == flatId
    ensures Debt(flatId, types, payments + Candidates(flatTypes, month, year, newId, now))
            == Debt(flatId, types, payments) + ComputePreview(flatTypes, formatCurrency).summary.totalAmount
  {
    PreviewTotalIsBaseAmountTotal(flatTypes, formatCurrency);
    GenerationRaisesDebt(flatId, types, flatTypes, payments, month, year, newId, now);
  }
}
