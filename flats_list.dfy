/** The flats list page's card view. The list endpoint carries no debt, so
    every card shows a debt of 0; the formatted amount is whatever the
    currency formatter makes of it and is not interpreted here. */
module FlatsList {
  import opened Optional
  import opened Tables

  datatype CardStatus = Ok | Overdue

  datatype FlatCardViewModel = FlatCardViewModel(
    id: string, name: string, address: string, tenantName: Option<string>,
    debt: real, formattedDebt: string,
    paymentTypesCount: Option<nat>, pendingPaymentsCount: Option<nat>,
    hasOverduePayments: bool, status: CardStatus, detailsUrl: string,
    createdAt: int, updatedAt: int)

  datatype FlatsListViewModel = FlatsListViewModel(flats: seq<FlatCardViewModel>, totalCount: nat, isEmpty: bool)

  /** The card of one flat; `formatCurrency` stands for the locale formatter. */
  function ToCardViewModel(flat: Flat, formatCurrency: real -> string): (c: FlatCardViewModel)
    ensures c.id == flat.id && c.name == flat.name && c.address == flat.address
    ensures c.createdAt == flat.createdAt && c.updatedAt == flat.updatedAt
    ensures c.tenantName.None? && c.paymentTypesCount.None? && c.pendingPaymentsCount.None?
    ensures c.detailsUrl == "/flats/" + flat.id
    ensures c.formattedDebt == formatCurrency(c.debt)
    ensures c.hasOverduePayments <==> c.debt > 0.0
    ensures c.status == (if c.debt > 0.0 then Overdue else Ok)
  {
    var debt := 0.0;
    FlatCardViewModel(flat.id, flat.name, flat.address, None, debt, formatCurrency(debt), None, None,
                      debt > 0.0, if debt > 0.0 then Overdue else Ok, "/flats/" + flat.id,
                      flat.createdAt, flat.updatedAt)
  }

  /** With the debt fixed at 0, every card is in order and none is overdue. */
  lemma EveryCardIsOk(flat: Flat, formatCurrency: real -> string)
    ensures ToCardViewModel(flat, formatCurrency).debt == 0.0
    ensures ToCardViewModel(flat, formatCurrency).status == Ok
    ensures !ToCardViewModel(flat, formatCurrency).hasOverduePayments
  {
  }

  /** Two flats with different identifiers get different detail links. */
  lemma DetailsUrlInjective(a: Flat, b: Flat, formatCurrency: real -> string)
    requires a.id != b.id
    ensures ToCardViewModel(a, formatCurrency).detailsUrl != ToCardViewModel(b, formatCurrency).detailsUrl
  {
    var prefix := "/flats/";
    var ua := ToCardViewModel(a, formatCurrency).detailsUrl;
    var ub := ToCardViewModel(b, formatCurrency).detailsUrl;
    if |a.id| != |b.id| {
      assert |ua| != |ub|;
    } else {
      var i :| 0 <= i < |a.id| && a.id[i] != b.id[i];
      assert ua[|prefix| + i] == a.id[i] && ub[|prefix| + i] == b.id[i];
    }
  }

  function TransformFlatsListData(flats: seq<Flat>, formatCurrency: real -> string): (v: FlatsListViewModel)
    ensures |v.flats| == |flats| && forall i :: 0 <= i < |flats| ==> v.flats[i] == ToCardViewModel(flats[i], formatCurrency)
    ensures v.totalCount == |flats|
    ensures v.isEmpty <==> v.totalCount == 0
  {
    var cards := seq(|flats|, i requires 0 <= i < |flats| => ToCardViewModel(flats[i], formatCurrency));
    FlatsListViewModel(cards, |cards|, |cards| == 0)
  }
}
