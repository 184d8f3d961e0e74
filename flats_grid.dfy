/** The dashboard grid's filter and sort block: a copy of the flats is
    narrowed by the search text and by the debt status, then sorted in place
    by the chosen option. Lower-casing and the name collation are library
    behaviour and enter as parameters: `fold` for `toLowerCase` and `nameLe`
    for `localeCompare` (any total preorder). */
module FlatsGrid {
  import opened Text
  import opened Tables
  import opened Ordering

  datatype FilterStatus = All | Debt | Paid

  datatype SortOption = ByName | DebtDesc | DebtAsc | DateDesc | DateAsc

  /** The search test: the folded name or address contains the folded query.
      The query is folded as typed, surrounding white space included. */
  predicate MatchesQuery(f: DashboardFlat, searchQuery: string, fold: string -> string)
  {
    Contains(fold(f.name), fold(searchQuery)) || Contains(fold(f.address), fold(searchQuery))
  }

  /** The status test: "debt" is a positive debt, "paid" a debt of exactly zero. */
  predicate MatchesStatus(f: DashboardFlat, status: FilterStatus)
  {
    match status
    case All => true
    case Debt => f.debt > 0.0
    case Paid => f.debt == 0.0
  }

  /** The search stage: applied only when the query is not blank once trimmed. */
  function SearchStage(flats: seq<DashboardFlat>, searchQuery: string, fold: string -> string): (r: seq<DashboardFlat>)
    ensures forall f :: f in r <==> f in flats && (Trim(searchQuery) == "" || MatchesQuery(f, searchQuery, fold))
  {
    if Trim(searchQuery) != "" then Filter(flats, f => MatchesQuery(f, searchQuery, fold)) else flats
  }

  /** The status stage. */
  function StatusStage(flats: seq<DashboardFlat>, status: FilterStatus): (r: seq<DashboardFlat>)
    ensures forall f :: f in r <==> f in flats && MatchesStatus(f, status)
  {
    if status == All then flats else Filter(flats, f => MatchesStatus(f, status))
  }

  /** The flats the grid shows, before sorting, in their original order. */
  function Selection(flats: seq<DashboardFlat>, searchQuery: string, status: FilterStatus, fold: string -> string): seq<DashboardFlat>
  {
    StatusStage(SearchStage(flats, searchQuery, fold), status)
  }

  /** "a may come before b" under the chosen option: the comparator returns a
      negative number or zero for that pair. */
  function Before(sortBy: SortOption, nameLe: (string, string) -> bool): (le: (DashboardFlat, DashboardFlat) -> bool)
    ensures sortBy == DebtDesc ==> forall a, b :: le(a, b) <==> a.debt >= b.debt
    ensures sortBy == DebtAsc ==> forall a, b :: le(a, b) <==> a.debt <= b.debt
    ensures sortBy == DateDesc ==> forall a, b :: le(a, b) <==> a.createdAt >= b.createdAt
    ensures sortBy == DateAsc ==> forall a, b :: le(a, b) <==> a.createdAt <= b.createdAt
    ensures sortBy == ByName ==> forall a, b :: le(a, b) <==> nameLe(a.name, b.name)
  {
    match sortBy
    case ByName => (a: DashboardFlat, b: DashboardFlat) => nameLe(a.name, b.name)
    case DebtDesc => (a: DashboardFlat, b: DashboardFlat) => a.debt >= b.debt
    case DebtAsc => (a: DashboardFlat, b: DashboardFlat) => a.debt <= b.debt
    case DateDesc => (a: DashboardFlat, b: DashboardFlat) => a.createdAt >= b.createdAt
    case DateAsc => (a: DashboardFlat, b: DashboardFlat) => a.createdAt <= b.createdAt
  }

  /** Every option is a consistent comparator when the collation is. */
  lemma BeforeIsTotalPreorder(sortBy: SortOption, nameLe: (string, string) -> bool)
    requires TotalPreorder(nameLe)
    ensures TotalPreorder(Before(sortBy, nameLe))
  {
    var le := Before(sortBy, nameLe);
    if sortBy == ByName {
      forall a: DashboardFlat, b: DashboardFlat, c: DashboardFlat | le(a, b) && le(b, c) ensures le(a, c) {
        assert nameLe(a.name, b.name) && nameLe(b.name, c.name);
      }
      forall a: DashboardFlat, b: DashboardFlat ensures le(a, b) || le(b, a) {
        assert nameLe(a.name, b.name) || nameLe(b.name, a.name);
      }
    }
  }

  /** `filteredAndSortedFlats`: the input sequence is a value and stays as it
      was; the result holds exactly the selected flats, each as often as in the
      input, ordered by the chosen option. */
  method FilterAndSort(flats: seq<DashboardFlat>, searchQuery: string, status: FilterStatus, sortBy: SortOption,
                       fold: string -> string, nameLe: (string, string) -> bool)
    returns (result: seq<DashboardFlat>)
    requires TotalPreorder(nameLe)
    ensures multiset(result) == multiset(Selection(flats, searchQuery, status, fold))
    ensures Sorted(result, Before(sortBy, nameLe))
  {
    var kept := flats;
    if Trim(searchQuery) != "" {
      kept := Filter(kept, f => MatchesQuery(f, searchQuery, fold));
    }
    if status == Debt {
      kept := Filter(kept, f => MatchesStatus(f, status));
    } else if status == Paid {
      kept := Filter(kept, f => MatchesStatus(f, status));
    }
    assert kept == Selection(flats, searchQuery, status, fold);
    var a := new DashboardFlat[|kept|](i requires 0 <= i < |kept| => kept[i]);
    assert a[..] == kept;
    BeforeIsTotalPreorder(sortBy, nameLe);
    SortInPlace(a, Before(sortBy, nameLe));
    result := a[..];
  }

  /** Filtering keeps each element at most as often as it was there. */
  lemma {:induction false} FilterIsSubMultiset<T(!new)>(s: seq<T>, keep: T -> bool)
    ensures multiset(Filter(s, keep)) <= multiset(s)
  {
    if s != [] {
      FilterIsSubMultiset(s[1..], keep);
      assert s == [s[0]] + s[1..];
    }
  }

  /** Nothing is added or duplicated, and a flat is shown exactly when it
      passes both tests. */
  lemma SelectionIsSubsetOfInput(flats: seq<DashboardFlat>, searchQuery: string, status: FilterStatus, fold: string -> string)
    ensures multiset(Selection(flats, searchQuery, status, fold)) <= multiset(flats)
    ensures forall f :: f in Selection(flats, searchQuery, status, fold)
                        <==> f in flats && (Trim(searchQuery) == "" || MatchesQuery(f, searchQuery, fold)) && MatchesStatus(f, status)
  {
    var searched := SearchStage(flats, searchQuery, fold);
    if Trim(searchQuery) != "" {
      FilterIsSubMultiset(flats, f => MatchesQuery(f, searchQuery, fold));
    }
    if status != All {
      FilterIsSubMultiset(searched, f => MatchesStatus(f, status));
    }
  }

  /** A query of white space only applies no text filter. */
  lemma BlankQueryFiltersNothing(flats: seq<DashboardFlat>, searchQuery: string, status: FilterStatus, fold: string -> string)
    requires AllSpace(searchQuery)
    ensures Selection(flats, searchQuery, status, fold) == StatusStage(flats, status)
  {
    TrimEmptyIffAllSpace(searchQuery);
  }

  /** A negative debt matches neither "debt" nor "paid"; any other debt
      matches exactly one of them. */
  lemma StatusesSplitNonNegativeDebts(f: DashboardFlat)
    ensures f.debt < 0.0 ==> !MatchesStatus(f, Debt) && !MatchesStatus(f, Paid)
    ensures f.debt >= 0.0 ==> MatchesStatus(f, Debt) != MatchesStatus(f, Paid)
  {
  }

  /** The debt and date options order the result as their names say. */
  lemma SortedByOption(result: seq<DashboardFlat>, sortBy: SortOption, nameLe: (string, string) -> bool)
    requires Sorted(result, Before(sortBy, nameLe))
    ensures sortBy == DebtDesc ==> forall i, j :: 0 <= i < j < |result| ==> result[i].debt >= result[j].debt
    ensures sortBy == DebtAsc ==> forall i, j :: 0 <= i < j < |result| ==> result[i].debt <= result[j].debt
    ensures sortBy == DateDesc ==> forall i, j :: 0 <= i < j < |result| ==> result[i].createdAt >= result[j].createdAt
    ensures sortBy == DateAsc ==> forall i, j :: 0 <= i < j < |result| ==> result[i].createdAt <= result[j].createdAt
  {
    var le := Before(sortBy, nameLe);
    forall i, j | 0 <= i < j < |result| ensures le(result[i], result[j]) {
    }
  }
}
