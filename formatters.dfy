/** `getMonthName`: the English name of a month number. The argument is a
    JavaScript number, so it is a real here. */
module Formatters {

  const MonthNames: seq<string> := ["January", "February", "March", "April", "May", "June",
                                    "July", "August", "September", "October", "November", "December"]

  predicate IsWhole(x: real)
  {
    x == x.Floor as real
  }

  /** The name at position `month - 1`; any other number (out of range or
      fractional) reads an absent entry and falls back to "". */
  function GetMonthName(month: real): (name: string)
    ensures IsWhole(month) && 1.0 <= month <= 12.0 ==> name == MonthNames[month.Floor - 1]
    ensures !(IsWhole(month) && 1.0 <= month <= 12.0) ==> name == ""
  {
    if IsWhole(month) && 1.0 <= month <= 12.0 then MonthNames[month.Floor - 1] else ""
  }

  /** Month 3 is March, and the twelve names are pairwise different, so no two
      months share a name and no month name is empty. */
  lemma MonthNamesDistinct()
    ensures GetMonthName(3.0) == "March"
    ensures forall i, j :: 0 <= i < j < 12 ==> MonthNames[i] != MonthNames[j]
    ensures forall i :: 0 <= i < 12 ==> MonthNames[i] != ""
  {
  }

  lemma GetMonthNameInjective(a: real, b: real)
    requires GetMonthName(a) != "" && GetMonthName(a) == GetMonthName(b)
    ensures a == b
  {
    MonthNamesDistinct();
  }
}
