/** The sort comparators of charts/shared/common.ts. */
module Common {
  import opened ChartTypes

  /** The order value that sorts ascending; every other value sorts descending. */
  const Asc := "asc"

  /**
   * The rule both comparators share: for "asc", a - b; for any other order
   * (including "desc"), b - a. A negative result puts `a` first.
   */
  function CompareBy(order: string, a: real, b: real): real {
    if order == Asc then a - b else b - a
  }

  /** `sortByTotal(order)` applied to two totalled series. */
  function SortByTotal(order: string, a: TotalledSeries, b: TotalledSeries): (r: real)
    ensures order == Asc ==> r == a.total - b.total
    ensures order != Asc ==> r == b.total - a.total
  {
    CompareBy(order, a.total, b.total)
  }

  /** `sortByValue(order)` applied to two pie slices. */
  function SortByValue(order: string, a: PieSlice, b: PieSlice): (r: real)
    ensures order == Asc ==> r == a.value - b.value
    ensures order != Asc ==> r == b.value - a.value
  {
    CompareBy(order, a.value, b.value)
  }

  /** Each comparator is antisymmetric: swapping the arguments negates the result. */
  lemma ComparatorsAntisymmetric(order: string, a: TotalledSeries, b: TotalledSeries, p: PieSlice, q: PieSlice)
    ensures SortByTotal(order, a, b) == -SortByTotal(order, b, a)
    ensures SortByValue(order, p, q) == -SortByValue(order, q, p)
  {
  }

  /**
   * The comparator orders as a total preorder: "not after" is reflexive,
   * transitive and total, which is what a sort needs of it.
   */
  lemma CompareByPreorder(order: string, a: real, b: real, c: real)
    ensures CompareBy(order, a, a) == 0.0
    ensures CompareBy(order, a, b) <= 0.0 || CompareBy(order, b, a) <= 0.0
    ensures CompareBy(order, a, b) <= 0.0 && CompareBy(order, b, c) <= 0.0 ==> CompareBy(order, a, c) <= 0.0
  {
  }
}
