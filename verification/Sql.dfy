/** The few facts about SQL that the migrations rely on: row identifiers, nullable columns,
    three-valued logic, and the freedom an `UPDATE ... FROM` has when several rows match. */
module Sql {

  type Uuid = nat

  /** A nullable column. */
  datatype Option<+T> = None | Some(value: T)

  /** What an INTEGER column can hold. */
  predicate FitsInteger(x: int) {
    -0x8000_0000 <= x < 0x8000_0000
  }

  /** The value of an SQL condition. A WHERE clause keeps the rows for which it is True. */
  datatype Truth = True | False | Unknown

  /** `x NOT IN (list)`, where both sides may be NULL. */
  function NotIn<T(==)>(x: Option<T>, list: set<Option<T>>): Truth {
    if list == {} then True
    else if x.None? then Unknown
    else if x in list then False
    else if None in list then Unknown
    else True
  }

  /** `(x, y) NOT IN (list)` for a pair whose left column is nullable in the list. */
  function PairNotIn<A(==), B(==)>(x: A, y: B, list: set<(Option<A>, B)>): Truth {
    if (Some(x), y) in list then False
    else if (None, y) in list then Unknown
    else True
  }

  /** Which of the matching rows an `UPDATE ... FROM` uses for a given target row. The database
      promises only that it is one of them. */
  type Choice = (Uuid, set<Uuid>) -> Uuid

  ghost predicate PicksAMatch(pick: Choice) {
    forall row: Uuid, matches: set<Uuid> :: matches != {} ==> pick(row, matches) in matches
  }

  /** The identifiers a statement generates: one for every inserted row, all of them different. */
  ghost predicate Injective<T(!new)>(newId: T -> Uuid) {
    forall x, y :: newId(x) == newId(y) ==> x == y
  }
}
