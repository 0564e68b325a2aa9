/**
 What the object-relational mapper writes: the columns whose value differs from the one the session had read. The
 others keep whatever value they have by then.
 */
module Columns {
  import opened Common

  function Changed<T(==)>(seen: T, next: T): Option<T> {
    if seen == next then None else Some(next)
  }

  function Column<T(==)>(current: T, seen: T, next: T): T {
    Changed(seen, next).GetOr(current)
  }
}
