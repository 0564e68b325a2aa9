/** Optional values (database columns that may be NULL, lookups that may miss), times, and the elements of a list. */
module Common {
  datatype Option<+T> = None | Some(value: T) {
    function GetOr(fallback: T): T {
      if Some? then value else fallback
    }
  }

  type Time = int

  function Elems<T>(s: seq<T>): set<T> {
    set x | x in s
  }
}
