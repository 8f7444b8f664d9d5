/** Looking a row up by a column. */
module Lookup {
  import opened Wrappers

  // The last row that is wanted. For a unique column it is the only one.
  function LastIndex<T>(rows: seq<T>, wanted: T -> bool): (found: Option<nat>)
    ensures match found
      case Some(i) => i < |rows| && wanted(rows[i])
      case None => forall j | 0 <= j < |rows| :: !wanted(rows[j])
  {
    if rows == [] then None
    else
      var n := |rows| - 1;
      if wanted(rows[n]) then Some(n) else LastIndex(rows[..n], wanted)
  }
}
