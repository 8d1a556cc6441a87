/** Row lookups shared by the services: the `query(...).filter(...).first()`
    pattern over a table given as a sequence of rows. */
module Tables {
  import opened Wrappers

  /** A row of the sites table, as far as the services read it. */
  datatype Site = Site(id: string, name: string)

  /** The index of the first row satisfying `p`, if any. */
  function FirstWhere<T>(rows: seq<T>, p: T -> bool): (r: Option<nat>)
    ensures r.None? <==> forall i :: 0 <= i < |rows| ==> !p(rows[i])
    ensures r.Some? ==> r.value < |rows| && p(rows[r.value])
    ensures r.Some? ==> forall j :: 0 <= j < r.value ==> !p(rows[j])
  {
    if rows == [] then None
    else if p(rows[0]) then Some(0)
    else
      match FirstWhere(rows[1..], p)
      case None => None
      case Some(i) => Some(i + 1)
  }
}
