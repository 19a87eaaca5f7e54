/** The loop shape the source uses for descriptor lists: handle each element
    in order and return the first error met. */
module FailFast {
  import opened Results

  /** Applies `f` to each element in order, stopping at the first error. On
      success there is one result per element, in input order; on failure the
      error is that of the first failing element. */
  function MapAll<A, B(==)>(xs: seq<A>, f: A -> Result<B>): (r: Result<seq<B>>)
    ensures r.Ok? ==> |r.value| == |xs| && forall i :: 0 <= i < |xs| ==> f(xs[i]) == Ok(r.value[i])
    ensures r.Err? ==> exists i :: 0 <= i < |xs| && f(xs[i]) == Err(r.msg)
                                   && forall j :: 0 <= j < i ==> f(xs[j]).Ok?
    decreases |xs|
  {
    if |xs| == 0 then Ok([])
    else
      match f(xs[0])
      case Err(e) => Err(e)
      case Ok(y) =>
        match MapAll(xs[1..], f)
        case Err(e) => Err(e)
        case Ok(ys) => Ok([y] + ys)
  }
}
