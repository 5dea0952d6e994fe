/** Option and Result, the two failure-carrying shapes the rest of the model returns. */
module Wrappers {

  datatype Option<+T> = None | Some(value: T) {
    function GetOr(default: T): T
    {
      match this
      case Some(v) => v
      case None => default
    }
  }

  datatype Result<+R, +E> = Ok(value: R) | Err(error: E)

  /**
   * The values of a run of steps, or the error of the first step that
   * failed, as a loop that stops at the first failure returns them.
   */
  function Collect<R, E>(rs: seq<Result<R, E>>): (r: Result<seq<R>, E>)
    ensures r.Ok? <==> forall i :: 0 <= i < |rs| ==> rs[i].Ok?
    ensures r.Ok? ==> |r.value| == |rs| && forall i :: 0 <= i < |rs| ==> r.value[i] == rs[i].value
    ensures r.Err? ==> exists i :: 0 <= i < |rs| && rs[i] == Err(r.error) && forall j :: 0 <= j < i ==> rs[j].Ok?
  {
    if rs == [] then Ok([])
    else
      var front := rs[..|rs| - 1];
      assert forall i :: 0 <= i < |front| ==> front[i] == rs[i];
      match Collect(front)
      case Err(e) => Err(e)
      case Ok(vs) =>
        match rs[|rs| - 1]
        case Err(e) => Err(e)
        case Ok(v) => Ok(vs + [v])
  }

  /** A run whose steps before i succeed and whose step i fails ends with that failure. */
  lemma CollectStops<R, E>(rs: seq<Result<R, E>>, i: nat)
    requires i < |rs| && rs[i].Err?
    requires Collect(rs[..i]).Ok?
    ensures Collect(rs) == Err(rs[i].error)
  {
    assert forall j :: 0 <= j < i ==> rs[..i][j] == rs[j];
    var r := Collect(rs);
    var j :| 0 <= j < |rs| && rs[j] == Err(r.error) && forall k :: 0 <= k < j ==> rs[k].Ok?;
    assert j == i;
  }

  /** One more successful step appends its value. */
  lemma CollectStep<R, E>(rs: seq<Result<R, E>>, i: nat)
    requires i < |rs| && Collect(rs[..i]).Ok? && rs[i].Ok?
    ensures Collect(rs[..i + 1]) == Ok(Collect(rs[..i]).value + [rs[i].value])
  {
    assert rs[..i + 1][..i] == rs[..i];
  }
}
