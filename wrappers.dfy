/** Optional values and results with an error message. A Python exception that
    escapes a function is an `Err` naming the exception class. */
module Wrappers {
  datatype Option<T> = None | Some(value: T)
  {
    function GetOr(default: T): T
    {
      if Some? then value else default
    }
  }

  datatype Result<T> = Ok(value: T) | Err(error: string)
  {
    predicate IsFailure() { Err? }

    function PropagateFailure<U>(): Result<U>
      requires Err?
    {
      Err(error)
    }

    function Extract(): T
      requires Ok?
    {
      value
    }
  }

  /** A loop that builds one value per element (knowing the element's
      position) and stops at the first exception. */
  function MapAll<T, U>(xs: seq<T>, f: (T, nat) -> Result<U>): (r: Result<seq<U>>)
    ensures r.Ok? ==> |r.value| == |xs| && forall i :: 0 <= i < |xs| ==> f(xs[i], i) == Ok(r.value[i])
    ensures (forall i :: 0 <= i < |xs| ==> f(xs[i], i).Ok?) ==> r.Ok?
    decreases |xs|
  {
    if |xs| == 0 then Ok([])
    else
      var last := |xs| - 1;
      assert forall i :: 0 <= i < last ==> xs[..last][i] == xs[i];
      match MapAll(xs[..last], f)
      case Err(e) => Err(e)
      case Ok(init) =>
        match f(xs[last], last)
        case Err(e) => Err(e)
        case Ok(y) => Ok(init + [y])
  }

  /** One more element: the loop goes on with its value, or stops with its
      error. */
  lemma MapAllStep<T, U>(xs: seq<T>, f: (T, nat) -> Result<U>, i: nat)
    requires i < |xs| && MapAll(xs[..i], f).Ok?
    ensures f(xs[i], i).Err? ==> MapAll(xs[..i + 1], f) == Err(f(xs[i], i).error)
    ensures f(xs[i], i).Ok? ==> MapAll(xs[..i + 1], f) == Ok(MapAll(xs[..i], f).value + [f(xs[i], i).value])
  {
    assert xs[..i + 1][..i] == xs[..i];
  }

  /** Once an element fails, the whole loop fails with that error. */
  lemma {:induction false} MapAllStops<T, U>(xs: seq<T>, f: (T, nat) -> Result<U>, k: nat)
    requires k <= |xs| && MapAll(xs[..k], f).Err?
    ensures MapAll(xs, f) == MapAll(xs[..k], f)
    decreases |xs| - k
  {
    if k < |xs| {
      assert xs[..k + 1][..k] == xs[..k];
      MapAllStops(xs, f, k + 1);
    } else {
      assert xs[..k] == xs;
    }
  }

  /** Two loops whose steps give the same values give the same result. */
  lemma {:induction false} MapAllPointwise<T, S, U>(xs: seq<T>, f: (T, nat) -> Result<U>,
                                                     ys: seq<S>, g: (S, nat) -> Result<U>)
    requires |xs| == |ys| && forall i :: 0 <= i < |xs| ==> f(xs[i], i) == g(ys[i], i)
    ensures MapAll(xs, f) == MapAll(ys, g)
    decreases |xs|
  {
    if |xs| > 0 {
      var last := |xs| - 1;
      MapAllPointwise(xs[..last], f, ys[..last], g);
    }
  }
}
