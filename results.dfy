/** Failure-compatible wrappers shared by every module of the model, the error kinds the
    calculation engine raises, and the fail-fast element-wise map that the engine's list
    comprehensions perform. */
module Results {

  datatype Option<+T> = None | Some(value: T)

  /** The ways a calculation of the engine can fail.  Each constructor stands for one
      exception the Python code raises (or lets the `math` module raise). */
  datatype Error =
    | NonPositiveCurrent                          // ValueError: current density must be positive
    | NonPositiveExchangeCurrent(electrode: string) // ValueError: i0 <= 0 for the named electrode
    | NonPositiveConductivity                     // ValueError: conductivity must be positive
    | LimitCurrentExceeded                        // ValueError: current density reaches the limiting current
    | InvalidTemperature                          // ValueError: thermal energy kT <= 0
    | MissingIntermediate(intermediate: string)   // KeyError: no DFT data for the intermediate
    | LogDomain                                   // ValueError from math.log on a non-positive argument
    | ZeroDivision                                // ZeroDivisionError from a float division by zero

  datatype Result<+T> = Ok(value: T) | Err(error: Error) {
    predicate IsFailure() { Err? }

    function PropagateFailure<U>(): Result<U>
      requires Err?
    {
      Err(error)
    }

    function Extract(): T
      requires Ok?
    {
      value
    }
  }

  /** `[f(x) for x in xs]`: the elements are evaluated in order and the first failure
      aborts the whole list. */
  function MapAll<A, B>(f: A -> Result<B>, xs: seq<A>): Result<seq<B>>
    decreases |xs|
  {
    if xs == [] then Ok([])
    else
      var y :- f(xs[0]);
      var ys :- MapAll(f, xs[1..]);
      Ok([y] + ys)
  }

  /** `k` is the first index whose element fails. */
  ghost predicate FirstFailureAt<A, B>(f: A -> Result<B>, xs: seq<A>, k: int) {
    && 0 <= k < |xs|
    && f(xs[k]).Err?
    && forall j :: 0 <= j < k ==> f(xs[j]).Ok?
  }

  lemma {:induction false} MapAllSpec<A, B>(f: A -> Result<B>, xs: seq<A>)
    ensures MapAll(f, xs).Ok? <==> forall k :: 0 <= k < |xs| ==> f(xs[k]).Ok?
    ensures MapAll(f, xs).Ok? ==>
              && |MapAll(f, xs).value| == |xs|
              && forall k :: 0 <= k < |xs| ==> MapAll(f, xs).value[k] == f(xs[k]).value
    ensures MapAll(f, xs).Err? ==>
              exists k :: FirstFailureAt(f, xs, k) && MapAll(f, xs).error == f(xs[k]).error
    decreases |xs|
  {
    if xs != [] {
      MapAllSpec(f, xs[1..]);
      if f(xs[0]).Err? {
        assert FirstFailureAt(f, xs, 0);
      } else {
        var tail := MapAll(f, xs[1..]);
        if tail.Err? {
          var k :| FirstFailureAt(f, xs[1..], k) && tail.error == f(xs[1..][k]).error;
          assert FirstFailureAt(f, xs, k + 1);
        } else {
          forall k | 0 <= k < |xs| ensures f(xs[k]).Ok? {
            if k > 0 { assert xs[k] == xs[1..][k - 1]; }
          }
        }
      }
    }
  }
}
