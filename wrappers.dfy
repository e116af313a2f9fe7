/** Option and Result types shared by every module of the model.

    Python signals failure by raising; the model returns `Err(e)` instead, where
    `e` names the exception the source would raise. */
module Wrappers {

  datatype Option<+T> = None | Some(value: T) {
    function GetOr(default: T): T {
      match this
      case Some(v) => v
      case None => default
    }
  }

  /** The exceptions the modelled code can raise. */
  datatype Error =
    | ValueError          // a malformed date or number
    | TypeError           // an operation applied to None
    | AttributeError      // a method called on None (`None.strip()`, `None.get(...)`)
    | ZeroDivisionError   // a float division by zero
    | KeyError            // a dictionary lookup of a missing key
    | IndexError          // indexing an empty list
    | NameError           // a reference to an undefined name
    | UnknownCurrency     // the exchange-rate table has no rate for the currency
    | MissingValue(field: string)  // an explicit `raise Exception(...)` on a missing field

  datatype Result<+T> = Ok(value: T) | Err(error: Error) {
    predicate IsFailure() {
      Err?
    }

    function PropagateFailure<U>(): Result<U>
      requires Err?
    {
      Err(error)
    }

    function Extract(): T
      requires Ok?
    {
      value
    }
  }

  /** `[f(x) for x in xs]` where `f` may raise: every result in order, or the
      error of the first element that fails. */
  function MapResult<A, B>(xs: seq<A>, f: A -> Result<B>): (r: Result<seq<B>>)
    ensures r.Ok? <==> forall i :: 0 <= i < |xs| ==> f(xs[i]).Ok?
    ensures r.Ok? ==> |r.value| == |xs|
    ensures r.Ok? ==> forall i :: 0 <= i < |xs| ==> r.value[i] == f(xs[i]).value
    ensures r.Err? ==> exists i :: (0 <= i < |xs| && f(xs[i]).Err? && r.error == f(xs[i]).error &&
      forall j :: 0 <= j < i ==> f(xs[j]).Ok?)
  {
    if xs == [] then Ok([])
    else
      var first :- f(xs[0]);
      var rest :- MapResult(xs[1..], f);
      assert forall i :: 1 <= i < |xs| ==> xs[i] == xs[1..][i - 1];
      Ok([first] + rest)
  }
}
