/** Errors raised by the query engine, and the failure-compatible result type
    every fallible operation of the model returns instead of raising. */
module Errors {

  /** The exceptions the core raises, one variant per distinct cause. */
  datatype QueryError =
    | UnknownColumn(name: string)       // UnknownColumnError
    | AlreadyExistsColumn(name: string) // AlreadyExistsColumnError
    | NotImplemented(what: string)      // NotImplementedError
    | LiteralNotField                   // "A literal cannot be a field"
    | SizeMismatch                      // the row-size assertion of a binary expression
    | TypeMismatch                      // TypeError on operand types or values
    | IndexOutOfRange(index: int)       // IndexError on a Python list
    | NoAttribute(attr: string)         // AttributeError (e.g. calling a method on None)
    | ZeroDivision                      // ZeroDivisionError

  /** Either a value or the error that aborted the computation. */
  datatype Result<+T> = Ok(value: T) | Fail(error: QueryError) {
    predicate IsFailure() { Fail? }

    function PropagateFailure<U>(): Result<U>
      requires Fail?
    {
      Fail(error)
    }

    function Extract(): T
      requires Ok?
    {
      value
    }
  }

  datatype Option<+T> = None | Some(value: T)

  /** `[f(x) for x in xs]` where `f` may raise: the results in order, or the
      error of the first element that fails. Built from the end, so a loop
      over `xs` extends it one element at a time. */
  function MapResult<A, B>(f: A -> Result<B>, xs: seq<A>): (r: Result<seq<B>>)
    ensures r.Ok? <==> forall k :: 0 <= k < |xs| ==> f(xs[k]).Ok?
    ensures r.Ok? ==> |r.value| == |xs|
    ensures r.Ok? ==> forall k :: 0 <= k < |xs| ==> r.value[k] == f(xs[k]).value
  {
    if xs == [] then Ok([])
    else
      var init :- MapResult(f, xs[..|xs| - 1]);
      var last :- f(xs[|xs| - 1]);
      Ok(init + [last])
  }

  /** One more element: the loop step of a `MapResult`. */
  lemma MapResultStep<A, B>(f: A -> Result<B>, xs: seq<A>, k: nat)
    requires k < |xs|
    ensures MapResult(f, xs[..k + 1]) ==
      (match MapResult(f, xs[..k])
       case Fail(e) => Fail(e)
       case Ok(init) => (match f(xs[k]) case Fail(e) => Fail(e) case Ok(b) => Ok(init + [b])))
  {
    assert xs[..k + 1][..k] == xs[..k];
  }

  /** Once a prefix fails, the whole map fails with the same error. */
  lemma {:induction false} MapResultFailPersists<A, B>(f: A -> Result<B>, xs: seq<A>, k: nat)
    requires k <= |xs|
    requires MapResult(f, xs[..k]).Fail?
    ensures MapResult(f, xs) == MapResult(f, xs[..k])
    decreases |xs|
  {
    if k < |xs| {
      var init := xs[..|xs| - 1];
      assert init[..k] == xs[..k];
      MapResultFailPersists(f, init, k);
    } else {
      assert xs[..k] == xs;
    }
  }
}
