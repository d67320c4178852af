/** Failure-compatible Option and Result datatypes shared by every module. */
module Wrappers {

  /** Absence of a value: Python's `None`, or a missing dictionary key. */
  datatype Option<+T> = None | Some(value: T) {

    /** The value, or `default` when there is none (Python's `d.get(k, default)`). */
    function GetOr(default: T): T
    {
      match this
      case Some(v) => v
      case None => default
    }
  }

  /** The outcome of an operation that can raise: `Failure` carries the exception's message. */
  datatype Result<+R> = Success(value: R) | Failure(error: string) {

    predicate IsFailure()
    {
      Failure?
    }

    function PropagateFailure<U>(): Result<U>
      requires Failure?
    {
      Failure(error)
    }

    function Extract(): R
      requires Success?
    {
      value
    }
  }

  /**
   * A loop over `xs` whose body can raise: `f` takes the state after the earlier
   * elements and the next element; the first exception ends the loop.
   */
  function Fold<S, T>(s: S, xs: seq<T>, f: (S, T) -> Result<S>): Result<S>
    decreases |xs|
  {
    if xs == [] then Success(s)
    else
      match Fold(s, xs[..|xs| - 1], f)
      case Failure(e) => Failure(e)
      case Success(t) => f(t, xs[|xs| - 1])
  }

  /** One more turn of the loop. */
  lemma FoldAt<S, T>(s: S, xs: seq<T>, i: nat, f: (S, T) -> Result<S>)
    requires i < |xs| && Fold(s, xs[..i], f).Success?
    ensures Fold(s, xs[..i + 1], f) == f(Fold(s, xs[..i], f).value, xs[i])
  {
    var p := xs[..i + 1];
    assert p[..|p| - 1] == xs[..i];
  }

  /** Running the loop over two parts one after the other is running it over both. */
  lemma {:induction false} FoldConcat<S, T>(s: S, a: seq<T>, b: seq<T>, f: (S, T) -> Result<S>)
    ensures Fold(s, a + b, f) == match Fold(s, a, f) case Failure(e) => Failure(e) case Success(t) => Fold(t, b, f)
    decreases |b|
  {
    if b == [] {
      assert a + b == a;
    } else {
      var init := b[..|b| - 1];
      assert (a + b)[..|a + b| - 1] == a + init;
      FoldConcat(s, a, init, f);
    }
  }

  /** An exception raised by the turn for `xs[i]` is the outcome of the whole loop. */
  lemma FoldFailsAt<S, T>(s: S, xs: seq<T>, i: nat, f: (S, T) -> Result<S>)
    requires i < |xs| && Fold(s, xs[..i], f).Success?
    requires f(Fold(s, xs[..i], f).value, xs[i]).Failure?
    ensures Fold(s, xs, f).Failure?
  {
    FoldAt(s, xs, i, f);
    FoldConcat(s, xs[..i + 1], xs[i + 1..], f);
    assert xs[..i + 1] + xs[i + 1..] == xs;
  }
}
