/** Small shared vocabulary: optional values, outcomes that may fault, and sequences
    without repetition. */
module Base {

  datatype Option<+T> = None | Some(value: T)

  /** The ways in which a step of the runtime can go wrong.  Each one is a C++ event that
      the model reports instead of hiding: a failed `assert`, an exception nobody catches,
      or undefined behaviour. */
  datatype Fault =
    | AssertFailed      // an assert of tasklet_service.hpp or tasklet_service.cpp
    | ListCorrupted     // an element linked a second time into an intrusive list
    | NotWaiting        // the throw in active_tasklet
    | EmptyMailbox      // front() of an empty std::queue
    | Dangling          // access to a tasklet that does not exist
    | WrongThreadlet    // _pthreadlet is NULL or names a threadlet other than the running one
    | ForeignUnlock     // pthread_mutex_unlock by a thread that does not hold the mutex
    | ContextNotSaved   // swapcontext into a context that has not been stored yet
    | ResumedAfterEnd   // the code after the last swapcontext of a finished tasklet
    | StopBeforeStart   // stop_exception leaving start_tasklet outside its try block

  datatype Outcome<+T> = Ok(value: T) | Bad(fault: Fault) {
    predicate IsFailure() {
      Bad?
    }

    function PropagateFailure<U>(): Outcome<U>
      requires Bad?
    {
      Bad(fault)
    }

    function Extract(): T
      requires Ok?
    {
      value
    }
  }

  ghost predicate Distinct<T>(xs: seq<T>) {
    forall i, j :: 0 <= i < j < |xs| ==> xs[i] != xs[j]
  }

  /** `xs` with its first occurrence of `x` removed. */
  function Without<T(==)>(xs: seq<T>, x: T): seq<T> {
    if xs == [] then []
    else if xs[0] == x then xs[1..]
    else [xs[0]] + Without(xs[1..], x)
  }

  lemma {:induction false} WithoutAt<T>(xs: seq<T>, k: nat)
    requires Distinct(xs) && k < |xs|
    ensures Without(xs, xs[k]) == xs[..k] + xs[k + 1..]
  {
    if k == 0 {
    } else {
      assert Distinct(xs[1..]);
      WithoutAt(xs[1..], k - 1);
      assert xs[1..][k - 1] == xs[k];
      assert xs[..k] == [xs[0]] + xs[1..][..k - 1];
    }
  }

  lemma {:induction false} WithoutMembers<T>(xs: seq<T>, x: T)
    requires Distinct(xs)
    ensures Distinct(Without(xs, x))
    ensures forall y :: y in Without(xs, x) <==> y in xs && y != x
    ensures x !in xs ==> Without(xs, x) == xs
  {
    if xs == [] {
    } else {
      DistinctTail(xs);
      WithoutMembers(xs[1..], x);
    }
  }

  lemma {:induction false} WithoutLeft<T>(xs: seq<T>, ys: seq<T>, x: T)
    requires x in xs
    ensures Without(xs + ys, x) == Without(xs, x) + ys
  {
    assert (xs + ys)[1..] == xs[1..] + ys;
    if xs[0] == x {
    } else {
      WithoutLeft(xs[1..], ys, x);
      assert [xs[0]] + (Without(xs[1..], x) + ys) == ([xs[0]] + Without(xs[1..], x)) + ys;
    }
  }

  lemma {:induction false} WithoutRight<T>(xs: seq<T>, ys: seq<T>, x: T)
    requires x !in xs
    ensures Without(xs + ys, x) == xs + Without(ys, x)
  {
    if xs == [] {
      assert xs + ys == ys;
    } else {
      assert (xs + ys)[1..] == xs[1..] + ys;
      WithoutRight(xs[1..], ys, x);
      assert [xs[0]] + (xs[1..] + Without(ys, x)) == ([xs[0]] + xs[1..]) + Without(ys, x);
      assert [xs[0]] + xs[1..] == xs;
    }
  }

  lemma DistinctTail<T>(xs: seq<T>)
    requires Distinct(xs) && xs != []
    ensures Distinct(xs[1..]) && xs[0] !in xs[1..]
    ensures forall y :: y in xs <==> y == xs[0] || y in xs[1..]
  {
  }
}
