/** Option and the shape of a Python call that may raise. */
module Outcome {

  datatype Option<+T> = None | Some(value: T)

  /** The outcome of Python code that either returns a value or raises an
      exception; which exception it is does not matter to any caller here. */
  datatype Result<+T> = Ok(value: T) | Raised {

    predicate IsFailure() { Raised? }

    function PropagateFailure<U>(): Result<U>
      requires Raised?
    {
      Raised
    }

    function Extract(): T
      requires Ok?
    {
      value
    }
  }

  /** No element of `xs` makes `step` raise. */
  predicate NoneRaise<A, B>(xs: seq<A>, step: A -> Result<Option<B>>)
  {
    forall i :: 0 <= i < |xs| ==> step(xs[i]).Ok?
  }

  lemma {:induction false} NoneRaisePrefix<A, B>(xs: seq<A>, step: A -> Result<Option<B>>, n: int)
    requires NoneRaise(xs, step) && 0 <= n <= |xs|
    ensures NoneRaise(xs[..n], step)
  {
    forall i | 0 <= i < n ensures step(xs[..n][i]).Ok? {
      assert xs[..n][i] == xs[i];
    }
  }

  /** What one element adds to the output. */
  function Emitted<B>(r: Result<Option<B>>): seq<B>
  {
    if r.Ok? && r.value.Some? then [r.value.value] else []
  }

  /** A `for` loop that appends what `step` yields for each element, inside a
      `try` whose handler ends the loop: the output of the elements before the
      first one that raises. */
  function UpToRaise<A, B>(xs: seq<A>, step: A -> Result<Option<B>>): (r: seq<B>)
    ensures |r| <= |xs|
  {
    if xs == [] then []
    else if step(xs[0]).Raised? then []
    else Emitted(step(xs[0])) + UpToRaise(xs[1..], step)
  }

  /** The loop itself: `out = []; try: for x in xs: ... out.append(...)
      except Exception: pass`, with the loop body as `step`. */
  method CollectUpToRaise<A, B>(xs: seq<A>, step: A -> Result<Option<B>>) returns (out: seq<B>)
    ensures out == UpToRaise(xs, step)
  {
    out := [];
    var i := 0;
    while i < |xs|
      invariant 0 <= i <= |xs|
      invariant NoneRaise(xs[..i], step)
      invariant out == UpToRaise(xs[..i], step)
    {
      var r := step(xs[i]);
      assert xs[..i + 1] == xs[..i] + [xs[i]];
      if r.Raised? {
        UpToRaiseStops(xs[..i], xs[i], xs[i + 1..], step);
        assert xs[..i] + [xs[i]] + xs[i + 1..] == xs;
        return;
      }
      UpToRaiseSnoc(xs[..i], xs[i], step);
      out := out + Emitted(r);
      i := i + 1;
    }
    assert xs[..i] == xs;
  }

  /** One more element that does not raise adds its output at the end. */
  lemma {:induction false} UpToRaiseSnoc<A, B>(xs: seq<A>, x: A, step: A -> Result<Option<B>>)
    requires NoneRaise(xs, step) && step(x).Ok?
    ensures NoneRaise(xs + [x], step)
    ensures UpToRaise(xs + [x], step) == UpToRaise(xs, step) + Emitted(step(x))
  {
    if xs != [] {
      assert (xs + [x])[1..] == xs[1..] + [x];
      assert xs + [x] == [xs[0]] + (xs[1..] + [x]);
      UpToRaiseSnoc(xs[1..], x, step);
    }
  }

  /** The same, stepping a prefix of `xs` by one element. */
  lemma {:induction false} UpToRaiseNext<A, B>(xs: seq<A>, step: A -> Result<Option<B>>, i: int)
    requires 0 <= i < |xs| && NoneRaise(xs[..i], step) && step(xs[i]).Ok?
    ensures NoneRaise(xs[..i + 1], step)
    ensures UpToRaise(xs[..i + 1], step) == UpToRaise(xs[..i], step) + Emitted(step(xs[i]))
  {
    assert xs[..i + 1] == xs[..i] + [xs[i]];
    UpToRaiseSnoc(xs[..i], xs[i], step);
  }

  /** The first element that raises ends the output: nothing after it counts. */
  lemma {:induction false} UpToRaiseStops<A, B>(xs: seq<A>, x: A, ys: seq<A>, step: A -> Result<Option<B>>)
    requires NoneRaise(xs, step) && step(x).Raised?
    ensures UpToRaise(xs + [x] + ys, step) == UpToRaise(xs, step)
  {
    if xs == [] {
      assert (xs + [x] + ys)[0] == x;
    } else {
      assert (xs + [x] + ys)[0] == xs[0];
      assert (xs + [x] + ys)[1..] == xs[1..] + [x] + ys;
      UpToRaiseStops(xs[1..], x, ys, step);
    }
  }

  /** The same, for the element at index `i` of `xs`. */
  lemma {:induction false} UpToRaiseStopsAt<A, B>(xs: seq<A>, step: A -> Result<Option<B>>, i: int)
    requires 0 <= i < |xs| && NoneRaise(xs[..i], step) && step(xs[i]).Raised?
    ensures UpToRaise(xs, step) == UpToRaise(xs[..i], step)
    ensures !NoneRaise(xs, step)
  {
    assert xs[..i] + [xs[i]] == xs[..i + 1];
    assert xs[..i + 1] + xs[i + 1..] == xs;
    UpToRaiseStops(xs[..i], xs[i], xs[i + 1..], step);
    assert !step(xs[i]).Ok?;
  }

  /** Every output comes from an element, in order, and only elements before
      the first raise contribute. */
  lemma {:induction false} UpToRaiseSound<A, B>(xs: seq<A>, step: A -> Result<Option<B>>, j: int)
    requires 0 <= j < |UpToRaise(xs, step)|
    ensures exists i :: 0 <= i < |xs| && NoneRaise(xs[..i + 1], step)
                        && step(xs[i]) == Ok(Some(UpToRaise(xs, step)[j]))
  {
    var out := Emitted(step(xs[0]));
    if j < |out| {
      assert xs[..1] == [xs[0]];
      assert step(xs[0]) == Ok(Some(UpToRaise(xs, step)[j]));
    } else {
      UpToRaiseSound(xs[1..], step, j - |out|);
      var i :| 0 <= i < |xs[1..]| && NoneRaise(xs[1..][..i + 1], step)
                && step(xs[1..][i]) == Ok(Some(UpToRaise(xs[1..], step)[j - |out|]));
      assert xs[..i + 2] == [xs[0]] + xs[1..][..i + 1];
      assert step(xs[i + 1]) == Ok(Some(UpToRaise(xs, step)[j]));
    }
  }

  /** When no element raises and each yields a value, the output holds one
      value per element, in order. */
  lemma {:induction false} UpToRaiseAll<A, B>(xs: seq<A>, step: A -> Result<Option<B>>)
    requires forall i :: 0 <= i < |xs| ==> step(xs[i]).Ok? && step(xs[i]).value.Some?
    ensures |UpToRaise(xs, step)| == |xs|
    ensures forall i :: 0 <= i < |xs| ==> UpToRaise(xs, step)[i] == step(xs[i]).value.value
  {
    if xs != [] {
      UpToRaiseAll(xs[1..], step);
    }
  }

  /** Every value an element yields before the first raise is in the output. */
  lemma {:induction false} UpToRaiseComplete<A, B>(xs: seq<A>, step: A -> Result<Option<B>>, i: int, b: B)
    requires 0 <= i < |xs| && NoneRaise(xs[..i + 1], step) && step(xs[i]) == Ok(Some(b))
    ensures b in UpToRaise(xs, step)
  {
    assert xs[..i + 1][0] == xs[0];
    if i > 0 {
      assert xs[1..][..i] == xs[1..i + 1];
      forall k | 0 <= k < i ensures step(xs[1..][..i][k]).Ok? {
        assert xs[1..][..i][k] == xs[..i + 1][k + 1];
      }
      UpToRaiseComplete(xs[1..], step, i - 1, b);
    }
  }
}
