/** Training: one sample is a forward pass, a backward pass and an update;
    one epoch runs every sample in order and sums their errors; training runs
    epochs until the summed error of an epoch drops below the threshold or the
    epoch budget is spent. */
module Training {
  import opened Topology
  import opened Propagation
  import opened Backprop
  import opened Updating

  function Square(t: real): real
  {
    t * t
  }

  /** A square is never negative, and zero only for zero. */
  lemma SquareSign(t: real)
    ensures Square(t) >= 0.0 && (Square(t) == 0.0 <==> t == 0.0)
  {
    if t > 0.0 {
      ProductPositive(t, t, Square(t));
    } else if t < 0.0 {
      ProductPositive(-t, -t, Square(t));
    }
  }

  lemma ProductPositive(a: real, b: real, c: real)
    requires a > 0.0 && b > 0.0 && c == a * b
    ensures c > 0.0
  {
  }

  /** The sum of squared differences between the first `k` targets and outputs,
      summed left to right. */
  function SquaredError(d: seq<real>, out: seq<real>, k: nat): (r: real)
    requires k <= |d| && k <= |out|
    ensures r >= 0.0
  {
    if k == 0 then 0.0
    else
      SquareSign(d[k - 1] - out[k - 1]);
      SquaredError(d, out, k - 1) + Square(d[k - 1] - out[k - 1])
  }

  /** The squared error vanishes exactly when every output meets its target. */
  lemma {:induction false} SquaredErrorZero(d: seq<real>, out: seq<real>, k: nat)
    requires k <= |d| && k <= |out|
    ensures SquaredError(d, out, k) == 0.0 <==> forall i :: 0 <= i < k ==> d[i] == out[i]
  {
    if k > 0 {
      SquaredErrorZero(d, out, k - 1);
      SquareSign(d[k - 1] - out[k - 1]);
      assert (forall i :: 0 <= i < k ==> d[i] == out[i])
        <==> (forall i :: 0 <= i < k - 1 ==> d[i] == out[i]) && d[k - 1] == out[k - 1];
    }
  }

  /** Every sample has an input as wide as layer 0 and a target as wide as the
      output layer, and every input has a target. */
  predicate SamplesFit(s: Setup, xs: seq<seq<real>>, ds: seq<seq<real>>)
  {
    |ds| >= |xs|
    && forall i :: 0 <= i < |xs| ==> |xs[i]| >= Width(s.n, 0) && |ds[i]| >= Width(s.n, s.layernum - 1)
  }

  /** The values one epoch computes, sample by sample, from the parameters
      `p` it starts with. `Epoch(.., k)` is the state (parameters and summed
      error) after the first `k` samples; sample `k` then runs its forward
      pass (`TraceOf`), its backward pass (`DeltasOf`) and its update
      (`UpdatedOf`) on that state, and adds half its squared output error
      (`ErrorOf`), taken before the update. The error starts again from 0
      with every epoch. */
  function Epoch(s: Setup, p: Params, xs: seq<seq<real>>, ds: seq<seq<real>>, k: nat): (r: (Params, real))
    requires Shaped(s, p) && SamplesFit(s, xs, ds) && k <= |xs|
    ensures Shaped(s, r.0) && r.1 >= 0.0
    decreases k, 0
  {
    if k == 0 then (p, 0.0)
    else (UpdatedOf(s, p, xs, ds, k - 1), Epoch(s, p, xs, ds, k - 1).1 + ErrorOf(s, p, xs, ds, k - 1))
  }

  /** The forward trace of sample `k`. */
  function TraceOf(s: Setup, p: Params, xs: seq<seq<real>>, ds: seq<seq<real>>, k: nat): (y: seq<seq<real>>)
    requires Shaped(s, p) && SamplesFit(s, xs, ds) && k < |xs|
    ensures |y| == Top(s) + 1 && TraceFits(s, y)
    decreases k, 1
  {
    ForwardTrace(s, Epoch(s, p, xs, ds, k).0, xs[k])
  }

  /** The delta trace of sample `k`. */
  function DeltasOf(s: Setup, p: Params, xs: seq<seq<real>>, ds: seq<seq<real>>, k: nat): (delta: seq<seq<real>>)
    requires Shaped(s, p) && SamplesFit(s, xs, ds) && k < |xs|
    ensures DeltaFits(s, delta)
    decreases k, 2
  {
    Deltas(s, Epoch(s, p, xs, ds, k).0, TraceOf(s, p, xs, ds, k), ds[k])
  }

  /** The parameters after the update of sample `k`. */
  function UpdatedOf(s: Setup, p: Params, xs: seq<seq<real>>, ds: seq<seq<real>>, k: nat): (q: Params)
    requires Shaped(s, p) && SamplesFit(s, xs, ds) && k < |xs|
    ensures Shaped(s, q)
    decreases k, 3
  {
    Step(s, Epoch(s, p, xs, ds, k).0, TraceOf(s, p, xs, ds, k), DeltasOf(s, p, xs, ds, k))
  }

  /** The error of sample `k`: half the squared error of its outputs. */
  function ErrorOf(s: Setup, p: Params, xs: seq<seq<real>>, ds: seq<seq<real>>, k: nat): (err: real)
    requires Shaped(s, p) && SamplesFit(s, xs, ds) && k < |xs|
    ensures err >= 0.0
    decreases k, 2
  {
    SquaredError(ds[k], TraceOf(s, p, xs, ds, k)[Top(s)], Width(s.n, s.layernum - 1)) / 2.0
  }

  /** One more sample of an epoch, read off the definitions, from the state
      `q, e` the first `k` samples leave: the forward pass, the backward pass
      and the update run on `q`, and the sample's error is added to `e`. */
  lemma EpochGrows(s: Setup, p: Params, xs: seq<seq<real>>, ds: seq<seq<real>>, k: nat, q: Params, e: real)
    requires Shaped(s, p) && SamplesFit(s, xs, ds) && k < |xs|
    requires q == Epoch(s, p, xs, ds, k).0 && e == Epoch(s, p, xs, ds, k).1
    ensures Shaped(s, q) && |xs[k]| >= Width(s.n, 0) && |ds[k]| >= Width(s.n, s.layernum - 1)
    ensures var y := ForwardTrace(s, q, xs[k]);
      Epoch(s, p, xs, ds, k + 1).0 == Step(s, q, y, Deltas(s, q, y, ds[k]))
      && Epoch(s, p, xs, ds, k + 1).1 == e + SquaredError(ds[k], y[Top(s)], Width(s.n, s.layernum - 1)) / 2.0
  {
    var y := TraceOf(s, p, xs, ds, k);
    assert y == ForwardTrace(s, q, xs[k]);
    assert DeltasOf(s, p, xs, ds, k) == Deltas(s, q, y, ds[k]);
    assert UpdatedOf(s, p, xs, ds, k) == Step(s, q, y, Deltas(s, q, y, ds[k]));
    assert ErrorOf(s, p, xs, ds, k) == SquaredError(ds[k], y[Top(s)], Width(s.n, s.layernum - 1)) / 2.0;
  }

  /** The parameters and error after `k` full epochs started from `p`, or `p`
      and the error `e` held before training when `k` is 0. */
  function EpochsFrom(s: Setup, p: Params, e: real, xs: seq<seq<real>>, ds: seq<seq<real>>, k: nat)
    : (r: (Params, real))
    requires Shaped(s, p) && SamplesFit(s, xs, ds)
    ensures Shaped(s, r.0) && (k > 0 ==> r.1 >= 0.0)
    decreases k
  {
    if k == 0 then (p, e)
    else
      var ep := Epoch(s, p, xs, ds, |xs|);
      EpochsFrom(s, ep.0, ep.1, xs, ds, k - 1)
  }

  /** The state training leaves behind and the number of epochs it ran. */
  datatype Outcome = Outcome(p: Params, e: real, epochs: nat)

  /** Training with `budget` epochs left, from parameters `p` and error `e`. */
  function TrainRun(s: Setup, p: Params, e: real, xs: seq<seq<real>>, ds: seq<seq<real>>, budget: int)
    : (r: Outcome)
    requires Shaped(s, p) && SamplesFit(s, xs, ds)
    ensures Shaped(s, r.p)
    ensures budget <= 0 ==> r.epochs == 0
    ensures budget > 0 ==> 1 <= r.epochs <= budget
    decreases budget
  {
    if budget <= 0 then Outcome(p, e, 0)
    else
      var ep := Epoch(s, p, xs, ds, |xs|);
      if ep.1 < s.eps then Outcome(ep.0, ep.1, 1)
      else
        var rest := TrainRun(s, ep.0, ep.1, xs, ds, budget - 1);
        Outcome(rest.p, rest.e, rest.epochs + 1)
  }

  /** One epoch of training with budget left, read off the definition: from
      the state `p1, e1` that epoch leaves, training either stops or goes on
      with one epoch less. */
  lemma TrainRunStep(s: Setup, p0: Params, e0: real, p1: Params, e1: real,
                     xs: seq<seq<real>>, ds: seq<seq<real>>, budget: int)
    requires Shaped(s, p0) && SamplesFit(s, xs, ds) && budget > 0
    requires p1 == Epoch(s, p0, xs, ds, |xs|).0 && e1 == Epoch(s, p0, xs, ds, |xs|).1
    ensures Shaped(s, p1)
    ensures var r := TrainRun(s, p0, e0, xs, ds, budget);
      e1 < s.eps ==> r.p == p1 && r.e == e1
    ensures var r := TrainRun(s, p0, e0, xs, ds, budget);
      e1 >= s.eps ==>
        r.p == TrainRun(s, p1, e1, xs, ds, budget - 1).p && r.e == TrainRun(s, p1, e1, xs, ds, budget - 1).e
  {
  }

  /** With no budget left, training leaves the state as it is. */
  lemma TrainRunSpent(s: Setup, p: Params, e: real, xs: seq<seq<real>>, ds: seq<seq<real>>, budget: int)
    requires Shaped(s, p) && SamplesFit(s, xs, ds) && budget <= 0
    ensures TrainRun(s, p, e, xs, ds, budget).p == p && TrainRun(s, p, e, xs, ds, budget).e == e
  {
  }

  /** Training runs `r.epochs` whole epochs and stops at the first one whose
      error is below `eps`: it leaves the state of that many epochs, every
      earlier epoch ended with an error of at least `eps`, and it stops before
      the budget is spent only on an error below `eps`. */
  lemma {:induction false} TrainRunEpochs(s: Setup, p: Params, e: real, xs: seq<seq<real>>,
                                          ds: seq<seq<real>>, budget: int)
    requires Shaped(s, p) && SamplesFit(s, xs, ds)
    ensures var r := TrainRun(s, p, e, xs, ds, budget);
      (r.p, r.e) == EpochsFrom(s, p, e, xs, ds, r.epochs)
      && (forall k :: 1 <= k < r.epochs ==> EpochsFrom(s, p, e, xs, ds, k).1 >= s.eps)
      && (r.epochs < budget ==> r.e < s.eps)
    decreases budget
  {
    if budget > 0 {
      var ep := Epoch(s, p, xs, ds, |xs|);
      if ep.1 >= s.eps {
        TrainRunEpochs(s, ep.0, ep.1, xs, ds, budget - 1);
        var r := TrainRun(s, p, e, xs, ds, budget);
        forall k | 1 <= k < r.epochs
          ensures EpochsFrom(s, p, e, xs, ds, k).1 >= s.eps
        {
          assert EpochsFrom(s, p, e, xs, ds, k) == EpochsFrom(s, ep.0, ep.1, xs, ds, k - 1);
        }
      }
    }
  }

  /** Errors are never negative, so with a threshold of 0 or below training
      never stops early: it runs the whole budget. */
  lemma {:induction false} NoEarlyStopWithoutPositiveEps(s: Setup, p: Params, e: real,
                                                         xs: seq<seq<real>>, ds: seq<seq<real>>, budget: int)
    requires Shaped(s, p) && SamplesFit(s, xs, ds) && s.eps <= 0.0
    ensures TrainRun(s, p, e, xs, ds, budget).epochs == if budget <= 0 then 0 else budget
    decreases budget
  {
    if budget > 0 {
      var ep := Epoch(s, p, xs, ds, |xs|);
      NoEarlyStopWithoutPositiveEps(s, ep.0, ep.1, xs, ds, budget - 1);
    }
  }
}
