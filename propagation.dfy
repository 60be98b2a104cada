/** The forward pass: the activation trace `y` of one input sample. */
module Propagation {
  import opened Topology

  /** The accumulator `u` of the forward pass before the bias is added:
      `row[0]*prev[0] + ... + row[k-1]*prev[k-1]`, summed left to right. */
  function WeightedSum(row: seq<real>, prev: seq<real>, k: nat): real
    requires k <= |row| && k <= |prev|
  {
    if k == 0 then 0.0 else WeightedSum(row, prev, k - 1) + row[k - 1] * prev[k - 1]
  }

  /** One more term of the weighted sum. */
  lemma WeightedSumGrows(row: seq<real>, prev: seq<real>, k: nat)
    requires k < |row| && k < |prev|
    ensures WeightedSum(row, prev, k + 1) == WeightedSum(row, prev, k) + row[k] * prev[k]
  {
  }

  /** The first `rows` activations of a layer fed by `cols` activations of
      the layer below, computed one neuron after another. */
  function LayerOutput(fn: real -> real, wl: seq<seq<real>>, bl: seq<real>, prev: seq<real>,
                       rows: nat, cols: nat): (r: seq<real>)
    requires rows <= |wl| && rows <= |bl| && |prev| >= cols
    requires forall j :: 0 <= j < rows ==> |wl[j]| >= cols
    ensures |r| == rows
  {
    if rows == 0 then []
    else LayerOutput(fn, wl, bl, prev, rows - 1, cols) + [fn(WeightedSum(wl[rows - 1], prev, cols) + bl[rows - 1])]
  }

  /** Activation `j` of a layer is `fn` of its weighted input plus its bias. */
  lemma {:induction false} LayerOutputAt(fn: real -> real, wl: seq<seq<real>>, bl: seq<real>, prev: seq<real>,
                                         rows: nat, cols: nat, j: nat)
    requires rows <= |wl| && rows <= |bl| && |prev| >= cols
    requires forall k :: 0 <= k < rows ==> |wl[k]| >= cols
    requires j < rows
    ensures LayerOutput(fn, wl, bl, prev, rows, cols)[j] == fn(WeightedSum(wl[j], prev, cols) + bl[j])
  {
    if j < rows - 1 {
      LayerOutputAt(fn, wl, bl, prev, rows - 1, cols, j);
    }
  }

  /** One more neuron of a layer: its activation, `fn` of the weighted input
      plus bias `u`, is appended to those of the neurons before it. */
  lemma {:induction false} LayerOutputGrows(fn: real -> real, wl: seq<seq<real>>, bl: seq<real>, prev: seq<real>,
                                            rows: nat, cols: nat, u: real)
    requires rows < |wl| && rows < |bl| && |prev| >= cols
    requires forall j :: 0 <= j <= rows ==> |wl[j]| >= cols
    requires u == WeightedSum(wl[rows], prev, cols) + bl[rows]
    ensures LayerOutput(fn, wl, bl, prev, rows + 1, cols) == LayerOutput(fn, wl, bl, prev, rows, cols) + [fn(u)]
  {
    var r := LayerOutput(fn, wl, bl, prev, rows + 1, cols);
    assert r[..rows] == LayerOutput(fn, wl, bl, prev, rows, cols);
    assert r[rows] == fn(u);
    assert r == r[..rows] + [r[rows]];
  }

  /** The index of the output layer, or 0 for a network without layers. */
  function Top(s: Setup): nat
  {
    if s.layernum == 0 then 0 else s.layernum - 1
  }

  /** The trace of layers `0..k`: the input, then each layer computed from the
      one below. */
  function TraceUpTo(s: Setup, p: Params, x: seq<real>, k: nat): (y: seq<seq<real>>)
    requires Shaped(s, p) && |x| >= Width(s.n, 0)
    requires k <= Top(s)
    ensures |y| == k + 1 && y[0] == x
    ensures forall l :: 1 <= l <= k ==> |y[l]| == Width(s.n, l)
    decreases k
  {
    if k == 0 then [x]
    else
      var below := TraceUpTo(s, p, x, k - 1);
      below + [LayerOutput(s.fn, p.w[k], p.b[k], below[k - 1], Width(s.n, k), Width(s.n, k - 1))]
  }

  /** One more layer of a trace, computed from the last layer so far. */
  lemma {:induction false} TraceUpToGrows(s: Setup, p: Params, x: seq<real>, k: nat)
    requires Shaped(s, p) && |x| >= Width(s.n, 0)
    requires k + 1 <= Top(s)
    ensures var y := TraceUpTo(s, p, x, k);
      TraceUpTo(s, p, x, k + 1)
        == y + [LayerOutput(s.fn, p.w[k + 1], p.b[k + 1], y[k], Width(s.n, k + 1), Width(s.n, k))]
  {
  }

  /** The trace `forward` returns: one entry per layer (just the input when
      there are no layers). */
  function ForwardTrace(s: Setup, p: Params, x: seq<real>): (y: seq<seq<real>>)
    requires Shaped(s, p) && |x| >= Width(s.n, 0)
    ensures |y| == Top(s) + 1 && y[0] == x
    ensures TraceFits(s, y)
  {
    TraceUpTo(s, p, x, Top(s))
  }

  /** Each layer `l >= 1` of a trace is the layer computed from layer `l-1`
      of the same trace, with the weights and biases of layer `l`. */
  lemma {:induction false} TraceLayer(s: Setup, p: Params, x: seq<real>, k: nat, l: nat)
    requires Shaped(s, p) && |x| >= Width(s.n, 0)
    requires k <= Top(s) && 1 <= l <= k
    ensures var y := TraceUpTo(s, p, x, k);
      y[l] == LayerOutput(s.fn, p.w[l], p.b[l], y[l - 1], Width(s.n, l), Width(s.n, l - 1))
  {
    var y := TraceUpTo(s, p, x, k);
    var below := TraceUpTo(s, p, x, k - 1);
    if l < k {
      TraceLayer(s, p, x, k - 1, l);
      assert y[l] == below[l] && y[l - 1] == below[l - 1];
    }
  }

  /** The closed form of a trace: every activation of layer `l >= 1` is `fn` of
      its weighted input plus its bias, the weighted input being taken over the
      activations of layer `l-1` in the same trace. */
  lemma TraceClosedForm(s: Setup, p: Params, x: seq<real>, k: nat, l: nat, j: nat)
    requires Shaped(s, p) && |x| >= Width(s.n, 0)
    requires k <= Top(s) && 1 <= l <= k && j < Width(s.n, l)
    ensures var y := TraceUpTo(s, p, x, k);
      y[l][j] == s.fn(WeightedSum(p.w[l][j], y[l - 1], Width(s.n, l - 1)) + p.b[l][j])
  {
    TraceLayer(s, p, x, k, l);
    var y := TraceUpTo(s, p, x, k);
    LayerOutputAt(s.fn, p.w[l], p.b[l], y[l - 1], Width(s.n, l), Width(s.n, l - 1), j);
  }
}
