/** The backward pass: the delta trace of one sample, by the generalized
    delta rule. */
module Backprop {
  import opened Topology

  /** The deltas of the first `k` neurons of the output layer: for each, the
      error `d[j] - out[j]` times the derivative taken at the activation
      `out[j]`. */
  function OutputDelta(fd: real -> real, d: seq<real>, out: seq<real>, k: nat): (r: seq<real>)
    requires k <= |d| && k <= |out|
    ensures |r| == k
  {
    if k == 0 then [] else OutputDelta(fd, d, out, k - 1) + [(d[k - 1] - out[k - 1]) * fd(out[k - 1])]
  }

  lemma {:induction false} OutputDeltaAt(fd: real -> real, d: seq<real>, out: seq<real>, k: nat, j: nat)
    requires k <= |d| && k <= |out| && j < k
    ensures OutputDelta(fd, d, out, k)[j] == (d[j] - out[j]) * fd(out[j])
  {
    if j < k - 1 {
      OutputDeltaAt(fd, d, out, k - 1, j);
    }
  }

  /** The error flowing back into neuron `j`: the deltas of the `k` neurons
      above it, each weighted by that neuron's weight from `j`, summed left to
      right. */
  function BackSum(above: seq<real>, wAbove: seq<seq<real>>, j: nat, k: nat): real
    requires k <= |above| && k <= |wAbove|
    requires forall i :: 0 <= i < k ==> j < |wAbove[i]|
  {
    if k == 0 then 0.0 else BackSum(above, wAbove, j, k - 1) + above[k - 1] * wAbove[k - 1][j]
  }

  /** The deltas of the first `width` neurons of a hidden layer below a
      layer of `aboveWidth` neurons. */
  function HiddenDelta(fd: real -> real, yl: seq<real>, above: seq<real>, wAbove: seq<seq<real>>,
                       width: nat, aboveWidth: nat): (r: seq<real>)
    requires width <= |yl| && aboveWidth <= |above| && aboveWidth <= |wAbove|
    requires forall i :: 0 <= i < aboveWidth ==> width <= |wAbove[i]|
    ensures |r| == width
  {
    if width == 0 then []
    else
      HiddenDelta(fd, yl, above, wAbove, width - 1, aboveWidth)
        + [fd(yl[width - 1]) * BackSum(above, wAbove, width - 1, aboveWidth)]
  }

  lemma {:induction false} HiddenDeltaAt(fd: real -> real, yl: seq<real>, above: seq<real>, wAbove: seq<seq<real>>,
                                         width: nat, aboveWidth: nat, j: nat)
    requires width <= |yl| && aboveWidth <= |above| && aboveWidth <= |wAbove|
    requires forall i :: 0 <= i < aboveWidth ==> width <= |wAbove[i]|
    requires j < width
    ensures HiddenDelta(fd, yl, above, wAbove, width, aboveWidth)[j]
         == fd(yl[j]) * BackSum(above, wAbove, j, aboveWidth)
  {
    if j < width - 1 {
      HiddenDeltaAt(fd, yl, above, wAbove, width - 1, aboveWidth, j);
    }
  }

  /** One more neuron of a hidden layer: its delta, the derivative at its
      activation times the back-propagated sum `back`, is appended to those of
      the neurons before it. */
  lemma {:induction false} HiddenDeltaGrows(fd: real -> real, yl: seq<real>, above: seq<real>, wAbove: seq<seq<real>>,
                                            width: nat, aboveWidth: nat, back: real)
    requires width < |yl| && aboveWidth <= |above| && aboveWidth <= |wAbove|
    requires forall i :: 0 <= i < aboveWidth ==> width < |wAbove[i]|
    requires back == BackSum(above, wAbove, width, aboveWidth)
    ensures HiddenDelta(fd, yl, above, wAbove, width + 1, aboveWidth)
         == HiddenDelta(fd, yl, above, wAbove, width, aboveWidth) + [fd(yl[width]) * back]
  {
    var r := HiddenDelta(fd, yl, above, wAbove, width + 1, aboveWidth);
    assert r[..width] == HiddenDelta(fd, yl, above, wAbove, width, aboveWidth);
    assert r[width] == fd(yl[width]) * back;
    assert r == r[..width] + [r[width]];
  }

  /** One more neuron of the output layer: its delta is appended to those of
      the neurons before it. */
  lemma {:induction false} OutputDeltaGrows(fd: real -> real, d: seq<real>, out: seq<real>, k: nat)
    requires k < |d| && k < |out|
    ensures OutputDelta(fd, d, out, k + 1) == OutputDelta(fd, d, out, k) + [(d[k] - out[k]) * fd(out[k])]
  {
    var r := OutputDelta(fd, d, out, k + 1);
    assert r[..k] == OutputDelta(fd, d, out, k);
    assert r[k] == (d[k] - out[k]) * fd(out[k]);
    assert r == r[..k] + [r[k]];
  }

  /** A delta trace of `k` layers with nothing filled in. */
  function Blank(k: nat): (r: seq<seq<real>>)
    ensures |r| == k && forall i :: 0 <= i < k ==> r[i] == []
  {
    seq(k, _ => [])
  }

  /** The index of the lowest layer that receives a delta: 1, or 0 when the
      input layer is also the output layer. */
  function Bottom(s: Setup): nat
  {
    if s.layernum <= 1 then 0 else 1
  }

  /** The delta trace once layers `l..L-1` are filled in, top down, as
      `calcdelta` fills them: first the output layer, then each hidden layer
      from the delta of the layer above it. Entries below `l` are empty. */
  function DeltasFrom(s: Setup, p: Params, y: seq<seq<real>>, d: seq<real>, l: nat): (delta: seq<seq<real>>)
    requires Shaped(s, p) && TraceFits(s, y) && |d| >= Width(s.n, s.layernum - 1)
    requires Bottom(s) <= l < s.layernum
    ensures |delta| == s.layernum
    ensures forall k :: l <= k < s.layernum ==> |delta[k]| == Width(s.n, k)
    ensures forall k :: 0 <= k < l ==> delta[k] == []
    decreases s.layernum - l
  {
    var L := s.layernum;
    if l == L - 1 then
      Blank(L)[L - 1 := OutputDelta(s.fd, d, y[L - 1], Width(s.n, L - 1))]
    else
      var above := DeltasFrom(s, p, y, d, l + 1);
      above[l := HiddenDelta(s.fd, y[l], above[l + 1], p.w[l + 1], Width(s.n, l), Width(s.n, l + 1))]
  }

  /** The trace `calcdelta` returns, one entry per layer; the entry of the
      input layer is empty unless that layer is also the output layer. */
  function Deltas(s: Setup, p: Params, y: seq<seq<real>>, d: seq<real>): (delta: seq<seq<real>>)
    requires Shaped(s, p) && TraceFits(s, y) && |d| >= Width(s.n, s.layernum - 1)
    ensures |delta| == s.layernum && DeltaFits(s, delta)
  {
    if s.layernum == 0 then [] else DeltasFrom(s, p, y, d, Bottom(s))
  }

  /** Layer by layer, a partly filled delta trace holds the output formula at
      the top and the hidden formula, fed by the entry above, at every filled
      layer below it. */
  lemma {:induction false} DeltasFromLayers(s: Setup, p: Params, y: seq<seq<real>>, d: seq<real>, l: nat)
    requires Shaped(s, p) && TraceFits(s, y) && |d| >= Width(s.n, s.layernum - 1)
    requires Bottom(s) <= l < s.layernum
    ensures var delta, L := DeltasFrom(s, p, y, d, l), s.layernum;
      delta[L - 1] == OutputDelta(s.fd, d, y[L - 1], Width(s.n, L - 1))
      && forall k :: l <= k < L - 1 ==>
        delta[k] == HiddenDelta(s.fd, y[k], delta[k + 1], p.w[k + 1], Width(s.n, k), Width(s.n, k + 1))
    decreases s.layernum - l
  {
    if l < s.layernum - 1 {
      DeltasFromLayers(s, p, y, d, l + 1);
    }
  }

  /** The closed form of a hidden delta: for `1 <= l < L-1`, neuron `j` of
      layer `l` holds `fd(y[l][j])` times the deltas of layer `l+1` weighted by
      their weights from `j`. */
  lemma HiddenDeltaClosedForm(s: Setup, p: Params, y: seq<seq<real>>, d: seq<real>, l: nat, j: nat)
    requires Shaped(s, p) && TraceFits(s, y) && |d| >= Width(s.n, s.layernum - 1)
    requires 1 <= l < s.layernum - 1 && j < Width(s.n, l)
    ensures var delta := Deltas(s, p, y, d);
      delta[l][j] == s.fd(y[l][j]) * BackSum(delta[l + 1], p.w[l + 1], j, Width(s.n, l + 1))
  {
    DeltasFromLayers(s, p, y, d, Bottom(s));
    var delta := Deltas(s, p, y, d);
    HiddenDeltaAt(s.fd, y[l], delta[l + 1], p.w[l + 1], Width(s.n, l), Width(s.n, l + 1), j);
  }

  /** The closed form of the output delta: neuron `j` of the top layer holds
      `(d[j] - y[L-1][j]) * fd(y[L-1][j])`. Below the output, layer 0 gets an
      empty entry. */
  lemma OutputDeltaClosedForm(s: Setup, p: Params, y: seq<seq<real>>, d: seq<real>, j: nat)
    requires Shaped(s, p) && TraceFits(s, y) && |d| >= Width(s.n, s.layernum - 1)
    requires s.layernum >= 1 && j < Width(s.n, s.layernum - 1)
    ensures var delta, L := Deltas(s, p, y, d), s.layernum;
      delta[L - 1][j] == (d[j] - y[L - 1][j]) * s.fd(y[L - 1][j])
      && (L >= 2 ==> delta[0] == [])
  {
    DeltasFromLayers(s, p, y, d, Bottom(s));
    var L := s.layernum;
    OutputDeltaAt(s.fd, d, y[L - 1], Width(s.n, L - 1), j);
  }
}
