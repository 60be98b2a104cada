/** The parameter update of one training step: every weight moves by the
    learning rate times its neuron's delta times the activation feeding it;
    every bias moves by the learning rate times its neuron's delta, once for
    each weight of that neuron (the bias increment sits in the inner loop). */
module Updating {
  import opened Topology

  /** A bias `v` after `k` increments by `rate * dj`, applied one at a time. */
  function Repeat(v: real, rate: real, dj: real, k: nat): real
  {
    if k == 0 then v else Repeat(v, rate, dj, k - 1) + rate * dj
  }

  /** `k` increments by `rate * dj` add up to `k * (rate * dj)`. */
  lemma {:induction false} RepeatTotal(v: real, rate: real, dj: real, k: nat)
    ensures Repeat(v, rate, dj, k) == v + (k as real) * (rate * dj)
  {
    if k > 0 {
      RepeatTotal(v, rate, dj, k - 1);
      assert (k as real) * (rate * dj) == ((k - 1) as real) * (rate * dj) + rate * dj;
    }
  }

  /** A weight row after the first `i` passes of the innermost loop of
      `update`: pass `i'` adds `rate * dj * prev[i']` to entry `i'`. */
  function PartialRow(row: seq<real>, rate: real, dj: real, prev: seq<real>, i: nat): (r: seq<real>)
    requires i <= |row| <= |prev|
    ensures |r| == |row|
  {
    if i == 0 then row
    else
      var r := PartialRow(row, rate, dj, prev, i - 1);
      r[i - 1 := r[i - 1] + rate * dj * prev[i - 1]]
  }

  /** Pass `i` of the innermost loop of `update` adds its increment to weight
      `i` of the row the earlier passes left. */
  lemma {:induction false} PartialRowGrows(row: seq<real>, rate: real, dj: real, prev: seq<real>, i: nat)
    requires i < |row| <= |prev|
    ensures var r := PartialRow(row, rate, dj, prev, i);
      PartialRow(row, rate, dj, prev, i + 1) == r[i := r[i] + rate * dj * prev[i]]
  {
  }

  /** After `i` passes, the first `i` weights of a row have moved once and the
      others not at all. */
  lemma {:induction false} PartialRowAt(row: seq<real>, rate: real, dj: real, prev: seq<real>, i: nat, k: nat)
    requires i <= |row| <= |prev| && k < |row|
    ensures PartialRow(row, rate, dj, prev, i)[k] == if k < i then row[k] + rate * dj * prev[k] else row[k]
  {
    if i > 0 {
      PartialRowAt(row, rate, dj, prev, i - 1, k);
    }
  }

  /** A weight row after its update. */
  function StepRow(row: seq<real>, rate: real, dj: real, prev: seq<real>): (r: seq<real>)
    requires |prev| >= |row|
    ensures |r| == |row|
  {
    PartialRow(row, rate, dj, prev, |row|)
  }

  /** A weight matrix after the first `j` passes of the neuron loop of
      `update`: pass `j'` updates row `j'` with delta `dl[j']`. */
  function PartialLayer(wl: seq<seq<real>>, rate: real, dl: seq<real>, prev: seq<real>, cols: nat, j: nat)
    : (r: seq<seq<real>>)
    requires RowsShaped(wl, |wl|, cols) && j <= |wl| <= |dl| && |prev| >= cols
    ensures RowsShaped(r, |wl|, cols)
  {
    if j == 0 then wl
    else
      var m := PartialLayer(wl, rate, dl, prev, cols, j - 1);
      m[j - 1 := StepRow(m[j - 1], rate, dl[j - 1], prev)]
  }

  /** After `j` passes, the first `j` rows have taken their update and the
      others are untouched. */
  lemma {:induction false} PartialLayerAt(wl: seq<seq<real>>, rate: real, dl: seq<real>, prev: seq<real>,
                                          cols: nat, j: nat, k: nat)
    requires RowsShaped(wl, |wl|, cols) && j <= |wl| <= |dl| && |prev| >= cols && k < |wl|
    ensures PartialLayer(wl, rate, dl, prev, cols, j)[k] == if k < j then StepRow(wl[k], rate, dl[k], prev) else wl[k]
  {
    if j > 0 {
      PartialLayerAt(wl, rate, dl, prev, cols, j - 1, k);
    }
  }

  /** A bias vector after the first `j` passes of the neuron loop: pass `j'`
      increments bias `j'` by `rate * dl[j']`, `times` times over. */
  function PartialBias(bl: seq<real>, rate: real, dl: seq<real>, times: nat, j: nat): (r: seq<real>)
    requires j <= |bl| <= |dl|
    ensures |r| == |bl|
  {
    if j == 0 then bl
    else
      var v := PartialBias(bl, rate, dl, times, j - 1);
      v[j - 1 := Repeat(v[j - 1], rate, dl[j - 1], times)]
  }

  /** After `j` passes, the first `j` biases have taken their increments and
      the others are untouched. */
  lemma {:induction false} PartialBiasAt(bl: seq<real>, rate: real, dl: seq<real>, times: nat, j: nat, k: nat)
    requires j <= |bl| <= |dl| && k < |bl|
    ensures PartialBias(bl, rate, dl, times, j)[k] == if k < j then Repeat(bl[k], rate, dl[k], times) else bl[k]
  {
    if j > 0 {
      PartialBiasAt(bl, rate, dl, times, j - 1, k);
    }
  }

  /** The parameters after the first `l` passes of the layer loop of `update`.
      The pass over layer 0 changes nothing: it has no layer below it. The
      pass over a layer `k >= 1` updates its weights from the deltas of layer
      `k` and the activations of layer `k-1`. Every pass keeps the shape. */
  function StepUpTo(s: Setup, p: Params, y: seq<seq<real>>, delta: seq<seq<real>>, l: nat): (q: Params)
    requires Shaped(s, p) && TraceFits(s, y) && DeltaFits(s, delta) && l <= s.layernum
    ensures Shaped(s, q)
  {
    if l == 0 then p
    else
      var q := StepUpTo(s, p, y, delta, l - 1);
      var k := l - 1;
      if k == 0 then q
      else
        Params(q.w[k := PartialLayer(q.w[k], s.miu, delta[k], y[k - 1], Width(s.n, k - 1), Width(s.n, k))],
               q.b[k := PartialBias(q.b[k], s.miu, delta[k], Width(s.n, k - 1), Width(s.n, k))])
  }

  /** The parameters after `update`. An update keeps the shape of every weight
      matrix and bias vector. */
  function Step(s: Setup, p: Params, y: seq<seq<real>>, delta: seq<seq<real>>): (q: Params)
    requires Shaped(s, p) && TraceFits(s, y) && DeltaFits(s, delta)
    ensures Shaped(s, q)
  {
    StepUpTo(s, p, y, delta, s.layernum)
  }

  /** After `l` passes of the layer loop, the layers `1..l-1` have taken their
      update and the others are as they were. */
  lemma {:induction false} StepUpToLayer(s: Setup, p: Params, y: seq<seq<real>>, delta: seq<seq<real>>,
                                         l: nat, k: nat)
    requires Shaped(s, p) && TraceFits(s, y) && DeltaFits(s, delta) && l <= s.layernum && k < s.layernum
    ensures var q := StepUpTo(s, p, y, delta, l);
      if 1 <= k < l then
        q.w[k] == PartialLayer(p.w[k], s.miu, delta[k], y[k - 1], Width(s.n, k - 1), Width(s.n, k))
        && q.b[k] == PartialBias(p.b[k], s.miu, delta[k], Width(s.n, k - 1), Width(s.n, k))
      else
        q.w[k] == p.w[k] && q.b[k] == p.b[k]
  {
    if l > 0 {
      StepUpToLayer(s, p, y, delta, l - 1, k);
    }
  }

  /** Each weight `w[l][j][i]` of a layer `l >= 1` gains
      `miu * delta[l][j] * y[l-1][i]`. */
  lemma StepWeight(s: Setup, p: Params, y: seq<seq<real>>, delta: seq<seq<real>>, l: nat, j: nat, i: nat)
    requires Shaped(s, p) && TraceFits(s, y) && DeltaFits(s, delta)
    requires 1 <= l < s.layernum && j < Width(s.n, l) && i < Width(s.n, l - 1)
    ensures Step(s, p, y, delta).w[l][j][i] == p.w[l][j][i] + s.miu * delta[l][j] * y[l - 1][i]
  {
    StepUpToLayer(s, p, y, delta, s.layernum, l);
    PartialLayerAt(p.w[l], s.miu, delta[l], y[l - 1], Width(s.n, l - 1), Width(s.n, l), j);
    PartialRowAt(p.w[l][j], s.miu, delta[l][j], y[l - 1], Width(s.n, l - 1), i);
  }

  /** Each bias `b[l][j]` of a layer `l >= 1` takes `n[l-1]` increments of
      `miu * delta[l][j]`. */
  lemma StepBiasRepeats(s: Setup, p: Params, y: seq<seq<real>>, delta: seq<seq<real>>, l: nat, j: nat)
    requires Shaped(s, p) && TraceFits(s, y) && DeltaFits(s, delta)
    requires 1 <= l < s.layernum && j < Width(s.n, l)
    ensures Step(s, p, y, delta).b[l][j] == Repeat(p.b[l][j], s.miu, delta[l][j], Width(s.n, l - 1))
  {
    StepUpToLayer(s, p, y, delta, s.layernum, l);
    PartialBiasAt(p.b[l], s.miu, delta[l], Width(s.n, l - 1), Width(s.n, l), j);
  }

  /** A bias that takes its `k` increments moves by the textbook amount
      `rate * dj` exactly when it takes one increment or that amount is zero;
      with `k = n[l-1]` (see `StepBiasRepeats`) this says the update matches the
      delta rule only for neurons fed by a single neuron. */
  lemma BiasStepIsTextbookOnlyForOneInput(v: real, rate: real, dj: real, k: nat)
    ensures Repeat(v, rate, dj, k) == v + rate * dj <==> k == 1 || rate * dj == 0.0
  {
    RepeatTotal(v, rate, dj, k);
    ProductIsZero(k as real - 1.0, rate * dj);
  }

  lemma ProductIsZero(a: real, c: real)
    ensures (a + 1.0) * c == c <==> a == 0.0 || c == 0.0
  {
    assert (a + 1.0) * c == a * c + c;
  }
}
