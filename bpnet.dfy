/** The `BPNet` class: a fully connected feed-forward network trained by
    back-propagation. Its topology and hyper-parameters are fixed at
    construction; its weights `w`, biases `b` and last epoch error `e` are
    updated in place by `update` and `train`. */
module Connectionism {
  import opened Topology
  import opened Propagation
  import opened Backprop
  import opened Updating
  import opened Training

  /** The row of `cols` weights of neuron `j` of layer `l`, as drawn at
      construction. */
  function DrawnRow(wDraw: (nat, nat, nat) -> real, l: nat, j: nat, cols: nat): (r: seq<real>)
    ensures |r| == cols
  {
    seq(cols, i requires 0 <= i => wDraw(l, j, i))
  }

  /** The first `rows` weight rows of layer `l`, as drawn at construction. */
  function DrawnLayer(wDraw: (nat, nat, nat) -> real, l: nat, rows: nat, cols: nat): (r: seq<seq<real>>)
    ensures RowsShaped(r, rows, cols)
  {
    seq(rows, j requires 0 <= j => DrawnRow(wDraw, l, j, cols))
  }

  /** The first `rows` biases of layer `l`, as drawn at construction. */
  function DrawnBias(bDraw: (nat, nat) -> real, l: nat, rows: nat): (r: seq<real>)
    ensures |r| == rows
  {
    seq(rows, j requires 0 <= j => bDraw(l, j))
  }

  /** The parameters a new network starts from: every layer `l >= 1` gets
      `n[l]` rows of `n[l-1]` drawn weights and `n[l]` drawn biases. */
  function Drawn(s: Setup, wDraw: (nat, nat, nat) -> real, bDraw: (nat, nat) -> real): (p: Params)
    ensures |p.w| == |p.b| == s.layernum
  {
    var L := s.layernum;
    Params(
      seq(L, l requires 0 <= l < L => if l == 0 then [] else DrawnLayer(wDraw, l, Width(s.n, l), Width(s.n, l - 1))),
      seq(L, l requires 0 <= l < L => if l == 0 then [] else DrawnBias(bDraw, l, Width(s.n, l))))
  }

  /** A new network has the shape its widths call for. */
  lemma DrawnShaped(s: Setup, wDraw: (nat, nat, nat) -> real, bDraw: (nat, nat) -> real)
    ensures Shaped(s, Drawn(s, wDraw, bDraw))
  {
    var p := Drawn(s, wDraw, bDraw);
    forall l | 1 <= l < s.layernum
      ensures RowsShaped(p.w[l], Width(s.n, l), Width(s.n, l - 1)) && |p.b[l]| == Width(s.n, l)
    {
      assert p.w[l] == DrawnLayer(wDraw, l, Width(s.n, l), Width(s.n, l - 1));
      assert p.b[l] == DrawnBias(bDraw, l, Width(s.n, l));
    }
  }

  /** Every weight and bias of a new network is the value drawn for its
      position. */
  lemma DrawnEntries(s: Setup, wDraw: (nat, nat, nat) -> real, bDraw: (nat, nat) -> real, l: nat, j: nat)
    requires 1 <= l < s.layernum && j < Width(s.n, l)
    ensures var p := Drawn(s, wDraw, bDraw);
      p.b[l][j] == bDraw(l, j)
      && |p.w[l][j]| == Width(s.n, l - 1)
      && forall i :: 0 <= i < Width(s.n, l - 1) ==> p.w[l][j][i] == wDraw(l, j, i)
  {
    var p := Drawn(s, wDraw, bDraw);
    assert p.w[l] == DrawnLayer(wDraw, l, Width(s.n, l), Width(s.n, l - 1));
    assert p.w[l][j] == DrawnRow(wDraw, l, j, Width(s.n, l - 1));
    assert p.b[l] == DrawnBias(bDraw, l, Width(s.n, l));
  }

  /** The layer below the first drawn one is empty. */
  lemma DrawnStart(s: Setup, wDraw: (nat, nat, nat) -> real, bDraw: (nat, nat) -> real)
    ensures var p := Drawn(s, wDraw, bDraw);
      p.w[..if s.layernum == 0 then 0 else 1] == (if s.layernum == 0 then [] else [[]])
      && p.b[..if s.layernum == 0 then 0 else 1] == (if s.layernum == 0 then [] else [[]])
  {
    var p := Drawn(s, wDraw, bDraw);
    if s.layernum > 0 {
      assert p.w[..1] == [p.w[0]] && p.b[..1] == [p.b[0]];
    }
  }

  /** Drawing layer `l` extends the layers drawn before it. */
  lemma DrawnGrows(s: Setup, wDraw: (nat, nat, nat) -> real, bDraw: (nat, nat) -> real, l: nat)
    requires 1 <= l < s.layernum
    ensures var p := Drawn(s, wDraw, bDraw);
      p.w[..l + 1] == p.w[..l] + [DrawnLayer(wDraw, l, Width(s.n, l), Width(s.n, l - 1))]
      && p.b[..l + 1] == p.b[..l] + [DrawnBias(bDraw, l, Width(s.n, l))]
  {
    var p := Drawn(s, wDraw, bDraw);
    var wl, bl := DrawnLayer(wDraw, l, Width(s.n, l), Width(s.n, l - 1)), DrawnBias(bDraw, l, Width(s.n, l));
    assert p.w[l] == wl && p.b[l] == bl;
    PrefixGrows(p.w, l);
    PrefixGrows(p.b, l);
  }

  lemma PrefixGrows<T>(s: seq<T>, i: nat)
    requires i < |s|
    ensures s[..i + 1] == s[..i] + [s[i]]
  {
  }

  lemma UpdateTwice<T>(s: seq<T>, k: nat, a: T, c: T)
    requires k < |s|
    ensures s[k := a][k := c] == s[k := c]
  {
  }

  lemma UpdateSame<T>(s: seq<T>, k: nat)
    requires k < |s|
    ensures s[k := s[k]] == s
  {
  }

  class BPNet {
    const layernum: nat
    const n: seq<nat>
    const fn: real -> real
    const fd: real -> real
    const miu: real
    const iter: int
    const eps: real
    var w: seq<seq<seq<real>>>
    var b: seq<seq<real>>
    var e: real

    /** The settings fixed at construction. */
    function Cfg(): Setup
    {
      Setup(layernum, n, fn, fd, miu, iter, eps)
    }

    /** The trainable state. */
    function Parameters(): Params
      reads this`w, this`b
    {
      Params(w, b)
    }

    predicate Valid()
      reads this`w, this`b
    {
      Shaped(Cfg(), Parameters())
    }

    /** A network of `layernum` layers of widths `n`. Absent or zero
        hyper-parameters take their defaults; `wDraw` and `bDraw` stand for
        the random values given to each weight and bias. */
    constructor (layernum: nat, n: seq<nat>, fn: Option<real -> real>, fd: Option<real -> real>,
                 miu: Option<real>, iter: Option<int>, eps: Option<real>, logistic: real -> real,
                 wDraw: (nat, nat, nat) -> real, bDraw: (nat, nat) -> real)
      requires !Rejects(layernum, Widths(n))
      ensures Cfg() == Configure(layernum, n, fn, fd, miu, iter, eps, logistic)
      ensures Parameters() == Drawn(Cfg(), wDraw, bDraw) && e == 0.0
      ensures Valid()
    {
      var s := Configure(layernum, n, fn, fd, miu, iter, eps, logistic);
      this.layernum := s.layernum;
      this.n := s.n;
      this.fn := s.fn;
      this.fd := s.fd;
      this.miu := s.miu;
      this.iter := s.iter;
      this.eps := s.eps;
      new;
      assert Cfg() == s;
      var ws: seq<seq<seq<real>>> := if layernum == 0 then [] else [[]];
      var bs: seq<seq<real>> := if layernum == 0 then [] else [[]];
      ghost var drawn := Drawn(s, wDraw, bDraw);
      DrawnStart(s, wDraw, bDraw);
      var l := 1;
      while l < layernum
        invariant 1 <= l && (layernum > 0 ==> l <= layernum)
        invariant ws == drawn.w[..if layernum == 0 then 0 else l]
        invariant bs == drawn.b[..if layernum == 0 then 0 else l]
      {
        var item, bitem := DrawLayer(wDraw, bDraw, l, Width(n, l), Width(n, l - 1));
        DrawnGrows(s, wDraw, bDraw, l);
        ws := ws + [item];
        bs := bs + [bitem];
        l := l + 1;
      }
      assert drawn.w[..|drawn.w|] == drawn.w && drawn.b[..|drawn.b|] == drawn.b;
      w := ws;
      b := bs;
      e := 0.0;
      DrawnShaped(s, wDraw, bDraw);
    }

    /** The weights and biases of layer `l` at construction: `rows` rows of
        `cols` drawn weights, and `rows` drawn biases. */
    static method DrawLayer(wDraw: (nat, nat, nat) -> real, bDraw: (nat, nat) -> real, l: nat, rows: nat, cols: nat)
      returns (item: seq<seq<real>>, bitem: seq<real>)
      ensures item == DrawnLayer(wDraw, l, rows, cols) && bitem == DrawnBias(bDraw, l, rows)
    {
      item, bitem := [], [];
      var j := 0;
      while j < rows
        invariant j <= rows
        invariant item == DrawnLayer(wDraw, l, j, cols)
        invariant bitem == DrawnBias(bDraw, l, j)
      {
        var temp: seq<real> := [];
        var i := 0;
        while i < cols
          invariant i <= cols
          invariant temp == DrawnRow(wDraw, l, j, i)
        {
          temp := temp + [wDraw(l, j, i)];
          i := i + 1;
        }
        item := item + [temp];
        bitem := bitem + [bDraw(l, j)];
        j := j + 1;
      }
    }

    /** The constructor's argument checks: it throws exactly when `Rejects`
        holds, and otherwise builds a network. */
    static method Create(layernum: nat, n: WidthArg, fn: Option<real -> real>, fd: Option<real -> real>,
                         miu: Option<real>, iter: Option<int>, eps: Option<real>, logistic: real -> real,
                         wDraw: (nat, nat, nat) -> real, bDraw: (nat, nat) -> real)
      returns (r: Option<BPNet>)
      ensures r.None? <==> Rejects(layernum, n)
      ensures r.Some? ==>
        fresh(r.value) && r.value.Valid() && r.value.e == 0.0
        && r.value.Cfg() == Configure(layernum, n.widths, fn, fd, miu, iter, eps, logistic)
        && r.value.Parameters() == Drawn(r.value.Cfg(), wDraw, bDraw)
    {
      if Rejects(layernum, n) {
        return None;
      }
      var net := new BPNet(layernum, n.widths, fn, fd, miu, iter, eps, logistic, wDraw, bDraw);
      return Some(net);
    }

    /** The forward pass: the activation of every layer for input `x`. */
    method Forward(x: seq<real>) returns (y: seq<seq<real>>)
      requires Valid() && |x| >= Width(n, 0)
      ensures y == ForwardTrace(Cfg(), Parameters(), x)
    {
      y := [x];
      var l := 1;
      while l < layernum
        invariant 1 <= l && (layernum > 0 ==> l <= layernum)
        invariant y == TraceUpTo(Cfg(), Parameters(), x, if layernum == 0 then 0 else l - 1)
      {
        var yl := LayerForward(fn, w[l], b[l], y[l - 1], Width(n, l), Width(n, l - 1));
        TraceUpToGrows(Cfg(), Parameters(), x, l - 1);
        y := y + [yl];
        l := l + 1;
      }
    }

    /** The activations of one layer of `rows` neurons fed by `cols`
        activations `prev`: for each neuron, the weighted sum of `prev` plus
        its bias, passed through `f`. */
    static method LayerForward(f: real -> real, wl: seq<seq<real>>, bl: seq<real>, prev: seq<real>,
                               rows: nat, cols: nat) returns (yl: seq<real>)
      requires rows <= |wl| && rows <= |bl| && |prev| >= cols
      requires forall j :: 0 <= j < rows ==> |wl[j]| >= cols
      ensures yl == LayerOutput(f, wl, bl, prev, rows, cols)
    {
      yl := [];
      var j := 0;
      while j < rows
        invariant j <= rows
        invariant yl == LayerOutput(f, wl, bl, prev, j, cols)
      {
        var u := 0.0;
        var i := 0;
        while i < cols
          invariant i <= cols
          invariant u == WeightedSum(wl[j], prev, i)
        {
          WeightedSumGrows(wl[j], prev, i);
          u := u + wl[j][i] * prev[i];
          i := i + 1;
        }
        u := u + bl[j];
        LayerOutputGrows(f, wl, bl, prev, j, cols, u);
        yl := yl + [f(u)];
        j := j + 1;
      }
    }

    /** The backward pass: the delta of every neuron of layers `1..L-1` (and
        of layer 0 when it is also the output layer) for target `d` and
        activation trace `y`. A network without layers gets no deltas. */
    method CalcDelta(d: seq<real>, y: seq<seq<real>>) returns (delta: seq<seq<real>>)
      requires Valid() && TraceFits(Cfg(), y) && |d| >= Width(n, layernum - 1)
      ensures delta == Deltas(Cfg(), Parameters(), y, d)
    {
      if layernum == 0 {
        return [];
      }
      var L: int := layernum;
      var last: seq<real> := [];
      var j := 0;
      while j < Width(n, L - 1)
        invariant j <= Width(n, L - 1)
        invariant last == OutputDelta(fd, d, y[L - 1], j)
      {
        OutputDeltaGrows(fd, d, y[L - 1], j);
        last := last + [(d[j] - y[L - 1][j]) * fd(y[L - 1][j])];
        j := j + 1;
      }
      delta := Blank(L)[L - 1 := last];
      var l := L - 2;
      while l > 0
        invariant -1 <= l <= L - 2 && Bottom(Cfg()) <= l + 1
        invariant delta == DeltasFrom(Cfg(), Parameters(), y, d, l + 1)
      {
        var dl := HiddenLayerDelta(l, delta[l + 1], y);
        delta := delta[l := dl];
        l := l - 1;
      }
    }

    /** The deltas of hidden layer `l`: for each neuron `j`, the deltas `above`
        of layer `l+1` weighted by their weights from `j`, summed, times the
        derivative at the activation of `j`. */
    method HiddenLayerDelta(l: nat, above: seq<real>, y: seq<seq<real>>) returns (dl: seq<real>)
      requires Valid() && TraceFits(Cfg(), y)
      requires 1 <= l < layernum - 1 && |above| >= Width(n, l + 1)
      ensures dl == HiddenDelta(fd, y[l], above, w[l + 1], Width(n, l), Width(n, l + 1))
    {
      var f, yl, wa, width, aboveWidth := fd, y[l], w[l + 1], Width(n, l), Width(n, l + 1);
      dl := [];
      var j := 0;
      while j < width
        invariant j <= width
        invariant dl == HiddenDelta(f, yl, above, wa, j, aboveWidth)
      {
        var acc := 0.0;
        var i := 0;
        while i < aboveWidth
          invariant i <= aboveWidth
          invariant acc == BackSum(above, wa, j, i)
        {
          acc := acc + above[i] * wa[i][j];
          i := i + 1;
        }
        HiddenDeltaGrows(f, yl, above, wa, j, aboveWidth, acc);
        dl := dl + [f(yl[j]) * acc];
        j := j + 1;
      }
    }

    /** The update of `update`: every weight `w[l][j][i]` of a layer `l >= 1`
        moves by `miu * delta[l][j] * y[l-1][i]`, and the bias `b[l][j]` moves
        by `miu * delta[l][j]` once per weight of neuron `j`. The pass over
        layer 0 finds no weights and changes nothing. */
    method Update(y: seq<seq<real>>, delta: seq<seq<real>>)
      requires Valid() && TraceFits(Cfg(), y) && DeltaFits(Cfg(), delta)
      modifies this`w, this`b
      ensures Valid()
      ensures Parameters() == Step(Cfg(), old(Parameters()), y, delta)
    {
      ghost var p0 := Parameters();
      var l := 0;
      while l < layernum
        invariant l <= layernum
        invariant Parameters() == StepUpTo(Cfg(), p0, y, delta, l)
      {
        if l >= 1 {
          // n[l-1] is undefined for l == 0, so no weight of layer 0 is visited
          UpdateLayer(y, delta, l);
        }
        l := l + 1;
      }
    }

    /** The pass of `update` over a layer `l >= 1`: each neuron `j` in turn
        takes its update. */
    method UpdateLayer(y: seq<seq<real>>, delta: seq<seq<real>>, l: nat)
      requires TraceFits(Cfg(), y) && DeltaFits(Cfg(), delta)
      requires 1 <= l < layernum && |w| == |b| == layernum
      requires RowsShaped(w[l], Width(n, l), Width(n, l - 1)) && |b[l]| == Width(n, l)
      modifies this`w, this`b
      ensures w == old(w)[l := PartialLayer(old(w)[l], miu, delta[l], y[l - 1], Width(n, l - 1), Width(n, l))]
      ensures b == old(b)[l := PartialBias(old(b)[l], miu, delta[l], Width(n, l - 1), Width(n, l))]
    {
      ghost var w0, b0 := w, b;
      assert PartialLayer(w0[l], miu, delta[l], y[l - 1], Width(n, l - 1), 0) == w0[l];
      assert PartialBias(b0[l], miu, delta[l], Width(n, l - 1), 0) == b0[l];
      UpdateSame(w0, l);
      UpdateSame(b0, l);
      var j := 0;
      while j < Width(n, l)
        invariant j <= Width(n, l)
        invariant w == w0[l := PartialLayer(w0[l], miu, delta[l], y[l - 1], Width(n, l - 1), j)]
        invariant b == b0[l := PartialBias(b0[l], miu, delta[l], Width(n, l - 1), j)]
      {
        ghost var wl := PartialLayer(w0[l], miu, delta[l], y[l - 1], Width(n, l - 1), j);
        ghost var bl := PartialBias(b0[l], miu, delta[l], Width(n, l - 1), j);
        assert w[l] == wl && b[l] == bl;
        var row, bias := UpdateNeuron(w[l][j], b[l][j], miu, delta[l][j], y[l - 1], Width(n, l - 1));
        w := w[l := w[l][j := row]];
        b := b[l := b[l][j := bias]];
        UpdateTwice(w0, l, wl, wl[j := row]);
        UpdateTwice(b0, l, bl, bl[j := bias]);
        j := j + 1;
      }
    }

    /** The pass of `update` over one neuron: with `dj` its delta and `prev`
        the activations of the layer below, each of its `cols` weights takes
        its update, and its bias takes one increment per weight. */
    static method UpdateNeuron(row: seq<real>, bias: real, rate: real, dj: real, prev: seq<real>, cols: nat)
      returns (row': seq<real>, bias': real)
      requires |row| == cols <= |prev|
      ensures row' == StepRow(row, rate, dj, prev)
      ensures bias' == Repeat(bias, rate, dj, cols)
    {
      row', bias' := row, bias;
      assert PartialRow(row, rate, dj, prev, 0) == row;
      var i := 0;
      while i < cols
        invariant i <= cols
        invariant row' == PartialRow(row, rate, dj, prev, i)
        invariant bias' == Repeat(bias, rate, dj, i)
      {
        PartialRowGrows(row, rate, dj, prev, i);
        row' := row'[i := row'[i] + rate * dj * prev[i]];
        bias' := bias' + rate * dj;
        i := i + 1;
      }
    }

    /** The error of one sample as `train` sums it: the squared differences
        between the first `k` targets `d` and outputs `out`. */
    static method SampleError(d: seq<real>, out: seq<real>, k: nat) returns (ep: real)
      requires k <= |d| && k <= |out|
      ensures ep == SquaredError(d, out, k)
    {
      ep := 0.0;
      var m := 0;
      while m < k
        invariant m <= k
        invariant ep == SquaredError(d, out, m)
      {
        ep := ep + (d[m] - out[m]) * (d[m] - out[m]);
        m := m + 1;
      }
    }

    /** Sample `i` of an epoch of `train` that started from `start`: forward,
        back and update, then half the squared error of the outputs computed
        by the forward pass is added to `e`. */
    method TrainSample(xs: seq<seq<real>>, ds: seq<seq<real>>, i: nat, ghost start: Params)
      requires Shaped(Cfg(), start) && SamplesFit(Cfg(), xs, ds) && i < |xs|
      requires Parameters() == Epoch(Cfg(), start, xs, ds, i).0 && e == Epoch(Cfg(), start, xs, ds, i).1
      modifies this`w, this`b, this`e
      ensures Valid()
      ensures Parameters() == Epoch(Cfg(), start, xs, ds, i + 1).0 && e == Epoch(Cfg(), start, xs, ds, i + 1).1
    {
      EpochGrows(Cfg(), start, xs, ds, i, Parameters(), e);
      var y := Forward(xs[i]);
      var delta := CalcDelta(ds[i], y);
      Update(y, delta);
      var l1 := Top(Cfg());
      var ep := SampleError(ds[i], y[l1], Width(n, layernum - 1));
      e := e + ep / 2.0;
    }

    /** One epoch of `train`: the error restarts from 0, then every sample in
        turn runs forward, back and update, and adds half its squared output
        error (taken before the update) to `e`. */
    method TrainEpoch(xs: seq<seq<real>>, ds: seq<seq<real>>)
      requires Valid() && SamplesFit(Cfg(), xs, ds)
      modifies this`w, this`b, this`e
      ensures (Parameters(), e) == Epoch(Cfg(), old(Parameters()), xs, ds, |xs|)
    {
      ghost var start := Parameters();
      e := 0.0;
      var i := 0;
      while i < |xs|
        invariant i <= |xs|
        invariant (Parameters(), e) == Epoch(Cfg(), start, xs, ds, i)
      {
        TrainSample(xs, ds, i, start);
        i := i + 1;
      }
    }

    /** One pass of the epoch loop of `train` with `budget` epochs left: after
        the epoch, training from the state before it either stops here, when
        the error is below `eps`, or goes on from here with one epoch fewer. */
    method TrainRound(xs: seq<seq<real>>, ds: seq<seq<real>>, ghost budget: int)
      requires Valid() && SamplesFit(Cfg(), xs, ds) && budget > 0
      modifies this`w, this`b, this`e
      ensures Valid()
      ensures (Parameters(), e) == Epoch(Cfg(), old(Parameters()), xs, ds, |xs|)
      ensures var r := TrainRun(Cfg(), old(Parameters()), old(e), xs, ds, budget);
        e < eps ==> r.p == Parameters() && r.e == e
      ensures var r := TrainRun(Cfg(), old(Parameters()), old(e), xs, ds, budget);
        e >= eps ==>
          r.p == TrainRun(Cfg(), Parameters(), e, xs, ds, budget - 1).p
          && r.e == TrainRun(Cfg(), Parameters(), e, xs, ds, budget - 1).e
    {
      ghost var before, beforeE := Parameters(), e;
      TrainEpoch(xs, ds);
      TrainRunStep(Cfg(), before, beforeE, Parameters(), e, xs, ds, budget);
    }

    /** `train`: epochs over the samples `xs` with targets `ds`, at most
        `iter` of them, stopping after the first epoch whose summed error
        is below `eps`. */
    method Train(xs: seq<seq<real>>, ds: seq<seq<real>>)
      requires Valid() && SamplesFit(Cfg(), xs, ds)
      modifies this`w, this`b, this`e
      ensures Valid()
      ensures var r := TrainRun(Cfg(), old(Parameters()), old(e), xs, ds, iter);
        Parameters() == r.p && e == r.e
    {
      var p := 0;
      ghost var goal := TrainRun(Cfg(), Parameters(), e, xs, ds, iter);
      while p < iter
        invariant 0 <= p && Valid()
        invariant TrainRun(Cfg(), Parameters(), e, xs, ds, iter - p).p == goal.p
        invariant TrainRun(Cfg(), Parameters(), e, xs, ds, iter - p).e == goal.e
      {
        ghost var budget := iter - p;
        TrainRound(xs, ds, budget);
        if e < eps {
          break;
        }
        p := p + 1;
        assert iter - p == budget - 1;
      }
      if p >= iter {
        TrainRunSpent(Cfg(), Parameters(), e, xs, ds, iter - p);
      }
    }
  }
}
