/** Shapes, hyper-parameters and the constructor's argument checks of a BPNet.
    A network with `layernum` layers has widths `n`; layer 0 is the input and
    carries no parameters, and layer `l >= 1` owns a weight matrix of
    `n[l]` rows by `n[l-1]` columns and a bias vector of `n[l]` entries. */
module Topology {

  datatype Option<T> = None | Some(value: T)

  /** The bound `n[l]` of the network's loops. A read outside the width list
      gives `undefined` in the source, and `j < undefined` is false, so such a
      loop runs zero times: its width is 0. This covers `n[-1]` in the first
      pass of `update` and layers beyond the end of a short width list. */
  function Width(n: seq<nat>, l: int): nat
  {
    if 0 <= l < |n| then n[l] else 0
  }

  /** Everything a network fixes at construction: topology, squashing function
      `fn`, its derivative `fd` (applied to an activation, not to a net input),
      learning rate `miu`, epoch budget `iter` and error threshold `eps`. */
  datatype Setup = Setup(layernum: nat, n: seq<nat>, fn: real -> real, fd: real -> real,
                         miu: real, iter: int, eps: real)

  /** The trainable state: `w[l][j][i]` is the weight from neuron `i` of layer
      `l-1` to neuron `j` of layer `l`, `b[l][j]` the bias of that neuron. */
  datatype Params = Params(w: seq<seq<seq<real>>>, b: seq<seq<real>>)

  predicate RowsShaped(m: seq<seq<real>>, rows: nat, cols: nat)
  {
    |m| == rows && forall j :: 0 <= j < rows ==> |m[j]| == cols
  }

  /** The shape invariant: every layer `l >= 1` has `n[l]` rows of `n[l-1]`
      weights and `n[l]` biases; layer 0 (the input) has none. */
  predicate Shaped(s: Setup, p: Params)
  {
    |p.w| == s.layernum && |p.b| == s.layernum
    && (s.layernum > 0 ==> p.w[0] == [] && p.b[0] == [])
    && (forall l {:trigger p.w[l]} {:trigger p.b[l]} :: 1 <= l < s.layernum ==>
          |p.w[l]| == Width(s.n, l) && |p.b[l]| == Width(s.n, l))
    && (forall l, j {:trigger p.w[l][j]} :: 1 <= l < s.layernum && 0 <= j < Width(s.n, l) ==>
          |p.w[l][j]| == Width(s.n, l - 1))
  }

  /** An activation trace long enough for every read the network makes of it. */
  predicate TraceFits(s: Setup, y: seq<seq<real>>)
  {
    |y| >= s.layernum && forall l {:trigger y[l]} :: 0 <= l < s.layernum ==> |y[l]| >= Width(s.n, l)
  }

  /** A delta trace long enough for every read `update` makes of it. */
  predicate DeltaFits(s: Setup, delta: seq<seq<real>>)
  {
    |delta| >= s.layernum && forall l {:trigger delta[l]} :: 1 <= l < s.layernum ==> |delta[l]| >= Width(s.n, l)
  }

  // ---------------------------------------------------------------------------
  // Constructor arguments

  /** The `n` argument: an array of widths, or some value that is not an array. */
  datatype WidthArg = Widths(widths: seq<nat>) | NotAnArray

  /** Loose equality `b == x` of a boolean with a number: the boolean is
      converted to 1 or 0 first. */
  function LooseEqualsBool(b: bool, x: int): bool
  {
    (if b then 1 else 0) == x
  }

  /** Whether the constructor throws. The second test evaluates
      `!n.length == layernum`: `!n.length` is the boolean "the list is empty",
      which is then loosely compared with `layernum`. */
  function Rejects(layernum: nat, n: WidthArg): bool
  {
    match n
    case NotAnArray => true
    case Widths(ws) => LooseEqualsBool(|ws| == 0, layernum)
  }

  /** The length test throws only for an empty list with one layer or a
      non-empty list with zero layers; it never compares the length of the
      list with the number of layers. */
  lemma RejectsExactly(layernum: nat, n: WidthArg)
    ensures Rejects(layernum, n) <==>
      n.NotAnArray? || (layernum == 1 && n.widths == []) || (layernum == 0 && n.widths != [])
  {
  }

  /** With two or more layers every width list is accepted, whatever its length. */
  lemma LengthNotEnforced(layernum: nat, ws: seq<nat>)
    requires layernum >= 2
    ensures !Rejects(layernum, Widths(ws))
  {
  }

  // ---------------------------------------------------------------------------
  // Defaults

  const DefaultMiu: real := 0.5
  const DefaultIter: int := 500
  const DefaultEps: real := 0.0001

  /** `v || dflt` for a number: `undefined` and 0 are falsy and give the default. */
  function OrReal(v: Option<real>, dflt: real): real
  {
    if v.None? || v.value == 0.0 then dflt else v.value
  }

  function OrInt(v: Option<int>, dflt: int): int
  {
    if v.None? || v.value == 0 then dflt else v.value
  }

  /** The derivative used when none is supplied: that of the logistic function,
      written in terms of the activation `a` it produced. */
  function DefaultDerivative(a: real): real
  {
    a * (1.0 - a)
  }

  /** The default derivative is the slope of the logistic function at the
      activation `a`: on the logistic's range it lies between 0 and 1/4, peaks
      at `a == 1/2` and vanishes at both ends of the range. */
  lemma DefaultDerivativeSlope(a: real)
    ensures DefaultDerivative(a) == 0.25 - (a - 0.5) * (a - 0.5)
    ensures 0.0 <= a <= 1.0 ==> 0.0 <= DefaultDerivative(a) <= 0.25
    ensures DefaultDerivative(a) == 0.25 <==> a == 0.5
    ensures DefaultDerivative(a) == 0.0 <==> a == 0.0 || a == 1.0
  {
    var h := a - 0.5;
    assert DefaultDerivative(a) == 0.25 - h * h;
    if 0.0 <= a <= 1.0 {
      assert h * h <= 0.25 by {
        if h >= 0.0 { assert h * h <= 0.5 * h; } else { assert h * h <= -0.5 * h; }
      }
    }
    NonZeroProduct(h, h);
    NonZeroProduct(h - 0.5, h + 0.5);
    assert (h - 0.5) * (h + 0.5) == h * h - 0.25;
  }

  /** A product of reals is zero only when a factor is. */
  lemma NonZeroProduct(p: real, q: real)
    ensures p * q == 0.0 ==> p == 0.0 || q == 0.0
  {
    if p != 0.0 && q != 0.0 {
      if p > 0.0 { if q > 0.0 { assert p * q > 0.0; } else { assert p * q < 0.0; } }
      else { if q > 0.0 { assert p * q < 0.0; } else { assert p * q > 0.0; } }
    }
  }

  /** The settings a constructor call produces. `logistic` stands for the
      default squashing function `1 / (1 + exp(-x))`, which is not modelled. */
  function Configure(layernum: nat, n: seq<nat>, fn: Option<real -> real>, fd: Option<real -> real>,
                     miu: Option<real>, iter: Option<int>, eps: Option<real>,
                     logistic: real -> real): (s: Setup)
    ensures s.layernum == layernum && s.n == n
    ensures fn.None? ==> s.fn == logistic
    ensures fn.Some? ==> s.fn == fn.value
    ensures fd.None? ==> s.fd == DefaultDerivative
    ensures fd.Some? ==> s.fd == fd.value
    ensures s.miu == OrReal(miu, DefaultMiu) && s.iter == OrInt(iter, DefaultIter)
            && s.eps == OrReal(eps, DefaultEps)
    ensures s.miu != 0.0 && s.iter != 0 && s.eps != 0.0
    ensures s.iter == DefaultIter || iter == Some(s.iter)
  {
    Setup(layernum, n,
          if fn.None? then logistic else fn.value,
          if fd.None? then DefaultDerivative else fd.value,
          OrReal(miu, DefaultMiu), OrInt(iter, DefaultIter), OrReal(eps, DefaultEps))
  }

  /** Falsy hyper-parameters are replaced: a learning rate of 0 becomes 0.5, an
      epoch budget of 0 becomes 500 (so it does not skip training), a threshold
      of 0 becomes 0.0001; a non-zero value is kept. */
  lemma FalsyHyperParametersDefaulted(layernum: nat, n: seq<nat>, fn: Option<real -> real>,
                                      fd: Option<real -> real>, miu: Option<real>, iter: Option<int>,
                                      eps: Option<real>, logistic: real -> real)
    ensures var s := Configure(layernum, n, fn, fd, miu, iter, eps, logistic);
      (s.miu == DefaultMiu <== miu.None? || miu == Some(0.0))
      && (s.iter == DefaultIter <== iter.None? || iter == Some(0))
      && (s.eps == DefaultEps <== eps.None? || eps == Some(0.0))
      && (miu.Some? && miu.value != 0.0 ==> s.miu == miu.value)
      && (iter.Some? && iter.value != 0 ==> s.iter == iter.value)
      && (eps.Some? && eps.value != 0.0 ==> s.eps == eps.value)
  {
  }
}
