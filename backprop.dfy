// The arithmetic of one training step, shared by both teachers, as values:
// the forward pass that keeps every layer's induced field and output, the
// output error and its half sum of squares, the delta-rule backward pass,
// the batch accumulators and the gradient-descent update. The activator and
// its derivative are parameters `f` and `df`; a shape error of any matrix
// operation ends the step with that operation's exception.

module Backprop {
  import opened Wrappers
  import opened MatrixAlgebra
  import opened Samples
  import Nets
  import Arith

  predicate AllValid(ms: seq<Matrix>)
  {
    forall k :: 0 <= k < |ms| ==> ms[k].Valid()
  }

  /** Two lists of matrices of equal length whose k-th entries have the same shape. */
  predicate SameShapes(a: seq<Matrix>, b: seq<Matrix>)
  {
    |a| == |b| && forall k :: 0 <= k < |a| ==> a[k].rows == b[k].rows && a[k].columns == b[k].columns
  }

  // ---------------------------------------------------------------- forward

  /** The induced field of a layer: V = Y * W + B. */
  function Induced(y: Matrix, w: Matrix, b: Matrix): (r: Result<Matrix>)
    requires y.Valid() && w.Valid() && b.Valid()
    ensures r.Ok? ==> r.value.Valid()
  {
    var p :- Mul(y, w);
    Elementwise(Plus, p, b)
  }

  /** Every layer of a forward pass: ys[0] is the input, vs[i] the induced
      field of layer i and ys[i + 1] = f(vs[i]). */
  datatype Trace = Trace(ys: seq<Matrix>, vs: seq<Matrix>)

  /** The teachers' forward pass over the first n layers. */
  function ForwardTrace(x: Matrix, weights: seq<Matrix>, biases: seq<Matrix>, f: real -> real, n: nat): (r: Result<Trace>)
    requires n <= |weights| && n <= |biases|
    requires x.Valid() && AllValid(weights) && AllValid(biases)
    ensures r.Ok? ==> |r.value.ys| == n + 1 && |r.value.vs| == n && r.value.ys[0] == x
    ensures r.Ok? ==> AllValid(r.value.ys) && AllValid(r.value.vs)
    decreases n
  {
    if n == 0 then Ok(Trace([x], []))
    else
      var t :- ForwardTrace(x, weights, biases, f, n - 1);
      var v :- Induced(t.ys[n - 1], weights[n - 1], biases[n - 1]);
      Ok(Trace(t.ys + [Apply(v, f)], t.vs + [v]))
  }

  /** The traced forward pass ends where `Net.pass` ends when every layer
      uses the same activator, and fails exactly when it fails, with the same
      exception. */
  lemma {:induction false} TraceIsPass(x: Matrix, weights: seq<Matrix>, biases: seq<Matrix>, f: real -> real,
                                       fs: seq<real -> real>, n: nat)
    requires n <= |weights| && n <= |biases| && n <= |fs|
    requires x.Valid() && AllValid(weights) && AllValid(biases)
    requires forall k :: 0 <= k < n ==> fs[k] == f
    ensures ForwardTrace(x, weights, biases, f, n).Ok? <==> Nets.Forward(x, weights, biases, fs, n).Ok?
    ensures ForwardTrace(x, weights, biases, f, n).Ok? ==>
      ForwardTrace(x, weights, biases, f, n).value.ys[0] == x &&
      ForwardTrace(x, weights, biases, f, n).value.ys[n] == Nets.Forward(x, weights, biases, fs, n).value
    ensures ForwardTrace(x, weights, biases, f, n).Err? ==>
      ForwardTrace(x, weights, biases, f, n).error == Nets.Forward(x, weights, biases, fs, n).error
    decreases n
  {
    if n > 0 {
      TraceIsPass(x, weights, biases, f, fs, n - 1);
    }
  }

  /** On a chained net a 1 x sizes[0] input passes: every output ys[i + 1]
      and field vs[i] is a 1 x sizes[i + 1] row. */
  lemma {:induction false} TraceShape(x: Matrix, weights: seq<Matrix>, biases: seq<Matrix>, f: real -> real, n: nat)
    requires Nets.Chained(weights, biases) && 0 < n <= |weights|
    requires x.Valid() && x.rows == 1 && x.columns == weights[0].rows
    ensures AllValid(weights) && AllValid(biases)
    ensures ForwardTrace(x, weights, biases, f, n).Ok?
    ensures RowsAlong(ForwardTrace(x, weights, biases, f, n).value.ys, ForwardTrace(x, weights, biases, f, n).value.vs, weights)
    decreases n
  {
    if n > 1 {
      TraceShape(x, weights, biases, f, n - 1);
    }
  }

  /** Every field vs[k] and every output ys[k + 1] is a 1 x weights[k].columns row. */
  predicate RowsAlong(ys: seq<Matrix>, vs: seq<Matrix>, weights: seq<Matrix>)
  {
    |vs| <= |weights| && |ys| == |vs| + 1 &&
    forall k :: 0 <= k < |vs| ==> vs[k].rows == 1 && vs[k].columns == weights[k].columns &&
                                  ys[k + 1].rows == 1 && ys[k + 1].columns == weights[k].columns
  }

  /** The first failing layer's exception is the exception of the whole pass. */
  lemma {:induction false} TraceFailurePersists(x: Matrix, weights: seq<Matrix>, biases: seq<Matrix>, f: real -> real,
                                                i: nat, n: nat)
    requires i <= n <= |weights| && n <= |biases|
    requires x.Valid() && AllValid(weights) && AllValid(biases)
    requires ForwardTrace(x, weights, biases, f, i).Err?
    ensures ForwardTrace(x, weights, biases, f, n) == ForwardTrace(x, weights, biases, f, i)
    decreases n
  {
    if n > i {
      TraceFailurePersists(x, weights, biases, f, i, n - 1);
    }
  }

  // ---------------------------------------------------------------- error

  /** The sample's loss: half the sum of squares of E = T - O. */
  function HalfSquares(e: Matrix): real
  {
    SqrsSum(e.data) / 2.0
  }

  lemma LossNonNegative(e: Matrix)
    ensures HalfSquares(e) >= 0.0
  {
    SqrsSumNonNegative(e.data);
  }

  // ---------------------------------------------------------------- backward

  /** The deltas and the weight corrections of layers i..last, in layer order;
      the bias corrections are the deltas themselves. */
  datatype Grad = Grad(gs: seq<Matrix>, dws: seq<Matrix>)

  /**
   * The backward pass from the last layer down to layer i:
   * delta[last] = -(f'(v[last]) . E), delta[k] = f'(v[k]) . (delta[k+1] * W[k+1]^T),
   * and dW[k] = y[k]^T * delta[k], each layer's operations in the order the
   * teachers run them.
   */
  function Backward(ys: seq<Matrix>, vs: seq<Matrix>, e: Matrix, weights: seq<Matrix>, df: real -> real, i: nat)
    : (r: Result<Grad>)
    requires i < |vs| <= |weights| && |ys| == |vs| + 1
    requires AllValid(ys) && AllValid(vs) && AllValid(weights) && e.Valid()
    ensures r.Ok? ==> |r.value.gs| == |vs| - i && |r.value.dws| == |vs| - i
    ensures r.Ok? ==> AllValid(r.value.gs) && AllValid(r.value.dws)
    decreases |vs| - i
  {
    if i == |vs| - 1 then
      var p :- Elementwise(Times, Apply(vs[i], df), e);
      var g := Scale(p, -1.0);
      var dw :- TMul(ys[i], g);
      Ok(Grad([g], [dw]))
    else
      var later :- Backward(ys, vs, e, weights, df, i + 1);
      var back :- MulT(later.gs[0], weights[i + 1]);
      var g :- Elementwise(Times, Apply(vs[i], df), back);
      var dw :- TMul(ys[i], g);
      Ok(Grad([g] + later.gs, [dw] + later.dws))
  }

  /** A failure below layer i+1 is the failure of the whole backward pass. */
  lemma {:induction false} BackwardFailurePersists(ys: seq<Matrix>, vs: seq<Matrix>, e: Matrix, weights: seq<Matrix>,
                                                   df: real -> real, i: nat)
    requires i < |vs| <= |weights| && |ys| == |vs| + 1
    requires AllValid(ys) && AllValid(vs) && AllValid(weights) && e.Valid()
    requires Backward(ys, vs, e, weights, df, i).Err?
    ensures Backward(ys, vs, e, weights, df, 0) == Backward(ys, vs, e, weights, df, i)
    decreases i
  {
    if i > 0 {
      BackwardFailurePersists(ys, vs, e, weights, df, i - 1);
    }
  }

  /** On a chained net, a trace of the right shapes and a 1 x sizes[last]
      error, the backward pass succeeds; delta[k] is a 1 x sizes[k + 1] row
      (the shape of biases[k]) and dW[k] has the shape of weights[k]. */
  lemma {:induction false} BackwardShape(ys: seq<Matrix>, vs: seq<Matrix>, e: Matrix, weights: seq<Matrix>,
                                         biases: seq<Matrix>, df: real -> real, i: nat)
    requires Nets.Chained(weights, biases) && i < |vs| == |weights| && |ys| == |vs| + 1
    requires AllValid(ys) && AllValid(vs) && e.Valid()
    requires ys[0].rows == 1 && ys[0].columns == weights[0].rows
    requires RowsAlong(ys, vs, weights)
    requires e.rows == 1 && e.columns == weights[|weights| - 1].columns
    ensures Backward(ys, vs, e, weights, df, i).Ok?
    ensures forall k :: 0 <= k < |vs| - i ==>
      Backward(ys, vs, e, weights, df, i).value.gs[k].rows == biases[i + k].rows &&
      Backward(ys, vs, e, weights, df, i).value.gs[k].columns == biases[i + k].columns &&
      Backward(ys, vs, e, weights, df, i).value.dws[k].rows == weights[i + k].rows &&
      Backward(ys, vs, e, weights, df, i).value.dws[k].columns == weights[i + k].columns
    decreases |vs| - i
  {
    assert AllValid(weights);
    if i < |vs| - 1 {
      BackwardShape(ys, vs, e, weights, biases, df, i + 1);
      if i > 0 {
        assert ys[i].columns == weights[i - 1].columns == weights[i].rows;
      }
    } else if i > 0 {
      assert ys[i].columns == weights[i - 1].columns == weights[i].rows;
    }
  }

  // ---------------------------------------------------------------- one sample

  /** What one sample contributes: dW and dB per layer, and its loss. */
  datatype Step = Step(dws: seq<Matrix>, dbs: seq<Matrix>, loss: real)

  /** Forward pass, error E = T - O, loss, backward pass. A net without layers
      gets as far as the error and then has no last layer: reading delta[-1]
      fails. */
  function SampleStep(s: Sample, weights: seq<Matrix>, biases: seq<Matrix>, f: real -> real, df: real -> real)
    : (r: Result<Step>)
    requires |weights| == |biases| && AllValid(weights) && AllValid(biases)
    requires s.source.Valid() && s.target.Valid()
    ensures r.Ok? ==> |r.value.dws| == |weights| && |r.value.dbs| == |weights|
    ensures r.Ok? ==> AllValid(r.value.dws) && AllValid(r.value.dbs)
  {
    var t :- ForwardTrace(s.source, weights, biases, f, |weights|);
    var e :- Elementwise(Minus, s.target, t.ys[|weights|]);
    if |weights| == 0 then Err(IndexOutOfBounds(-1))
    else
      var grad :- Backward(t.ys, t.vs, e, weights, df, 0);
      Ok(Step(grad.dws, grad.gs, HalfSquares(e)))
  }

  /** A sample is shaped for a chained net when its source is a 1 x sizes[0]
      row and its target a 1 x sizes[last] row. */
  predicate ShapedFor(s: Sample, weights: seq<Matrix>)
  {
    |weights| > 0 && s.source.Valid() && s.target.Valid() &&
    s.source.rows == 1 && s.source.columns == weights[0].rows &&
    s.target.rows == 1 && s.target.columns == weights[|weights| - 1].columns
  }

  /** On a chained net a shaped sample never fails: its corrections have
      exactly the shapes of the weights and biases, and its loss is >= 0. */
  lemma StepShape(s: Sample, weights: seq<Matrix>, biases: seq<Matrix>, f: real -> real, df: real -> real)
    requires Nets.Chained(weights, biases) && ShapedFor(s, weights)
    ensures AllValid(weights) && AllValid(biases)
    ensures SampleStep(s, weights, biases, f, df).Ok?
    ensures SameShapes(SampleStep(s, weights, biases, f, df).value.dws, weights)
    ensures SameShapes(SampleStep(s, weights, biases, f, df).value.dbs, biases)
    ensures SampleStep(s, weights, biases, f, df).value.loss >= 0.0
  {
    var n := |weights|;
    TraceShape(s.source, weights, biases, f, n);
    var t := ForwardTrace(s.source, weights, biases, f, n).value;
    assert |t.vs| == n && t.ys[0] == s.source;
    var e := Elementwise(Minus, s.target, t.ys[n]).value;
    BackwardShape(t.ys, t.vs, e, weights, biases, df, 0);
    LossNonNegative(e);
  }

  // ---------------------------------------------------------------- accumulators and update

  /** A pair of per-layer matrix lists: weights and biases, or their corrections. */
  datatype Layers = Layers(ws: seq<Matrix>, bs: seq<Matrix>)

  /** Zero matrices of the given shapes: what `zeros` leaves in the accumulators. */
  function ZerosLike(ms: seq<Matrix>): (z: seq<Matrix>)
    requires AllValid(ms)
    ensures |z| == |ms| && AllValid(z) && SameShapes(z, ms)
    ensures forall k, j :: 0 <= k < |ms| && 0 <= j < |z[k].data| ==> z[k].data[j] == 0.0
  {
    seq(|ms|, k requires 0 <= k < |ms| => Matrix(ms[k].rows, ms[k].columns, Zeros(ms[k].rows, ms[k].columns)))
  }

  /** `zeros` depends only on the shapes: zeroing two lists of the same
      shapes gives the same matrices. */
  lemma ZerosLikeSameShapes(a: seq<Matrix>, b: seq<Matrix>)
    requires AllValid(a) && AllValid(b) && SameShapes(a, b)
    ensures ZerosLike(a) == ZerosLike(b)
  {
    assert forall k :: 0 <= k < |a| ==> ZerosLike(a)[k] == ZerosLike(b)[k];
  }

  /** The two layer-by-layer updates: adding a sample's correction into the
      accumulator (`add`), and the descent step W + (-rate) * dW (`scaleAdd`,
      or `scaleSub` by rate, which is the same over the reals). */
  datatype Update = Accumulate | Descend(rate: real)

  function Coefficient(u: Update): real
  {
    match u
    case Accumulate => 1.0
    case Descend(rate) => -rate
  }

  function UpdateOne(u: Update, a: Matrix, b: Matrix): (r: Result<Matrix>)
    requires a.Valid() && b.Valid()
    ensures r.Ok? <==> a.rows == b.rows && a.columns == b.columns
    ensures r.Ok? ==> r.value.Valid() && r.value.rows == a.rows && r.value.columns == a.columns
    ensures r.Ok? ==> forall j :: 0 <= j < |a.data| ==> r.value.data[j] == a.data[j] + Coefficient(u) * b.data[j]
  {
    match u
    case Accumulate => Elementwise(Plus, a, b)
    case Descend(rate) => ScaleAdd(a, -rate, b)
  }

  /** The update over the first n layers: the weight matrix before the bias
      of each layer, in layer order; the first shape error ends it. */
  function Updated(u: Update, p: Layers, d: Layers, n: nat): (r: Result<Layers>)
    requires n <= |p.ws| && n <= |p.bs| && n <= |d.ws| && n <= |d.bs|
    requires AllValid(p.ws) && AllValid(p.bs) && AllValid(d.ws) && AllValid(d.bs)
    ensures r.Ok? ==> |r.value.ws| == n && |r.value.bs| == n
    ensures r.Ok? ==> AllValid(r.value.ws) && AllValid(r.value.bs)
    decreases n
  {
    if n == 0 then Ok(Layers([], []))
    else
      var q :- Updated(u, p, d, n - 1);
      var w :- UpdateOne(u, p.ws[n - 1], d.ws[n - 1]);
      var b :- UpdateOne(u, p.bs[n - 1], d.bs[n - 1]);
      Ok(Layers(q.ws + [w], q.bs + [b]))
  }

  lemma {:induction false} UpdatedFailurePersists(u: Update, p: Layers, d: Layers, n: nat, m: nat)
    requires n <= m <= |p.ws| && m <= |p.bs| && m <= |d.ws| && m <= |d.bs|
    requires AllValid(p.ws) && AllValid(p.bs) && AllValid(d.ws) && AllValid(d.bs)
    requires Updated(u, p, d, n).Err?
    ensures Updated(u, p, d, m) == Updated(u, p, d, n)
    decreases m
  {
    if m > n {
      UpdatedFailurePersists(u, p, d, n, m - 1);
    }
  }

  /** Layer n of an update, once the first n layers have succeeded: its
      weight, then its bias, either fails the update or extends it. */
  lemma UpdatedSnoc(u: Update, p: Layers, d: Layers, n: nat)
    requires n < |p.ws| && n < |p.bs| && n < |d.ws| && n < |d.bs|
    requires AllValid(p.ws) && AllValid(p.bs) && AllValid(d.ws) && AllValid(d.bs)
    requires Updated(u, p, d, n).Ok?
    ensures UpdateOne(u, p.ws[n], d.ws[n]).Err? ==>
      Updated(u, p, d, n + 1) == Err(UpdateOne(u, p.ws[n], d.ws[n]).error)
    ensures UpdateOne(u, p.ws[n], d.ws[n]).Ok? && UpdateOne(u, p.bs[n], d.bs[n]).Err? ==>
      Updated(u, p, d, n + 1) == Err(UpdateOne(u, p.bs[n], d.bs[n]).error)
    ensures UpdateOne(u, p.ws[n], d.ws[n]).Ok? && UpdateOne(u, p.bs[n], d.bs[n]).Ok? ==>
      Updated(u, p, d, n + 1) == Ok(Layers(Updated(u, p, d, n).value.ws + [UpdateOne(u, p.ws[n], d.ws[n]).value],
                                           Updated(u, p, d, n).value.bs + [UpdateOne(u, p.bs[n], d.bs[n]).value]))
  {
  }

  /** Between lists of the same shapes the update succeeds, and layer k of
      the result is the single-matrix update of layer k. */
  lemma {:induction false} UpdatedLayers(u: Update, p: Layers, d: Layers, n: nat)
    requires n <= |p.ws| && n <= |p.bs|
    requires AllValid(p.ws) && AllValid(p.bs) && AllValid(d.ws) && AllValid(d.bs)
    requires SameShapes(d.ws, p.ws) && SameShapes(d.bs, p.bs)
    ensures Updated(u, p, d, n).Ok?
    ensures forall k :: 0 <= k < n ==>
      UpdateOne(u, p.ws[k], d.ws[k]).Ok? && Updated(u, p, d, n).value.ws[k] == UpdateOne(u, p.ws[k], d.ws[k]).value
    ensures forall k :: 0 <= k < n ==>
      UpdateOne(u, p.bs[k], d.bs[k]).Ok? && Updated(u, p, d, n).value.bs[k] == UpdateOne(u, p.bs[k], d.bs[k]).value
    decreases n
  {
    if n > 0 {
      UpdatedLayers(u, p, d, n - 1);
    }
  }

  // ---------------------------------------------------------------- one batch

  /** The weight part of a pair of layer lists, or the bias part. */
  function Pick(l: Layers, bias: bool): seq<Matrix>
  {
    if bias then l.bs else l.ws
  }

  /** An update by corrections of the same shapes keeps the shapes and
      changes every entry by the coefficient times the correction's entry. */
  lemma UpdatedEntries(u: Update, acc: Layers, d: Layers, bias: bool)
    requires |acc.ws| == |acc.bs|
    requires AllValid(acc.ws) && AllValid(acc.bs) && AllValid(d.ws) && AllValid(d.bs)
    requires SameShapes(d.ws, acc.ws) && SameShapes(d.bs, acc.bs)
    ensures Updated(u, acc, d, |acc.ws|).Ok?
    ensures SameShapes(Pick(Updated(u, acc, d, |acc.ws|).value, bias), Pick(acc, bias))
    ensures forall k, j :: 0 <= k < |Pick(acc, bias)| && 0 <= j < |Pick(acc, bias)[k].data| ==>
      Pick(Updated(u, acc, d, |acc.ws|).value, bias)[k].data[j] ==
      Pick(acc, bias)[k].data[j] + Coefficient(u) * Pick(d, bias)[k].data[j]
  {
    var n := |acc.ws|;
    UpdatedLayers(u, acc, d, n);
    var sum := Updated(u, acc, d, n).value;
    var a, c, r := Pick(acc, bias), Pick(d, bias), Pick(sum, bias);
    assert |a| == n && |r| == n;
    forall k | 0 <= k < n
      ensures r[k] == UpdateOne(u, a[k], c[k]).value
    {
      if bias {
        assert r[k] == sum.bs[k];
      } else {
        assert r[k] == sum.ws[k];
      }
    }
    UpdateAll(u, a, c, r);
  }

  /** Matrices that are, layer by layer, the single-matrix update of a and c
      have a's shapes and the updated entries. */
  lemma UpdateAll(u: Update, a: seq<Matrix>, c: seq<Matrix>, r: seq<Matrix>)
    requires |a| == |c| == |r| && AllValid(a) && AllValid(c)
    requires forall k :: 0 <= k < |a| ==> UpdateOne(u, a[k], c[k]).Ok? && r[k] == UpdateOne(u, a[k], c[k]).value
    ensures SameShapes(r, a)
    ensures forall k :: 0 <= k < |a| ==> |r[k].data| == |a[k].data| && |c[k].data| == |a[k].data|
    ensures forall k, j :: 0 <= k < |a| && 0 <= j < |a[k].data| ==> r[k].data[j] == a[k].data[j] + Coefficient(u) * c[k].data[j]
  {
  }

  /** Every sample of a batch is shaped for the net. */
  predicate AllShapedFor(batch: seq<Sample>, weights: seq<Matrix>)
  {
    forall i :: 0 <= i < |batch| ==> ShapedFor(batch[i], weights)
  }

  /** Every successful step holds m well-formed weight and m bias corrections. */
  predicate StepsFit(steps: seq<Result<Step>>, m: nat)
  {
    forall i :: 0 <= i < |steps| && steps[i].Ok? ==>
      |steps[i].value.dws| == m && |steps[i].value.dbs| == m &&
      AllValid(steps[i].value.dws) && AllValid(steps[i].value.dbs)
  }

  /** What each sample of a batch yields on the same weights and biases: the
      weights change only after the whole batch. */
  function BatchSteps(batch: seq<Sample>, weights: seq<Matrix>, biases: seq<Matrix>, f: real -> real,
                      df: real -> real): (r: seq<Result<Step>>)
    requires SamplesValid(batch)
    requires |weights| == |biases| && AllValid(weights) && AllValid(biases)
    ensures |r| == |batch| && StepsFit(r, |weights|)
  {
    seq(|batch|, i requires 0 <= i < |batch| => SampleStep(batch[i], weights, biases, f, df))
  }

  /** The corrections of a step, as a pair of layer lists. */
  function Deltas(step: Step): Layers
  {
    Layers(step.dws, step.dbs)
  }

  /** The accumulators after the first n steps, from `start`, with the
      losses in order; the first failing step or addition ends it. */
  datatype Sums = Sums(acc: Layers, losses: seq<real>)

  function Accumulated(steps: seq<Result<Step>>, start: Layers, n: nat): (r: Result<Sums>)
    requires n <= |steps| && |start.ws| == |start.bs| && AllValid(start.ws) && AllValid(start.bs)
    requires StepsFit(steps, |start.ws|)
    ensures r.Ok? ==> |r.value.losses| == n
    ensures r.Ok? ==> |r.value.acc.ws| == |start.ws| && |r.value.acc.bs| == |start.ws|
    ensures r.Ok? ==> AllValid(r.value.acc.ws) && AllValid(r.value.acc.bs)
    decreases n
  {
    if n == 0 then Ok(Sums(start, []))
    else
      var s :- Accumulated(steps, start, n - 1);
      var step :- steps[n - 1];
      var sum :- Updated(Accumulate, s.acc, Deltas(step), |start.ws|);
      Ok(Sums(sum, s.losses + [step.loss]))
  }

  /** Both parts of l are well formed and shaped like those of like. */
  predicate ShapedLike(l: Layers, like: Layers)
  {
    AllValid(l.ws) && AllValid(l.bs) && SameShapes(l.ws, like.ws) && SameShapes(l.bs, like.bs)
  }

  /** Every step succeeded with corrections shaped like `like`. */
  predicate AllShapedLike(steps: seq<Result<Step>>, like: Layers)
  {
    forall i :: 0 <= i < |steps| ==> steps[i].Ok? && ShapedLike(Deltas(steps[i].value), like)
  }

  /** Entry j of layer k of the first n steps' corrections, summed (the bias
      part when `bias` holds, the weight part otherwise); a failed step or a
      missing entry adds nothing. */
  function EntrySum(steps: seq<Result<Step>>, bias: bool, k: nat, j: nat, n: nat): real
    requires n <= |steps|
  {
    if n == 0 then 0.0
    else
      var part := if steps[n - 1].Err? then [] else Pick(Deltas(steps[n - 1].value), bias);
      EntrySum(steps, bias, k, j, n - 1) + (if k < |part| && j < |part[k].data| then part[k].data[j] else 0.0)
  }

  /** Lists of the same shapes have, layer by layer, data of the same length. */
  lemma ShapedPick(l: Layers, like: Layers, bias: bool)
    requires ShapedLike(l, like) && AllValid(like.ws) && AllValid(like.bs)
    ensures |Pick(l, bias)| == |Pick(like, bias)|
    ensures forall k :: 0 <= k < |Pick(l, bias)| ==> |Pick(l, bias)[k].data| == |Pick(like, bias)[k].data|
  {
    var a, b := Pick(l, bias), Pick(like, bias);
    assert AllValid(a) && AllValid(b) && SameShapes(a, b);
    forall k | 0 <= k < |a|
      ensures |a[k].data| == |b[k].data|
    {
      assert a[k].Valid() && b[k].Valid();
    }
  }

  /** Step n - 1 continues the accumulation of the first n - 1 steps: its
      failure, or the failure of adding it, or its sum and its loss. */
  lemma AccumulatedNext(steps: seq<Result<Step>>, start: Layers, n: nat)
    requires 0 < n <= |steps| && |start.ws| == |start.bs| && AllValid(start.ws) && AllValid(start.bs)
    requires StepsFit(steps, |start.ws|)
    requires Accumulated(steps, start, n - 1).Ok?
    ensures steps[n - 1].Err? ==> Accumulated(steps, start, n) == Err(steps[n - 1].error)
    ensures steps[n - 1].Ok? ==>
      var s := Accumulated(steps, start, n - 1).value;
      var sum := Updated(Accumulate, s.acc, Deltas(steps[n - 1].value), |start.ws|);
      Accumulated(steps, start, n) ==
        if sum.Err? then Err(sum.error) else Ok(Sums(sum.value, s.losses + [steps[n - 1].value.loss]))
  {
  }

  /** The first failing sample or addition ends the batch with its exception. */
  lemma {:induction false} AccumulatedFailurePersists(steps: seq<Result<Step>>, start: Layers, i: nat, n: nat)
    requires i <= n <= |steps| && |start.ws| == |start.bs| && AllValid(start.ws) && AllValid(start.bs)
    requires StepsFit(steps, |start.ws|)
    requires Accumulated(steps, start, i).Err?
    ensures Accumulated(steps, start, n) == Accumulated(steps, start, i)
    decreases n
  {
    if n > i {
      AccumulatedFailurePersists(steps, start, i, n - 1);
    }
  }

  /** Whatever the steps, accumulators that absorb them keep their shapes. */
  lemma {:induction false} AccumulatedKeepsShapes(steps: seq<Result<Step>>, start: Layers, n: nat)
    requires n <= |steps| && |start.ws| == |start.bs| && AllValid(start.ws) && AllValid(start.bs)
    requires StepsFit(steps, |start.ws|)
    ensures Accumulated(steps, start, n).Ok? ==> ShapedLike(Accumulated(steps, start, n).value.acc, start)
    decreases n
  {
    if n > 0 && Accumulated(steps, start, n).Ok? {
      AccumulatedKeepsShapes(steps, start, n - 1);
      var s := Accumulated(steps, start, n - 1).value;
      UpdatedShapedLike(Accumulate, s.acc, Deltas(steps[n - 1].value));
      ShapedLikeTrans(Accumulated(steps, start, n).value.acc, s.acc, start);
    }
  }

  /** One entry of one layer: accumulators and corrections both shaped like
      `like` add up entry by entry. */
  lemma AccumulateEntry(acc: Layers, d: Layers, like: Layers, bias: bool, k: nat, j: nat)
    requires |like.ws| == |like.bs| && AllValid(like.ws) && AllValid(like.bs)
    requires ShapedLike(acc, like) && ShapedLike(d, like)
    requires k < |Pick(like, bias)| && j < |Pick(like, bias)[k].data|
    ensures Updated(Accumulate, acc, d, |acc.ws|).Ok?
    ensures j < |Pick(acc, bias)[k].data| && j < |Pick(d, bias)[k].data|
    ensures j < |Pick(Updated(Accumulate, acc, d, |acc.ws|).value, bias)[k].data|
    ensures Pick(Updated(Accumulate, acc, d, |acc.ws|).value, bias)[k].data[j] ==
      Pick(acc, bias)[k].data[j] + Pick(d, bias)[k].data[j]
  {
    ShapedPick(acc, like, bias);
    ShapedPick(d, like, bias);
    assert SameShapes(d.ws, acc.ws) && SameShapes(d.bs, acc.bs);
    UpdatedEntries(Accumulate, acc, d, bias);
  }

  /** Adding corrections shaped like the accumulators succeeds and keeps
      their shapes. */
  lemma {:induction false} AccumulatedShape(steps: seq<Result<Step>>, start: Layers, n: nat)
    requires n <= |steps| && |start.ws| == |start.bs| && AllValid(start.ws) && AllValid(start.bs)
    requires StepsFit(steps, |start.ws|) && AllShapedLike(steps, start)
    ensures Accumulated(steps, start, n).Ok? && ShapedLike(Accumulated(steps, start, n).value.acc, start)
    decreases n
  {
    if n > 0 {
      AccumulatedShape(steps, start, n - 1);
      var t := Accumulated(steps, start, n - 1).value.acc;
      var d := Deltas(steps[n - 1].value);
      assert ShapedLike(d, start);
      UpdatedEntries(Accumulate, t, d, false);
      UpdatedEntries(Accumulate, t, d, true);
    }
  }

  /** When accumulating succeeds, the losses are the steps' losses in order. */
  lemma {:induction false} AccumulatedLosses(steps: seq<Result<Step>>, start: Layers, n: nat)
    requires n <= |steps| && |start.ws| == |start.bs| && AllValid(start.ws) && AllValid(start.bs)
    requires StepsFit(steps, |start.ws|)
    ensures Accumulated(steps, start, n).Ok? ==> forall i :: 0 <= i < n ==>
      steps[i].Ok? && Accumulated(steps, start, n).value.losses[i] == steps[i].value.loss
    decreases n
  {
    if n > 0 && Accumulated(steps, start, n).Ok? {
      AccumulatedLosses(steps, start, n - 1);
    }
  }

  /** Step n - 1 adds its correction's entry j of layer k to the accumulators
      and to the entry sum alike. */
  lemma AccumulatedEntryNext(steps: seq<Result<Step>>, start: Layers, bias: bool, k: nat, j: nat, n: nat)
    requires 0 < n <= |steps| && |start.ws| == |start.bs| && AllValid(start.ws) && AllValid(start.bs)
    requires StepsFit(steps, |start.ws|) && AllShapedLike(steps, start)
    requires k < |start.ws| && j < |Pick(start, bias)[k].data|
    ensures Accumulated(steps, start, n - 1).Ok? && Accumulated(steps, start, n).Ok?
    ensures steps[n - 1].Ok? && k < |Pick(Deltas(steps[n - 1].value), bias)|
    ensures j < |Pick(Deltas(steps[n - 1].value), bias)[k].data|
    ensures j < |Pick(Accumulated(steps, start, n - 1).value.acc, bias)[k].data|
    ensures j < |Pick(Accumulated(steps, start, n).value.acc, bias)[k].data|
    ensures Pick(Accumulated(steps, start, n).value.acc, bias)[k].data[j] ==
      Pick(Accumulated(steps, start, n - 1).value.acc, bias)[k].data[j] + Pick(Deltas(steps[n - 1].value), bias)[k].data[j]
    ensures EntrySum(steps, bias, k, j, n) ==
      EntrySum(steps, bias, k, j, n - 1) + Pick(Deltas(steps[n - 1].value), bias)[k].data[j]
  {
    AccumulatedShape(steps, start, n - 1);
    var t := Accumulated(steps, start, n - 1).value.acc;
    var d := Deltas(steps[n - 1].value);
    assert ShapedLike(d, start);
    AccumulateEntry(t, d, start, bias, k, j);
    ShapedPick(d, start, bias);
    assert Accumulated(steps, start, n).value.acc == Updated(Accumulate, t, d, |start.ws|).value;
  }

  /** Adding corrections shaped like the accumulators leaves in entry j of
      layer k its start value plus the sum of the corrections' entries there. */
  lemma {:induction false} AccumulatedEntry(steps: seq<Result<Step>>, start: Layers, bias: bool, k: nat, j: nat, n: nat)
    requires n <= |steps| && |start.ws| == |start.bs| && AllValid(start.ws) && AllValid(start.bs)
    requires StepsFit(steps, |start.ws|) && AllShapedLike(steps, start)
    requires k < |start.ws| && j < |Pick(start, bias)[k].data|
    ensures Accumulated(steps, start, n).Ok?
    ensures j < |Pick(Accumulated(steps, start, n).value.acc, bias)[k].data|
    ensures Pick(Accumulated(steps, start, n).value.acc, bias)[k].data[j] ==
      Pick(start, bias)[k].data[j] + EntrySum(steps, bias, k, j, n)
    decreases n
  {
    if n > 0 {
      AccumulatedEntry(steps, start, bias, k, j, n - 1);
      AccumulatedEntryNext(steps, start, bias, k, j, n);
    }
  }

  /** Adding corrections shaped like the accumulators leaves in every entry
      its start value plus the sum of the corrections' entries. */
  lemma AccumulatedSums(steps: seq<Result<Step>>, start: Layers, bias: bool, n: nat)
    requires n <= |steps| && |start.ws| == |start.bs| && AllValid(start.ws) && AllValid(start.bs)
    requires StepsFit(steps, |start.ws|) && AllShapedLike(steps, start)
    ensures Accumulated(steps, start, n).Ok? && ShapedLike(Accumulated(steps, start, n).value.acc, start)
    ensures forall k, j :: 0 <= k < |start.ws| && 0 <= j < |Pick(Accumulated(steps, start, n).value.acc, bias)[k].data| ==>
      Pick(Accumulated(steps, start, n).value.acc, bias)[k].data[j] ==
      Pick(start, bias)[k].data[j] + EntrySum(steps, bias, k, j, n)
  {
    AccumulatedShape(steps, start, n);
    var acc := Accumulated(steps, start, n).value.acc;
    ShapedPick(acc, start, bias);
    forall k: int, j: int | 0 <= k < |start.ws| && 0 <= j < |Pick(acc, bias)[k].data|
      ensures Pick(acc, bias)[k].data[j] == Pick(start, bias)[k].data[j] + EntrySum(steps, bias, k, j, n)
    {
      AccumulatedEntry(steps, start, bias, k, j, n);
    }
  }

  /** Zero accumulators shaped like the weights and the biases. */
  function ZeroLayers(weights: seq<Matrix>, biases: seq<Matrix>): (z: Layers)
    requires AllValid(weights) && AllValid(biases)
    ensures ShapedLike(z, Layers(weights, biases)) && |z.ws| == |weights| && |z.bs| == |biases|
    ensures forall k, j :: 0 <= k < |weights| && 0 <= j < |z.ws[k].data| ==> z.ws[k].data[j] == 0.0
    ensures forall k, j :: 0 <= k < |biases| && 0 <= j < |z.bs[k].data| ==> z.bs[k].data[j] == 0.0
  {
    Layers(ZerosLike(weights), ZerosLike(biases))
  }

  /** On a chained net every shaped sample of a batch yields corrections
      shaped like the net's weights and biases, and a loss >= 0. */
  lemma BatchStepsShaped(batch: seq<Sample>, weights: seq<Matrix>, biases: seq<Matrix>, f: real -> real,
                         df: real -> real)
    requires SamplesValid(batch) && AllShapedFor(batch, weights) && Nets.Chained(weights, biases)
    requires AllValid(weights) && AllValid(biases)
    ensures AllShapedLike(BatchSteps(batch, weights, biases, f, df), Layers(weights, biases))
    ensures AllShapedLike(BatchSteps(batch, weights, biases, f, df), ZeroLayers(weights, biases))
    ensures forall i :: 0 <= i < |batch| ==> BatchSteps(batch, weights, biases, f, df)[i].value.loss >= 0.0
  {
    var steps := BatchSteps(batch, weights, biases, f, df);
    var z := ZeroLayers(weights, biases);
    forall i | 0 <= i < |batch|
      ensures steps[i].Ok? && ShapedLike(Deltas(steps[i].value), Layers(weights, biases))
      ensures ShapedLike(Deltas(steps[i].value), z) && steps[i].value.loss >= 0.0
    {
      StepShape(batch[i], weights, biases, f, df);
    }
  }

  /** Starting from zero accumulators shaped like `like`, every entry ends up
      holding the sum of the corrections' entries there. */
  lemma ZeroStartSums(steps: seq<Result<Step>>, z: Layers, like: Layers, bias: bool)
    requires |like.ws| == |like.bs| && AllValid(like.ws) && AllValid(like.bs) && ShapedLike(z, like)
    requires forall k, j :: 0 <= k < |Pick(z, bias)| && 0 <= j < |Pick(z, bias)[k].data| ==> Pick(z, bias)[k].data[j] == 0.0
    requires StepsFit(steps, |z.ws|) && AllShapedLike(steps, z)
    ensures Accumulated(steps, z, |steps|).Ok? && ShapedLike(Accumulated(steps, z, |steps|).value.acc, like)
    ensures forall k, j :: 0 <= k < |like.ws| && 0 <= j < |Pick(Accumulated(steps, z, |steps|).value.acc, bias)[k].data| ==>
      Pick(Accumulated(steps, z, |steps|).value.acc, bias)[k].data[j] == EntrySum(steps, bias, k, j, |steps|)
  {
    AccumulatedSums(steps, z, bias, |steps|);
    var acc := Accumulated(steps, z, |steps|).value.acc;
    ShapedPick(acc, z, bias);
    assert SameShapes(acc.ws, like.ws) && SameShapes(acc.bs, like.bs);
  }

  /** The inner loop over one batch: zero the accumulators, then add every
      sample's corrections and keep its loss. */
  function Batch(batch: seq<Sample>, weights: seq<Matrix>, biases: seq<Matrix>, f: real -> real,
                 df: real -> real): (r: Result<Sums>)
    requires SamplesValid(batch)
    requires |weights| == |biases| && AllValid(weights) && AllValid(biases)
    ensures r.Ok? ==> |r.value.losses| == |batch|
    ensures r.Ok? ==> |r.value.acc.ws| == |weights| && |r.value.acc.bs| == |weights|
    ensures r.Ok? ==> AllValid(r.value.acc.ws) && AllValid(r.value.acc.bs)
  {
    Accumulated(BatchSteps(batch, weights, biases, f, df), ZeroLayers(weights, biases), |batch|)
  }

  /** On a chained net and a batch of shaped samples, the batch succeeds and
      the accumulators have the shapes of the weights and biases and hold,
      entry by entry, the sum of the samples' corrections. */
  lemma BatchAccumulators(batch: seq<Sample>, weights: seq<Matrix>, biases: seq<Matrix>, f: real -> real,
                          df: real -> real, bias: bool)
    requires SamplesValid(batch) && AllShapedFor(batch, weights) && Nets.Chained(weights, biases)
    requires AllValid(weights) && AllValid(biases)
    ensures Batch(batch, weights, biases, f, df).Ok?
    ensures ShapedLike(Batch(batch, weights, biases, f, df).value.acc, Layers(weights, biases))
    ensures forall k, j :: 0 <= k < |weights| && 0 <= j < |Pick(Batch(batch, weights, biases, f, df).value.acc, bias)[k].data| ==>
      Pick(Batch(batch, weights, biases, f, df).value.acc, bias)[k].data[j] ==
      EntrySum(BatchSteps(batch, weights, biases, f, df), bias, k, j, |batch|)
  {
    BatchStepsShaped(batch, weights, biases, f, df);
    ZeroStartSums(BatchSteps(batch, weights, biases, f, df), ZeroLayers(weights, biases), Layers(weights, biases), bias);
  }

  /** On a chained net and a batch of shaped samples, the losses the batch
      keeps are the samples' losses in order, each >= 0. */
  lemma BatchLosses(batch: seq<Sample>, weights: seq<Matrix>, biases: seq<Matrix>, f: real -> real, df: real -> real)
    requires SamplesValid(batch) && AllShapedFor(batch, weights) && Nets.Chained(weights, biases)
    requires AllValid(weights) && AllValid(biases)
    ensures Batch(batch, weights, biases, f, df).Ok?
    ensures forall i :: 0 <= i < |batch| ==>
      SampleStep(batch[i], weights, biases, f, df).Ok? &&
      Batch(batch, weights, biases, f, df).value.losses[i] == SampleStep(batch[i], weights, biases, f, df).value.loss &&
      Batch(batch, weights, biases, f, df).value.losses[i] >= 0.0
  {
    var steps := BatchSteps(batch, weights, biases, f, df);
    var z := ZeroLayers(weights, biases);
    BatchStepsShaped(batch, weights, biases, f, df);
    AccumulatedShape(steps, z, |batch|);
    AccumulatedLosses(steps, z, |batch|);
    var sums := Accumulated(steps, z, |batch|).value;
    assert Batch(batch, weights, biases, f, df) == Ok(sums);
    forall i | 0 <= i < |batch|
      ensures SampleStep(batch[i], weights, biases, f, df).Ok?
      ensures sums.losses[i] == SampleStep(batch[i], weights, biases, f, df).value.loss && sums.losses[i] >= 0.0
    {
      assert steps[i] == SampleStep(batch[i], weights, biases, f, df);
    }
  }

  // ---------------------------------------------------------------- descent

  /** A successful update keeps the shape of every matrix it updates. */
  lemma {:induction false} UpdatedKeepsShapes(u: Update, p: Layers, d: Layers, n: nat)
    requires n <= |p.ws| && n <= |p.bs| && n <= |d.ws| && n <= |d.bs|
    requires AllValid(p.ws) && AllValid(p.bs) && AllValid(d.ws) && AllValid(d.bs)
    ensures Updated(u, p, d, n).Ok? ==> forall k :: 0 <= k < n ==>
      Updated(u, p, d, n).value.ws[k].rows == p.ws[k].rows &&
      Updated(u, p, d, n).value.ws[k].columns == p.ws[k].columns &&
      Updated(u, p, d, n).value.bs[k].rows == p.bs[k].rows &&
      Updated(u, p, d, n).value.bs[k].columns == p.bs[k].columns
    decreases n
  {
    if n > 0 && Updated(u, p, d, n).Ok? {
      UpdatedKeepsShapes(u, p, d, n - 1);
    }
  }

  /** Updating every layer successfully leaves lists shaped like the old ones. */
  lemma UpdatedShapedLike(u: Update, p: Layers, d: Layers)
    requires |p.ws| == |p.bs| <= |d.ws| && |p.bs| <= |d.bs|
    requires AllValid(p.ws) && AllValid(p.bs) && AllValid(d.ws) && AllValid(d.bs)
    ensures Updated(u, p, d, |p.ws|).Ok? ==> ShapedLike(Updated(u, p, d, |p.ws|).value, p)
  {
    UpdatedKeepsShapes(u, p, d, |p.ws|);
  }

  /** Descent by corrections shaped like a chained net succeeds and leaves a
      chained net of the same shapes. */
  lemma DescentKeepsChained(rate: real, net: Layers, acc: Layers)
    requires Nets.Chained(net.ws, net.bs) && ShapedLike(acc, net)
    ensures AllValid(net.ws) && AllValid(net.bs)
    ensures Updated(Descend(rate), net, acc, |net.ws|).Ok?
    ensures ShapedLike(Updated(Descend(rate), net, acc, |net.ws|).value, net)
    ensures Nets.Chained(Updated(Descend(rate), net, acc, |net.ws|).value.ws,
                         Updated(Descend(rate), net, acc, |net.ws|).value.bs)
  {
    UpdatedLayers(Descend(rate), net, acc, |net.ws|);
    UpdatedShapedLike(Descend(rate), net, acc);
  }

  /** Descent by accumulators shaped like the net moves every entry by -rate
      times the accumulated correction there: W - rate * dW, B - rate * dB. */
  lemma DescentEntries(rate: real, net: Layers, acc: Layers, bias: bool)
    requires |net.ws| == |net.bs| && AllValid(net.ws) && AllValid(net.bs) && ShapedLike(acc, net)
    ensures Updated(Descend(rate), net, acc, |net.ws|).Ok?
    ensures ShapedLike(Updated(Descend(rate), net, acc, |net.ws|).value, net)
    ensures forall k, j :: 0 <= k < |net.ws| && 0 <= j < |Pick(Updated(Descend(rate), net, acc, |net.ws|).value, bias)[k].data| ==>
      Pick(Updated(Descend(rate), net, acc, |net.ws|).value, bias)[k].data[j] ==
      Pick(net, bias)[k].data[j] - rate * Pick(acc, bias)[k].data[j]
  {
    UpdatedEntries(Descend(rate), net, acc, bias);
    UpdatedShapedLike(Descend(rate), net, acc);
    ShapedPick(acc, net, bias);
    ShapedPick(Updated(Descend(rate), net, acc, |net.ws|).value, net, bias);
  }

  /** A sample shaped for some weights is shaped for any weights of the same shapes. */
  lemma ShapedForSameShapes(batch: seq<Sample>, a: seq<Matrix>, b: seq<Matrix>)
    requires AllShapedFor(batch, a) && SameShapes(a, b)
    ensures AllShapedFor(batch, b)
  {
  }

  lemma ShapedLikeTrans(a: Layers, b: Layers, c: Layers)
    requires ShapedLike(a, b) && ShapedLike(b, c)
    ensures ShapedLike(a, c)
  {
  }

  // ---------------------------------------------------------------- one batch, then the update

  /** What training leaves behind: the net's layers and the recorded errors. */
  datatype Trained = Trained(net: Layers, losses: seq<real>)

  /** One batch on the net `net`, then W[i] <- W[i] - rate * dW[i] and
      B[i] <- B[i] - rate * dB[i] for every layer; the batch's losses are kept. */
  function BatchUpdate(batch: seq<Sample>, net: Layers, f: real -> real, df: real -> real, rate: real)
    : (r: Result<Trained>)
    requires SamplesValid(batch)
    requires |net.ws| == |net.bs| && AllValid(net.ws) && AllValid(net.bs)
    ensures r.Ok? ==> |r.value.net.ws| == |net.ws| && |r.value.net.bs| == |net.ws|
    ensures r.Ok? ==> AllValid(r.value.net.ws) && AllValid(r.value.net.bs)
    ensures r.Ok? ==> |r.value.losses| == |batch|
  {
    var sums :- Batch(batch, net.ws, net.bs, f, df);
    var next :- Updated(Descend(rate), net, sums.acc, |net.ws|);
    Ok(Trained(next, sums.losses))
  }

  /** On a chained net and a batch of shaped samples, the batch update
      succeeds and the net stays chained with the same shapes. */
  lemma BatchUpdateChained(batch: seq<Sample>, net: Layers, f: real -> real, df: real -> real, rate: real)
    requires SamplesValid(batch) && AllShapedFor(batch, net.ws) && Nets.Chained(net.ws, net.bs)
    ensures AllValid(net.ws) && AllValid(net.bs)
    ensures BatchUpdate(batch, net, f, df, rate).Ok?
    ensures Nets.Chained(BatchUpdate(batch, net, f, df, rate).value.net.ws, BatchUpdate(batch, net, f, df, rate).value.net.bs)
    ensures ShapedLike(BatchUpdate(batch, net, f, df, rate).value.net, net)
  {
    BatchAccumulators(batch, net.ws, net.bs, f, df, false);
    var acc := Batch(batch, net.ws, net.bs, f, df).value.acc;
    DescentKeepsChained(rate, net, acc);
  }

  // ---------------------------------------------------------------- one epoch

  /** How a teacher records training errors: one entry per sample, or one
      per batch holding the batch's summed loss divided by the configured
      batch size. */
  datatype ErrorLog = PerSample | PerBatch(batchSize: int)

  predicate LogValid(log: ErrorLog)
  {
    log.PerBatch? ==> log.batchSize > 0
  }

  function Total(s: seq<real>): real
  {
    if s == [] then 0.0 else Total(s[..|s| - 1]) + s[|s| - 1]
  }

  function Recorded(log: ErrorLog, losses: seq<real>): seq<real>
    requires LogValid(log)
  {
    match log
    case PerSample => losses
    case PerBatch(batchSize) => [Total(losses) / batchSize as real]
  }

  /** The batches, in order, each a valid list of samples. */
  predicate BatchesValid(batches: seq<seq<Sample>>)
  {
    forall i :: 0 <= i < |batches| ==> SamplesValid(batches[i])
  }

  /** Cutting valid samples into batches gives valid batches. */
  lemma {:induction false} ChunksValid(s: seq<Sample>, b: nat)
    requires b > 0 && SamplesValid(s)
    ensures BatchesValid(Chunks(s, b))
    decreases |s|
  {
    if |s| > b {
      ChunksValid(s[b..], b);
      var cs := Chunks(s, b);
      assert cs == [s[..b]] + Chunks(s[b..], b);
      assert forall k :: 0 < k < |cs| ==> cs[k] == Chunks(s[b..], b)[k - 1];
    }
  }

  /** The first n batches of an epoch at one rate, each updating the net
      that the previous one left; the first failure ends the epoch. */
  function EpochRun(batches: seq<seq<Sample>>, net: Layers, f: real -> real, df: real -> real, rate: real,
                    log: ErrorLog, n: nat): (r: Result<Trained>)
    requires n <= |batches| && BatchesValid(batches) && LogValid(log)
    requires |net.ws| == |net.bs| && AllValid(net.ws) && AllValid(net.bs)
    ensures r.Ok? ==> |r.value.net.ws| == |net.ws| && |r.value.net.bs| == |net.ws|
    ensures r.Ok? ==> AllValid(r.value.net.ws) && AllValid(r.value.net.bs)
    decreases n
  {
    if n == 0 then Ok(Trained(net, []))
    else
      var t :- EpochRun(batches, net, f, df, rate, log, n - 1);
      var b :- BatchUpdate(batches[n - 1], t.net, f, df, rate);
      Ok(Trained(b.net, t.losses + Recorded(log, b.losses)))
  }

  /** Batch n - 1 continues from the net the first n - 1 batches leave. */
  lemma EpochRunSucc(batches: seq<seq<Sample>>, net: Layers, f: real -> real, df: real -> real, rate: real,
                     log: ErrorLog, n: nat)
    requires 0 < n <= |batches| && BatchesValid(batches) && LogValid(log)
    requires |net.ws| == |net.bs| && AllValid(net.ws) && AllValid(net.bs)
    requires EpochRun(batches, net, f, df, rate, log, n - 1).Ok?
    requires BatchUpdate(batches[n - 1], EpochRun(batches, net, f, df, rate, log, n - 1).value.net, f, df, rate).Ok?
    ensures EpochRun(batches, net, f, df, rate, log, n) ==
      Ok(Trained(BatchUpdate(batches[n - 1], EpochRun(batches, net, f, df, rate, log, n - 1).value.net, f, df, rate).value.net,
                 EpochRun(batches, net, f, df, rate, log, n - 1).value.losses +
                 Recorded(log, BatchUpdate(batches[n - 1], EpochRun(batches, net, f, df, rate, log, n - 1).value.net, f, df, rate).value.losses)))
  {
  }

  /** Batch n - 1 after a successful prefix: its failure ends the epoch,
      its success extends it. */
  lemma EpochRunNext(batches: seq<seq<Sample>>, net: Layers, f: real -> real, df: real -> real, rate: real,
                     log: ErrorLog, n: nat)
    requires 0 < n <= |batches| && BatchesValid(batches) && LogValid(log)
    requires |net.ws| == |net.bs| && AllValid(net.ws) && AllValid(net.bs)
    requires EpochRun(batches, net, f, df, rate, log, n - 1).Ok?
    ensures var t := EpochRun(batches, net, f, df, rate, log, n - 1).value;
      var b := BatchUpdate(batches[n - 1], t.net, f, df, rate);
      EpochRun(batches, net, f, df, rate, log, n) ==
        if b.Err? then Err(b.error) else Ok(Trained(b.value.net, t.losses + Recorded(log, b.value.losses)))
  {
  }

  /** The first failing batch ends the epoch with its exception. */
  lemma EpochRunFailurePersists(batches: seq<seq<Sample>>, net: Layers, f: real -> real,
                                df: real -> real, rate: real, log: ErrorLog, i: nat, n: nat)
    requires i <= n <= |batches| && BatchesValid(batches) && LogValid(log)
    requires |net.ws| == |net.bs| && AllValid(net.ws) && AllValid(net.bs)
    requires EpochRun(batches, net, f, df, rate, log, i).Err?
    ensures EpochRun(batches, net, f, df, rate, log, n) == EpochRun(batches, net, f, df, rate, log, i)
  {
    var k := i;
    while k < n
      invariant i <= k <= n
      invariant EpochRun(batches, net, f, df, rate, log, k) == EpochRun(batches, net, f, df, rate, log, i)
    {
      EpochRunFails(batches, net, f, df, rate, log, k + 1);
      k := k + 1;
    }
  }

  /** A failed prefix is the failure of the longer run. */
  lemma EpochRunFails(batches: seq<seq<Sample>>, net: Layers, f: real -> real, df: real -> real, rate: real,
                      log: ErrorLog, n: nat)
    requires 0 < n <= |batches| && BatchesValid(batches) && LogValid(log)
    requires |net.ws| == |net.bs| && AllValid(net.ws) && AllValid(net.bs)
    requires EpochRun(batches, net, f, df, rate, log, n - 1).Err?
    ensures EpochRun(batches, net, f, df, rate, log, n) == EpochRun(batches, net, f, df, rate, log, n - 1)
  {
  }

  /** How many errors the first n batches record. */
  function LossCount(log: ErrorLog, batches: seq<seq<Sample>>, n: nat): nat
    requires n <= |batches|
  {
    match log
    case PerSample => |Flatten(batches[..n])|
    case PerBatch(_) => n
  }

  lemma {:induction false} FlattenSnoc(cs: seq<seq<Sample>>, c: seq<Sample>)
    ensures Flatten(cs + [c]) == Flatten(cs) + c
    decreases |cs|
  {
    if cs == [] {
      assert [] + [c] == [c] + [];
      FlattenCons(c, []);
    } else {
      assert cs + [c] == [cs[0]] + (cs[1..] + [c]);
      FlattenCons(cs[0], cs[1..] + [c]);
      FlattenSnoc(cs[1..], c);
      FlattenCons(cs[0], cs[1..]);
      assert [cs[0]] + cs[1..] == cs;
    }
  }

  /** Batch n - 1 adds one error per sample, or one for the batch. */
  lemma LossCountNext(log: ErrorLog, batches: seq<seq<Sample>>, n: nat, losses: seq<real>)
    requires 0 < n <= |batches| && LogValid(log) && |losses| == |batches[n - 1]|
    ensures LossCount(log, batches, n - 1) + |Recorded(log, losses)| == LossCount(log, batches, n)
  {
    if log.PerSample? {
      assert batches[..n] == batches[..n - 1] + [batches[n - 1]];
      FlattenSnoc(batches[..n - 1], batches[n - 1]);
    }
  }

  /** Every sample of every batch is shaped for the weights. */
  predicate BatchesShapedFor(batches: seq<seq<Sample>>, weights: seq<Matrix>)
  {
    forall i :: 0 <= i < |batches| ==> AllShapedFor(batches[i], weights)
  }

  lemma BatchesShapedForLike(batches: seq<seq<Sample>>, net: Layers, like: Layers)
    requires BatchesShapedFor(batches, net.ws) && ShapedLike(like, net)
    ensures BatchesShapedFor(batches, like.ws)
  {
    forall i | 0 <= i < |batches|
      ensures AllShapedFor(batches[i], like.ws)
    {
      ShapedForSameShapes(batches[i], net.ws, like.ws);
    }
  }

  /** A run that succeeded, left a chained net shaped like `net` and
      recorded `count` errors. */
  ghost predicate ChainedRun(r: Result<Trained>, net: Layers, count: int)
  {
    r.Ok? && Nets.Chained(r.value.net.ws, r.value.net.bs) && ShapedLike(r.value.net, net) &&
    |r.value.losses| == count
  }

  /** Appending a chained continuation to a chained run keeps it chained. */
  lemma ChainedRunNext(t: Trained, next: Layers, losses: seq<real>, net: Layers, count: int)
    requires ChainedRun(Ok(t), net, count)
    requires Nets.Chained(next.ws, next.bs) && ShapedLike(next, t.net)
    ensures ChainedRun(Ok(Trained(next, t.losses + losses)), net, count + |losses|)
  {
    ShapedLikeTrans(next, t.net, net);
  }

  /** The first n batches of the epoch make a chained run. */
  ghost predicate ChainedPrefix(batches: seq<seq<Sample>>, net: Layers, f: real -> real, df: real -> real,
                                rate: real, log: ErrorLog, n: nat)
    requires n <= |batches| && BatchesValid(batches) && LogValid(log)
    requires |net.ws| == |net.bs| && AllValid(net.ws) && AllValid(net.bs)
  {
    ChainedRun(EpochRun(batches, net, f, df, rate, log, n), net, LossCount(log, batches, n))
  }

  /** Batch n - 1 continues a chained run of the first n - 1 batches into a
      chained run of n. */
  lemma EpochRunChainedNext(batches: seq<seq<Sample>>, net: Layers, f: real -> real, df: real -> real,
                            rate: real, log: ErrorLog, n: nat)
    requires 0 < n <= |batches| && BatchesValid(batches) && LogValid(log)
    requires |net.ws| == |net.bs| && AllValid(net.ws) && AllValid(net.bs)
    requires BatchesShapedFor(batches, net.ws)
    requires ChainedPrefix(batches, net, f, df, rate, log, n - 1)
    ensures ChainedPrefix(batches, net, f, df, rate, log, n)
  {
    var t := EpochRun(batches, net, f, df, rate, log, n - 1).value;
    BatchesShapedForLike(batches, net, t.net);
    BatchUpdateChained(batches[n - 1], t.net, f, df, rate);
    var b := BatchUpdate(batches[n - 1], t.net, f, df, rate).value;
    EpochRunSucc(batches, net, f, df, rate, log, n);
    ChainedRunNext(t, b.net, Recorded(log, b.losses), net, LossCount(log, batches, n - 1));
    LossCountNext(log, batches, n, b.losses);
  }

  /** On a chained net and batches of shaped samples the epoch succeeds,
      leaves a chained net of the same shapes and records one error per
      sample, or one per batch. */
  lemma EpochRunChained(batches: seq<seq<Sample>>, net: Layers, f: real -> real, df: real -> real,
                        rate: real, log: ErrorLog, n: nat)
    requires n <= |batches| && BatchesValid(batches) && LogValid(log)
    requires Nets.Chained(net.ws, net.bs) && BatchesShapedFor(batches, net.ws)
    ensures AllValid(net.ws) && AllValid(net.bs)
    ensures ChainedRun(EpochRun(batches, net, f, df, rate, log, n), net, LossCount(log, batches, n))
  {
    assert AllValid(net.ws) && AllValid(net.bs);
    assert batches[..0] == [];
    var i := 0;
    while i < n
      invariant i <= n
      invariant ChainedPrefix(batches, net, f, df, rate, log, i)
    {
      i := i + 1;
      EpochRunChainedNext(batches, net, f, df, rate, log, i);
    }
  }

  // ---------------------------------------------------------------- epochs

  /** k whole epochs over the same batches, epoch e (counted from 0) at the
      rate eta(e). */
  function Trajectory(batches: seq<seq<Sample>>, net: Layers, f: real -> real, df: real -> real,
                      eta: nat -> real, log: ErrorLog, k: nat): (r: Result<Trained>)
    requires BatchesValid(batches) && LogValid(log)
    requires |net.ws| == |net.bs| && AllValid(net.ws) && AllValid(net.bs)
    ensures r.Ok? ==> |r.value.net.ws| == |net.ws| && |r.value.net.bs| == |net.ws|
    ensures r.Ok? ==> AllValid(r.value.net.ws) && AllValid(r.value.net.bs)
    decreases k
  {
    if k == 0 then Ok(Trained(net, []))
    else
      var t :- Trajectory(batches, net, f, df, eta, log, k - 1);
      var e :- EpochRun(batches, t.net, f, df, eta(k - 1), log, |batches|);
      Ok(Trained(e.net, t.losses + e.losses))
  }

  /** Epoch k - 1 continues from the net the first k - 1 epochs leave. */
  lemma TrajectorySucc(batches: seq<seq<Sample>>, net: Layers, f: real -> real, df: real -> real,
                       eta: nat -> real, log: ErrorLog, k: nat, t: Trained, e: Trained)
    requires BatchesValid(batches) && LogValid(log)
    requires |net.ws| == |net.bs| && AllValid(net.ws) && AllValid(net.bs)
    requires Trajectory(batches, net, f, df, eta, log, k) == Ok(t)
    requires EpochRun(batches, t.net, f, df, eta(k), log, |batches|) == Ok(e)
    ensures Trajectory(batches, net, f, df, eta, log, k + 1) == Ok(Trained(e.net, t.losses + e.losses))
  {
  }

  /** The first k epochs make a chained run that recorded one epoch's worth
      of errors k times over. */
  ghost predicate ChainedEpochs(batches: seq<seq<Sample>>, net: Layers, f: real -> real, df: real -> real,
                                eta: nat -> real, log: ErrorLog, k: nat)
    requires BatchesValid(batches) && LogValid(log)
    requires |net.ws| == |net.bs| && AllValid(net.ws) && AllValid(net.bs)
  {
    ChainedRun(Trajectory(batches, net, f, df, eta, log, k), net, Arith.Times(k, LossCount(log, batches, |batches|)))
  }

  /** Epoch k continues a chained run of k epochs into one of k + 1. */
  lemma TrajectoryChainedNext(batches: seq<seq<Sample>>, net: Layers, f: real -> real, df: real -> real,
                              eta: nat -> real, log: ErrorLog, k: nat)
    requires BatchesValid(batches) && LogValid(log)
    requires |net.ws| == |net.bs| && AllValid(net.ws) && AllValid(net.bs)
    requires BatchesShapedFor(batches, net.ws)
    requires ChainedEpochs(batches, net, f, df, eta, log, k)
    ensures ChainedEpochs(batches, net, f, df, eta, log, k + 1)
  {
    var t := Trajectory(batches, net, f, df, eta, log, k).value;
    BatchesShapedForLike(batches, net, t.net);
    EpochRunChained(batches, t.net, f, df, eta(k), log, |batches|);
    var e := EpochRun(batches, t.net, f, df, eta(k), log, |batches|).value;
    TrajectorySucc(batches, net, f, df, eta, log, k, t, e);
    var c := LossCount(log, batches, |batches|);
    ChainedRunNext(t, e.net, e.losses, net, Arith.Times(k, c));
    assert Arith.Times(k + 1, c) == Arith.Times(k, c) + c;
  }

  /** On a chained net and batches of shaped samples, any number of epochs
      succeeds, keeps the net chained with its shapes and records the same
      number of errors in every epoch. */
  lemma TrajectoryChained(batches: seq<seq<Sample>>, net: Layers, f: real -> real, df: real -> real,
                          eta: nat -> real, log: ErrorLog, k: nat)
    requires BatchesValid(batches) && LogValid(log)
    requires Nets.Chained(net.ws, net.bs) && BatchesShapedFor(batches, net.ws)
    ensures AllValid(net.ws) && AllValid(net.bs)
    ensures ChainedRun(Trajectory(batches, net, f, df, eta, log, k), net, k * LossCount(log, batches, |batches|))
  {
    assert AllValid(net.ws) && AllValid(net.bs);
    ChainedEpochsZero(batches, net, f, df, eta, log);
    var i := 0;
    while i < k
      invariant i <= k && ChainedEpochs(batches, net, f, df, eta, log, i)
    {
      TrajectoryChainedNext(batches, net, f, df, eta, log, i);
      i := i + 1;
    }
    Arith.TimesIsProduct(k, LossCount(log, batches, |batches|));
  }

  /** No epochs at all leave the chained net as it is. */
  lemma ChainedEpochsZero(batches: seq<seq<Sample>>, net: Layers, f: real -> real, df: real -> real,
                          eta: nat -> real, log: ErrorLog)
    requires BatchesValid(batches) && LogValid(log)
    requires |net.ws| == |net.bs| && AllValid(net.ws) && AllValid(net.bs)
    requires Nets.Chained(net.ws, net.bs)
    ensures ChainedEpochs(batches, net, f, df, eta, log, 0)
  {
  }

}
