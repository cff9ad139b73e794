// `SimpleTeacher`: mini-batch gradient descent over the non-destructive
// matrix operations. Its scratch arrays y, v, g, w, b and the accumulators
// dw, db are lists of matrix values whose slots the passes reassign, as the
// Java code reassigns array slots; the net's weight and bias arrays are
// updated the same way. Every exception a matrix operation throws ends
// `learn` with that exception; the model returns it.

module SimpleTeaching {
  import opened Wrappers
  import opened MatrixAlgebra
  import opened Samples
  import opened Rates
  import opened Training
  import opened Backprop
  import Nets
  import Testers
  import Arith

  /** What an array slot holds before a pass first writes it (Java's null). */
  const Unset: Matrix := Matrix(0, 0, [])

  /** The learning-rate schedule as a function of the epoch counter. */
  function Eta(schedule: Schedule, exp: real -> real): (eta: nat -> real)
    ensures forall e: nat :: eta(e) == schedule.At(e, exp)
  {
    (e: nat) => schedule.At(e, exp)
  }

  /** Every matrix a net is drawn with is well formed. */
  lemma BuiltFromValid(weights: seq<Matrix>, biases: seq<Matrix>, layerSizes: seq<int>, draw: (nat, nat) -> real)
    requires Nets.BuiltFrom(weights, biases, layerSizes, draw)
    ensures |weights| == |biases| && AllValid(weights) && AllValid(biases)
  {
    forall k | 0 <= k < |weights|
      ensures weights[k].Valid() && biases[k].Valid()
    {
      assert Nets.Drawn(layerSizes[k], layerSizes[k + 1], draw, 2 * k) == Ok(weights[k]);
      assert Nets.Drawn(1, layerSizes[k + 1], draw, 2 * k + 1) == Ok(biases[k]);
    }
  }

  /** Writing slot i replaces the prefix's last element. */
  lemma SlotPrefix(s: seq<Matrix>, i: nat, x: Matrix)
    requires i < |s|
    ensures s[i := x][..i + 1] == s[..i] + [x]
  {
  }

  /** Writing slot i prepends to the suffix after it. */
  lemma SlotSuffix(s: seq<Matrix>, i: nat, x: Matrix)
    requires i < |s|
    ensures s[i := x][i..] == [x] + s[i + 1..]
  {
  }

  /** One pass of that loop: slot i of the weights, then slot i of the biases. */
  method UpdateSlot(u: Update, ws: seq<Matrix>, bs: seq<Matrix>, d: Layers, i: nat)
    returns (thrown: Option<Error>, nws: seq<Matrix>, nbs: seq<Matrix>)
    requires i < |ws| == |bs| && i < |d.ws| && i < |d.bs|
    requires AllValid(ws) && AllValid(bs) && AllValid(d.ws) && AllValid(d.bs)
    ensures |nws| == |ws| && |nbs| == |bs| && AllValid(nws) && AllValid(nbs)
    ensures UpdateOne(u, ws[i], d.ws[i]).Err? ==> thrown == Some(UpdateOne(u, ws[i], d.ws[i]).error)
    ensures UpdateOne(u, ws[i], d.ws[i]).Ok? && UpdateOne(u, bs[i], d.bs[i]).Err? ==>
      thrown == Some(UpdateOne(u, bs[i], d.bs[i]).error)
    ensures UpdateOne(u, ws[i], d.ws[i]).Ok? && UpdateOne(u, bs[i], d.bs[i]).Ok? ==>
      thrown == None && nws[..i + 1] == ws[..i] + [UpdateOne(u, ws[i], d.ws[i]).value] &&
      nbs[..i + 1] == bs[..i] + [UpdateOne(u, bs[i], d.bs[i]).value] &&
      nws[i + 1..] == ws[i + 1..] && nbs[i + 1..] == bs[i + 1..]
  {
    nws, nbs := ws, bs;
    var wi := UpdateOne(u, ws[i], d.ws[i]);
    if wi.Err? {
      return Some(wi.error), nws, nbs;
    }
    SlotPrefix(nws, i, wi.value);
    nws := nws[i := wi.value];
    var bi := UpdateOne(u, bs[i], d.bs[i]);
    if bi.Err? {
      return Some(bi.error), nws, nbs;
    }
    SlotPrefix(nbs, i, bi.value);
    nbs := nbs[i := bi.value];
    thrown := None;
  }

  /**
   * The loop of `addCorrections` and `applyCorrections`: slot i of the
   * weight list and then slot i of the bias list are replaced by their
   * update by d, layer by layer; the first shape error stops it, with the
   * slots before it already replaced.
   */
  method UpdateSlots(u: Update, p: Layers, d: Layers) returns (thrown: Option<Error>, ws: seq<Matrix>, bs: seq<Matrix>)
    requires |p.ws| == |p.bs| == |d.ws| == |d.bs|
    requires AllValid(p.ws) && AllValid(p.bs) && AllValid(d.ws) && AllValid(d.bs)
    ensures |ws| == |bs| == |p.ws| && AllValid(ws) && AllValid(bs)
    ensures thrown == None <==> Updated(u, p, d, |p.ws|).Ok?
    ensures thrown.Some? ==> thrown.value == Updated(u, p, d, |p.ws|).error
    ensures thrown == None ==> Layers(ws, bs) == Updated(u, p, d, |p.ws|).value
  {
    var n := |p.ws|;
    ws, bs := p.ws, p.bs;
    for i := 0 to n
      invariant |ws| == n && |bs| == n && AllValid(ws) && AllValid(bs)
      invariant Updated(u, p, d, i) == Ok(Layers(ws[..i], bs[..i]))
      invariant ws[i..] == p.ws[i..] && bs[i..] == p.bs[i..]
    {
      UpdatedSnoc(u, p, d, i);
      assert ws[i] == ws[i..][0] && bs[i] == bs[i..][0];
      ghost var ws0, bs0 := ws, bs;
      thrown, ws, bs := UpdateSlot(u, ws, bs, d, i);
      if thrown.Some? {
        UpdatedFailurePersists(u, p, d, i + 1, n);
        return;
      }
      assert ws[i + 1..] == ws0[i..][1..] == p.ws[i + 1..];
      assert bs[i + 1..] == bs0[i..][1..] == p.bs[i + 1..];
    }
    assert ws == ws[..n] && bs == bs[..n];
    thrown := None;
  }

  /**
   * The slots of `forwardPass(input)` as values: slot 0 of y takes the
   * input, then layer by layer slot i of v and slot i + 1 of y take the
   * induced field and its activation; the first failing layer's exception
   * stops it.
   */
  method ForwardSlots(input: Matrix, weights: seq<Matrix>, biases: seq<Matrix>, f: real -> real,
                      y: seq<Matrix>, v: seq<Matrix>) returns (r: Result<Matrix>, ys: seq<Matrix>, vs: seq<Matrix>)
    requires |weights| == |biases| == |v| && |y| == |weights| + 1
    requires AllValid(weights) && AllValid(biases) && input.Valid()
    ensures |ys| == |y| && |vs| == |v|
    ensures r.Ok? <==> ForwardTrace(input, weights, biases, f, |weights|).Ok?
    ensures r.Err? ==> r.error == ForwardTrace(input, weights, biases, f, |weights|).error
    ensures r.Ok? ==> ys == ForwardTrace(input, weights, biases, f, |weights|).value.ys &&
                      vs == ForwardTrace(input, weights, biases, f, |weights|).value.vs &&
                      r.value == ys[|weights|]
  {
    var n := |weights|;
    ys, vs := y[0 := input], v;
    for i := 0 to n
      invariant |ys| == n + 1 && |vs| == n
      invariant ForwardTrace(input, weights, biases, f, i).Ok?
      invariant ys[..i + 1] == ForwardTrace(input, weights, biases, f, i).value.ys
      invariant vs[..i] == ForwardTrace(input, weights, biases, f, i).value.vs
    {
      var t := ForwardTrace(input, weights, biases, f, i).value;
      assert ys[i] == t.ys[i];
      var vi := Induced(ys[i], weights[i], biases[i]);
      if vi.Err? {
        TraceFailurePersists(input, weights, biases, f, i + 1, n);
        return Err(vi.error), ys, vs;
      }
      SlotPrefix(vs, i, vi.value);
      SlotPrefix(ys, i + 1, Apply(vi.value, f));
      assert ys[..i + 1] == ys[i + 1 := Apply(vi.value, f)][..i + 1];
      vs := vs[i := vi.value];
      ys := ys[i + 1 := Apply(vi.value, f)];
    }
    assert ys == ys[..n + 1] && vs == vs[..n];
    r := Ok(ys[n]);
  }

  /** One layer of the backward loop, below a layer whose gradient is
      `gNext`: the layer's gradient and weight correction, or the exception
      that ends the whole pass. */
  method BackwardLayer(y: seq<Matrix>, v: seq<Matrix>, e: Matrix, weights: seq<Matrix>, df: real -> real,
                       i: nat, gNext: Matrix)
    returns (r: Result<(Matrix, Matrix)>)
    requires i + 1 < |v| <= |weights| && |y| == |v| + 1
    requires AllValid(y) && AllValid(v) && AllValid(weights) && e.Valid()
    requires Backward(y, v, e, weights, df, i + 1).Ok? && gNext == Backward(y, v, e, weights, df, i + 1).value.gs[0]
    ensures r.Err? ==> Backward(y, v, e, weights, df, 0) == Err(r.error)
    ensures r.Ok? ==>
      (Backward(y, v, e, weights, df, i) ==
       Ok(Grad([r.value.0] + Backward(y, v, e, weights, df, i + 1).value.gs,
               [r.value.1] + Backward(y, v, e, weights, df, i + 1).value.dws)))
  {
    var back := MulT(gNext, weights[i + 1]);
    if back.Err? {
      BackwardFailurePersists(y, v, e, weights, df, i);
      return Err(back.error);
    }
    var gi := Elementwise(Times, Apply(v[i], df), back.value);
    if gi.Err? {
      BackwardFailurePersists(y, v, e, weights, df, i);
      return Err(gi.error);
    }
    var wi := TMul(y[i], gi.value);
    if wi.Err? {
      BackwardFailurePersists(y, v, e, weights, df, i);
      return Err(wi.error);
    }
    r := Ok((gi.value, wi.value));
  }

  /**
   * The slots of `backwardPass(E)` as values: from the last layer down, the
   * gradient slot, the weight-correction slot and the bias-correction slot
   * of each layer are written; the first failing layer's exception stops it.
   */
  method BackwardSlots(y: seq<Matrix>, v: seq<Matrix>, e: Matrix, weights: seq<Matrix>, df: real -> real,
                       g: seq<Matrix>, w: seq<Matrix>, b: seq<Matrix>)
    returns (r: Result<Layers>, gs: seq<Matrix>, ws: seq<Matrix>, bs: seq<Matrix>)
    requires |v| == |g| == |w| == |b| == |weights| && |y| == |weights| + 1
    requires AllValid(y) && AllValid(v) && AllValid(weights) && e.Valid()
    ensures |gs| == |ws| == |bs| == |weights|
    ensures |weights| == 0 ==> r == Err(IndexOutOfBounds(-1))
    ensures |weights| > 0 ==>
      (r.Ok? <==> Backward(y, v, e, weights, df, 0).Ok?) &&
      (r.Err? ==> r.error == Backward(y, v, e, weights, df, 0).error) &&
      (r.Ok? ==> gs == Backward(y, v, e, weights, df, 0).value.gs &&
                 ws == Backward(y, v, e, weights, df, 0).value.dws &&
                 bs == gs && r.value == Layers(ws, bs))
  {
    gs, ws, bs := g, w, b;
    var last := |ws| - 1;
    if last < 0 {
      return Err(IndexOutOfBounds(last)), gs, ws, bs;
    }
    var p := Elementwise(Times, Apply(v[last], df), e);
    if p.Err? {
      BackwardFailurePersists(y, v, e, weights, df, last);
      return Err(p.error), gs, ws, bs;
    }
    var gl := Scale(p.value, -1.0);
    gs := gs[last := gl];
    var wl := TMul(y[last], gl);
    if wl.Err? {
      BackwardFailurePersists(y, v, e, weights, df, last);
      return Err(wl.error), gs, ws, bs;
    }
    ws := ws[last := wl.value];
    bs := bs[last := gl];
    assert gs[last..] == [gl] && ws[last..] == [wl.value] && bs[last..] == [gl];
    var i := last - 1;
    while i >= 0
      invariant -1 <= i < last && |gs| == |ws| == |bs| == last + 1
      invariant Backward(y, v, e, weights, df, i + 1).Ok?
      invariant gs[i + 1..] == Backward(y, v, e, weights, df, i + 1).value.gs
      invariant ws[i + 1..] == Backward(y, v, e, weights, df, i + 1).value.dws
      invariant bs[i + 1..] == gs[i + 1..]
    {
      ghost var later := Backward(y, v, e, weights, df, i + 1).value;
      assert gs[i + 1] == later.gs[0];
      var layer := BackwardLayer(y, v, e, weights, df, i, gs[i + 1]);
      if layer.Err? {
        return Err(layer.error), gs, ws, bs;
      }
      var (gi, wi) := layer.value;
      SlotSuffix(gs, i, gi);
      SlotSuffix(ws, i, wi);
      SlotSuffix(bs, i, gi);
      gs := gs[i := gi];
      ws := ws[i := wi];
      bs := bs[i := gi];
      i := i - 1;
    }
    assert gs == gs[0..] && ws == ws[0..] && bs == bs[0..];
    ghost var full := Backward(y, v, e, weights, df, 0);
    assert full.Ok? && gs == full.value.gs && ws == full.value.dws && bs == gs;
    r := Ok(Layers(ws, bs));
  }

  class SimpleTeacher {
    const teacherName: string
    const netParameters: Nets.NetParameters
    const trainingParameters: TrainingParameters
    const sampleService: ListSampleService
    var trainingResult: TrainingResult?

    var y: seq<Matrix>
    var v: seq<Matrix>
    var g: seq<Matrix>
    var w: seq<Matrix>
    var b: seq<Matrix>
    var dw: seq<Matrix>
    var db: seq<Matrix>
    var net: Nets.Net?
    /** The rate object, held as the schedule it carries: nothing a teacher
        does while learning writes to it. */
    var rateFunc: Option<Schedule>
    /** Epochs run so far; it only ever counts up from zero. */
    var epochCount: nat
    var tester: Testers.OldTester?
    var trainingErrors: seq<real>
    /** The net as `resetVariables` created it, before any training. */
    ghost var initial: Layers

    /** The teacher as the inherited setters leave it: nothing created yet. */
    constructor (teacherName: string, netParameters: Nets.NetParameters,
                 trainingParameters: TrainingParameters, sampleService: ListSampleService)
      ensures this.teacherName == teacherName && this.netParameters == netParameters
      ensures this.trainingParameters == trainingParameters && this.sampleService == sampleService
      ensures net == null && tester == null && trainingResult == null && epochCount == 0
    {
      this.teacherName := teacherName;
      this.netParameters := netParameters;
      this.trainingParameters := trainingParameters;
      this.sampleService := sampleService;
      trainingResult := null;
      y, v, g, w, b, dw, db := [], [], [], [], [], [], [];
      net := null;
      rateFunc := None;
      epochCount := 0;
      tester := null;
      trainingErrors := [];
      initial := Layers([], []);
    }

    /** A net of valid layers: one valid bias per valid weight matrix. */
    ghost predicate NetValid()
      reads this`net, net
    {
      net != null && |net.weights| == |net.biases| && AllValid(net.weights) && AllValid(net.biases)
    }

    /** After `resetVariables`: a net of valid layers, one scratch slot per
        layer (one more for the outputs) and one accumulator per layer. */
    ghost predicate Ready()
      reads this`net, this`y, this`v, this`g, this`w, this`b, this`dw, this`db, net
    {
      NetValid() &&
      |y| == |net.weights| + 1 && |v| == |net.weights| && |g| == |net.weights| &&
      |w| == |net.weights| && |b| == |net.weights| &&
      |dw| == |net.weights| && |db| == |net.weights| && AllValid(dw) && AllValid(db)
    }

    /** The accumulators have the shapes of the weights and the biases. */
    ghost predicate Shaped()
      reads this`net, this`y, this`v, this`g, this`w, this`b, this`dw, this`db, net
    {
      Ready() && SameShapes(dw, net.weights) && SameShapes(db, net.biases)
    }

    /** The net's layers as a value. */
    ghost function Current(): Layers
      reads this`net, net
      requires net != null
    {
      Layers(net.weights, net.biases)
    }

    /** The descent step at the current epoch's rate, by the accumulators. */
    ghost function Descent(exp: real -> real): Result<Layers>
      reads this`net, this`y, this`v, this`g, this`w, this`b, this`dw, this`db, net, this`rateFunc, this`epochCount
      requires Ready() && rateFunc.Some?
    {
      Updated(Descend(rateFunc.value.At(epochCount, exp)), Current(), Layers(dw, db), |dw|)
    }

    /**
     * `forwardPass(input)`: y[0] = input, v[i] = y[i] * W[i] + B[i] and
     * y[i + 1] = f(v[i]) layer by layer; the output is y[last]. The slots
     * then hold the traced forward pass; the first failing layer's
     * exception is the pass's.
     */
    method ForwardPass(input: Matrix, f: real -> real) returns (r: Result<Matrix>)
      requires Ready() && input.Valid()
      modifies this`y, this`v
      ensures Ready()
      ensures r.Ok? <==> ForwardTrace(input, net.weights, net.biases, f, |net.weights|).Ok?
      ensures r.Err? ==> r.error == ForwardTrace(input, net.weights, net.biases, f, |net.weights|).error
      ensures r.Ok? ==> y == ForwardTrace(input, net.weights, net.biases, f, |net.weights|).value.ys &&
                        v == ForwardTrace(input, net.weights, net.biases, f, |net.weights|).value.vs &&
                        r.value == y[|net.weights|]
    {
      var ys, vs;
      r, ys, vs := ForwardSlots(input, net.weights, net.biases, f, y, v);
      y, v := ys, vs;
    }

    /**
     * `backwardPass(E)`: g[last] = -(f'(v[last]) . E), then from the layer
     * below the last down to 0, g[i] = f'(v[i]) . (g[i + 1] * W[i + 1]^T);
     * every layer's w[i] = y[i]^T * g[i] and b[i] = g[i]. Returns {w, b}. A
     * net without layers fails on the slot at index -1.
     */
    method BackwardPass(e: Matrix, df: real -> real) returns (r: Result<Layers>)
      requires Ready() && e.Valid() && AllValid(y) && AllValid(v)
      modifies this`g, this`w, this`b
      ensures Ready()
      ensures |net.weights| == 0 ==> r == Err(IndexOutOfBounds(-1))
      ensures |net.weights| > 0 ==>
        (r.Ok? <==> Backward(y, v, e, net.weights, df, 0).Ok?) &&
        (r.Err? ==> r.error == Backward(y, v, e, net.weights, df, 0).error) &&
        (r.Ok? ==> g == Backward(y, v, e, net.weights, df, 0).value.gs &&
                   w == Backward(y, v, e, net.weights, df, 0).value.dws &&
                   b == g && r.value == Layers(w, b))
    {
      var gs, ws, bs;
      r, gs, ws, bs := BackwardSlots(y, v, e, net.weights, df, g, w, b);
      g, w, b := gs, ws, bs;
    }

    /** `calcTrainingError(E)`: the sample's loss, half the sum of squares
        of E, is appended to the training errors and returned. */
    method CalcTrainingError(e: Matrix) returns (error: real)
      modifies this`trainingErrors
      ensures error == HalfSquares(e) && error >= 0.0
      ensures trainingErrors == old(trainingErrors) + [error]
    {
      error := SqrsSum(e.data) / 2.0;
      LossNonNegative(e);
      trainingErrors := trainingErrors + [error];
    }

    /** `addCorrections({dW, dB})`: dw[i] = dw[i] + dW[i], then db[i] = db[i]
        + dB[i], layer by layer; the first shape error stops it. */
    method AddCorrections(c: Layers) returns (thrown: Option<Error>)
      requires Ready() && |c.ws| == |dw| && |c.bs| == |dw| && AllValid(c.ws) && AllValid(c.bs)
      modifies this`dw, this`db
      ensures Ready()
      ensures thrown == None <==> Updated(Accumulate, old(Layers(dw, db)), c, |dw|).Ok?
      ensures thrown.Some? ==> thrown.value == Updated(Accumulate, old(Layers(dw, db)), c, |dw|).error
      ensures thrown == None ==> Layers(dw, db) == Updated(Accumulate, old(Layers(dw, db)), c, |dw|).value
    {
      // dw[i] = dw[i].add(dW[i]); db[i] = db[i].add(dB[i])
      thrown, dw, db := UpdateSlots(Accumulate, Layers(dw, db), c);
    }

    /**
     * `applyCorrections()`: the rate the schedule gives at the current
     * epoch count, then W[i] = W[i] + (-rate) * dw[i] and B[i] = B[i] +
     * (-rate) * db[i], layer by layer. Without a rate object the call to
     * `apply` throws a null-pointer exception.
     */
    method ApplyCorrections(exp: real -> real) returns (thrown: Option<Error>)
      requires Ready()
      modifies net`weights, net`biases
      ensures Ready()
      ensures rateFunc.None? ==> thrown == Some(NullPointer) && Current() == old(Current())
      ensures rateFunc.Some? ==> (thrown == None <==> old(Descent(exp)).Ok?)
      ensures rateFunc.Some? && thrown.Some? ==> thrown.value == old(Descent(exp)).error
      ensures rateFunc.Some? && thrown == None ==> Current() == old(Descent(exp)).value
    {
      if rateFunc.None? {
        return Some(NullPointer);
      }
      var rate := rateFunc.value.At(epochCount, exp);
      // W[i] = W[i].scaleAdd(-rate, dw[i]); B[i] = B[i].scaleAdd(-rate, db[i])
      thrown, net.weights, net.biases := UpdateSlots(Descend(rate), Layers(net.weights, net.biases), Layers(dw, db));
    }
    /** What one sample yields on the current net. */
    ghost function StepOf(s: Sample, f: real -> real, df: real -> real): Result<Step>
      reads this`net, net
      requires NetValid() && s.source.Valid() && s.target.Valid()
    {
      SampleStep(s, net.weights, net.biases, f, df)
    }

    /**
     * One pass of the inner loop: forward pass, E = T - O, the loss kept,
     * backward pass, corrections added. It takes the sample's step on the
     * current net and adds it into the accumulators; a failing step or
     * addition ends it with its exception.
     */
    method TrainSample(s: Sample, f: real -> real, df: real -> real) returns (thrown: Option<Error>)
      requires Ready() && s.source.Valid() && s.target.Valid()
      modifies this`y, this`v, this`g, this`w, this`b, this`dw, this`db, this`trainingErrors
      ensures Ready()
      ensures StepOf(s, f, df).Err? ==> thrown == Some(StepOf(s, f, df).error)
      ensures StepOf(s, f, df).Ok? ==>
        (thrown == None <==> Updated(Accumulate, Layers(old(dw), old(db)), Deltas(StepOf(s, f, df).value), |dw|).Ok?)
      ensures StepOf(s, f, df).Ok? && thrown.Some? ==>
        thrown.value == Updated(Accumulate, Layers(old(dw), old(db)), Deltas(StepOf(s, f, df).value), |dw|).error
      ensures thrown == None ==> (StepOf(s, f, df).Ok? &&
        Layers(dw, db) == Updated(Accumulate, Layers(old(dw), old(db)), Deltas(StepOf(s, f, df).value), |dw|).value &&
        trainingErrors == old(trainingErrors) + [StepOf(s, f, df).value.loss])
    {
      var output := ForwardPass(s.source, f);
      if output.Err? {
        return Some(output.error);
      }
      // getError: target.sub(output)
      var e := Elementwise(Minus, s.target, output.value);
      if e.Err? {
        return Some(e.error);
      }
      var error := CalcTrainingError(e.value);
      var corrects := BackwardPass(e.value, df);
      if corrects.Err? {
        return Some(corrects.error);
      }
      thrown := AddCorrections(corrects.value);
    }
    /** One batch, then the descent step at the current epoch's rate. */
    ghost function BatchOf(batch: seq<Sample>, f: real -> real, df: real -> real, exp: real -> real): Result<Trained>
      reads this`net, net, this`rateFunc, this`epochCount
      requires NetValid() && SamplesValid(batch) && rateFunc.Some?
    {
      BatchUpdate(batch, Current(), f, df, rateFunc.value.At(epochCount, exp))
    }

    /** The accumulators and the training errors after the first i steps
        of a batch, added from start. */
    ghost predicate AccumulatedAt(steps: seq<Result<Step>>, start: Layers, errors: seq<real>, i: nat)
      reads this`dw, this`db, this`trainingErrors
      requires i <= |steps| && |start.ws| == |start.bs| && AllValid(start.ws) && AllValid(start.bs)
      requires StepsFit(steps, |start.ws|)
    {
      var a := Accumulated(steps, start, i);
      a.Ok? && Layers(dw, db) == a.value.acc && trainingErrors == errors + a.value.losses
    }

    /** One pass of the sample loop: sample i's step added to the
        accumulators and its loss kept. */
    method AccumulateStep(batch: seq<Sample>, f: real -> real, df: real -> real, ghost steps: seq<Result<Step>>,
                          ghost start: Layers, ghost errors: seq<real>, i: nat) returns (thrown: Option<Error>)
      requires Ready() && SamplesValid(batch) && i < |batch| && steps == BatchSteps(batch, net.weights, net.biases, f, df)
      requires |start.ws| == |start.bs| == |net.weights| && AllValid(start.ws) && AllValid(start.bs)
      requires AccumulatedAt(steps, start, errors, i)
      modifies this`y, this`v, this`g, this`w, this`b, this`dw, this`db, this`trainingErrors
      ensures Ready()
      ensures thrown.Some? ==> Accumulated(steps, start, i + 1) == Err(thrown.value)
      ensures thrown == None ==> AccumulatedAt(steps, start, errors, i + 1)
    {
      assert steps[i] == StepOf(batch[i], f, df);
      AccumulatedNext(steps, start, i + 1);
      ghost var sums := Accumulated(steps, start, i).value;
      assert Layers(dw, db) == sums.acc && |dw| == |start.ws|;
      thrown := TrainSample(batch[i], f, df);
      if thrown == None {
        assert Accumulated(steps, start, i + 1) == Ok(Sums(Layers(dw, db), sums.losses + [steps[i].value.loss]));
      }
    }

    /**
     * The sample loop of a batch: every sample's step on the current net,
     * added in order into the accumulators, its loss kept; the first
     * failing step or addition ends it with its exception.
     */
    method AccumulateBatch(batch: seq<Sample>, f: real -> real, df: real -> real) returns (thrown: Option<Error>)
      requires Ready() && SamplesValid(batch)
      modifies this`y, this`v, this`g, this`w, this`b, this`dw, this`db, this`trainingErrors
      ensures Ready()
      ensures thrown.Some? ==>
        Accumulated(BatchSteps(batch, net.weights, net.biases, f, df), old(Layers(dw, db)), |batch|) == Err(thrown.value)
      ensures thrown == None ==>
        AccumulatedAt(BatchSteps(batch, net.weights, net.biases, f, df), old(Layers(dw, db)), old(trainingErrors), |batch|)
    {
      ghost var steps := BatchSteps(batch, net.weights, net.biases, f, df);
      ghost var start := Layers(dw, db);
      for i := 0 to |batch|
        invariant Ready() && net == old(net) && net.weights == old(net.weights) && net.biases == old(net.biases)
        invariant AccumulatedAt(steps, start, old(trainingErrors), i)
      {
        thrown := AccumulateStep(batch, f, df, steps, start, old(trainingErrors), i);
        if thrown.Some? {
          AccumulatedFailurePersists(steps, start, i + 1, |batch|);
          return;
        }
      }
      thrown := None;
    }

    /**
     * The body of the batch loop up to the update: `zeros(dw)`, `zeros(db)`,
     * then the sample loop. It is the batch's `Batch`: the steps summed from
     * zero accumulators, every step taken on the net as it was before the
     * batch.
     */
    method SumBatch(batch: seq<Sample>, f: real -> real, df: real -> real) returns (thrown: Option<Error>)
      requires Shaped() && SamplesValid(batch)
      modifies this`y, this`v, this`g, this`w, this`b, this`dw, this`db, this`trainingErrors
      ensures Ready()
      ensures thrown == None <==> Batch(batch, net.weights, net.biases, f, df).Ok?
      ensures thrown.Some? ==> thrown.value == Batch(batch, net.weights, net.biases, f, df).error
      ensures thrown == None ==> (Shaped() &&
        Layers(dw, db) == Batch(batch, net.weights, net.biases, f, df).value.acc &&
        trainingErrors == old(trainingErrors) + Batch(batch, net.weights, net.biases, f, df).value.losses)
    {
      ghost var steps := BatchSteps(batch, net.weights, net.biases, f, df);
      ghost var z := ZeroLayers(net.weights, net.biases);
      ZerosLikeSameShapes(dw, net.weights);
      ZerosLikeSameShapes(db, net.biases);
      dw := ZerosLike(dw);
      db := ZerosLike(db);
      thrown := AccumulateBatch(batch, f, df);
      AccumulatedKeepsShapes(steps, z, |batch|);
    }

    /**
     * One pass of the batch loop: `zeros(dw)`, `zeros(db)`, every sample in
     * turn, then `applyCorrections()`. It is the batch update of the current
     * net at the current epoch's rate: the samples' steps, all taken on the
     * net as it was before the batch, summed from zero accumulators, then
     * the descent; the losses are kept one per sample, in order.
     */
    method TrainBatch(batch: seq<Sample>, f: real -> real, df: real -> real, exp: real -> real)
      returns (thrown: Option<Error>)
      requires Shaped() && SamplesValid(batch) && rateFunc.Some?
      modifies this`y, this`v, this`g, this`w, this`b, this`dw, this`db, this`trainingErrors, net`weights, net`biases
      ensures Ready()
      ensures thrown == None <==> old(BatchOf(batch, f, df, exp)).Ok?
      ensures thrown.Some? ==> thrown.value == old(BatchOf(batch, f, df, exp)).error
      ensures thrown == None ==> Shaped() && Current() == old(BatchOf(batch, f, df, exp)).value.net &&
                                 trainingErrors == old(trainingErrors) + old(BatchOf(batch, f, df, exp)).value.losses
    {
      ghost var before := Current();
      ghost var rate := rateFunc.value.At(epochCount, exp);
      thrown := SumBatch(batch, f, df);
      if thrown.Some? {
        return;
      }
      UpdatedShapedLike(Descend(rate), before, Layers(dw, db));
      thrown := ApplyCorrections(exp);
    }

    /** One epoch over the given batches at the current epoch's rate. */
    ghost function EpochOf(batches: seq<seq<Sample>>, f: real -> real, df: real -> real, exp: real -> real): Result<Trained>
      reads this`net, net, this`rateFunc, this`epochCount
      requires NetValid() && BatchesValid(batches) && rateFunc.Some?
    {
      EpochRun(batches, Current(), f, df, rateFunc.value.At(epochCount, exp), PerSample, |batches|)
    }

    /** The epoch run of the first i batches from `start` has brought the
        teacher to its current net and losses. */
    ghost predicate EpochAt(batches: seq<seq<Sample>>, start: Layers, errors: seq<real>, f: real -> real,
                            df: real -> real, rate: real, i: nat)
      reads this`net, net, this`trainingErrors
      requires NetValid() && BatchesValid(batches) && i <= |batches|
      requires |start.ws| == |start.bs| && AllValid(start.ws) && AllValid(start.bs)
    {
      EpochRun(batches, start, f, df, rate, PerSample, i).Ok? &&
      Current() == EpochRun(batches, start, f, df, rate, PerSample, i).value.net &&
      trainingErrors == errors + EpochRun(batches, start, f, df, rate, PerSample, i).value.losses
    }

    /** One pass of the batch loop, as a step of the epoch run; a failing
        batch ends the whole epoch with its exception. */
    method EpochStep(batches: seq<seq<Sample>>, f: real -> real, df: real -> real, exp: real -> real,
                     ghost rate: real, ghost start: Layers, ghost errors: seq<real>, i: nat)
      returns (thrown: Option<Error>)
      requires Shaped() && BatchesValid(batches) && i < |batches| && rateFunc.Some?
      requires rate == rateFunc.value.At(epochCount, exp)
      requires |start.ws| == |start.bs| && AllValid(start.ws) && AllValid(start.bs)
      requires EpochAt(batches, start, errors, f, df, rate, i)
      modifies this`y, this`v, this`g, this`w, this`b, this`dw, this`db, this`trainingErrors, net`weights, net`biases
      ensures Ready()
      ensures thrown.Some? ==> EpochRun(batches, start, f, df, rate, PerSample, |batches|) == Err(thrown.value)
      ensures thrown == None ==> Shaped() && EpochAt(batches, start, errors, f, df, rate, i + 1)
    {
      ghost var t := EpochRun(batches, start, f, df, rate, PerSample, i).value;
      ghost var b := BatchUpdate(batches[i], t.net, f, df, rate);
      EpochRunNext(batches, start, f, df, rate, PerSample, i + 1);
      assert BatchOf(batches[i], f, df, exp) == b;
      thrown := TrainBatch(batches[i], f, df, exp);
      if thrown.Some? {
        EpochRunFailurePersists(batches, start, f, df, rate, PerSample, i + 1, |batches|);
        return;
      }
      Arith.AppendAssociates(errors, t.losses, b.value.losses);
    }

    /** The batch loop after i batches of an epoch at `rate` from `start`:
        either still running at the epoch run's i-th state, or stopped by an
        exception that the whole epoch run ends with. */
    ghost predicate EpochState(batches: seq<seq<Sample>>, start: Layers, errors: seq<real>, f: real -> real,
                               df: real -> real, exp: real -> real, rate: real, i: nat, thrown: Option<Error>)
      reads this`net, this`y, this`v, this`g, this`w, this`b, this`dw, this`db, net
      reads this`rateFunc, this`epochCount, this`trainingErrors
    {
      BatchesValid(batches) && i <= |batches| && Ready() && rateFunc.Some? &&
      rate == rateFunc.value.At(epochCount, exp) &&
      |start.ws| == |start.bs| && AllValid(start.ws) && AllValid(start.bs) &&
      (thrown.Some? ==> EpochRun(batches, start, f, df, rate, PerSample, |batches|) == Err(thrown.value)) &&
      (thrown == None ==> Shaped() && EpochAt(batches, start, errors, f, df, rate, i))
    }

    /** `EpochStep` as a move of the batch loop's state. */
    method EpochAdvance(batches: seq<seq<Sample>>, f: real -> real, df: real -> real, exp: real -> real,
                        ghost rate: real, ghost start: Layers, ghost errors: seq<real>, i: nat)
      returns (thrown: Option<Error>)
      requires i < |batches| && EpochState(batches, start, errors, f, df, exp, rate, i, None)
      modifies this`y, this`v, this`g, this`w, this`b, this`dw, this`db, this`trainingErrors, net`weights, net`biases
      ensures EpochState(batches, start, errors, f, df, exp, rate, i + 1, thrown)
    {
      thrown := EpochStep(batches, f, df, exp, rate, start, errors, i);
    }

    /** The batch loop's state once it has left: the exception it stopped
        at is the epoch's, and without one every batch has run. */
    lemma EpochStateDone(batches: seq<seq<Sample>>, start: Layers, errors: seq<real>, f: real -> real,
                         df: real -> real, exp: real -> real, rate: real, i: nat, thrown: Option<Error>)
      requires EpochState(batches, start, errors, f, df, exp, rate, i, thrown)
      requires thrown.Some? || i == |batches|
      ensures EpochState(batches, start, errors, f, df, exp, rate, |batches|, thrown)
    {
    }

    /** The batch loop, `for (Iterable<Sample> batch : batches)`, left at the first exception. */
    method EpochLoop(batches: seq<seq<Sample>>, f: real -> real, df: real -> real, exp: real -> real,
                     ghost rate: real, ghost start: Layers, ghost errors: seq<real>)
      returns (thrown: Option<Error>)
      requires EpochState(batches, start, errors, f, df, exp, rate, 0, None)
      modifies this`y, this`v, this`g, this`w, this`b, this`dw, this`db, this`trainingErrors, net`weights, net`biases
      ensures EpochState(batches, start, errors, f, df, exp, rate, |batches|, thrown)
    {
      thrown := None;
      var i := 0;
      while i < |batches| && thrown == None
        invariant EpochState(batches, start, errors, f, df, exp, rate, i, thrown)
      {
        thrown := EpochAdvance(batches, f, df, exp, rate, start, errors, i);
        i := i + 1;
      }
      EpochStateDone(batches, start, errors, f, df, exp, rate, i, thrown);
    }

    /**
     * One epoch: each batch trained on the net the previous one left, the
     * losses kept one per sample; the first exception ends the epoch.
     */
    method EpochTrain(batches: seq<seq<Sample>>, f: real -> real, df: real -> real, exp: real -> real)
      returns (thrown: Option<Error>)
      requires Shaped() && BatchesValid(batches) && rateFunc.Some?
      modifies this`y, this`v, this`g, this`w, this`b, this`dw, this`db, this`trainingErrors, net`weights, net`biases
      ensures Ready()
      ensures thrown == None <==> old(EpochOf(batches, f, df, exp)).Ok?
      ensures thrown.Some? ==> thrown.value == old(EpochOf(batches, f, df, exp)).error
      ensures thrown == None ==> (Shaped() && Current() == old(EpochOf(batches, f, df, exp)).value.net &&
                                  trainingErrors == old(trainingErrors) + old(EpochOf(batches, f, df, exp)).value.losses)
    {
      ghost var start := Current();
      ghost var rate := rateFunc.value.At(epochCount, exp);
      assert EpochAt(batches, start, trainingErrors, f, df, rate, 0);
      thrown := EpochLoop(batches, f, df, exp, rate, start, trainingErrors);
    }

    /** The net was drawn from these layer sizes with the activations of the
        net parameters, and is still as it was drawn. */
    ghost predicate DrawnFrom(layerSizes: seq<int>, draw: (nat, nat) -> real)
      reads this`net, this`initial, net, netParameters
      reads if net != null then {net.activations} else {}
    {
      net != null && netParameters.activation != null && net.activations.Length == |net.weights| &&
      (forall k :: 0 <= k < net.activations.Length ==> net.activations[k] == netParameters.activation) &&
      Nets.BuiltFrom(net.weights, net.biases, layerSizes, draw) && initial == Current()
    }

    /** Scratch arrays with nothing in them yet and accumulators that are
        clones of the weights and biases. */
    ghost predicate Scratched()
      reads this`net, this`y, this`v, this`g, this`w, this`b, this`dw, this`db, net
    {
      Shaped() && dw == net.weights && db == net.biases &&
      (forall k :: 0 <= k < |y| ==> y[k] == Unset) &&
      (forall k :: 0 <= k < |net.weights| ==> v[k] == Unset && g[k] == Unset && w[k] == Unset && b[k] == Unset)
    }

    /** A tester for this teacher and these parameters that has not tested yet. */
    ghost predicate NewTester()
      reads this`tester, tester, trainingParameters
    {
      tester != null && tester.Valid() && tester.name == teacherName && tester.bestNet == null &&
      tester.stopReason == None && tester.testingErrors == [] &&
      tester.maxEpochsCount == trainingParameters.maxEpochsCount && tester.errorLimit == trainingParameters.errorLimit
    }

    /** The second half of `resetVariables()`: scratch arrays of the layer
        count with nothing in them yet, and accumulators that are clones of
        the weights and biases. */
    method AllocateScratch()
      requires net != null && |net.weights| == |net.biases| && AllValid(net.weights) && AllValid(net.biases)
      modifies this`y, this`v, this`g, this`w, this`b, this`dw, this`db
      ensures Scratched()
    {
      var layerCount := |net.weights|;
      y := seq(layerCount + 1, _ => Unset);
      v := seq(layerCount, _ => Unset);
      g := seq(layerCount, _ => Unset);
      w := seq(layerCount, _ => Unset);
      b := seq(layerCount, _ => Unset);
      // dw[i] = weights[i].clone(); db[i] = biases[i].clone()
      dw := net.weights;
      db := net.biases;
    }

    /** The first line of `resetVariables()`: `net = netParameters.createNet()`. */
    method NewNet(draw: (nat, nat) -> real) returns (thrown: Option<Error>)
      modifies this`net, this`initial
      ensures thrown == Nets.CreateError(netParameters.layerSizes[..], netParameters.activation == null)
      ensures thrown == None ==> fresh(net) && DrawnFrom(netParameters.layerSizes[..], draw)
      ensures thrown == None ==> |net.weights| == |net.biases| && AllValid(net.weights) && AllValid(net.biases)
    {
      var created := netParameters.CreateNet(draw);
      if created.Err? {
        assert Nets.CreateError(netParameters.layerSizes[..], netParameters.activation == null) == Some(created.error);
        return Some(created.error);
      }
      BuiltFromValid(created.value.weights, created.value.biases, netParameters.layerSizes[..], draw);
      net := created.value;
      initial := Current();
      thrown := None;
    }

    /**
     * `resetVariables()`: a new net from the net parameters (the exception
     * `createNet` throws ends `learn`), the rate, a new tester and result,
     * no training errors, scratch arrays of the layer count with nothing in
     * them yet, and accumulators that are clones of the weights and biases.
     */
    method ResetVariables(draw: (nat, nat) -> real) returns (thrown: Option<Error>)
      modifies this
      ensures thrown == old(Nets.CreateError(netParameters.layerSizes[..], netParameters.activation == null))
      ensures epochCount == old(epochCount)
      ensures thrown == None ==> fresh(net) && fresh(tester) && fresh(trainingResult)
      ensures thrown == None ==> DrawnFrom(old(netParameters.layerSizes[..]), draw) && Scratched()
      ensures thrown == None ==> rateFunc == old(ScheduleOf(trainingParameters.rate)) && trainingErrors == []
      ensures thrown == None ==> NewTester()
    {
      var schedule := ScheduleOf(trainingParameters.rate);
      thrown := NewNet(draw);
      if thrown.Some? {
        return;
      }
      ResetRest(schedule);
    }

    /** The rest of `resetVariables()` once the net is created. */
    method ResetRest(schedule: Option<Schedule>)
      requires net != null && |net.weights| == |net.biases| && AllValid(net.weights) && AllValid(net.biases)
      modifies this`rateFunc, this`tester, this`trainingErrors, this`trainingResult
      modifies this`y, this`v, this`g, this`w, this`b, this`dw, this`db
      ensures fresh(tester) && fresh(trainingResult)
      ensures Scratched() && NewTester() && rateFunc == schedule && trainingErrors == []
    {
      rateFunc := schedule;
      trainingErrors := [];
      tester := new Testers.OldTester(teacherName, trainingParameters);
      trainingResult := new TrainingResult();
      AllocateScratch();
    }

    /** The net's activations are all the parameters' activation, whose
        scale has an owner: what `tester.test` needs of the net beyond
        valid layers. */
    ghost predicate Testable()
      reads this`net, net, netParameters
      reads if net != null then {net.activations} else {}
      reads if netParameters.activation != null then {netParameters.activation} else {}
    {
      net != null && netParameters.activation != null && netParameters.activation.owner != null &&
      forall k :: 0 <= k < net.activations.Length ==> net.activations[k] == netParameters.activation
    }

    /** A testable net of valid layers, one activation per layer, is a valid net. */
    lemma TestableIsValid()
      requires Testable() && NetValid() && |net.weights| <= net.activations.Length
      ensures net.Valid()
    {
    }

    /**
     * The state of `learn` after `epochCount` epochs over `batches`: the net
     * and the training errors are those of the first `epochCount` epochs run
     * from the net `resetVariables` drew, at the rate of each epoch, and the
     * tester has recorded one test before training and one after each epoch.
     */
    ghost predicate Learning(batches: seq<seq<Sample>>, testing: seq<Sample>, f: real -> real, df: real -> real,
                             exp: real -> real)
      reads this`net, this`y, this`v, this`g, this`w, this`b, this`dw, this`db, net, netParameters
      reads this`rateFunc, this`epochCount, this`trainingErrors, this`initial, this`tester, tester
      reads if net != null then {net.activations} else {}
      reads if netParameters.activation != null then {netParameters.activation} else {}
    {
      TrainedAt(batches, f, df, exp) && SamplesValid(testing) && |testing| > 0 &&
      tester != null && tester.Valid() && |tester.testingErrors| == epochCount + 1
    }

    /** The training half of `Learning`: the net and the training errors are
        those of the first `epochCount` epochs from the drawn net. */
    ghost predicate TrainedAt(batches: seq<seq<Sample>>, f: real -> real, df: real -> real, exp: real -> real)
      reads this`net, this`y, this`v, this`g, this`w, this`b, this`dw, this`db, net, netParameters
      reads this`rateFunc, this`epochCount, this`trainingErrors, this`initial
      reads if net != null then {net.activations} else {}
      reads if netParameters.activation != null then {netParameters.activation} else {}
    {
      Shaped() && Testable() && rateFunc.Some? && BatchesValid(batches) &&
      |initial.ws| == |initial.bs| == net.activations.Length && AllValid(initial.ws) && AllValid(initial.bs) &&
      Trajectory(batches, initial, f, df, Eta(rateFunc.value, exp), PerSample, epochCount) == Ok(Trained(Current(), trainingErrors))
    }

    /** `testing()`: the tester tests the current net on the testing samples at the current epoch. */
    method Testing(testing: seq<Sample>) returns (thrown: Option<Error>)
      requires Testable() && NetValid() && |net.weights| <= net.activations.Length
      requires tester != null && tester.Valid() && SamplesValid(testing) && |testing| > 0
      modifies tester
      ensures tester.Valid() && tester.errorLimit == old(tester.errorLimit) && tester.maxEpochsCount == old(tester.maxEpochsCount)
      ensures thrown == None ==> |tester.testingErrors| == |old(tester.testingErrors)| + 1
      ensures thrown == None ==>
        tester.stopReason == Testers.NextReason(old(tester.stopReason), tester.testingErrors[|old(tester.testingErrors)|],
                                                tester.errorLimit, epochCount,
                                                tester.maxEpochsCount, Testers.OldSpeedOf(tester.testingErrors), Testers.OldOverfittingLimit)
    {
      TestableIsValid();
      var r := tester.Test(net, testing, epochCount);
      thrown := if r.Err? then Some(r.error) else None;
    }

    /** One pass of the do-while body over the batches of `getNewBatches()`:
        an epoch over them, `epochCount++`, then `testing()`. */
    method LearnEpoch(batches: seq<seq<Sample>>, testing: seq<Sample>, f: real -> real, df: real -> real, exp: real -> real)
      returns (thrown: Option<Error>)
      requires Learning(batches, testing, f, df, exp)
      modifies this`y, this`v, this`g, this`w, this`b, this`dw, this`db, this`trainingErrors, this`epochCount
      modifies net`weights, net`biases, tester
      ensures thrown == None ==> Learning(batches, testing, f, df, exp) && epochCount == old(epochCount) + 1
      ensures tester.errorLimit == old(tester.errorLimit) && tester.maxEpochsCount == old(tester.maxEpochsCount)
      ensures thrown == None ==>
        tester.stopReason == Testers.NextReason(old(tester.stopReason), tester.testingErrors[epochCount], tester.errorLimit, epochCount,
                                                tester.maxEpochsCount, Testers.OldSpeedOf(tester.testingErrors), Testers.OldOverfittingLimit)
    {
      thrown := EpochNext(batches, f, df, exp);
      if thrown.Some? {
        return;
      }
      thrown := Testing(testing);
      if thrown == None {
        LearningIntro(batches, testing, f, df, exp);
      }
    }

    /** The training half of the do-while body: one epoch over the batches,
        then `epochCount++`. */
    method EpochNext(batches: seq<seq<Sample>>, f: real -> real, df: real -> real, exp: real -> real)
      returns (thrown: Option<Error>)
      requires TrainedAt(batches, f, df, exp)
      modifies this`y, this`v, this`g, this`w, this`b, this`dw, this`db, this`trainingErrors, this`epochCount
      modifies net`weights, net`biases
      ensures thrown == None ==> TrainedAt(batches, f, df, exp) && epochCount == old(epochCount) + 1
    {
      ghost var eta := Eta(rateFunc.value, exp);
      ghost var t := Trained(Current(), trainingErrors);
      ghost var e := EpochOf(batches, f, df, exp);
      thrown := EpochTrain(batches, f, df, exp);
      if thrown.Some? {
        return;
      }
      TrajectorySucc(batches, initial, f, df, eta, PerSample, epochCount, t, e.value);
      epochCount := epochCount + 1;
      TrainedAtIntro(batches, f, df, exp);
    }

    /** `TrainedAt` from its parts, proved apart from the methods that need it. */
    lemma TrainedAtIntro(batches: seq<seq<Sample>>, f: real -> real, df: real -> real, exp: real -> real)
      requires Shaped() && Testable() && rateFunc.Some? && BatchesValid(batches)
      requires |initial.ws| == |initial.bs| == net.activations.Length && AllValid(initial.ws) && AllValid(initial.bs)
      requires Trajectory(batches, initial, f, df, Eta(rateFunc.value, exp), PerSample, epochCount) == Ok(Trained(Current(), trainingErrors))
      ensures TrainedAt(batches, f, df, exp)
    {
    }

    /** `Learning` from its parts. */
    lemma LearningIntro(batches: seq<seq<Sample>>, testing: seq<Sample>, f: real -> real, df: real -> real, exp: real -> real)
      requires TrainedAt(batches, f, df, exp) && SamplesValid(testing) && |testing| > 0
      requires tester != null && tester.Valid() && |tester.testingErrors| == epochCount + 1
      ensures Learning(batches, testing, f, df, exp)
    {
    }

    /** `getNewBatches()`: the training samples in batches of the batch size,
        each read to its end. */
    method NewBatches() returns (batches: seq<seq<Sample>>)
      requires trainingParameters.batchSize > 0
      ensures batches == Chunks(sampleService.training.items, trainingParameters.batchSize)
    {
      var source := new SampleBatches(trainingParameters.batchSize, sampleService.TrainingSampling().items);
      batches := ReadAll(source);
    }

    /** The start of `learn()`: `resetVariables()`, the test before training
        (at the epoch count the teacher had), then `epochCount = 0`. */
    method LearnStart(draw: (nat, nat) -> real, f: real -> real, df: real -> real, exp: real -> real,
                      ghost batches: seq<seq<Sample>>, testing: seq<Sample>)
      returns (thrown: Option<Error>)
      requires trainingParameters.rate.Some? && BatchesValid(batches) && SamplesValid(testing) && |testing| > 0
      requires netParameters.activation != null ==> netParameters.activation.owner != null
      modifies this
      ensures old(Nets.CreateError(netParameters.layerSizes[..], netParameters.activation == null)).Some? ==>
        thrown == old(Nets.CreateError(netParameters.layerSizes[..], netParameters.activation == null))
      ensures thrown == None ==> fresh(net) && fresh(tester) && fresh(trainingResult)
      ensures thrown == None ==> Learning(batches, testing, f, df, exp) && epochCount == 0
      ensures thrown == None ==> Nets.BuiltFrom(initial.ws, initial.bs, netParameters.layerSizes[..], draw)
      ensures thrown == None ==> rateFunc == old(ScheduleOf(trainingParameters.rate))
      ensures thrown == None ==>
        tester.maxEpochsCount == trainingParameters.maxEpochsCount && tester.errorLimit == trainingParameters.errorLimit
    {
      thrown := ResetVariables(draw);
      if thrown.Some? {
        return;
      }
      thrown := Testing(testing);
      if thrown.Some? {
        return;
      }
      epochCount := 0;
      ResetIsTrainedAt(batches, f, df, exp, draw);
      LearningIntro(batches, testing, f, df, exp);
    }

    /** Right after `resetVariables()`, with the count at zero, the teacher
        stands at the start of the trajectory. */
    lemma ResetIsTrainedAt(batches: seq<seq<Sample>>, f: real -> real, df: real -> real, exp: real -> real,
                           draw: (nat, nat) -> real)
      requires DrawnFrom(netParameters.layerSizes[..], draw) && Scratched() && trainingErrors == [] && epochCount == 0
      requires rateFunc.Some? && BatchesValid(batches) && netParameters.activation.owner != null
      ensures TrainedAt(batches, f, df, exp)
    {
    }

    /**
     * The state of the do-while loop of `learn()` once an epoch has run: no
     * exception so far, `Learning` at the epoch count, an epoch after the
     * first run only below the maximum, a tester that still goes on stands
     * below the maximum, and after more than one epoch the stop reason is
     * the one the last test gave to a tester that had none.
     */
    ghost predicate Looping(batches: seq<seq<Sample>>, testing: seq<Sample>, f: real -> real, df: real -> real,
                            exp: real -> real, thrown: Option<Error>)
      reads this`net, this`y, this`v, this`g, this`w, this`b, this`dw, this`db, net, netParameters
      reads this`rateFunc, this`epochCount, this`trainingErrors, this`initial, this`tester, tester, trainingParameters
      reads if net != null then {net.activations} else {}
      reads if netParameters.activation != null then {netParameters.activation} else {}
    {
      tester != null &&
      tester.maxEpochsCount == trainingParameters.maxEpochsCount && tester.errorLimit == trainingParameters.errorLimit &&
      (thrown == None ==>
        Learning(batches, testing, f, df, exp) && epochCount >= 1 &&
        (tester.stopReason == None ==> epochCount < tester.maxEpochsCount) &&
        (epochCount == 1 || epochCount <= tester.maxEpochsCount) &&
        (epochCount > 1 ==>
          tester.stopReason == Testers.NextReason(None, tester.testingErrors[epochCount], tester.errorLimit, epochCount,
                                                  tester.maxEpochsCount, Testers.OldSpeedOf(tester.testingErrors),
                                                  Testers.OldOverfittingLimit)))
    }

    /** One turn of the do-while loop: `getNewBatches()`, then the epoch and its test. */
    method LearnTurn(ghost batches: seq<seq<Sample>>, testing: seq<Sample>, f: real -> real, df: real -> real,
                     exp: real -> real, ghost first: bool)
      returns (thrown: Option<Error>)
      requires trainingParameters.batchSize > 0 && batches == Chunks(sampleService.training.items, trainingParameters.batchSize)
      requires tester != null && tester.maxEpochsCount == trainingParameters.maxEpochsCount
      requires tester.errorLimit == trainingParameters.errorLimit
      requires Learning(batches, testing, f, df, exp)
      requires first ==> epochCount == 0
      requires !first ==> epochCount >= 1 && tester.stopReason == None && epochCount < tester.maxEpochsCount
      modifies this`y, this`v, this`g, this`w, this`b, this`dw, this`db, this`trainingErrors, this`epochCount
      modifies net`weights, net`biases, tester
      ensures Looping(batches, testing, f, df, exp, thrown)
      ensures thrown == None ==> epochCount == old(epochCount) + 1
    {
      var current := NewBatches();
      thrown := LearnEpoch(current, testing, f, df, exp);
    }

    /**
     * The do-while loop of `learn()`: one epoch, then more while the tester
     * goes on. Every test but the last left the stop reason unset, so the
     * loop ends with the first epoch whose test sets one, and an epoch after
     * the first runs only below the maximum epoch count.
     */
    method LearnLoop(ghost batches: seq<seq<Sample>>, testing: seq<Sample>, f: real -> real, df: real -> real, exp: real -> real)
      returns (thrown: Option<Error>)
      requires Learning(batches, testing, f, df, exp) && epochCount == 0
      requires tester.maxEpochsCount == trainingParameters.maxEpochsCount && tester.errorLimit == trainingParameters.errorLimit
      requires trainingParameters.batchSize > 0 && batches == Chunks(sampleService.training.items, trainingParameters.batchSize)
      modifies this`y, this`v, this`g, this`w, this`b, this`dw, this`db, this`trainingErrors, this`epochCount
      modifies net`weights, net`biases, tester
      ensures Looping(batches, testing, f, df, exp, thrown)
      ensures thrown == None ==> tester.stopReason.Some?
    {
      thrown := LearnTurn(batches, testing, f, df, exp, true);
      while thrown == None && tester.IsContinue()
        invariant Looping(batches, testing, f, df, exp, thrown)
        decreases if thrown == None && tester.stopReason == None then tester.maxEpochsCount - epochCount else 0
      {
        thrown := LearnTurn(batches, testing, f, df, exp, false);
      }
    }

    /** The end of `learn()`: the result takes the epoch count, the tester's
        reason, best net and lists, and the training errors. */
    method FillResult(ghost batches: seq<seq<Sample>>, f: real -> real, df: real -> real, exp: real -> real, duration: int)
      requires trainingResult != null && tester != null
      requires Stopped(batches, f, df, exp)
      modifies trainingResult
      ensures Learned(batches, f, df, exp, duration)
      ensures trainingResult.duration == Some(duration) && trainingResult.epochCount == epochCount
      ensures trainingResult.stopReason == tester.stopReason && trainingResult.bestNet == tester.bestNet
      ensures trainingResult.trainingErrors == trainingErrors
      ensures trainingResult.testingErrors == tester.testingErrors && trainingResult.testingPercents == tester.testingPercents
    {
      trainingResult.duration := Some(duration);
      trainingResult.epochCount := epochCount;
      trainingResult.stopReason := tester.stopReason;
      trainingResult.bestNet := tester.bestNet;
      trainingResult.trainingErrors := trainingErrors;
      trainingResult.testingErrors := tester.testingErrors;
      trainingResult.testingPercents := tester.testingPercents;
    }

    /** The teacher once the do-while loop has left without an exception:
        at least one epoch run and tested, the tester stopped (by the last
        test if more than one epoch ran), the net where the epochs took it. */
    ghost predicate Stopped(batches: seq<seq<Sample>>, f: real -> real, df: real -> real, exp: real -> real)
      reads this`net, this`y, this`v, this`g, this`w, this`b, this`dw, this`db, net, netParameters
      reads this`rateFunc, this`epochCount, this`trainingErrors, this`initial, this`tester, tester, trainingParameters
      reads if net != null then {net.activations} else {}
      reads if netParameters.activation != null then {netParameters.activation} else {}
    {
      tester != null &&
      epochCount >= 1 && tester.stopReason.Some? && |tester.testingErrors| == epochCount + 1 &&
      (epochCount == 1 || epochCount <= trainingParameters.maxEpochsCount) &&
      (epochCount > 1 ==>
        tester.stopReason == Testers.NextReason(None, tester.testingErrors[epochCount], trainingParameters.errorLimit, epochCount,
                                                trainingParameters.maxEpochsCount, Testers.OldSpeedOf(tester.testingErrors),
                                                Testers.OldOverfittingLimit)) &&
      TrainedAt(batches, f, df, exp)
    }

    /** A loop that left without an exception left a stopped tester. */
    lemma LoopStopped(batches: seq<seq<Sample>>, testing: seq<Sample>, f: real -> real, df: real -> real, exp: real -> real)
      requires Looping(batches, testing, f, df, exp, None) && tester.stopReason.Some?
      ensures Stopped(batches, f, df, exp)
    {
    }

    /**
     * What a `learn()` that throws nothing leaves behind: at least one epoch
     * run and tested, the tester stopped (by the last test if more than one
     * epoch ran, every earlier test having let it continue), the network the
     * one the epochs' trajectory reaches, and the result filled from the
     * tester and the teacher.
     */
    ghost predicate Learned(batches: seq<seq<Sample>>, f: real -> real, df: real -> real, exp: real -> real, duration: int)
      reads this`net, this`y, this`v, this`g, this`w, this`b, this`dw, this`db, net, netParameters
      reads this`rateFunc, this`epochCount, this`trainingErrors, this`initial, this`tester, tester, trainingParameters
      reads this`trainingResult, trainingResult
      reads if net != null then {net.activations} else {}
      reads if netParameters.activation != null then {netParameters.activation} else {}
    {
      Stopped(batches, f, df, exp) && trainingResult != null &&
      trainingResult.duration == Some(duration) && trainingResult.epochCount == epochCount &&
      trainingResult.stopReason == tester.stopReason && trainingResult.bestNet == tester.bestNet &&
      trainingResult.trainingErrors == trainingErrors && trainingResult.testingErrors == tester.testingErrors &&
      trainingResult.testingPercents == tester.testingPercents
    }

    /**
     * `learn()`: a new net, tester and result, a test before training, then
     * epochs until the tester stops, and the result filled from the tester.
     * At least one epoch always runs; the net and the training errors are
     * those of that many epochs of gradient descent from the drawn net, and
     * the stop reason is the one the last test set. The elapsed time is a
     * parameter.
     */
    method Learn(draw: (nat, nat) -> real, f: real -> real, df: real -> real, exp: real -> real, duration: int)
      returns (thrown: Option<Error>)
      requires trainingParameters.rate.Some? && trainingParameters.batchSize > 0
      requires SamplesValid(sampleService.training.items) && SamplesValid(sampleService.testing.items)
      requires |sampleService.testing.items| > 0
      requires netParameters.activation != null ==> netParameters.activation.owner != null
      modifies this
      ensures old(Nets.CreateError(netParameters.layerSizes[..], netParameters.activation == null)).Some? ==>
        thrown == old(Nets.CreateError(netParameters.layerSizes[..], netParameters.activation == null))
      ensures thrown == None ==> rateFunc == old(ScheduleOf(trainingParameters.rate)) && rateFunc.Some?
      ensures thrown == None ==> Nets.BuiltFrom(initial.ws, initial.bs, netParameters.layerSizes[..], draw)
      ensures thrown == None ==> Learned(Chunks(sampleService.training.items, trainingParameters.batchSize), f, df, exp, duration)
    {
      // every epoch's `getNewBatches()` reads the same batches from the unchanged training list
      ghost var batches := Chunks(sampleService.training.items, trainingParameters.batchSize);
      ChunksValid(sampleService.training.items, trainingParameters.batchSize);
      var testing := sampleService.TestingSampling().items;
      thrown := LearnStart(draw, f, df, exp, batches, testing);
      if thrown.Some? {
        return;
      }
      thrown := LearnRun(batches, testing, f, df, exp, duration);
    }

    /** `learn()` after its start: the do-while loop, then the result filled from the tester. */
    method LearnRun(ghost batches: seq<seq<Sample>>, testing: seq<Sample>, f: real -> real, df: real -> real,
                    exp: real -> real, duration: int)
      returns (thrown: Option<Error>)
      requires Learning(batches, testing, f, df, exp) && epochCount == 0 && trainingResult != null
      requires tester.maxEpochsCount == trainingParameters.maxEpochsCount && tester.errorLimit == trainingParameters.errorLimit
      requires trainingParameters.batchSize > 0 && batches == Chunks(sampleService.training.items, trainingParameters.batchSize)
      modifies this`y, this`v, this`g, this`w, this`b, this`dw, this`db, this`trainingErrors, this`epochCount
      modifies net`weights, net`biases, tester, trainingResult
      ensures thrown == None ==> Learned(batches, f, df, exp, duration)
    {
      thrown := LearnLoop(batches, testing, f, df, exp);
      if thrown.Some? {
        return;
      }
      LoopStopped(batches, testing, f, df, exp);
      FillResult(batches, f, df, exp, duration);
    }

    /**
     * `getProgress()`: the share of the maximum epochs run while the tester
     * goes on, 1.0 once it has stopped. Before `learn` there is no tester.
     */
    function GetProgress(): (r: Result<real>)
      reads this`tester, this`epochCount, tester, trainingParameters
      requires tester != null && tester.IsContinue() ==> trainingParameters.maxEpochsCount != 0
      ensures tester == null <==> r == Err(NullPointer)
      ensures tester != null && !tester.IsContinue() ==> r == Ok(1.0)
      ensures tester != null && tester.IsContinue() ==>
        r.Ok? && r.value * trainingParameters.maxEpochsCount as real == epochCount as real
      ensures tester != null && 0 <= epochCount <= trainingParameters.maxEpochsCount ==>
        r.Ok? && 0.0 <= r.value <= 1.0
    {
      if tester == null then Err(NullPointer)
      else if tester.IsContinue() then Ok(epochCount as real / trainingParameters.maxEpochsCount as real)
      else Ok(1.0)
    }
  }
}
