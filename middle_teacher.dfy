// `MiddleTeacher`: the mini-batch gradient descent of `SimpleTeacher`
// written over the output-buffer operations of `MatrixUtils`. The forward
// and backward passes run in a calculation context whose slot arrays are
// allocated once per `learn`; the accumulators are added to and the
// weights descended in place; one training error is kept per batch, the
// batch's summed loss divided by the configured batch size. Matrices are
// values here: an operation that writes its result into the matrix held
// by a slot is that slot taking the result. Every exception ends `learn`
// with that exception; the model returns it.

module MiddleTeaching {
  import opened Wrappers
  import opened MatrixAlgebra
  import opened Samples
  import opened Rates
  import opened Training
  import opened Backprop
  import Nets
  import Testers
  import SimpleTeaching
  import Arith

  /** `Matrix.create(columns)`: a zero row. */
  function Row(columns: nat): (m: Matrix)
    ensures m.rows == 1 && m.columns == columns
  {
    Matrix(1, columns, Zeros(1, columns))
  }

  /** Every sample has a one-row source, as the sample constructor demands. */
  predicate RowSources(samples: seq<Sample>)
  {
    forall k :: 0 <= k < |samples| ==> samples[k].source.rows == 1
  }

  /** Every batch holds samples with one-row sources. */
  predicate RowBatches(batches: seq<seq<Sample>>)
  {
    forall i :: 0 <= i < |batches| ==> RowSources(batches[i])
  }

  /** Cutting samples with one-row sources into batches keeps them so. */
  lemma {:induction false} ChunksRows(s: seq<Sample>, size: nat)
    requires size > 0 && RowSources(s)
    ensures RowBatches(Chunks(s, size))
    decreases |s|
  {
    if |s| > size {
      ChunksRows(s[size..], size);
      var cs := Chunks(s, size);
      assert cs == [s[..size]] + Chunks(s[size..], size);
      assert forall k :: 0 < k < |cs| ==> cs[k] == Chunks(s[size..], size)[k - 1];
    }
  }

  /**
   * Two runs that agree on everything but the errors they keep: the same
   * exception, or the same net.
   */
  predicate SameNet(kept: Result<Trained>, other: Result<Trained>)
  {
    (kept.Err? ==> other == kept) && (kept.Ok? ==> other.Ok? && other.value.net == kept.value.net)
  }

  /** The first n batches of an epoch reach the same net whichever errors they keep. */
  predicate AgreeAt(batches: seq<seq<Sample>>, net: Layers, f: real -> real, df: real -> real,
                    rate: real, batchSize: int, n: nat)
    requires n <= |batches| && BatchesValid(batches) && batchSize > 0
    requires |net.ws| == |net.bs| && AllValid(net.ws) && AllValid(net.bs)
  {
    SameNet(EpochRun(batches, net, f, df, rate, PerSample, n),
            EpochRun(batches, net, f, df, rate, PerBatch(batchSize), n))
  }

  /** Agreement after n - 1 batches carries over to n. */
  lemma SameNetNext(batches: seq<seq<Sample>>, net: Layers, f: real -> real, df: real -> real,
                    rate: real, batchSize: int, n: nat)
    requires 0 < n <= |batches| && BatchesValid(batches) && batchSize > 0
    requires |net.ws| == |net.bs| && AllValid(net.ws) && AllValid(net.bs)
    requires AgreeAt(batches, net, f, df, rate, batchSize, n - 1)
    ensures AgreeAt(batches, net, f, df, rate, batchSize, n)
  {
    if EpochRun(batches, net, f, df, rate, PerSample, n - 1).Ok? {
      SameNetBatch(batches, net, f, df, rate, batchSize, n);
    } else {
      SameNetFailed(batches, net, f, df, rate, batchSize, n);
    }
  }

  /** Two runs that failed alike stay failed alike. */
  lemma SameNetFailed(batches: seq<seq<Sample>>, net: Layers, f: real -> real, df: real -> real,
                      rate: real, batchSize: int, n: nat)
    requires 0 < n <= |batches| && BatchesValid(batches) && batchSize > 0
    requires |net.ws| == |net.bs| && AllValid(net.ws) && AllValid(net.bs)
    requires AgreeAt(batches, net, f, df, rate, batchSize, n - 1)
    requires EpochRun(batches, net, f, df, rate, PerSample, n - 1).Err?
    ensures AgreeAt(batches, net, f, df, rate, batchSize, n)
  {
    EpochRunFails(batches, net, f, df, rate, PerSample, n);
    EpochRunFails(batches, net, f, df, rate, PerBatch(batchSize), n);
  }

  /** Two runs that reached the same net take batch n - 1 from it alike. */
  lemma SameNetBatch(batches: seq<seq<Sample>>, net: Layers, f: real -> real, df: real -> real,
                     rate: real, batchSize: int, n: nat)
    requires 0 < n <= |batches| && BatchesValid(batches) && batchSize > 0
    requires |net.ws| == |net.bs| && AllValid(net.ws) && AllValid(net.bs)
    requires AgreeAt(batches, net, f, df, rate, batchSize, n - 1)
    requires EpochRun(batches, net, f, df, rate, PerSample, n - 1).Ok?
    ensures AgreeAt(batches, net, f, df, rate, batchSize, n)
  {
    var kept := EpochRun(batches, net, f, df, rate, PerSample, n - 1).value;
    var other := EpochRun(batches, net, f, df, rate, PerBatch(batchSize), n - 1);
    assert other.Ok? && other.value.net == kept.net;
    EpochRunNext(batches, net, f, df, rate, PerSample, n);
    EpochRunNext(batches, net, f, df, rate, PerBatch(batchSize), n);
  }

  /**
   * Keeping one error per batch changes nothing but the record: an epoch
   * run fails with the same exception, or reaches the same net, as the
   * run that keeps one error per sample.
   */
  lemma EpochRunSameNet(batches: seq<seq<Sample>>, net: Layers, f: real -> real, df: real -> real,
                        rate: real, batchSize: int, n: nat)
    requires n <= |batches| && BatchesValid(batches) && batchSize > 0
    requires |net.ws| == |net.bs| && AllValid(net.ws) && AllValid(net.bs)
    ensures AgreeAt(batches, net, f, df, rate, batchSize, n)
  {
    var i := 0;
    while i < n
      invariant i <= n && AgreeAt(batches, net, f, df, rate, batchSize, i)
    {
      SameNetNext(batches, net, f, df, rate, batchSize, i + 1);
      i := i + 1;
    }
  }

  /** The first k epochs reach the same net whichever errors they keep. */
  predicate AgreeAfter(batches: seq<seq<Sample>>, net: Layers, f: real -> real, df: real -> real,
                       eta: nat -> real, batchSize: int, k: nat)
    requires BatchesValid(batches) && batchSize > 0
    requires |net.ws| == |net.bs| && AllValid(net.ws) && AllValid(net.bs)
  {
    SameNet(Trajectory(batches, net, f, df, eta, PerSample, k),
            Trajectory(batches, net, f, df, eta, PerBatch(batchSize), k))
  }

  /** One epoch keeps two trajectories that agree on the net in agreement. */
  lemma TrajectorySameNetStep(batches: seq<seq<Sample>>, net: Layers, f: real -> real, df: real -> real,
                              eta: nat -> real, batchSize: int, k: nat)
    requires BatchesValid(batches) && batchSize > 0
    requires |net.ws| == |net.bs| && AllValid(net.ws) && AllValid(net.bs)
    ensures AgreeAfter(batches, net, f, df, eta, batchSize, k + 1)
    decreases k + 1, 0
  {
    TrajectorySameNet(batches, net, f, df, eta, batchSize, k);
    var t := Trajectory(batches, net, f, df, eta, PerSample, k);
    if t.Ok? {
      EpochRunSameNet(batches, t.value.net, f, df, eta(k), batchSize, |batches|);
    }
  }

  /**
   * The same over whole epochs: a `MiddleTeacher`, which keeps one error
   * per batch, fails where a `SimpleTeacher`, which keeps one per sample,
   * fails, with the same exception, and otherwise reaches the same net
   * after k epochs from the same drawn net.
   */
  lemma {:induction false} TrajectorySameNet(batches: seq<seq<Sample>>, net: Layers, f: real -> real, df: real -> real,
                                             eta: nat -> real, batchSize: int, k: nat)
    requires BatchesValid(batches) && batchSize > 0
    requires |net.ws| == |net.bs| && AllValid(net.ws) && AllValid(net.bs)
    ensures AgreeAfter(batches, net, f, df, eta, batchSize, k)
    decreases k, 1
  {
    if k > 0 {
      TrajectorySameNetStep(batches, net, f, df, eta, batchSize, k - 1);
    }
  }

  /**
   * Batch i after a successful run of the first i: its failure is the
   * whole epoch's, its success takes the net to the next state and
   * appends its record to the errors kept so far.
   */
  lemma EpochRunAdvance(batches: seq<seq<Sample>>, start: Layers, f: real -> real, df: real -> real, rate: real,
                        log: ErrorLog, i: nat, errors: seq<real>, kept: seq<real>)
    requires i < |batches| && BatchesValid(batches) && LogValid(log)
    requires |start.ws| == |start.bs| && AllValid(start.ws) && AllValid(start.bs)
    requires EpochRun(batches, start, f, df, rate, log, i).Ok?
    requires kept == errors + EpochRun(batches, start, f, df, rate, log, i).value.losses
    ensures var b := BatchUpdate(batches[i], EpochRun(batches, start, f, df, rate, log, i).value.net, f, df, rate);
      (b.Err? ==> EpochRun(batches, start, f, df, rate, log, |batches|) == Err(b.error)) &&
      (b.Ok? ==> EpochRun(batches, start, f, df, rate, log, i + 1).Ok? &&
                 EpochRun(batches, start, f, df, rate, log, i + 1).value.net == b.value.net &&
                 kept + Recorded(log, b.value.losses) == errors + EpochRun(batches, start, f, df, rate, log, i + 1).value.losses)
  {
    var t := EpochRun(batches, start, f, df, rate, log, i).value;
    var b := BatchUpdate(batches[i], t.net, f, df, rate);
    EpochRunNext(batches, start, f, df, rate, log, i + 1);
    if b.Err? {
      EpochRunFailurePersists(batches, start, f, df, rate, log, i + 1, |batches|);
    } else {
      Arith.AppendAssociates(errors, t.losses, Recorded(log, b.value.losses));
    }
  }

  /** A zero row as wide as each matrix's columns. */
  function OutputRows(ms: seq<Matrix>): (rows: seq<Matrix>)
    requires AllValid(ms)
    ensures |rows| == |ms| && forall i :: 0 <= i < |ms| ==> rows[i] == Row(ms[i].columns)
  {
    seq(|ms|, i requires 0 <= i < |ms| => Row(ms[i].columns))
  }

  /** The slots of a context as its constructor leaves them, as values. */
  ghost predicate InitialSlots(y: seq<Matrix>, v: seq<Matrix>, g: seq<Matrix>, w: seq<Matrix>, b: seq<Matrix>,
    errorMatrix: Matrix, errorValue: real, weights: seq<Matrix>, biases: seq<Matrix>)
    requires |weights| == |biases| > 0 && AllValid(weights) && AllValid(biases)
  {
    |y| == |weights| + 1 && |v| == |weights| && |g| == |weights| && |w| == |weights| && |b| == |weights| &&
    y[0] == Row(weights[0].rows) &&
    (forall i :: 0 <= i < |weights| ==>
      y[i + 1] == Row(weights[i].columns) && v[i] == Row(weights[i].columns) &&
      g[i] == Row(weights[i].columns) && b[i] == Row(biases[i].columns)) &&
    w == ZerosLike(weights) && errorMatrix == Row(weights[|weights| - 1].columns) && errorValue == 0.0
  }

  /** The constructor's slots are the initial ones. */
  lemma InitialSlotsOf(weights: seq<Matrix>, biases: seq<Matrix>)
    requires |weights| == |biases| > 0 && AllValid(weights) && AllValid(biases)
    ensures InitialSlots([Row(weights[0].rows)] + OutputRows(weights), OutputRows(weights), OutputRows(weights),
      ZerosLike(weights), OutputRows(biases), Row(weights[|weights| - 1].columns), 0.0, weights, biases)
  {
    var outputs := OutputRows(weights);
    var ys := [Row(weights[0].rows)] + outputs;
    forall i | 0 <= i < |weights|
      ensures ys[i + 1] == Row(weights[i].columns)
    {
      assert ys[i + 1] == outputs[i];
    }
  }

  /** What `resetVariables()` throws: `createNet`'s exception, then, for a
      net without layers, the read of `weights[0]` in the context's
      constructor. */
  function ResetError(layerSizes: seq<int>, activationIsNull: bool): (thrown: Option<Error>)
    ensures thrown == None <==> Nets.CreateError(layerSizes, activationIsNull) == None && |layerSizes| >= 2
  {
    var created := Nets.CreateError(layerSizes, activationIsNull);
    if created.Some? then created
    else if |layerSizes| == 1 then Some(IndexOutOfBounds(0))
    else None
  }

  /** The calculation context: one output slot per layer and one more, an
      induced field, a gradient and a pair of corrections per layer, the
      output error and its loss. */
  class CalcContext {
    var y: seq<Matrix>
    var v: seq<Matrix>
    var g: seq<Matrix>
    var w: seq<Matrix>
    var b: seq<Matrix>
    var errorMatrix: Matrix
    var errorValue: real

    /** Slots for n layers. */
    ghost predicate Sized(n: nat)
      reads this
    {
      |y| == n + 1 && |v| == n && |g| == n && |w| == n && |b| == n
    }

    /** The slots as the constructor leaves them for these layers: zero
        rows as wide as the first layer's input for y[0] and as each
        layer's output for y[i + 1], v[i] and g[i], a zero matrix shaped
        like each weight matrix for w[i], a zero row as wide as each bias
        for b[i], and a zero error row as wide as the last layer. */
    ghost predicate Initial(weights: seq<Matrix>, biases: seq<Matrix>)
      reads this
      requires |weights| == |biases| > 0 && AllValid(weights) && AllValid(biases)
    {
      InitialSlots(y, v, g, w, b, errorMatrix, errorValue, weights, biases)
    }

    /** `CalcContext(layerCount, weights, biases)`: the slot arrays, each
        slot a zero matrix of the shape the passes write into it. */
    constructor (layerCount: nat, weights: seq<Matrix>, biases: seq<Matrix>)
      requires |weights| == |biases| == layerCount > 0 && AllValid(weights) && AllValid(biases)
      ensures Initial(weights, biases)
    {
      var outputs := OutputRows(weights);
      InitialSlotsOf(weights, biases);
      y := [Row(weights[0].rows)] + outputs;
      v := outputs;
      g := outputs;
      w := ZerosLike(weights);
      b := OutputRows(biases);
      errorMatrix := Row(weights[layerCount - 1].columns);
      errorValue := 0.0;
    }

    /**
     * `pass(sample)`: `forwardPass(source)`, `calcError(target)`, then
     * `backwardPass()`. The first `mul` writes the input's product into
     * v[0], a one-row buffer, so a source of more than one row fails there;
     * otherwise the pass is the sample's step on the given layers, the
     * corrections left in w and b and the loss in `errorValue`.
     */
    method Pass(s: Sample, weights: seq<Matrix>, biases: seq<Matrix>, f: real -> real, df: real -> real)
      returns (thrown: Option<Error>)
      requires Sized(|weights|) && |weights| == |biases| && |weights| > 0
      requires AllValid(weights) && AllValid(biases) && s.source.Valid() && s.target.Valid()
      modifies this
      ensures Sized(|weights|)
      ensures s.source.rows != 1 ==> thrown == Some(RowsMismatch)
      ensures s.source.rows == 1 ==> (thrown == None <==> SampleStep(s, weights, biases, f, df).Ok?)
      ensures s.source.rows == 1 && thrown.Some? ==> thrown.value == SampleStep(s, weights, biases, f, df).error
      ensures thrown == None ==>
        w == SampleStep(s, weights, biases, f, df).value.dws && b == SampleStep(s, weights, biases, f, df).value.dbs &&
        errorValue == SampleStep(s, weights, biases, f, df).value.loss
    {
      // forwardPass: y[0] = input, then mul(y[0], W[0], v[0]) checks rows first
      y := y[0 := s.source];
      if s.source.rows != 1 {
        return Some(RowsMismatch);
      }
      var output, ys, vs := SimpleTeaching.ForwardSlots(s.source, weights, biases, f, y, v);
      y, v := ys, vs;
      if output.Err? {
        return Some(output.error);
      }
      // calcError: E = T - O into errorMatrix, its half sum of squares
      var e := Elementwise(Minus, s.target, output.value);
      if e.Err? {
        return Some(e.error);
      }
      errorMatrix := e.value;
      errorValue := SqrsSum(e.value.data) / 2.0;
      // backwardPass
      var grad, gs, ws, bs := SimpleTeaching.BackwardSlots(y, v, e.value, weights, df, g, w, b);
      g, w, b := gs, ws, bs;
      if grad.Err? {
        return Some(grad.error);
      }
      thrown := None;
    }
  }

  class MiddleTeacher {
    const teacherName: string
    const netParameters: Nets.NetParameters
    const trainingParameters: TrainingParameters
    const sampleService: ListSampleService
    var trainingResult: TrainingResult?

    var correctionsW: seq<Matrix>
    var correctionsB: seq<Matrix>
    var net: Nets.Net?
    /** The rate object, held as the schedule it carries. */
    var rateFunc: Option<Schedule>
    /** Epochs run so far. */
    var epochCount: nat
    var tester: Testers.SerialTester?
    var trainingErrors: seq<real>
    var context: CalcContext?
    /** The net as `resetVariables` created it, before any training. */
    ghost var initial: Layers

    /** The teacher as the inherited setters leave it: nothing created yet. */
    constructor (teacherName: string, netParameters: Nets.NetParameters,
                 trainingParameters: TrainingParameters, sampleService: ListSampleService)
      ensures this.teacherName == teacherName && this.netParameters == netParameters
      ensures this.trainingParameters == trainingParameters && this.sampleService == sampleService
      ensures net == null && tester == null && trainingResult == null && context == null && epochCount == 0
    {
      this.teacherName := teacherName;
      this.netParameters := netParameters;
      this.trainingParameters := trainingParameters;
      this.sampleService := sampleService;
      trainingResult := null;
      correctionsW, correctionsB := [], [];
      net := null;
      rateFunc := None;
      epochCount := 0;
      tester := null;
      trainingErrors := [];
      context := null;
      initial := Layers([], []);
    }

    /** How this teacher records training errors: one per batch, divided by the batch size. */
    ghost function Log(): ErrorLog
      reads trainingParameters
    {
      PerBatch(trainingParameters.batchSize)
    }

    /** A net of at least one valid layer: one valid bias per valid weight matrix. */
    ghost predicate NetValid()
      reads this`net, net
    {
      net != null && |net.weights| == |net.biases| && |net.weights| > 0 &&
      AllValid(net.weights) && AllValid(net.biases)
    }

    /** After `resetVariables`: a valid net, a context with slots for its
        layers and one accumulator per layer. */
    ghost predicate Ready()
      reads this`net, net, this`context, context, this`correctionsW, this`correctionsB
    {
      NetValid() && context != null && context.Sized(|net.weights|) &&
      |correctionsW| == |net.weights| && |correctionsB| == |net.weights| &&
      AllValid(correctionsW) && AllValid(correctionsB)
    }

    /** The accumulators have the shapes of the weights and the biases. */
    ghost predicate Shaped()
      reads this`net, net, this`context, context, this`correctionsW, this`correctionsB
    {
      Ready() && SameShapes(correctionsW, net.weights) && SameShapes(correctionsB, net.biases)
    }

    /** The net's layers as a value. */
    ghost function Current(): Layers
      reads this`net, net
      requires net != null
    {
      Layers(net.weights, net.biases)
    }

    /** The descent step at the current epoch's rate, by the accumulators. */
    ghost function Descent(exp: real -> real): Result<Layers>
      reads this`net, net, this`context, context, this`correctionsW, this`correctionsB, this`rateFunc, this`epochCount
      requires Ready() && rateFunc.Some?
    {
      Updated(Descend(rateFunc.value.At(epochCount, exp)), Current(), Layers(correctionsW, correctionsB), |correctionsW|)
    }

    /** `addCorrections(dw, db)`: `add(correctionsW[i], dw[i], correctionsW[i])`,
        then the same for the biases, layer by layer; the first shape error stops it. */
    method AddCorrections(dw: seq<Matrix>, db: seq<Matrix>) returns (thrown: Option<Error>)
      requires Ready() && |dw| == |correctionsW| && |db| == |correctionsW| && AllValid(dw) && AllValid(db)
      modifies this`correctionsW, this`correctionsB
      ensures Ready()
      ensures thrown == None <==> Updated(Accumulate, old(Layers(correctionsW, correctionsB)), Layers(dw, db), |dw|).Ok?
      ensures thrown.Some? ==>
        thrown.value == Updated(Accumulate, old(Layers(correctionsW, correctionsB)), Layers(dw, db), |dw|).error
      ensures thrown == None ==>
        Layers(correctionsW, correctionsB) == Updated(Accumulate, old(Layers(correctionsW, correctionsB)), Layers(dw, db), |dw|).value
    {
      thrown, correctionsW, correctionsB := SimpleTeaching.UpdateSlots(Accumulate, Layers(correctionsW, correctionsB), Layers(dw, db));
    }

    /**
     * `applyCorrections()`: the rate at the current epoch count, then
     * `scaleSub(W[i], correctionsW[i], rate, W[i])` and the same for the
     * biases, layer by layer: W[i] - rate * dW[i]. Without a rate object the
     * call to `apply` throws a null-pointer exception.
     */
    method ApplyCorrections(exp: real -> real) returns (thrown: Option<Error>)
      requires Ready()
      modifies net`weights, net`biases
      ensures Ready()
      ensures rateFunc.None? ==> thrown == Some(NullPointer) && Current() == old(Current())
      ensures rateFunc.Some? ==> (thrown == None <==> old(Descent(exp)).Ok?)
      ensures rateFunc.Some? && thrown.Some? ==> thrown.value == old(Descent(exp)).error
      ensures rateFunc.Some? && thrown == None ==> Current() == old(Descent(exp)).value
    {
      if rateFunc.None? {
        return Some(NullPointer);
      }
      var rate := rateFunc.value.At(epochCount, exp);
      thrown, net.weights, net.biases :=
        SimpleTeaching.UpdateSlots(Descend(rate), Layers(net.weights, net.biases), Layers(correctionsW, correctionsB));
    }

    /** What one sample yields on the current net. */
    ghost function StepOf(s: Sample, f: real -> real, df: real -> real): Result<Step>
      reads this`net, net
      requires NetValid() && s.source.Valid() && s.target.Valid()
    {
      SampleStep(s, net.weights, net.biases, f, df)
    }

    /** One batch, then the descent step at the current epoch's rate. */
    ghost function BatchOf(batch: seq<Sample>, f: real -> real, df: real -> real, exp: real -> real): Result<Trained>
      reads this`net, net, this`rateFunc, this`epochCount
      requires NetValid() && SamplesValid(batch) && rateFunc.Some?
    {
      BatchUpdate(batch, Current(), f, df, rateFunc.value.At(epochCount, exp))
    }

    /** The accumulators and the batch error after the first i steps of a
        batch, added from start. */
    ghost predicate AccumulatedAt(steps: seq<Result<Step>>, start: Layers, batchError: real, i: nat)
      reads this`correctionsW, this`correctionsB
      requires i <= |steps| && |start.ws| == |start.bs| && AllValid(start.ws) && AllValid(start.bs)
      requires StepsFit(steps, |start.ws|)
    {
      var a := Accumulated(steps, start, i);
      a.Ok? && Layers(correctionsW, correctionsB) == a.value.acc && batchError == Total(a.value.losses)
    }

    /** One pass of the sample loop: `context.pass(sample)`, the loss added
        to the batch error, the context's corrections added. */
    method AccumulateStep(batch: seq<Sample>, f: real -> real, df: real -> real, ghost steps: seq<Result<Step>>,
                          ghost start: Layers, i: nat, batchError: real)
      returns (thrown: Option<Error>, sum: real)
      requires Ready() && SamplesValid(batch) && RowSources(batch) && i < |batch|
      requires steps == BatchSteps(batch, net.weights, net.biases, f, df)
      requires |start.ws| == |start.bs| == |net.weights| && AllValid(start.ws) && AllValid(start.bs)
      requires AccumulatedAt(steps, start, batchError, i)
      modifies context, this`correctionsW, this`correctionsB
      ensures Ready()
      ensures thrown.Some? ==> Accumulated(steps, start, i + 1) == Err(thrown.value)
      ensures thrown == None ==> AccumulatedAt(steps, start, sum, i + 1)
    {
      assert steps[i] == StepOf(batch[i], f, df);
      AccumulatedNext(steps, start, i + 1);
      thrown := context.Pass(batch[i], net.weights, net.biases, f, df);
      if thrown.Some? {
        return thrown, batchError;
      }
      sum := batchError + context.errorValue;
      thrown := AddCorrections(context.w, context.b);
    }

    /**
     * The sample loop of a batch: every sample passed on the current net,
     * its corrections added in order into the accumulators and its loss
     * into the batch error; the first exception ends it.
     */
    method AccumulateBatch(batch: seq<Sample>, f: real -> real, df: real -> real)
      returns (thrown: Option<Error>, batchError: real)
      requires Ready() && SamplesValid(batch) && RowSources(batch)
      modifies context, this`correctionsW, this`correctionsB
      ensures Ready()
      ensures thrown.Some? ==>
        Accumulated(BatchSteps(batch, net.weights, net.biases, f, df), old(Layers(correctionsW, correctionsB)), |batch|) ==
        Err(thrown.value)
      ensures thrown == None ==>
        AccumulatedAt(BatchSteps(batch, net.weights, net.biases, f, df), old(Layers(correctionsW, correctionsB)), batchError, |batch|)
    {
      ghost var steps := BatchSteps(batch, net.weights, net.biases, f, df);
      ghost var start := Layers(correctionsW, correctionsB);
      batchError := 0.0;
      for i := 0 to |batch|
        invariant Ready() && net == old(net) && net.weights == old(net.weights) && net.biases == old(net.biases)
        invariant AccumulatedAt(steps, start, batchError, i)
      {
        thrown, batchError := AccumulateStep(batch, f, df, steps, start, i, batchError);
        if thrown.Some? {
          AccumulatedFailurePersists(steps, start, i + 1, |batch|);
          return;
        }
      }
      thrown := None;
    }

    /**
     * The batch loop's body up to the division: `zeros(correctionsW)`,
     * `zeros(correctionsB)`, then the sample loop. It is the batch's
     * `Batch`: the steps summed from zero accumulators, all taken on the
     * net as it was before the batch, and the batch error their total loss.
     */
    method SumBatch(batch: seq<Sample>, f: real -> real, df: real -> real) returns (thrown: Option<Error>, batchError: real)
      requires Shaped() && SamplesValid(batch) && RowSources(batch)
      modifies context, this`correctionsW, this`correctionsB
      ensures Ready()
      ensures thrown == None <==> Batch(batch, net.weights, net.biases, f, df).Ok?
      ensures thrown.Some? ==> thrown.value == Batch(batch, net.weights, net.biases, f, df).error
      ensures thrown == None ==> (Shaped() &&
        Layers(correctionsW, correctionsB) == Batch(batch, net.weights, net.biases, f, df).value.acc &&
        batchError == Total(Batch(batch, net.weights, net.biases, f, df).value.losses))
    {
      ghost var steps := BatchSteps(batch, net.weights, net.biases, f, df);
      ghost var z := ZeroLayers(net.weights, net.biases);
      ZerosLikeSameShapes(correctionsW, net.weights);
      ZerosLikeSameShapes(correctionsB, net.biases);
      correctionsW := ZerosLike(correctionsW);
      correctionsB := ZerosLike(correctionsB);
      thrown, batchError := AccumulateBatch(batch, f, df);
      AccumulatedKeepsShapes(steps, z, |batch|);
    }

    /**
     * One pass of the batch loop: the sums of the batch, the batch error
     * divided by the batch size and kept, then `applyCorrections()`. It is
     * the batch update of the current net at the current epoch's rate, with
     * the batch's losses recorded as one entry.
     */
    method TrainBatch(batch: seq<Sample>, f: real -> real, df: real -> real, exp: real -> real)
      returns (thrown: Option<Error>)
      requires Shaped() && SamplesValid(batch) && RowSources(batch) && rateFunc.Some? && LogValid(Log())
      modifies context, this`correctionsW, this`correctionsB, this`trainingErrors, net`weights, net`biases
      ensures Ready()
      ensures thrown == None <==> old(BatchOf(batch, f, df, exp)).Ok?
      ensures thrown.Some? ==> thrown.value == old(BatchOf(batch, f, df, exp)).error
      ensures thrown == None ==> (Shaped() && Current() == old(BatchOf(batch, f, df, exp)).value.net &&
        trainingErrors == old(trainingErrors) + Recorded(Log(), old(BatchOf(batch, f, df, exp)).value.losses))
    {
      ghost var before := Current();
      ghost var rate := rateFunc.value.At(epochCount, exp);
      var batchError;
      thrown, batchError := SumBatch(batch, f, df);
      if thrown.Some? {
        return;
      }
      batchError := batchError / trainingParameters.batchSize as real;
      trainingErrors := trainingErrors + [batchError];
      UpdatedShapedLike(Descend(rate), before, Layers(correctionsW, correctionsB));
      thrown := ApplyCorrections(exp);
    }

    /** One epoch over the given batches at the current epoch's rate. */
    ghost function EpochOf(batches: seq<seq<Sample>>, f: real -> real, df: real -> real, exp: real -> real): Result<Trained>
      reads this`net, net, this`rateFunc, this`epochCount, trainingParameters
      requires NetValid() && BatchesValid(batches) && rateFunc.Some? && LogValid(Log())
    {
      EpochRun(batches, Current(), f, df, rateFunc.value.At(epochCount, exp), Log(), |batches|)
    }

    /** The epoch run of the first i batches from `start` has brought the
        teacher to its current net and errors. */
    ghost predicate EpochAt(batches: seq<seq<Sample>>, start: Layers, errors: seq<real>, f: real -> real,
                            df: real -> real, rate: real, i: nat)
      reads this`net, net, this`trainingErrors, trainingParameters
      requires NetValid() && BatchesValid(batches) && i <= |batches| && LogValid(Log())
      requires |start.ws| == |start.bs| && AllValid(start.ws) && AllValid(start.bs)
    {
      EpochRun(batches, start, f, df, rate, Log(), i).Ok? &&
      Current() == EpochRun(batches, start, f, df, rate, Log(), i).value.net &&
      trainingErrors == errors + EpochRun(batches, start, f, df, rate, Log(), i).value.losses
    }

    /** One pass of the batch loop, as a step of the epoch run; a failing
        batch ends the whole epoch with its exception. */
    method EpochStep(batches: seq<seq<Sample>>, f: real -> real, df: real -> real, exp: real -> real,
                     ghost rate: real, ghost start: Layers, ghost errors: seq<real>, i: nat)
      returns (thrown: Option<Error>)
      requires Shaped() && BatchesValid(batches) && RowBatches(batches) && i < |batches| && rateFunc.Some?
      requires LogValid(Log()) && rate == rateFunc.value.At(epochCount, exp)
      requires |start.ws| == |start.bs| && AllValid(start.ws) && AllValid(start.bs)
      requires EpochAt(batches, start, errors, f, df, rate, i)
      modifies context, this`correctionsW, this`correctionsB, this`trainingErrors, net`weights, net`biases
      ensures Ready()
      ensures thrown.Some? ==> EpochRun(batches, start, f, df, rate, Log(), |batches|) == Err(thrown.value)
      ensures thrown == None ==> Shaped() && EpochAt(batches, start, errors, f, df, rate, i + 1)
    {
      ghost var log := Log();
      EpochRunAdvance(batches, start, f, df, rate, log, i, errors, trainingErrors);
      thrown := TrainBatch(batches[i], f, df, exp);
      assert Log() == log;
    }

    /** The batch loop after i batches of an epoch at `rate` from `start`:
        either still running at the epoch run's i-th state, or stopped by an
        exception that the whole epoch run ends with. */
    ghost predicate EpochState(batches: seq<seq<Sample>>, start: Layers, errors: seq<real>, f: real -> real,
                               df: real -> real, exp: real -> real, rate: real, i: nat, thrown: Option<Error>)
      reads this`net, net, this`context, context, this`correctionsW, this`correctionsB
      reads this`rateFunc, this`epochCount, this`trainingErrors, trainingParameters
    {
      BatchesValid(batches) && RowBatches(batches) && i <= |batches| && Ready() && rateFunc.Some? &&
      LogValid(Log()) && rate == rateFunc.value.At(epochCount, exp) &&
      |start.ws| == |start.bs| && AllValid(start.ws) && AllValid(start.bs) &&
      (thrown.Some? ==> EpochRun(batches, start, f, df, rate, Log(), |batches|) == Err(thrown.value)) &&
      (thrown == None ==> Shaped() && EpochAt(batches, start, errors, f, df, rate, i))
    }

    /** `EpochStep` as a move of the batch loop's state. */
    method EpochAdvance(batches: seq<seq<Sample>>, f: real -> real, df: real -> real, exp: real -> real,
                        ghost rate: real, ghost start: Layers, ghost errors: seq<real>, i: nat)
      returns (thrown: Option<Error>)
      requires i < |batches| && EpochState(batches, start, errors, f, df, exp, rate, i, None)
      modifies context, this`correctionsW, this`correctionsB, this`trainingErrors, net`weights, net`biases
      ensures EpochState(batches, start, errors, f, df, exp, rate, i + 1, thrown)
    {
      thrown := EpochStep(batches, f, df, exp, rate, start, errors, i);
    }

    /** The batch loop's state once it has left: the exception it stopped
        at is the epoch's, and without one every batch has run. */
    lemma EpochStateDone(batches: seq<seq<Sample>>, start: Layers, errors: seq<real>, f: real -> real,
                         df: real -> real, exp: real -> real, rate: real, i: nat, thrown: Option<Error>)
      requires EpochState(batches, start, errors, f, df, exp, rate, i, thrown)
      requires thrown.Some? || i == |batches|
      ensures EpochState(batches, start, errors, f, df, exp, rate, |batches|, thrown)
    {
    }

    /** The batch loop, `for (Iterable<Sample> batch : batches)`, left at the first exception. */
    method EpochLoop(batches: seq<seq<Sample>>, f: real -> real, df: real -> real, exp: real -> real,
                     ghost rate: real, ghost start: Layers, ghost errors: seq<real>)
      returns (thrown: Option<Error>)
      requires EpochState(batches, start, errors, f, df, exp, rate, 0, None)
      modifies context, this`correctionsW, this`correctionsB, this`trainingErrors, net`weights, net`biases
      ensures EpochState(batches, start, errors, f, df, exp, rate, |batches|, thrown)
    {
      thrown := None;
      var i := 0;
      while i < |batches| && thrown == None
        invariant EpochState(batches, start, errors, f, df, exp, rate, i, thrown)
      {
        thrown := EpochAdvance(batches, f, df, exp, rate, start, errors, i);
        i := i + 1;
      }
      EpochStateDone(batches, start, errors, f, df, exp, rate, i, thrown);
    }

    /**
     * One epoch: each batch trained on the net the previous one left, one
     * training error kept per batch; the first exception ends the epoch.
     */
    method EpochTrain(batches: seq<seq<Sample>>, f: real -> real, df: real -> real, exp: real -> real)
      returns (thrown: Option<Error>)
      requires Shaped() && BatchesValid(batches) && RowBatches(batches) && rateFunc.Some? && LogValid(Log())
      modifies context, this`correctionsW, this`correctionsB, this`trainingErrors, net`weights, net`biases
      ensures Ready()
      ensures thrown == None <==> old(EpochOf(batches, f, df, exp)).Ok?
      ensures thrown.Some? ==> thrown.value == old(EpochOf(batches, f, df, exp)).error
      ensures thrown == None ==> (Shaped() && Current() == old(EpochOf(batches, f, df, exp)).value.net &&
                                  trainingErrors == old(trainingErrors) + old(EpochOf(batches, f, df, exp)).value.losses)
    {
      ghost var start := Current();
      ghost var rate := rateFunc.value.At(epochCount, exp);
      assert EpochAt(batches, start, trainingErrors, f, df, rate, 0);
      thrown := EpochLoop(batches, f, df, exp, rate, start, trainingErrors);
    }

    /** The net was drawn from these layer sizes with the activations of the
        net parameters, and is still as it was drawn. */
    ghost predicate DrawnFrom(layerSizes: seq<int>, draw: (nat, nat) -> real)
      reads this`net, this`initial, net, netParameters
      reads if net != null then {net.activations} else {}
    {
      net != null && netParameters.activation != null && net.activations.Length == |net.weights| &&
      (forall k :: 0 <= k < net.activations.Length ==> net.activations[k] == netParameters.activation) &&
      Nets.BuiltFrom(net.weights, net.biases, layerSizes, draw) && initial == Current()
    }

    /** A new context for the net's layers and zero accumulators shaped like
        the weights and the biases. */
    ghost predicate Scratched()
      reads this`net, net, this`context, context, this`correctionsW, this`correctionsB
    {
      Shaped() && context.Initial(net.weights, net.biases) &&
      correctionsW == ZerosLike(net.weights) && correctionsB == ZerosLike(net.biases)
    }

    /** A tester for this teacher and these parameters that has not tested yet. */
    ghost predicate NewTester()
      reads this`tester, tester, trainingParameters
    {
      tester != null && tester.Valid() && tester.name == teacherName && tester.bestNet == null &&
      tester.stopReason == None && tester.testingErrors == [] &&
      tester.maxEpochsCount == trainingParameters.maxEpochsCount && tester.errorLimit == trainingParameters.errorLimit
    }

    /** The first line of `resetVariables()`: `net = netParameters.createNet()`. */
    method NewNet(draw: (nat, nat) -> real) returns (thrown: Option<Error>)
      modifies this`net, this`initial
      ensures thrown == Nets.CreateError(netParameters.layerSizes[..], netParameters.activation == null)
      ensures thrown == None ==> fresh(net) && DrawnFrom(netParameters.layerSizes[..], draw)
      ensures thrown == None ==> |net.weights| == |net.biases| && AllValid(net.weights) && AllValid(net.biases)
    {
      var created := netParameters.CreateNet(draw);
      if created.Err? {
        assert Nets.CreateError(netParameters.layerSizes[..], netParameters.activation == null) == Some(created.error);
        return Some(created.error);
      }
      SimpleTeaching.BuiltFromValid(created.value.weights, created.value.biases, netParameters.layerSizes[..], draw);
      net := created.value;
      initial := Current();
      thrown := None;
    }

    /** The rate, the training errors, the result and the tester of
        `resetVariables()`, once the net is created. */
    method ResetRest(schedule: Option<Schedule>)
      modifies this`rateFunc, this`tester, this`trainingErrors, this`trainingResult
      ensures fresh(tester) && fresh(trainingResult)
      ensures NewTester() && rateFunc == schedule && trainingErrors == []
    {
      rateFunc := schedule;
      trainingErrors := [];
      trainingResult := new TrainingResult();
      tester := new Testers.SerialTester(teacherName, trainingParameters);
    }

    /** The end of `resetVariables()`: the context for the net's layers and
        an accumulator of zeros per weight matrix and per bias. */
    method AllocateScratch()
      requires NetValid()
      modifies this`context, this`correctionsW, this`correctionsB
      ensures fresh(context) && Scratched()
    {
      var layerCount := |net.weights|;
      context := new CalcContext(layerCount, net.weights, net.biases);
      // correctionsW[i] = Matrix.create(rows, columns), and the same for the biases
      correctionsW := ZerosLike(net.weights);
      correctionsB := ZerosLike(net.biases);
    }

    /**
     * `resetVariables()`: a new net from the net parameters (the exception
     * `createNet` throws ends `learn`), the rate, no training errors, a new
     * result and tester, then the context, whose constructor reads
     * `weights[0]` and so fails on a net without layers, and zero
     * accumulators.
     */
    method ResetVariables(draw: (nat, nat) -> real) returns (thrown: Option<Error>)
      modifies this
      ensures thrown == old(ResetError(netParameters.layerSizes[..], netParameters.activation == null))
      ensures epochCount == old(epochCount)
      ensures thrown == None ==> fresh(net) && fresh(tester) && fresh(trainingResult) && fresh(context)
      ensures thrown == None ==> ResetTo(old(netParameters.layerSizes[..]), draw, old(ScheduleOf(trainingParameters.rate)))
      ensures thrown == None ==> Scratched() && NewTester()
    {
      ghost var sizes := netParameters.layerSizes[..];
      var schedule := ScheduleOf(trainingParameters.rate);
      thrown := NewNet(draw);
      if thrown.Some? {
        return;
      }
      thrown := ResetScratch(schedule);
      if thrown == None {
        ResetToIntro(sizes, draw, schedule);
      }
    }

    /** The rest of `resetVariables()` once the net is created: the rate,
        the training errors, the result and the tester, then the context,
        which a net without layers cannot have, and the accumulators. */
    method ResetScratch(schedule: Option<Schedule>) returns (thrown: Option<Error>)
      requires net != null && |net.weights| == |net.biases| && AllValid(net.weights) && AllValid(net.biases)
      modifies this`rateFunc, this`tester, this`trainingErrors, this`trainingResult
      modifies this`context, this`correctionsW, this`correctionsB
      ensures thrown == if |net.weights| == 0 then Some(IndexOutOfBounds(0)) else None
      ensures fresh(tester) && fresh(trainingResult) && NewTester() && rateFunc == schedule && trainingErrors == []
      ensures thrown == None ==> fresh(context) && Scratched()
    {
      ResetRest(schedule);
      if |net.weights| == 0 {
        return Some(IndexOutOfBounds(0));
      }
      AllocateScratch();
      thrown := None;
    }

    /** What `resetVariables()` leaves behind for training when it throws
        nothing: the drawn net, a context and accumulators for its layers,
        the rate and no training errors. */
    ghost predicate ResetTo(layerSizes: seq<int>, draw: (nat, nat) -> real, schedule: Option<Schedule>)
      reads this`net, this`initial, net, netParameters, this`context, context, this`correctionsW, this`correctionsB
      reads this`rateFunc, this`trainingErrors
      reads if net != null then {net.activations} else {}
    {
      DrawnFrom(layerSizes, draw) && Shaped() && rateFunc == schedule && trainingErrors == []
    }

    /** `ResetTo` from its parts. */
    lemma ResetToIntro(layerSizes: seq<int>, draw: (nat, nat) -> real, schedule: Option<Schedule>)
      requires DrawnFrom(layerSizes, draw) && Shaped() && rateFunc == schedule && trainingErrors == []
      ensures ResetTo(layerSizes, draw, schedule)
    {
    }

    /** The net's activations are all the parameters' activation, whose
        scale has an owner: what `tester.test` needs of the net beyond
        valid layers. */
    ghost predicate Testable()
      reads this`net, net, netParameters
      reads if net != null then {net.activations} else {}
      reads if netParameters.activation != null then {netParameters.activation} else {}
    {
      net != null && netParameters.activation != null && netParameters.activation.owner != null &&
      forall k :: 0 <= k < net.activations.Length ==> net.activations[k] == netParameters.activation
    }

    /** A testable net of valid layers, one activation per layer, is a valid net. */
    lemma TestableIsValid()
      requires Testable() && NetValid() && |net.weights| <= net.activations.Length
      ensures net.Valid()
    {
    }

    /** The training half of `Learning`: the net and the training errors,
        one per batch, are those of the first `epochCount` epochs from the
        drawn net. */
    ghost predicate TrainedAt(batches: seq<seq<Sample>>, f: real -> real, df: real -> real, exp: real -> real)
      reads this`net, net, this`context, context, this`correctionsW, this`correctionsB, netParameters, trainingParameters
      reads this`rateFunc, this`epochCount, this`trainingErrors, this`initial
      reads if net != null then {net.activations} else {}
      reads if netParameters.activation != null then {netParameters.activation} else {}
    {
      TrainedAfter(batches, f, df, exp, epochCount)
    }

    /** The net and the training errors are those of the first k epochs. */
    ghost predicate TrainedAfter(batches: seq<seq<Sample>>, f: real -> real, df: real -> real, exp: real -> real, k: nat)
      reads this`net, net, this`context, context, this`correctionsW, this`correctionsB, netParameters, trainingParameters
      reads this`rateFunc, this`trainingErrors, this`initial
      reads if net != null then {net.activations} else {}
      reads if netParameters.activation != null then {netParameters.activation} else {}
    {
      Shaped() && Testable() && rateFunc.Some? && BatchesValid(batches) && RowBatches(batches) && LogValid(Log()) &&
      |initial.ws| == |initial.bs| == net.activations.Length && AllValid(initial.ws) && AllValid(initial.bs) &&
      Trajectory(batches, initial, f, df, SimpleTeaching.Eta(rateFunc.value, exp), Log(), k) ==
        Ok(Trained(Current(), trainingErrors))
    }

    /**
     * The state of `learn` after `epochCount` epochs over `batches`: the net
     * and the training errors are those of the first `epochCount` epochs run
     * from the net `resetVariables` drew, and the tester has recorded one
     * test before training and one after each epoch.
     */
    ghost predicate Learning(batches: seq<seq<Sample>>, testing: seq<Sample>, f: real -> real, df: real -> real,
                             exp: real -> real)
      reads this`net, net, this`context, context, this`correctionsW, this`correctionsB, netParameters, trainingParameters
      reads this`rateFunc, this`epochCount, this`trainingErrors, this`initial, this`tester, tester
      reads if net != null then {net.activations} else {}
      reads if netParameters.activation != null then {netParameters.activation} else {}
    {
      TrainedAt(batches, f, df, exp) && SamplesValid(testing) && |testing| > 0 &&
      tester != null && tester.Valid() && |tester.testingErrors| == epochCount + 1
    }

    /** `testing()`: the tester tests the current net on the testing samples at the current epoch. */
    method Testing(testing: seq<Sample>) returns (thrown: Option<Error>)
      requires Testable() && NetValid() && |net.weights| <= net.activations.Length
      requires tester != null && tester.Valid() && SamplesValid(testing) && |testing| > 0
      modifies tester
      ensures tester.Valid() && tester.errorLimit == old(tester.errorLimit) && tester.maxEpochsCount == old(tester.maxEpochsCount)
      ensures thrown == None ==> |tester.testingErrors| == |old(tester.testingErrors)| + 1
      ensures thrown == None ==>
        tester.stopReason == Testers.NextReason(old(tester.stopReason), tester.testingErrors[|old(tester.testingErrors)|],
                                                tester.errorLimit, epochCount, tester.maxEpochsCount,
                                                Testers.Speed(tester.testingErrors), Testers.OverfittingLimit)
    {
      TestableIsValid();
      var r := tester.Test(net, testing, epochCount);
      thrown := if r.Err? then Some(r.error) else None;
    }

    /** `Learning` from its parts. */
    lemma LearningIntro(batches: seq<seq<Sample>>, testing: seq<Sample>, f: real -> real, df: real -> real, exp: real -> real)
      requires TrainedAt(batches, f, df, exp) && SamplesValid(testing) && |testing| > 0
      requires tester != null && tester.Valid() && |tester.testingErrors| == epochCount + 1
      ensures Learning(batches, testing, f, df, exp)
    {
    }

    /** The training half of the do-while body: the batch loop over the
        batches, then `epochCount++`. */
    method EpochNext(batches: seq<seq<Sample>>, f: real -> real, df: real -> real, exp: real -> real)
      returns (thrown: Option<Error>)
      requires TrainedAt(batches, f, df, exp)
      modifies context, this`correctionsW, this`correctionsB, this`trainingErrors, this`epochCount
      modifies net`weights, net`biases
      ensures thrown == None ==> TrainedAt(batches, f, df, exp) && epochCount == old(epochCount) + 1
    {
      ghost var eta := SimpleTeaching.Eta(rateFunc.value, exp);
      ghost var t := Trained(Current(), trainingErrors);
      ghost var e := EpochOf(batches, f, df, exp);
      thrown := EpochTrain(batches, f, df, exp);
      if thrown.Some? {
        return;
      }
      TrajectorySucc(batches, initial, f, df, eta, Log(), epochCount, t, e.value);
      CountEpoch(batches, f, df, exp);
    }

    /** `epochCount++` once the net and the errors are those of one more epoch. */
    method CountEpoch(batches: seq<seq<Sample>>, f: real -> real, df: real -> real, exp: real -> real)
      requires Shaped() && Testable() && rateFunc.Some? && BatchesValid(batches) && RowBatches(batches) && LogValid(Log())
      requires |initial.ws| == |initial.bs| == net.activations.Length && AllValid(initial.ws) && AllValid(initial.bs)
      requires Trajectory(batches, initial, f, df, SimpleTeaching.Eta(rateFunc.value, exp), Log(), epochCount + 1) ==
        Ok(Trained(Current(), trainingErrors))
      modifies this`epochCount
      ensures TrainedAt(batches, f, df, exp) && epochCount == old(epochCount) + 1
    {
      var k := epochCount + 1;
      assert TrainedAfter(batches, f, df, exp, k);
      epochCount := k;
      TrainedAtCount(batches, f, df, exp, k);
    }

    /** `TrainedAt` once the count has reached k. */
    lemma TrainedAtCount(batches: seq<seq<Sample>>, f: real -> real, df: real -> real, exp: real -> real, k: nat)
      requires epochCount == k && TrainedAfter(batches, f, df, exp, k)
      ensures TrainedAt(batches, f, df, exp)
    {
    }

    /** One pass of the do-while body over the batches of `getNewBatches()`:
        the batch loop, `epochCount++`, then `testing()`. */
    method LearnEpoch(batches: seq<seq<Sample>>, testing: seq<Sample>, f: real -> real, df: real -> real, exp: real -> real)
      returns (thrown: Option<Error>)
      requires Learning(batches, testing, f, df, exp)
      modifies context, this`correctionsW, this`correctionsB, this`trainingErrors, this`epochCount
      modifies net`weights, net`biases, tester
      ensures thrown == None ==> Learning(batches, testing, f, df, exp) && epochCount == old(epochCount) + 1
      ensures tester.errorLimit == old(tester.errorLimit) && tester.maxEpochsCount == old(tester.maxEpochsCount)
      ensures thrown == None ==>
        tester.stopReason == Testers.NextReason(old(tester.stopReason), tester.testingErrors[epochCount], tester.errorLimit, epochCount,
                                                tester.maxEpochsCount, Testers.Speed(tester.testingErrors), Testers.OverfittingLimit)
    {
      thrown := EpochNext(batches, f, df, exp);
      if thrown.Some? {
        return;
      }
      thrown := Testing(testing);
      if thrown == None {
        LearningIntro(batches, testing, f, df, exp);
      }
    }

    /** `getNewBatches()`: the training samples in batches of the batch size,
        each read to its end. */
    method NewBatches() returns (batches: seq<seq<Sample>>)
      requires trainingParameters.batchSize > 0
      ensures batches == Chunks(sampleService.training.items, trainingParameters.batchSize)
    {
      var source := new SampleBatches(trainingParameters.batchSize, sampleService.TrainingSampling().items);
      batches := ReadAll(source);
    }

    /** Right after `resetVariables()`, with the count at zero, the teacher
        stands at the start of the trajectory. */
    lemma ResetIsTrainedAt(batches: seq<seq<Sample>>, f: real -> real, df: real -> real, exp: real -> real,
                           draw: (nat, nat) -> real)
      requires ResetTo(netParameters.layerSizes[..], draw, rateFunc) && epochCount == 0
      requires rateFunc.Some? && BatchesValid(batches) && RowBatches(batches) && LogValid(Log())
      requires netParameters.activation.owner != null
      ensures TrainedAt(batches, f, df, exp)
    {
    }

    /** The start of `learn()`: `resetVariables()`, the test before training
        (at the epoch count the teacher had), then `epochCount = 0`. */
    method LearnStart(draw: (nat, nat) -> real, f: real -> real, df: real -> real, exp: real -> real,
                      ghost batches: seq<seq<Sample>>, testing: seq<Sample>)
      returns (thrown: Option<Error>)
      requires trainingParameters.rate.Some? && trainingParameters.batchSize > 0
      requires BatchesValid(batches) && RowBatches(batches) && SamplesValid(testing) && |testing| > 0
      requires netParameters.activation != null ==> netParameters.activation.owner != null
      modifies this
      ensures old(ResetError(netParameters.layerSizes[..], netParameters.activation == null)).Some? ==>
        thrown == old(ResetError(netParameters.layerSizes[..], netParameters.activation == null))
      ensures thrown == None ==> fresh(net) && fresh(tester) && fresh(trainingResult) && fresh(context)
      ensures thrown == None ==> Learning(batches, testing, f, df, exp) && epochCount == 0
      ensures thrown == None ==> Nets.BuiltFrom(initial.ws, initial.bs, netParameters.layerSizes[..], draw)
      ensures thrown == None ==> rateFunc == old(ScheduleOf(trainingParameters.rate))
      ensures thrown == None ==>
        tester.maxEpochsCount == trainingParameters.maxEpochsCount && tester.errorLimit == trainingParameters.errorLimit
    {
      thrown := LearnReset(draw, testing);
      if thrown.Some? {
        return;
      }
      epochCount := 0;
      ResetIsTrainedAt(batches, f, df, exp, draw);
      LearningIntro(batches, testing, f, df, exp);
    }

    /** The first two lines of `learn()`: `resetVariables()`, then the test
        of the drawn net before training. */
    method LearnReset(draw: (nat, nat) -> real, testing: seq<Sample>) returns (thrown: Option<Error>)
      requires SamplesValid(testing) && |testing| > 0
      requires netParameters.activation != null ==> netParameters.activation.owner != null
      modifies this
      ensures old(ResetError(netParameters.layerSizes[..], netParameters.activation == null)).Some? ==>
        thrown == old(ResetError(netParameters.layerSizes[..], netParameters.activation == null))
      ensures thrown == None ==> fresh(net) && fresh(tester) && fresh(trainingResult) && fresh(context)
      ensures thrown == None ==> ResetTo(old(netParameters.layerSizes[..]), draw, old(ScheduleOf(trainingParameters.rate)))
      ensures thrown == None ==> tester.Valid() && |tester.testingErrors| == 1
      ensures thrown == None ==>
        tester.maxEpochsCount == trainingParameters.maxEpochsCount && tester.errorLimit == trainingParameters.errorLimit
    {
      thrown := ResetVariables(draw);
      if thrown.Some? {
        return;
      }
      thrown := Testing(testing);
    }

    /**
     * The state of the do-while loop of `learn()` once an epoch has run: no
     * exception so far, `Learning` at the epoch count, an epoch after the
     * first run only below the maximum, a tester that still goes on stands
     * below the maximum, and after more than one epoch the stop reason is
     * the one the last test gave to a tester that had none.
     */
    ghost predicate Looping(batches: seq<seq<Sample>>, testing: seq<Sample>, f: real -> real, df: real -> real,
                            exp: real -> real, thrown: Option<Error>)
      reads this`net, net, this`context, context, this`correctionsW, this`correctionsB, netParameters, trainingParameters
      reads this`rateFunc, this`epochCount, this`trainingErrors, this`initial, this`tester, tester
      reads if net != null then {net.activations} else {}
      reads if netParameters.activation != null then {netParameters.activation} else {}
    {
      tester != null &&
      tester.maxEpochsCount == trainingParameters.maxEpochsCount && tester.errorLimit == trainingParameters.errorLimit &&
      (thrown == None ==>
        Learning(batches, testing, f, df, exp) && epochCount >= 1 &&
        (tester.stopReason == None ==> epochCount < tester.maxEpochsCount) &&
        (epochCount == 1 || epochCount <= tester.maxEpochsCount) &&
        (epochCount > 1 ==>
          tester.stopReason == Testers.NextReason(None, tester.testingErrors[epochCount], tester.errorLimit, epochCount,
                                                  tester.maxEpochsCount, Testers.Speed(tester.testingErrors),
                                                  Testers.OverfittingLimit)))
    }

    /** One turn of the do-while loop: `getNewBatches()`, then the epoch and its test. */
    method LearnTurn(ghost batches: seq<seq<Sample>>, testing: seq<Sample>, f: real -> real, df: real -> real,
                     exp: real -> real, ghost first: bool)
      returns (thrown: Option<Error>)
      requires trainingParameters.batchSize > 0 && batches == Chunks(sampleService.training.items, trainingParameters.batchSize)
      requires tester != null && tester.maxEpochsCount == trainingParameters.maxEpochsCount
      requires tester.errorLimit == trainingParameters.errorLimit
      requires Learning(batches, testing, f, df, exp)
      requires first ==> epochCount == 0
      requires !first ==> epochCount >= 1 && tester.stopReason == None && epochCount < tester.maxEpochsCount
      modifies context, this`correctionsW, this`correctionsB, this`trainingErrors, this`epochCount
      modifies net`weights, net`biases, tester
      ensures Looping(batches, testing, f, df, exp, thrown)
      ensures thrown == None ==> epochCount == old(epochCount) + 1
    {
      var current := NewBatches();
      thrown := LearnEpoch(current, testing, f, df, exp);
    }

    /**
     * The do-while loop of `learn()`: one epoch, then more while the tester
     * goes on. Every test but the last left the stop reason unset, so the
     * loop ends with the first epoch whose test sets one, and an epoch after
     * the first runs only below the maximum epoch count.
     */
    method LearnLoop(ghost batches: seq<seq<Sample>>, testing: seq<Sample>, f: real -> real, df: real -> real, exp: real -> real)
      returns (thrown: Option<Error>)
      requires Learning(batches, testing, f, df, exp) && epochCount == 0
      requires tester.maxEpochsCount == trainingParameters.maxEpochsCount && tester.errorLimit == trainingParameters.errorLimit
      requires trainingParameters.batchSize > 0 && batches == Chunks(sampleService.training.items, trainingParameters.batchSize)
      modifies context, this`correctionsW, this`correctionsB, this`trainingErrors, this`epochCount
      modifies net`weights, net`biases, tester
      ensures Looping(batches, testing, f, df, exp, thrown)
      ensures thrown == None ==> tester.stopReason.Some?
    {
      thrown := LearnTurn(batches, testing, f, df, exp, true);
      while thrown == None && tester.IsContinue()
        invariant Looping(batches, testing, f, df, exp, thrown)
        decreases if thrown == None && tester.stopReason == None then tester.maxEpochsCount - epochCount else 0
      {
        thrown := LearnTurn(batches, testing, f, df, exp, false);
      }
    }

    /** The end of `learn()`: the result takes the epoch count, the tester's
        reason, best net and lists, and the training errors. */
    method FillResult(ghost batches: seq<seq<Sample>>, f: real -> real, df: real -> real, exp: real -> real, duration: int)
      requires trainingResult != null && tester != null
      requires Stopped(batches, f, df, exp)
      modifies trainingResult
      ensures Learned(batches, f, df, exp, duration)
      ensures trainingResult.duration == Some(duration) && trainingResult.epochCount == epochCount
      ensures trainingResult.stopReason == tester.stopReason && trainingResult.bestNet == tester.bestNet
      ensures trainingResult.trainingErrors == trainingErrors
      ensures trainingResult.testingErrors == tester.testingErrors && trainingResult.testingPercents == tester.testingPercents
    {
      trainingResult.duration := Some(duration);
      trainingResult.epochCount := epochCount;
      trainingResult.stopReason := tester.stopReason;
      trainingResult.bestNet := tester.bestNet;
      trainingResult.trainingErrors := trainingErrors;
      trainingResult.testingErrors := tester.testingErrors;
      trainingResult.testingPercents := tester.testingPercents;
    }

    /** The teacher once the do-while loop has left without an exception:
        at least one epoch run and tested, the tester stopped (by the last
        test if more than one epoch ran), the net where the epochs took it. */
    ghost predicate Stopped(batches: seq<seq<Sample>>, f: real -> real, df: real -> real, exp: real -> real)
      reads this`net, net, this`context, context, this`correctionsW, this`correctionsB, netParameters, trainingParameters
      reads this`rateFunc, this`epochCount, this`trainingErrors, this`initial, this`tester, tester
      reads if net != null then {net.activations} else {}
      reads if netParameters.activation != null then {netParameters.activation} else {}
    {
      tester != null &&
      epochCount >= 1 && tester.stopReason.Some? && |tester.testingErrors| == epochCount + 1 &&
      (epochCount == 1 || epochCount <= trainingParameters.maxEpochsCount) &&
      (epochCount > 1 ==>
        tester.stopReason == Testers.NextReason(None, tester.testingErrors[epochCount], trainingParameters.errorLimit, epochCount,
                                                trainingParameters.maxEpochsCount, Testers.Speed(tester.testingErrors),
                                                Testers.OverfittingLimit)) &&
      TrainedAt(batches, f, df, exp)
    }

    /** A loop that left without an exception left a stopped tester. */
    lemma LoopStopped(batches: seq<seq<Sample>>, testing: seq<Sample>, f: real -> real, df: real -> real, exp: real -> real)
      requires Looping(batches, testing, f, df, exp, None) && tester.stopReason.Some?
      ensures Stopped(batches, f, df, exp)
    {
    }

    /**
     * What a `learn()` that throws nothing leaves behind: at least one epoch
     * run and tested, the tester stopped (by the last test if more than one
     * epoch ran), the network the one the epochs' trajectory reaches with
     * one training error per batch, and the result filled from the tester
     * and the teacher.
     */
    ghost predicate Learned(batches: seq<seq<Sample>>, f: real -> real, df: real -> real, exp: real -> real, duration: int)
      reads this`net, net, this`context, context, this`correctionsW, this`correctionsB, netParameters, trainingParameters
      reads this`rateFunc, this`epochCount, this`trainingErrors, this`initial, this`tester, tester
      reads this`trainingResult, trainingResult
      reads if net != null then {net.activations} else {}
      reads if netParameters.activation != null then {netParameters.activation} else {}
    {
      Stopped(batches, f, df, exp) && trainingResult != null &&
      trainingResult.duration == Some(duration) && trainingResult.epochCount == epochCount &&
      trainingResult.stopReason == tester.stopReason && trainingResult.bestNet == tester.bestNet &&
      trainingResult.trainingErrors == trainingErrors && trainingResult.testingErrors == tester.testingErrors &&
      trainingResult.testingPercents == tester.testingPercents
    }

    /**
     * `learn()`: a new net, tester, context and result, a test before
     * training, then epochs until the tester stops, and the result filled
     * from the tester. At least one epoch always runs; the net and the
     * training errors are those of that many epochs of mini-batch descent
     * from the drawn net, one error per batch, and the stop reason is the
     * one the last test set. The elapsed time is a parameter.
     */
    method Learn(draw: (nat, nat) -> real, f: real -> real, df: real -> real, exp: real -> real, duration: int)
      returns (thrown: Option<Error>)
      requires trainingParameters.rate.Some? && trainingParameters.batchSize > 0
      requires SamplesValid(sampleService.training.items) && SamplesValid(sampleService.testing.items)
      requires RowSources(sampleService.training.items) && |sampleService.testing.items| > 0
      requires netParameters.activation != null ==> netParameters.activation.owner != null
      modifies this
      ensures old(ResetError(netParameters.layerSizes[..], netParameters.activation == null)).Some? ==>
        thrown == old(ResetError(netParameters.layerSizes[..], netParameters.activation == null))
      ensures thrown == None ==> rateFunc == old(ScheduleOf(trainingParameters.rate)) && rateFunc.Some?
      ensures thrown == None ==> Nets.BuiltFrom(initial.ws, initial.bs, netParameters.layerSizes[..], draw)
      ensures thrown == None ==> Learned(Chunks(sampleService.training.items, trainingParameters.batchSize), f, df, exp, duration)
    {
      // every epoch's `getNewBatches()` reads the same batches from the unchanged training list
      ghost var batches := Chunks(sampleService.training.items, trainingParameters.batchSize);
      ChunksValid(sampleService.training.items, trainingParameters.batchSize);
      ChunksRows(sampleService.training.items, trainingParameters.batchSize);
      var testing := sampleService.TestingSampling().items;
      thrown := LearnStart(draw, f, df, exp, batches, testing);
      if thrown.Some? {
        return;
      }
      thrown := LearnRun(batches, testing, f, df, exp, duration);
    }

    /** `learn()` after its start: the do-while loop, then the result filled from the tester. */
    method LearnRun(ghost batches: seq<seq<Sample>>, testing: seq<Sample>, f: real -> real, df: real -> real,
                    exp: real -> real, duration: int)
      returns (thrown: Option<Error>)
      requires Learning(batches, testing, f, df, exp) && epochCount == 0 && trainingResult != null
      requires tester.maxEpochsCount == trainingParameters.maxEpochsCount && tester.errorLimit == trainingParameters.errorLimit
      requires trainingParameters.batchSize > 0 && batches == Chunks(sampleService.training.items, trainingParameters.batchSize)
      modifies context, this`correctionsW, this`correctionsB, this`trainingErrors, this`epochCount
      modifies net`weights, net`biases, tester, trainingResult
      ensures thrown == None ==> Learned(batches, f, df, exp, duration)
      ensures unchanged(this`rateFunc, this`initial, netParameters.layerSizes)
    {
      thrown := LearnLoop(batches, testing, f, df, exp);
      if thrown.Some? {
        return;
      }
      LoopStopped(batches, testing, f, df, exp);
      FillResult(batches, f, df, exp, duration);
    }

    /**
     * `getProgress()`: the share of the maximum epochs run while the tester
     * goes on, 1.0 once it has stopped. Before `learn` there is no tester.
     */
    function GetProgress(): (r: Result<real>)
      reads this`tester, this`epochCount, tester, trainingParameters
      requires tester != null && tester.IsContinue() ==> trainingParameters.maxEpochsCount != 0
      ensures tester == null <==> r == Err(NullPointer)
      ensures tester != null && !tester.IsContinue() ==> r == Ok(1.0)
      ensures tester != null && tester.IsContinue() ==>
        r.Ok? && r.value * trainingParameters.maxEpochsCount as real == epochCount as real
      ensures tester != null && 0 <= epochCount <= trainingParameters.maxEpochsCount ==>
        r.Ok? && 0.0 <= r.value <= 1.0
    {
      if tester == null then Err(NullPointer)
      else if tester.IsContinue() then Ok(epochCount as real / trainingParameters.maxEpochsCount as real)
      else Ok(1.0)
    }
  }
}
