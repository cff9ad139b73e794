// Testing a net on held-out samples after each epoch, and deciding when
// training stops. Two generations of the tester exist: the current abstract
// tester with its serial implementation (five stencils for the error trend,
// overfitting limit 1.0, class index read through `getItem(0, i)`) and the
// older concrete tester (one seven-point stencil over a clamped history,
// overfitting limit 0.2, class index over the whole buffer). Both share the
// per-sample evaluation, the history bookkeeping and the stop priority.

module Testers {
  import opened Wrappers
  import opened MatrixAlgebra
  import opened Samples
  import opened Training
  import Nets

  /** `Double.MAX_VALUE`, (2 - 2^-52) * 2^1023, the initial minimum error. */
  const DoubleMax: real := 179769313486231570814527423731704356798070567525844996598917476803157260780028538760589558632766878171540458953514382464234321326889464182768467546703537516986049910576551282076245490090389328944075868508455133942304583236903222948165808559332123348274797826204144723168738177180919299881250404026184124858368.0

  /** `OVERFITTING_LIMIT` of the current tester. */
  const OverfittingLimit: real := 1.0

  /** `OVERFITTING_LIMIT` of the older tester. */
  const OldOverfittingLimit: real := 0.2

  // ---------------------------------------------------------------- class index

  /** k is the first position of a largest entry of s. */
  ghost predicate IsFirstMax(s: seq<real>, k: int)
  {
    0 <= k < |s| &&
    (forall j :: 0 <= j < |s| ==> s[j] <= s[k]) &&
    (forall j :: 0 <= j < k ==> s[j] < s[k])
  }

  /** The arg-max scan over the first n entries: a later entry replaces the
      current candidate only when it is strictly larger. */
  function FirstMax(s: seq<real>, n: nat): (k: nat)
    requires 0 < n <= |s|
    ensures IsFirstMax(s[..n], k)
    decreases n
  {
    if n == 1 then 0
    else
      var k := FirstMax(s, n - 1);
      assert s[..n - 1] == s[..n][..n - 1];
      if s[n - 1] > s[k] then n - 1 else k
  }

  /** The two ways the testers read a class index off a matrix. */
  datatype IndexRule =
    | RowItems   // current tester: `getItem(0, i)` for i below the item count
    | WholeArray // older tester: the whole row-major buffer

  /** The class index a tester computes, or the error `getItem` throws: the
      current tester reads row 0 at every item index, so a matrix with more
      than one row fails once the column index passes the row. */
  function ClassIndexOf(rule: IndexRule, m: Matrix): (r: Result<nat>)
    requires m.Valid()
    ensures rule == WholeArray ==> r.Ok? && IsFirstMax(m.data, r.value)
    ensures rule == RowItems ==> (r.Ok? <==> m.rows == 1)
    ensures rule == RowItems && m.rows == 1 ==> IsFirstMax(m.data, r.value)
    ensures rule == RowItems && m.rows != 1 ==> r == Err(IllegalArgument("column"))
  {
    assert m.data[..|m.data|] == m.data;
    Arith.MulMonotone(1, m.rows, m.columns);
    if rule == RowItems && m.rows != 1 then Err(IllegalArgument("column"))
    else Ok(FirstMax(m.data, |m.data|))
  }

  /** `getClassIndex` of the current tester: a scan over `getItemsNumber()`
      items, each read as `getItem(0, i)`. */
  method ClassIndex(m: Matrix) returns (r: Result<nat>)
    requires m.Valid()
    ensures r == ClassIndexOf(RowItems, m)
  {
    var count := m.rows * m.columns;
    if m.rows == 1 {
      assert count == m.columns;
    } else {
      Arith.MulMonotone(2, m.rows, m.columns);
    }
    assert 0 * m.columns == 0;
    var maxIndex := 0;
    for i := 0 to count
      invariant i <= m.columns
      invariant i == 0 ==> maxIndex == 0
      invariant i > 0 ==> maxIndex == FirstMax(m.data, i)
    {
      if i >= m.columns {
        return Err(IllegalArgument("column"));
      }
      if i > 0 && m.Entry(0, i) > m.Entry(0, maxIndex) {
        maxIndex := i;
      }
    }
    r := Ok(maxIndex);
  }

  /** `getClassIndex` of the older tester: the same scan over the buffer. */
  method ClassIndexOfArray(data: seq<real>) returns (k: nat)
    ensures |data| == 0 ==> k == 0
    ensures |data| > 0 ==> k == FirstMax(data, |data|) && IsFirstMax(data, k)
  {
    k := 0;
    for i := 0 to |data|
      invariant i == 0 ==> k == 0
      invariant i > 0 ==> k == FirstMax(data, i)
    {
      if data[i] > data[k] {
        k := i;
      }
    }
    assert data[..|data|] == data;
  }

  method ClassIndexBy(rule: IndexRule, m: Matrix) returns (r: Result<nat>)
    requires m.Valid()
    ensures r == ClassIndexOf(rule, m)
  {
    if rule == RowItems {
      r := ClassIndex(m);
    } else {
      var k := ClassIndexOfArray(m.data);
      r := Ok(k);
    }
  }

  // ---------------------------------------------------------------- evaluating a net

  /** What one sample contributes: half the squared error, and whether the
      output's class index is the target's. */
  datatype Outcome = Outcome(loss: real, hit: bool)

  /** `TestResult`: the mean error and the percentage of hits. */
  datatype TestResult = TestResult(error: real, percent: real)

  ghost predicate Shaped(weights: seq<Matrix>, biases: seq<Matrix>, fs: seq<real -> real>)
  {
    |weights| == |biases| && |weights| <= |fs| &&
    forall k :: 0 <= k < |weights| ==> weights[k].Valid() && biases[k].Valid()
  }

  /** One sample through the net: `pass`, then `target.sub(result)`, then the
      class indices of result and target, each of which can throw. */
  ghost function SampleOutcome(rule: IndexRule, weights: seq<Matrix>, biases: seq<Matrix>,
                               fs: seq<real -> real>, s: Sample): (r: Result<Outcome>)
    requires Shaped(weights, biases, fs) && s.source.Valid() && s.target.Valid()
    ensures r.Ok? ==> r.value.loss >= 0.0
  {
    var output :- Nets.Forward(s.source, weights, biases, fs, |weights|);
    Score(rule, output, s.target)
  }

  /** Scoring an output against its target. */
  function Score(rule: IndexRule, output: Matrix, target: Matrix): (r: Result<Outcome>)
    requires output.Valid() && target.Valid()
    ensures r.Ok? ==> r.value.loss >= 0.0
  {
    var err :- Elementwise(Minus, target, output);
    var resultIndex :- ClassIndexOf(rule, output);
    var targetIndex :- ClassIndexOf(rule, target);
    SqrsSumNonNegative(err.data);
    Ok(Outcome(SqrsSum(err.data) / 2.0, resultIndex == targetIndex))
  }

  /** Each sample's outcome, in iteration order. */
  ghost function SampleOutcomes(rule: IndexRule, weights: seq<Matrix>, biases: seq<Matrix>,
                                fs: seq<real -> real>, samples: seq<Sample>): (rs: seq<Result<Outcome>>)
    requires Shaped(weights, biases, fs) && SamplesValid(samples)
    ensures |rs| == |samples|
    decreases |samples|
  {
    if samples == [] then []
    else
      SampleOutcomes(rule, weights, biases, fs, samples[..|samples| - 1])
        + [SampleOutcome(rule, weights, biases, fs, samples[|samples| - 1])]
  }

  lemma {:induction false} SampleOutcomesAt(rule: IndexRule, weights: seq<Matrix>, biases: seq<Matrix>,
                                            fs: seq<real -> real>, samples: seq<Sample>, k: nat)
    requires Shaped(weights, biases, fs) && SamplesValid(samples) && k < |samples|
    ensures SampleOutcomes(rule, weights, biases, fs, samples)[k]
      == SampleOutcome(rule, weights, biases, fs, samples[k])
    decreases |samples|
  {
    if k < |samples| - 1 {
      var prefix := samples[..|samples| - 1];
      SampleOutcomesAt(rule, weights, biases, fs, prefix, k);
    }
  }

  /** The outcomes of the first n samples; the first failing sample ends the
      test with its error. */
  function Collect(rs: seq<Result<Outcome>>, n: nat): Result<seq<Outcome>>
    requires n <= |rs|
    decreases n
  {
    if n == 0 then Ok([])
    else
      var os :- Collect(rs, n - 1);
      var o :- rs[n - 1];
      Ok(os + [o])
  }

  /** A completed collection holds every outcome, in order; a failed one
      carries the error of some sample. */
  lemma {:induction false} CollectMeaning(rs: seq<Result<Outcome>>, n: nat)
    requires n <= |rs|
    ensures Collect(rs, n).Ok? ==>
      |Collect(rs, n).value| == n && forall k :: 0 <= k < n ==> rs[k] == Ok(Collect(rs, n).value[k])
    ensures Collect(rs, n).Err? ==> exists k :: 0 <= k < n && rs[k] == Err(Collect(rs, n).error)
    decreases n
  {
    if n > 0 {
      CollectMeaning(rs, n - 1);
    }
  }

  lemma {:induction false} CollectFailurePersists(rs: seq<Result<Outcome>>, n: nat, m: nat)
    requires n <= m <= |rs| && Collect(rs, n).Err?
    ensures Collect(rs, m) == Collect(rs, n)
    decreases m
  {
    if m > n {
      CollectFailurePersists(rs, n, m - 1);
    }
  }

  /** One more sample: a failure ends the collection with its error, a
      success appends its outcome. */
  lemma CollectFails(rs: seq<Result<Outcome>>, n: nat, os: seq<Outcome>)
    requires n < |rs| && Collect(rs, n) == Ok(os) && rs[n].Err?
    ensures Collect(rs, |rs|) == Err(rs[n].error)
  {
    assert Collect(rs, n + 1) == Err(rs[n].error);
    CollectFailurePersists(rs, n + 1, |rs|);
  }

  lemma CollectSnoc(rs: seq<Result<Outcome>>, n: nat, os: seq<Outcome>)
    requires n < |rs| && Collect(rs, n) == Ok(os) && rs[n].Ok?
    ensures Collect(rs, n + 1) == Ok(os + [rs[n].value])
  {
  }

  /** The summed loss, added in sample order. */
  function LossSum(os: seq<Outcome>): real
  {
    if os == [] then 0.0 else LossSum(os[..|os| - 1]) + os[|os| - 1].loss
  }

  /** The number of hits. */
  function Hits(os: seq<Outcome>): nat
  {
    if os == [] then 0 else Hits(os[..|os| - 1]) + (if os[|os| - 1].hit then 1 else 0)
  }

  lemma Accumulate(os: seq<Outcome>, o: Outcome)
    ensures LossSum(os + [o]) == LossSum(os) + o.loss
    ensures Hits(os + [o]) == Hits(os) + (if o.hit then 1 else 0)
  {
    assert (os + [o])[..|os|] == os;
  }

  /** `error /= count; percent = percent / count * 100`. */
  function Averaged(lossSum: real, hits: nat, count: nat): TestResult
    requires count > 0
  {
    TestResult(lossSum / count as real, hits as real / count as real * 100.0)
  }

  /** What a test of these outcomes reports. */
  function Summary(os: seq<Outcome>): TestResult
    requires |os| > 0
  {
    Averaged(LossSum(os), Hits(os), |os|)
  }

  lemma {:induction false} LossSumNonNegative(os: seq<Outcome>)
    requires forall k :: 0 <= k < |os| ==> os[k].loss >= 0.0
    ensures LossSum(os) >= 0.0
  {
    if os != [] {
      LossSumNonNegative(os[..|os| - 1]);
    }
  }

  lemma {:induction false} HitsAtMostCount(os: seq<Outcome>)
    ensures Hits(os) <= |os|
  {
    if os != [] {
      HitsAtMostCount(os[..|os| - 1]);
    }
  }

  /** What a test reports: the summary of every sample's outcome. */
  ghost function Evaluate(rule: IndexRule, weights: seq<Matrix>, biases: seq<Matrix>,
                          fs: seq<real -> real>, samples: seq<Sample>): Result<TestResult>
    requires Shaped(weights, biases, fs) && SamplesValid(samples) && |samples| > 0
  {
    var os :- Collect(SampleOutcomes(rule, weights, biases, fs, samples), |samples|);
    Ok(Summary(os))
  }

  /** A reported error is a mean of halved squares, so never negative; the
      reported percentage is a share of hits, so within [0, 100]. */
  lemma EvaluateBounds(rule: IndexRule, weights: seq<Matrix>, biases: seq<Matrix>,
                       fs: seq<real -> real>, samples: seq<Sample>)
    requires Shaped(weights, biases, fs) && SamplesValid(samples) && |samples| > 0
    requires Evaluate(rule, weights, biases, fs, samples).Ok?
    ensures Evaluate(rule, weights, biases, fs, samples).value.error >= 0.0
    ensures 0.0 <= Evaluate(rule, weights, biases, fs, samples).value.percent <= 100.0
  {
    var rs := SampleOutcomes(rule, weights, biases, fs, samples);
    var os := Collect(rs, |samples|).value;
    CollectMeaning(rs, |samples|);
    forall k | 0 <= k < |os|
      ensures os[k].loss >= 0.0
    {
      assert rs[k] == Ok(os[k]);
      SampleOutcomesAt(rule, weights, biases, fs, samples, k);
    }
    LossSumNonNegative(os);
    HitsAtMostCount(os);
    SummaryBounds(os);
  }

  lemma SummaryBounds(os: seq<Outcome>)
    requires |os| > 0 && LossSum(os) >= 0.0 && Hits(os) <= |os|
    ensures Summary(os).error >= 0.0 && 0.0 <= Summary(os).percent <= 100.0
  {
    AveragedBounds(LossSum(os), Hits(os), |os|);
  }

  /** A non-negative loss sum averages to a non-negative error, and at most
      count hits to a percentage in [0, 100]. */
  lemma AveragedBounds(lossSum: real, hits: nat, count: nat)
    requires count > 0 && lossSum >= 0.0 && hits <= count
    ensures Averaged(lossSum, hits, count).error >= 0.0
    ensures 0.0 <= Averaged(lossSum, hits, count).percent <= 100.0
  {
    var n := count as real;
    var h := hits as real;
    assert h / n <= 1.0 by {
      assert h <= n;
    }
    assert (h / n) * 100.0 <= 100.0;
  }

  /** A net that classifies every sample right scores 100 percent. */
  lemma {:induction false} AllHits(os: seq<Outcome>)
    requires |os| > 0 && forall k :: 0 <= k < |os| ==> os[k].hit
    ensures Hits(os) == |os| && Summary(os).percent == 100.0
    decreases |os|
  {
    var init := os[..|os| - 1];
    if |os| > 1 {
      AllHits(init);
    } else {
      assert init == [];
    }
    assert Hits(os) == Hits(init) + 1;
    assert Hits(os) as real / |os| as real == 1.0;
  }

  lemma NetShaped(net: Nets.Net)
    requires net.Valid()
    ensures Shaped(net.weights, net.biases, Nets.Transfers(net.activations[..]))
  {
  }

  /** The body of the sample loop: pass, subtract, halve the squared sum,
      compare class indices. */
  method TestSample(rule: IndexRule, weights: seq<Matrix>, biases: seq<Matrix>, fs: seq<real -> real>,
                    sample: Sample) returns (r: Result<Outcome>)
    requires Shaped(weights, biases, fs) && sample.source.Valid() && sample.target.Valid()
    ensures r == SampleOutcome(rule, weights, biases, fs, sample)
  {
    var result := Nets.Propagate(sample.source, weights, biases, fs);
    if result.Err? {
      return Err(result.error);
    }
    r := ScoreOutput(rule, result.value, sample.target);
  }

  method ScoreOutput(rule: IndexRule, output: Matrix, target: Matrix) returns (r: Result<Outcome>)
    requires output.Valid() && target.Valid()
    ensures r == Score(rule, output, target)
  {
    var err := Elementwise(Minus, target, output);
    if err.Err? {
      return Err(err.error);
    }
    var loss := SqrsSum(err.value.data) / 2.0;
    var resultIndex := ClassIndexBy(rule, output);
    if resultIndex.Err? {
      return Err(resultIndex.error);
    }
    var targetIndex := ClassIndexBy(rule, target);
    if targetIndex.Err? {
      return Err(targetIndex.error);
    }
    r := Ok(Outcome(loss, resultIndex.value == targetIndex.value));
  }

  /** The running totals of the sample loop. */
  datatype Tally = Tally(lossSum: real, hits: nat, count: nat)

  /** The totals of a collection, or its error. */
  function Tallied(c: Result<seq<Outcome>>): Result<Tally>
  {
    var os :- c;
    Ok(Tally(LossSum(os), Hits(os), |os|))
  }

  /** The sample loop of `performTest`: every sample in order, one
      accumulator each for the loss, the hits and the count; the first
      sample that throws ends the loop with its error. */
  method TallySamples(rule: IndexRule, weights: seq<Matrix>, biases: seq<Matrix>, fs: seq<real -> real>,
                      samples: seq<Sample>) returns (r: Result<Tally>)
    requires Shaped(weights, biases, fs) && SamplesValid(samples)
    ensures r == Tallied(Collect(SampleOutcomes(rule, weights, biases, fs, samples), |samples|))
  {
    ghost var rs := SampleOutcomes(rule, weights, biases, fs, samples);
    var error := 0.0;
    var hits := 0;
    var count := 0;
    ghost var os: seq<Outcome> := [];
    for j := 0 to |samples|
      invariant Collect(rs, j) == Ok(os)
      invariant error == LossSum(os) && hits == Hits(os) && count == j == |os|
    {
      var outcome := TestSample(rule, weights, biases, fs, samples[j]);
      SampleOutcomesAt(rule, weights, biases, fs, samples, j);
      if outcome.Err? {
        CollectFails(rs, j, os);
        return Err(outcome.error);
      }
      CollectSnoc(rs, j, os);
      Accumulate(os, outcome.value);
      error := error + outcome.value.loss;
      if outcome.value.hit {
        hits := hits + 1;
      }
      count := count + 1;
      os := os + [outcome.value];
    }
    r := Ok(Tally(error, hits, count));
  }

  /** `performTest` of the serial tester (and the evaluation inside the older
      tester's `test`): the sample loop, then `error /= count` and
      `percent = percent / count * 100`. Each `pass` reads the activators of
      the net; nothing changes the net during a test, so they are read once,
      before the loop. An empty sample set is excluded: its 0/0 is not a
      real. */
  method PerformTest(rule: IndexRule, net: Nets.Net, samples: seq<Sample>) returns (r: Result<TestResult>)
    requires net.Valid() && SamplesValid(samples) && |samples| > 0
    ensures r == Evaluate(rule, net.weights, net.biases, Nets.Transfers(net.activations[..]), samples)
  {
    NetShaped(net);
    var fs := Nets.Transfers(net.activations[..]);
    var tally := TallySamples(rule, net.weights, net.biases, fs, samples);
    if tally.Err? {
      return Err(tally.error);
    }
    r := Ok(Averaged(tally.value.lossSum, tally.value.hits, tally.value.count));
  }

  // ---------------------------------------------------------------- the parallel tester

  /** The parallel tester's sum as written: each task's percent (1 for a hit,
      0 otherwise) is added into the error as well as into the percent. */
  function ParallelErrorSumAsWritten(os: seq<Outcome>): real
  {
    if os == [] then 0.0
    else ParallelErrorSumAsWritten(os[..|os| - 1]) + (if os[|os| - 1].hit then 1.0 else 0.0)
  }

  /** As written, the parallel tester reports the hit rate as its error: a
      single sample with loss 0.5 that is classified right reports 1.0, where
      the serial tester reports 0.5. */
  lemma {:induction false} ParallelErrorIsHitRate(os: seq<Outcome>)
    ensures ParallelErrorSumAsWritten(os) == Hits(os) as real
    ensures ParallelErrorSumAsWritten([Outcome(0.5, true)]) == 1.0 != Summary([Outcome(0.5, true)]).error
  {
    if os != [] {
      ParallelErrorIsHitRate(os[..|os| - 1]);
    }
    assert [Outcome(0.5, true)][..0] == [];
  }

  /** The parallel tester's sum with each task's error added into the error. */
  function ParallelErrorSum(os: seq<Outcome>): real
  {
    if os == [] then 0.0
    else ParallelErrorSum(os[..|os| - 1]) + os[|os| - 1].loss
  }

  /** Corrected, collecting the futures in submission order gives exactly the
      serial tester's result. */
  lemma {:induction false} ParallelMatchesSerial(os: seq<Outcome>)
    requires |os| > 0
    ensures Averaged(ParallelErrorSum(os), Hits(os), |os|) == Summary(os)
  {
    ParallelSumIsLossSum(os);
  }

  lemma {:induction false} ParallelSumIsLossSum(os: seq<Outcome>)
    ensures ParallelErrorSum(os) == LossSum(os)
  {
    if os != [] {
      ParallelSumIsLossSum(os[..|os| - 1]);
    }
  }

  // ---------------------------------------------------------------- error trend

  /** `getValue(errors, -k)`: the entry k places before the newest. */
  function Back(errors: seq<real>, k: nat): real
    requires k < |errors|
  {
    errors[|errors| - 1 - k]
  }

  /** `getSpeed` of the current tester: 0 for a single entry, else the
      backward-difference stencil over the newest min(size, 6) entries. The
      only caller appends an error first, so the history is never empty. */
  function Speed(errors: seq<real>): real
    requires |errors| >= 1
  {
    if |errors| == 1 then 0.0
    else if |errors| == 2 then errors[1] - errors[0]
    else if |errors| == 3 then
      (3.0 * Back(errors, 0) - 4.0 * Back(errors, 1) + 1.0 * Back(errors, 2)) / 2.0
    else if |errors| == 4 then
      (11.0 * Back(errors, 0) - 18.0 * Back(errors, 1) + 9.0 * Back(errors, 2) - 2.0 * Back(errors, 3)) / 6.0
    else if |errors| == 5 then
      (25.0 * Back(errors, 0) - 48.0 * Back(errors, 1) + 36.0 * Back(errors, 2)
       - 16.0 * Back(errors, 3) + 3.0 * Back(errors, 4)) / 12.0
    else
      (137.0 * Back(errors, 0) - 300.0 * Back(errors, 1) + 300.0 * Back(errors, 2)
       - 200.0 * Back(errors, 3) + 75.0 * Back(errors, 4) - 12.0 * Back(errors, 5)) / 60.0
  }

  /** On a straight-line history, k places back is k steps below the newest. */
  lemma LineBack(errors: seq<real>, a: real, d: real, k: int)
    requires 0 <= k < |errors| && forall j :: 0 <= j < |errors| ==> errors[j] == a + j as real * d
    ensures errors[|errors| - 1 - k] == a + (|errors| - 1) as real * d - k as real * d
  {
    var n := |errors| - 1;
    assert ((n - k) as real) * d == n as real * d - k as real * d;
  }

  /** Every stencil's coefficients sum to zero: a flat history has speed 0. */
  lemma SpeedOfConstant(errors: seq<real>, c: real)
    requires |errors| >= 1 && forall k :: 0 <= k < |errors| ==> errors[k] == c
    ensures Speed(errors) == 0.0
  {
  }

  /** Each stencil is exact on a straight line: a history that moves by d per
      epoch has speed d. */
  lemma SpeedOfLinear(errors: seq<real>, a: real, d: real)
    requires |errors| >= 2 && forall k :: 0 <= k < |errors| ==> errors[k] == a + k as real * d
    ensures Speed(errors) == d
  {
    var e := a + (|errors| - 1) as real * d;
    LineBack(errors, a, d, 0);
    LineBack(errors, a, d, 1);
    if |errors| == 2 {
      assert errors[1] - errors[0] == d;
    } else {
      LineBack(errors, a, d, 2);
      if |errors| > 3 {
        LineBack(errors, a, d, 3);
      }
      if |errors| > 4 {
        LineBack(errors, a, d, 4);
      }
      if |errors| > 5 {
        LineBack(errors, a, d, 5);
      }
    }
  }

  /** The coefficients of the older tester's seven-point stencil, newest first. */
  const Coefficients: seq<int> := [147, -360, 450, -400, 225, -72, 10]

  /** The older `getValue`: a position before the first entry reads the next
      position up, so it ends at the first entry. */
  function ClampedValue(errors: seq<real>, index: int): real
    requires |errors| > 0 && index < |errors|
    decreases if index < 0 then -index else 0
  {
    if index < 0 then ClampedValue(errors, index + 1) else errors[index]
  }

  lemma {:induction false} ClampedValueIsClamped(errors: seq<real>, index: int)
    requires |errors| > 0 && index < |errors|
    ensures ClampedValue(errors, index) == errors[if index < 0 then 0 else index]
    decreases if index < 0 then -index else 0
  {
    if index < 0 {
      ClampedValueIsClamped(errors, index + 1);
    }
  }

  /** The first n terms of the older stencil. */
  function StencilUpTo(errors: seq<real>, n: nat): real
    requires |errors| > 0 && n <= |Coefficients|
  {
    if n == 0 then 0.0
    else StencilUpTo(errors, n - 1) + Coefficients[n - 1] as real * ClampedValue(errors, |errors| - 1 - (n - 1))
  }

  /** The older `getSpeed`: the whole stencil over 60. */
  function OldSpeedOf(errors: seq<real>): real
    requires |errors| > 0
  {
    StencilUpTo(errors, 7) / 60.0
  }

  /** The older speed as one expression over the clamped history. */
  lemma OldSpeedExpanded(errors: seq<real>)
    requires |errors| > 0
    ensures OldSpeedOf(errors) ==
      (147.0 * ClampedValue(errors, |errors| - 1) - 360.0 * ClampedValue(errors, |errors| - 2)
       + 450.0 * ClampedValue(errors, |errors| - 3) - 400.0 * ClampedValue(errors, |errors| - 4)
       + 225.0 * ClampedValue(errors, |errors| - 5) - 72.0 * ClampedValue(errors, |errors| - 6)
       + 10.0 * ClampedValue(errors, |errors| - 7)) / 60.0
  {
    var v := k requires k < |errors| => ClampedValue(errors, k);
    var n := |errors|;
    assert StencilUpTo(errors, 1) == 147.0 * v(n - 1);
    assert StencilUpTo(errors, 2) == StencilUpTo(errors, 1) - 360.0 * v(n - 2);
    assert StencilUpTo(errors, 3) == StencilUpTo(errors, 2) + 450.0 * v(n - 3);
    assert StencilUpTo(errors, 4) == StencilUpTo(errors, 3) - 400.0 * v(n - 4);
    assert StencilUpTo(errors, 5) == StencilUpTo(errors, 4) + 225.0 * v(n - 5);
    assert StencilUpTo(errors, 6) == StencilUpTo(errors, 5) - 72.0 * v(n - 6);
    assert StencilUpTo(errors, 7) == StencilUpTo(errors, 6) + 10.0 * v(n - 7);
  }

  /** The seven coefficients sum to zero: a flat history, including a
      history of one entry, has speed 0. */
  lemma OldSpeedOfConstant(errors: seq<real>, c: real)
    requires |errors| > 0 && forall k :: 0 <= k < |errors| ==> errors[k] == c
    ensures OldSpeedOf(errors) == 0.0
  {
    OldSpeedExpanded(errors);
    var n := |errors| - 1;
    forall k | n - 6 <= k <= n
      ensures ClampedValue(errors, k) == c
    {
      ClampedValueIsClamped(errors, k);
    }
  }

  /** With at least seven entries rising by d per epoch the speed is d. */
  lemma OldSpeedOfLinear(errors: seq<real>, a: real, d: real)
    requires |errors| >= 7 && forall k :: 0 <= k < |errors| ==> errors[k] == a + k as real * d
    ensures OldSpeedOf(errors) == d
  {
    OldSpeedExpanded(errors);
    var n := |errors| - 1;
    forall k | n - 6 <= k <= n
      ensures ClampedValue(errors, k) == errors[k]
    {
      ClampedValueIsClamped(errors, k);
    }
    LineBack(errors, a, d, 0);
    LineBack(errors, a, d, 1);
    LineBack(errors, a, d, 2);
    LineBack(errors, a, d, 3);
    LineBack(errors, a, d, 4);
    LineBack(errors, a, d, 5);
    LineBack(errors, a, d, 6);
  }

  /** The older `getSpeed` loop over the coefficient array. */
  method OldSpeed(errors: seq<real>) returns (speed: real)
    requires |errors| > 0
    ensures speed == OldSpeedOf(errors)
  {
    var size := |errors| - 1;
    speed := 0.0;
    for i := 0 to |Coefficients|
      invariant speed == StencilUpTo(errors, i)
    {
      speed := speed + Coefficients[i] as real * ClampedValue(errors, size - i);
    }
    speed := speed / 60.0;
  }

  // ---------------------------------------------------------------- stopping

  /** `determineResult`: MIN_ERROR before MAX_EPOCH before OVERFITTING; when
      none applies the reason already set stays. */
  function NextReason(current: Option<StopReason>, error: real, errorLimit: real, epoch: int,
                      maxEpochsCount: int, speed: real, limit: real): (r: Option<StopReason>)
    ensures error < errorLimit ==> r == Some(MinError)
    ensures error >= errorLimit && epoch >= maxEpochsCount ==> r == Some(MaxEpoch)
    ensures error >= errorLimit && epoch < maxEpochsCount && speed > limit ==> r == Some(Overfitting)
    ensures error >= errorLimit && epoch < maxEpochsCount && speed <= limit ==> r == current
  {
    if error < errorLimit then Some(MinError)
    else if epoch >= maxEpochsCount then Some(MaxEpoch)
    else if speed > limit then Some(Overfitting)
    else current
  }

  /** Nothing clears a stop reason: once a tester stops it stays stopped. */
  lemma StopIsFinal(current: Option<StopReason>, error: real, errorLimit: real, epoch: int,
                    maxEpochsCount: int, speed: real, limit: real)
    ensures current.Some? ==> NextReason(current, error, errorLimit, epoch, maxEpochsCount, speed, limit).Some?
    ensures NextReason(current, error, errorLimit, epoch, maxEpochsCount, speed, limit).None? <==>
      current.None? && error >= errorLimit && epoch < maxEpochsCount && speed <= limit
  {
  }

  /** The running minimum of the recorded errors, from `Double.MAX_VALUE`. */
  function MinOf(start: real, s: seq<real>): real
  {
    if s == [] then start
    else
      var m := MinOf(start, s[..|s| - 1]);
      if s[|s| - 1] < m then s[|s| - 1] else m
  }

  /** The running minimum is at most every entry and is the start or an entry. */
  lemma {:induction false} MinOfIsMinimum(start: real, s: seq<real>)
    ensures MinOf(start, s) <= start
    ensures forall k :: 0 <= k < |s| ==> MinOf(start, s) <= s[k]
    ensures MinOf(start, s) == start || exists k :: 0 <= k < |s| && s[k] == MinOf(start, s)
  {
    if s != [] {
      var init := s[..|s| - 1];
      MinOfIsMinimum(start, init);
      assert forall k :: 0 <= k < |init| ==> init[k] == s[k];
    }
  }

  /**
   * The serial tester, with the state of the abstract tester it extends:
   * the histories, the minimum error with the net that reached it, and the
   * stop reason.
   */
  class SerialTester {
    var name: string
    var errorLimit: real
    var maxEpochsCount: int
    var minTestError: real
    var testingErrors: seq<real>
    var testingPercents: seq<real>
    var bestNet: Nets.Net?
    var stopReason: Option<StopReason>

    /** One percent per error, and the minimum is the minimum of the history. */
    ghost predicate Valid()
      reads this
    {
      |testingErrors| == |testingPercents| && minTestError == MinOf(DoubleMax, testingErrors)
    }

    /** `SerialTester(name, parameters)`: the name, then `setTrainingParameters`. */
    constructor (name: string, parameters: TrainingParameters)
      ensures this.name == name && bestNet == null && stopReason == None
      ensures errorLimit == parameters.errorLimit && maxEpochsCount == parameters.maxEpochsCount
      ensures minTestError == DoubleMax && testingErrors == [] && testingPercents == []
      ensures Valid()
    {
      this.name := name;
      errorLimit := parameters.errorLimit;
      maxEpochsCount := parameters.maxEpochsCount;
      minTestError := DoubleMax;
      testingErrors := [];
      testingPercents := [];
      bestNet := null;
      stopReason := None;
    }

    /** `setTrainingParameters`: limits copied, histories restarted; the best
        net and the stop reason are kept. */
    method SetTrainingParameters(parameters: TrainingParameters)
      modifies this
      ensures errorLimit == parameters.errorLimit && maxEpochsCount == parameters.maxEpochsCount
      ensures minTestError == DoubleMax && testingErrors == [] && testingPercents == []
      ensures name == old(name) && bestNet == old(bestNet) && stopReason == old(stopReason)
      ensures Valid()
    {
      errorLimit := parameters.errorLimit;
      maxEpochsCount := parameters.maxEpochsCount;
      minTestError := DoubleMax;
      testingErrors := [];
      testingPercents := [];
    }

    /** `saveTestValues`: both histories grow by one; the net itself (not a
        copy) becomes the best net only on a strictly smaller error. */
    method SaveTestValues(net: Nets.Net, error: real, percent: real)
      requires Valid()
      modifies this
      ensures Valid()
      ensures testingErrors == old(testingErrors) + [error]
      ensures testingPercents == old(testingPercents) + [percent]
      ensures error < old(minTestError) ==> bestNet == net && minTestError == error
      ensures error >= old(minTestError) ==> bestNet == old(bestNet) && minTestError == old(minTestError)
      ensures name == old(name) && errorLimit == old(errorLimit) && maxEpochsCount == old(maxEpochsCount)
      ensures stopReason == old(stopReason)
    {
      testingErrors := testingErrors + [error];
      testingPercents := testingPercents + [percent];
      assert testingErrors[..|testingErrors| - 1] == old(testingErrors);
      if error < minTestError {
        bestNet := net;
        minTestError := error;
      }
    }

    /** `determineResult` with the current limit. */
    method DetermineResult(epoch: int, error: real, speed: real)
      modifies this
      ensures stopReason == NextReason(old(stopReason), error, errorLimit, epoch, maxEpochsCount, speed, OverfittingLimit)
      ensures name == old(name) && errorLimit == old(errorLimit) && maxEpochsCount == old(maxEpochsCount)
      ensures minTestError == old(minTestError) && bestNet == old(bestNet)
      ensures testingErrors == old(testingErrors) && testingPercents == old(testingPercents)
    {
      if error < errorLimit {
        stopReason := Some(MinError);
      } else if epoch >= maxEpochsCount {
        stopReason := Some(MaxEpoch);
      } else if speed > OverfittingLimit {
        stopReason := Some(Overfitting);
      }
    }

    /** `isContinue`: no stop reason yet. */
    function IsContinue(): (b: bool)
      reads this
      ensures b <==> stopReason.None?
    {
      stopReason == None
    }

    /** `test`: evaluate, record, then decide whether to stop using the speed
        of the history that now ends with this error. A failing evaluation
        changes nothing. */
    method Test(net: Nets.Net, samples: seq<Sample>, epoch: int) returns (r: Result<TestResult>)
      requires Valid() && net.Valid() && SamplesValid(samples) && |samples| > 0
      modifies this
      ensures r == old(Evaluate(RowItems, net.weights, net.biases, Nets.Transfers(net.activations[..]), samples))
      ensures name == old(name)
      ensures Valid()
      ensures errorLimit == old(errorLimit) && maxEpochsCount == old(maxEpochsCount)
      ensures r.Err? ==> testingErrors == old(testingErrors) && testingPercents == old(testingPercents)
      ensures r.Err? ==> stopReason == old(stopReason) && bestNet == old(bestNet) && minTestError == old(minTestError)
      ensures r.Ok? ==> testingErrors == old(testingErrors) + [r.value.error]
      ensures r.Ok? ==> testingPercents == old(testingPercents) + [r.value.percent]
      ensures r.Ok? ==> bestNet == (if r.value.error < old(minTestError) then net else old(bestNet))
      ensures r.Ok? ==>
        stopReason == NextReason(old(stopReason), r.value.error, errorLimit, epoch, maxEpochsCount, Speed(testingErrors), OverfittingLimit)
      ensures old(stopReason).Some? ==> stopReason.Some?
    {
      ghost var expected := Evaluate(RowItems, net.weights, net.biases, Nets.Transfers(net.activations[..]), samples);
      r := PerformTest(RowItems, net, samples);
      assert r == expected;
      if r.Err? {
        return;
      }
      Record(net, r.value, epoch);
    }

    /** The bookkeeping `test` does after a successful evaluation. */
    method Record(net: Nets.Net, result: TestResult, epoch: int)
      requires Valid()
      modifies this
      ensures name == old(name) && Valid()
      ensures errorLimit == old(errorLimit) && maxEpochsCount == old(maxEpochsCount)
      ensures testingErrors == old(testingErrors) + [result.error]
      ensures testingPercents == old(testingPercents) + [result.percent]
      ensures bestNet == (if result.error < old(minTestError) then net else old(bestNet))
      ensures stopReason == NextReason(old(stopReason), result.error, errorLimit, epoch, maxEpochsCount, Speed(testingErrors), OverfittingLimit)
      ensures old(stopReason).Some? ==> stopReason.Some?
    {
      ghost var reason := stopReason;
      SaveTestValues(net, result.error, result.percent);
      var speed := Speed(testingErrors);
      DetermineResult(epoch, result.error, speed);
      StopIsFinal(reason, result.error, errorLimit, epoch, maxEpochsCount, speed, OverfittingLimit);
    }
  }

  /** The older tester, `training/Tester.java`. */
  class OldTester {
    const name: string
    var errorLimit: real
    var maxEpochsCount: int
    var minTestError: real
    var testingErrors: seq<real>
    var testingPercents: seq<real>
    var bestNet: Nets.Net?
    var stopReason: Option<StopReason>

    ghost predicate Valid()
      reads this
    {
      |testingErrors| == |testingPercents| && minTestError == MinOf(DoubleMax, testingErrors)
    }

    /** `Tester(name, parameters)`. */
    constructor (name: string, parameters: TrainingParameters)
      ensures this.name == name && bestNet == null && stopReason == None
      ensures errorLimit == parameters.errorLimit && maxEpochsCount == parameters.maxEpochsCount
      ensures minTestError == DoubleMax && testingErrors == [] && testingPercents == []
      ensures Valid()
    {
      this.name := name;
      errorLimit := parameters.errorLimit;
      maxEpochsCount := parameters.maxEpochsCount;
      minTestError := DoubleMax;
      testingErrors := [];
      testingPercents := [];
      bestNet := null;
      stopReason := None;
    }

    function IsContinue(): (b: bool)
      reads this
      ensures b <==> stopReason.None?
    {
      stopReason == None
    }

    /** `saveTestValues`, as in the current tester. */
    method SaveTestValues(net: Nets.Net, error: real, percent: real)
      requires Valid()
      modifies this
      ensures Valid()
      ensures testingErrors == old(testingErrors) + [error]
      ensures testingPercents == old(testingPercents) + [percent]
      ensures error < old(minTestError) ==> bestNet == net && minTestError == error
      ensures error >= old(minTestError) ==> bestNet == old(bestNet) && minTestError == old(minTestError)
      ensures errorLimit == old(errorLimit) && maxEpochsCount == old(maxEpochsCount)
      ensures stopReason == old(stopReason)
    {
      testingErrors := testingErrors + [error];
      testingPercents := testingPercents + [percent];
      assert testingErrors[..|testingErrors| - 1] == old(testingErrors);
      if error < minTestError {
        bestNet := net;
        minTestError := error;
      }
    }

    /** `determineResult` with the older 0.2 limit. */
    method DetermineResult(epoch: int, error: real, speed: real)
      modifies this
      ensures stopReason == NextReason(old(stopReason), error, errorLimit, epoch, maxEpochsCount, speed, OldOverfittingLimit)
      ensures errorLimit == old(errorLimit) && maxEpochsCount == old(maxEpochsCount)
      ensures minTestError == old(minTestError) && bestNet == old(bestNet)
      ensures testingErrors == old(testingErrors) && testingPercents == old(testingPercents)
    {
      if error < errorLimit {
        stopReason := Some(MinError);
      } else if epoch >= maxEpochsCount {
        stopReason := Some(MaxEpoch);
      } else if speed > OldOverfittingLimit {
        stopReason := Some(Overfitting);
      }
    }

    /** `test`: the evaluation loop over the whole-buffer class index, then
        the same bookkeeping as the current tester with the seven-point
        speed and the 0.2 limit. */
    method Test(net: Nets.Net, samples: seq<Sample>, epoch: int) returns (r: Result<TestResult>)
      requires Valid() && net.Valid() && SamplesValid(samples) && |samples| > 0
      modifies this
      ensures r == old(Evaluate(WholeArray, net.weights, net.biases, Nets.Transfers(net.activations[..]), samples))
      ensures Valid()
      ensures errorLimit == old(errorLimit) && maxEpochsCount == old(maxEpochsCount)
      ensures r.Err? ==> testingErrors == old(testingErrors) && testingPercents == old(testingPercents)
      ensures r.Err? ==> stopReason == old(stopReason) && bestNet == old(bestNet) && minTestError == old(minTestError)
      ensures r.Ok? ==> testingErrors == old(testingErrors) + [r.value.error]
      ensures r.Ok? ==> testingPercents == old(testingPercents) + [r.value.percent]
      ensures r.Ok? ==> bestNet == (if r.value.error < old(minTestError) then net else old(bestNet))
      ensures r.Ok? ==> stopReason == NextReason(old(stopReason), r.value.error, errorLimit, epoch,
                                                 maxEpochsCount, OldSpeedOf(testingErrors), OldOverfittingLimit)
      ensures old(stopReason).Some? ==> stopReason.Some?
    {
      ghost var expected := Evaluate(WholeArray, net.weights, net.biases, Nets.Transfers(net.activations[..]), samples);
      r := PerformTest(WholeArray, net, samples);
      assert r == expected;
      if r.Err? {
        return;
      }
      Record(net, r.value, epoch);
    }

    /** The bookkeeping `test` does after a successful evaluation. */
    method Record(net: Nets.Net, result: TestResult, epoch: int)
      requires Valid()
      modifies this
      ensures Valid()
      ensures errorLimit == old(errorLimit) && maxEpochsCount == old(maxEpochsCount)
      ensures testingErrors == old(testingErrors) + [result.error]
      ensures testingPercents == old(testingPercents) + [result.percent]
      ensures bestNet == (if result.error < old(minTestError) then net else old(bestNet))
      ensures stopReason == NextReason(old(stopReason), result.error, errorLimit, epoch,
                                       maxEpochsCount, OldSpeedOf(testingErrors), OldOverfittingLimit)
      ensures old(stopReason).Some? ==> stopReason.Some?
    {
      ghost var reason := stopReason;
      SaveTestValues(net, result.error, result.percent);
      var speed := OldSpeed(testingErrors);
      DetermineResult(epoch, result.error, speed);
      StopIsFinal(reason, result.error, errorLimit, epoch, maxEpochsCount, speed, OldOverfittingLimit);
    }
  }
}
