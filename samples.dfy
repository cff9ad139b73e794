// Training samples and the ways they are grouped: a sample pairs a source row
// vector with a target row vector; batches are consecutive runs of a shared
// source iterator; a list service moves a share of the samples into a
// training list.

module Samples {
  import opened Wrappers
  import opened Streams
  import opened MatrixAlgebra
  import Nets
  import Text
  import Arith

  // ---------------------------------------------------------------- samples

  /** A source row vector and the target row vector it should map to. */
  datatype Sample = Sample(source: Matrix, target: Matrix)
  {
    /** `getSourceSize`: the columns of the source. */
    function SourceSize(): int { source.columns }

    /** `getTargetSize`: the columns of the target. */
    function TargetSize(): int { target.columns }
  }

  /** Every sample holds well-formed matrices. */
  predicate SamplesValid(samples: seq<Sample>)
  {
    forall k :: 0 <= k < |samples| ==> samples[k].source.Valid() && samples[k].target.Valid()
  }

  /** `Sample(source, target)`: both matrices must have exactly one row; the
      source is checked first. */
  function NewSample(source: Matrix, target: Matrix): (r: Result<Sample>)
    ensures r.Ok? <==> source.rows == 1 && target.rows == 1
    ensures source.rows != 1 ==> r == Err(IllegalArgument("source"))
    ensures source.rows == 1 && target.rows != 1 ==> r == Err(IllegalArgument("target"))
    ensures r.Ok? ==> r.value.source == source && r.value.target == target
    ensures r.Ok? ==> r.value.SourceSize() == source.columns && r.value.TargetSize() == target.columns
  {
    if source.rows != 1 then Err(IllegalArgument("source"))
    else if target.rows != 1 then Err(IllegalArgument("target"))
    else Ok(Sample(source, target))
  }

  /** `Sample(Matrix[] m)`: both array reads happen before the checks. */
  function FromMatrices(ms: seq<Matrix>): (r: Result<Sample>)
    ensures |ms| == 0 ==> r == Err(IndexOutOfBounds(0))
    ensures |ms| == 1 ==> r == Err(IndexOutOfBounds(1))
    ensures |ms| >= 2 ==> r == NewSample(ms[0], ms[1])
  {
    if |ms| == 0 then Err(IndexOutOfBounds(0))
    else if |ms| == 1 then Err(IndexOutOfBounds(1))
    else NewSample(ms[0], ms[1])
  }

  /** `writeExternal`: the source object, then the target object. */
  function SampleTokens(s: Sample): seq<Token>
  {
    [Nets.MatrixObject(s.source), Nets.MatrixObject(s.target)]
  }

  /** `readExternal`: source, then target, each cast to the array-backed
      matrix class, then each copied; copying a null matrix is a null
      pointer, met only after both are read. The row checks of the
      constructor are not repeated. */
  function ReadSample(ts: seq<Token>): (r: Result<(Sample, seq<Token>)>)
    ensures ts != [] && ts[0].ObjectT? && ts[0].kind != Nets.MatrixClass ==> r == Err(ClassCast(ts[0].kind))
    ensures ts != [] && ts[0] == NullT && Nets.ReadMatrixOrNull(ts[1..]).Ok? ==> r == Err(NullPointer)
  {
    var (source, r1) :- Nets.ReadMatrixOrNull(ts);
    var (target, r2) :- Nets.ReadMatrixOrNull(r1);
    if source.None? || target.None? then Err(NullPointer)
    else Ok((Sample(source.value, target.value), r2))
  }

  lemma SampleRoundTrip(s: Sample, rest: seq<Token>)
    requires s.source.Valid() && s.target.Valid()
    ensures ReadSample(SampleTokens(s) + rest) == Ok((s, rest))
  {
    var tail := [Nets.MatrixObject(s.target)] + rest;
    assert SampleTokens(s) + rest == [Nets.MatrixObject(s.source)] + tail;
    Nets.MatrixObjectRoundTrip(s.source, tail);
    Nets.MatrixObjectRoundTrip(s.target, rest);
  }

  /** A null source is reported only when the target that follows it has
      been read; a target of the wrong class is reported first. */
  lemma NullSourceAfterTarget(target: Token, rest: seq<Token>)
    requires target.ObjectT? && target.kind != Nets.MatrixClass
    ensures ReadSample([NullT, target] + rest) == Err(ClassCast(target.kind))
  {
    assert ([NullT, target] + rest)[1..] == [target] + rest;
  }

  // ---------------------------------------------------------------- batches

  /** The iterator of the sample source that all batches share. */
  class SourceIterator {
    const items: seq<Sample>
    var position: nat

    ghost predicate Valid()
      reads this
    {
      position <= |items|
    }

    constructor (items: seq<Sample>)
      ensures this.items == items && position == 0 && Valid()
    {
      this.items := items;
      position := 0;
    }

    function HasNext(): (b: bool)
      reads this
      ensures b <==> position < |items|
    {
      position < |items|
    }

    method Next() returns (r: Result<Sample>)
      requires Valid()
      modifies this
      ensures Valid()
      ensures old(HasNext()) ==> r == Ok(items[old(position)]) && position == old(position) + 1
      ensures !old(HasNext()) ==> r == Err(NoSuchElement) && position == old(position)
    {
      if position == |items| {
        return Err(NoSuchElement);
      }
      r := Ok(items[position]);
      position := position + 1;
    }
  }

  /** The iterator of one batch: it counts what it has handed out. */
  class BatchIterator {
    const source: SourceIterator
    const batchSize: int
    var batchCount: int

    constructor (source: SourceIterator, batchSize: int)
      ensures this.source == source && this.batchSize == batchSize && batchCount == 0
    {
      this.source := source;
      this.batchSize := batchSize;
      batchCount := 0;
    }

    /** `hasNext`: room left in the batch and a sample left in the source. */
    function HasNext(): (b: bool)
      reads this, source
      ensures b <==> batchCount < batchSize && source.position < |source.items|
    {
      batchCount < batchSize && source.HasNext()
    }

    /** `next`: counts the sample, then takes it from the shared source. */
    method Next() returns (r: Result<Sample>)
      requires source.Valid()
      modifies this, source
      ensures source.Valid() && batchCount == old(batchCount) + 1
      ensures old(source.HasNext()) ==>
        r == Ok(source.items[old(source.position)]) && source.position == old(source.position) + 1
      ensures !old(source.HasNext()) ==> r == Err(NoSuchElement) && source.position == old(source.position)
    {
      batchCount := batchCount + 1;
      r := source.Next();
    }
  }

  /** The iterator over batches. */
  class BatchesIterator {
    const source: SourceIterator
    const batchSize: int

    constructor (source: SourceIterator, batchSize: int)
      ensures this.source == source && this.batchSize == batchSize
    {
      this.source := source;
      this.batchSize := batchSize;
    }

    /** `hasNext`: another batch exactly when the source has another sample. */
    function HasNext(): (b: bool)
      reads this, source
      ensures b <==> source.position < |source.items|
    {
      source.HasNext()
    }

    /** `next`: a new batch over the same source, with its count at zero. */
    method Next() returns (b: BatchIterator)
      ensures fresh(b) && b.source == source && b.batchSize == batchSize && b.batchCount == 0
    {
      b := new BatchIterator(source, batchSize);
    }
  }

  class SampleBatches {
    const batchSize: int
    const samples: seq<Sample>

    constructor (batchSize: int, samples: seq<Sample>)
      ensures this.batchSize == batchSize && this.samples == samples
    {
      this.batchSize := batchSize;
      this.samples := samples;
    }

    /** `iterator`: every call starts over from a new source iterator. */
    method Iterator() returns (it: BatchesIterator)
      ensures fresh(it) && fresh(it.source) && it.batchSize == batchSize
      ensures it.source.items == samples && it.source.position == 0 && it.source.Valid()
    {
      var source := new SourceIterator(samples);
      it := new BatchesIterator(source, batchSize);
    }
  }

  /** Where a batch that starts at `position` ends. */
  function BatchEnd(position: nat, length: nat, batchSize: int): (e: nat)
    requires position <= length
    ensures position <= e <= length
    ensures batchSize <= 0 ==> e == position
    ensures batchSize > 0 ==> e - position <= batchSize
    ensures batchSize > 0 && position < length ==> e > position
  {
    if batchSize <= 0 then position
    else if position + batchSize <= length then position + batchSize
    else length
  }

  /**
   * Reading one batch to its end, as a for-each loop over it does: the next
   * min(batchSize, remaining) samples of the shared source, in order. With
   * batchSize <= 0 the batch is empty and the source does not move, so the
   * outer iterator still reports another batch.
   */
  method ReadBatch(batch: BatchIterator) returns (taken: seq<Sample>)
    requires batch.batchCount == 0 && batch.source.Valid()
    modifies batch, batch.source
    ensures batch.source.Valid()
    ensures batch.source.position == BatchEnd(old(batch.source.position), |batch.source.items|, batch.batchSize)
    ensures taken == batch.source.items[old(batch.source.position)..batch.source.position]
    ensures batch.batchSize <= 0 ==> taken == [] && batch.source.position == old(batch.source.position)
  {
    var start := batch.source.position;
    taken := [];
    while batch.HasNext()
      invariant batch.source.Valid() && start <= batch.source.position
      invariant batch.batchCount == batch.source.position - start
      invariant batch.batchCount <= if batch.batchSize > 0 then batch.batchSize else 0
      invariant taken == batch.source.items[start..batch.source.position]
      decreases |batch.source.items| - batch.source.position
    {
      var s := batch.Next();
      taken := taken + [s.value];
    }
  }

  /** The source position after `n` batches, each read to its end. */
  function PositionAfter(position: nat, length: nat, batchSize: int, n: nat): (p: nat)
    requires position <= length
    ensures position <= p <= length
    decreases n
  {
    if n == 0 then position
    else PositionAfter(BatchEnd(position, length, batchSize), length, batchSize, n - 1)
  }

  /** With batchSize <= 0 no number of batches moves a non-empty source, so
      `hasNext` stays true and a for-each over the batches never ends. */
  lemma {:induction false} EmptyBatchesNeverEnd(position: nat, length: nat, batchSize: int, n: nat)
    requires position < length && batchSize <= 0
    ensures PositionAfter(position, length, batchSize, n) == position < length
    decreases n
  {
    if n > 0 {
      EmptyBatchesNeverEnd(position, length, batchSize, n - 1);
    }
  }

  /** With a positive batch size the batches end: once n batches cover the
      samples left, the source is exhausted and `hasNext` is false. */
  lemma {:induction false} BatchesEnd(position: nat, length: nat, batchSize: int, n: nat)
    requires position <= length && batchSize > 0 && n * batchSize >= length - position
    ensures PositionAfter(position, length, batchSize, n) == length
    decreases n
  {
    if n > 0 {
      var next := BatchEnd(position, length, batchSize);
      assert (n - 1) * batchSize == n * batchSize - batchSize;
      BatchesEnd(next, length, batchSize, n - 1);
    }
  }

  /** The batches a source of samples falls into, for a positive batch size. */
  function Chunks(s: seq<Sample>, b: nat): (cs: seq<seq<Sample>>)
    requires b > 0
    decreases |s|
  {
    if s == [] then []
    else if |s| <= b then [s]
    else [s[..b]] + Chunks(s[b..], b)
  }

  /** Concatenation of a sequence of batches. */
  function Flatten(cs: seq<seq<Sample>>): seq<Sample>
  {
    if cs == [] then [] else cs[0] + Flatten(cs[1..])
  }

  /** Concatenating the batches gives back the source, in order. */
  lemma {:induction false} ChunksFlatten(s: seq<Sample>, b: nat)
    requires b > 0
    ensures Flatten(Chunks(s, b)) == s
    decreases |s|
  {
    if |s| > b {
      var rest := Chunks(s[b..], b);
      assert Chunks(s, b) == [s[..b]] + rest;
      ChunksFlatten(s[b..], b);
      FlattenCons(s[..b], rest);
      assert s[..b] + s[b..] == s;
    } else if s != [] {
      assert Chunks(s, b) == [s] + [];
      FlattenCons(s, []);
      assert s + [] == s;
    }
  }

  lemma FlattenCons(c: seq<Sample>, cs: seq<seq<Sample>>)
    ensures Flatten([c] + cs) == c + Flatten(cs)
  {
    assert ([c] + cs)[1..] == cs;
  }

  /** There are ceil(n / b) batches. */
  lemma {:induction false} ChunksCount(s: seq<Sample>, b: nat)
    requires b > 0
    ensures |Chunks(s, b)| == (|s| + b - 1) / b
    decreases |s|
  {
    if |s| > b {
      ChunksCount(s[b..], b);
      var x := |s[b..]| + b - 1;
      Arith.DivMod(x / b, x % b, b);
      Arith.DivMod(x / b + 1, x % b, b);
      assert (x / b + 1) * b + x % b == x + b;
    } else if s != [] {
      Arith.DivMod(1, |s| - 1, b);
    } else {
      Arith.DivMod(0, b - 1, b);
    }
  }

  /** No batch is empty, and every batch but the last holds b samples. */
  lemma {:induction false} ChunksSizes(s: seq<Sample>, b: nat)
    requires b > 0
    ensures forall k :: 0 <= k < |Chunks(s, b)| ==> 0 < |Chunks(s, b)[k]| <= b
    ensures forall k :: 0 <= k < |Chunks(s, b)| - 1 ==> |Chunks(s, b)[k]| == b
    decreases |s|
  {
    if |s| > b {
      ChunksSizes(s[b..], b);
      var cs := Chunks(s, b);
      var tail := Chunks(s[b..], b);
      assert cs == [s[..b]] + tail;
      assert forall k :: 0 < k < |cs| ==> cs[k] == tail[k - 1];
    }
  }

  /** The batches after the first start where the first ends. */
  lemma ChunksStep(s: seq<Sample>, b: nat, p: nat)
    requires b > 0 && p < |s|
    ensures Chunks(s[p..], b) ==
      [s[p..BatchEnd(p, |s|, b)]] + Chunks(s[BatchEnd(p, |s|, b)..], b)
  {
    var e := BatchEnd(p, |s|, b);
    if |s[p..]| > b {
      assert s[p..][..b] == s[p..e];
      assert s[p..][b..] == s[e..];
    } else {
      assert s[p..] == s[p..e];
      assert s[e..] == [];
    }
  }

  /** Reading every batch to its end, as the teachers' nested for-each loops
      do: the batches are exactly `Chunks` of the source. */
  method ReadAll(batches: SampleBatches) returns (result: seq<seq<Sample>>)
    requires batches.batchSize > 0
    ensures result == Chunks(batches.samples, batches.batchSize)
    ensures Flatten(result) == batches.samples
  {
    var it := batches.Iterator();
    var source := it.source;
    result := [];
    assert batches.samples[0..] == batches.samples;
    while it.HasNext()
      invariant source.Valid() && source.items == batches.samples && it.source == source
      invariant it.batchSize == batches.batchSize
      invariant result + Chunks(source.items[source.position..], batches.batchSize)
        == Chunks(batches.samples, batches.batchSize)
      decreases |source.items| - source.position
    {
      var batch := it.Next();
      ghost var p := source.position;
      ChunksStep(source.items, batches.batchSize, p);
      var taken := ReadBatch(batch);
      result := result + [taken];
    }
    assert source.items[source.position..] == [];
    ChunksFlatten(batches.samples, batches.batchSize);
  }

  // ---------------------------------------------------------------- list service

  /** A mutable list of samples, shared by reference. */
  class SampleList {
    var items: seq<Sample>

    constructor (items: seq<Sample>)
      ensures this.items == items
    {
      this.items := items;
    }
  }

  /** `Math.round`: the nearest integer, halves rounded up. */
  function Round(x: real): (n: int)
    ensures x - 0.5 < n as real <= x + 0.5
  {
    (x + 0.5).Floor
  }

  /** `(int) Math.ceil(x)`. */
  function Ceil(x: real): (n: int)
    ensures x <= n as real < x + 1.0
  {
    -((-x).Floor)
  }

  /** The removal index of step i of `take`. */
  function TakeIndex(size: int, i: int, step: real): int
  {
    Round(size as real - i as real * step)
  }

  /** With 0 < count <= n the step n/count is at least one, and i steps of
      it stay within the list. */
  lemma StepBounds(n: nat, count: nat, i: nat)
    requires 0 < count <= n && i < count
    ensures 1.0 <= n as real / count as real
    ensures i as real <= i as real * (n as real / count as real) <= n as real - n as real / count as real
  {
    var step := n as real / count as real;
    var c := count as real;
    assert step * c == n as real;
    assert step >= 1.0;
    var k := i as real;
    assert k * step - k == k * (step - 1.0);
    assert k * (step - 1.0) >= 0.0;
    var rest := (count - 1 - i) as real;
    assert rest * step >= 0.0;
    assert (c - 1.0) * step == n as real - step;
    assert (c - 1.0) * step - k * step == rest * step;
  }

  /** An offset between i and n - step, with a step of at least one, rounds
      to an index inside a list of n - i. */
  lemma RoundedIndexInRange(n: nat, i: nat, step: real, offset: real)
    requires i < n && step >= 1.0 && i as real <= offset <= n as real - step
    ensures 0 <= Round((n - 1) as real - offset) < n - i
  {
  }

  /** So the index of step i lies inside the list of n - i samples left. */
  lemma TakeIndexInRange(n: nat, count: nat, i: nat)
    requires 0 < count <= n && i < count
    ensures 0 <= TakeIndex(n - 1, i, n as real / count as real) < n - i
  {
    StepBounds(n, count, i);
    RoundedIndexInRange(n, i, n as real / count as real, i as real * (n as real / count as real));
  }

  /**
   * `take(samples, count)`: removes `count` samples from the caller's list,
   * at indices round(size - i * step) with step = n / count, and returns them
   * in removal order. A negative count is an illegal list capacity.
   */
  method Take(samples: SampleList, count: int) returns (r: Result<SampleList>)
    modifies samples
    ensures count < 0 ==> r == Err(IllegalArgument("capacity")) && samples.items == old(samples.items)
    ensures 0 <= count <= old(|samples.items|) ==> r.Ok?
    ensures r.Ok? ==> fresh(r.value) && |r.value.items| == count
    ensures r.Ok? ==> |samples.items| == old(|samples.items|) - count
    ensures r.Ok? ==> multiset(r.value.items) + multiset(samples.items) == multiset(old(samples.items))
  {
    var n := |samples.items|;
    var step := if count != 0 then n as real / count as real else 0.0;
    var size := n - 1;
    if count < 0 {
      return Err(IllegalArgument("capacity"));
    }
    var taken: seq<Sample> := [];
    for i := 0 to count
      invariant |taken| == i && |samples.items| == n - i
      invariant multiset(taken) + multiset(samples.items) == multiset(old(samples.items))
    {
      var index := TakeIndex(size, i, step);
      if count <= n {
        TakeIndexInRange(n, count, i);
      }
      if index < 0 || index >= |samples.items| {
        return Err(IndexOutOfBounds(index));
      }
      var items := samples.items;
      assert items == items[..index] + [items[index]] + items[index + 1..];
      taken := taken + [items[index]];
      samples.items := items[..index] + items[index + 1..];
    }
    var result := new SampleList(taken);
    r := Ok(result);
  }

  /** A share of n samples given by a ratio in [0, 1] is between 0 and n. */
  lemma ShareCountInRange(n: nat, ratio: real)
    requires 0.0 <= ratio <= 1.0
    ensures 0 <= Ceil(n as real * ratio) <= n
  {
    assert n as real * ratio <= n as real * 1.0;
    assert 0.0 <= n as real * ratio;
  }

  class ListSampleService {
    var training: SampleList
    var testing: SampleList

    /** The no-argument constructor: two empty lists. */
    constructor Empty()
      ensures fresh(training) && fresh(testing) && training != testing
      ensures training.items == [] && testing.items == []
    {
      training := new SampleList([]);
      testing := new SampleList([]);
    }

    /** `ListSampleService(trainingSamples, testingSamples)`: copies both, in order. */
    constructor Copying(trainingSamples: seq<Sample>, testingSamples: seq<Sample>)
      ensures fresh(training) && fresh(testing) && training != testing
      ensures training.items == trainingSamples && testing.items == testingSamples
    {
      var ts: seq<Sample> := [];
      for i := 0 to |trainingSamples|
        invariant ts == trainingSamples[..i]
      {
        ts := ts + [trainingSamples[i]];
      }
      var us: seq<Sample> := [];
      for i := 0 to |testingSamples|
        invariant us == testingSamples[..i]
      {
        us := us + [testingSamples[i]];
      }
      assert trainingSamples[..|trainingSamples|] == trainingSamples;
      assert testingSamples[..|testingSamples|] == testingSamples;
      training := new SampleList(ts);
      testing := new SampleList(us);
    }

    /**
     * `distribute(ratio, samples)`: ceil(n * ratio) samples move into a new
     * training list; the caller's list, now holding the rest, becomes the
     * testing list itself. Between them they hold the original samples.
     */
    method Distribute(trainingRatio: real, samples: SampleList) returns (thrown: Option<Error>)
      modifies this, samples
      ensures 0.0 <= trainingRatio <= 1.0 ==> thrown == None
      ensures thrown.Some? ==> training == old(training) && testing == old(testing)
      ensures thrown == None ==> fresh(training) && testing == samples
      ensures thrown == None ==> |training.items| == Ceil(old(|samples.items|) as real * trainingRatio)
      ensures thrown == None ==> multiset(training.items) + multiset(testing.items) == multiset(old(samples.items))
    {
      var n := |samples.items|;
      var count := Ceil(n as real * trainingRatio);
      if 0.0 <= trainingRatio <= 1.0 {
        ShareCountInRange(n, trainingRatio);
      }
      var r := Take(samples, count);
      if r.Err? {
        return Some(r.error);
      }
      training := r.value;
      testing := samples;
      thrown := None;
    }

    /** `getTrainingSampling`: the training list itself. */
    function TrainingSampling(): (s: SampleList)
      reads this
      ensures s == training
    {
      training
    }

    /** `getTestingSampling`: the testing list itself. */
    function TestingSampling(): (s: SampleList)
      reads this
      ensures s == testing
    {
      testing
    }

    /** `getReport` as written: the share printed with a percent sign is the fraction. */
    function ReportAsWritten(render: real -> string): (lines: seq<string>)
      reads this, training, testing
      requires |training.items| + |testing.items| > 0
      ensures lines == ServiceReport(|training.items|, |testing.items|, ShareAsWritten, render)
    {
      ServiceReport(|training.items|, |testing.items|, ShareAsWritten, render)
    }

    /** `getReport` with each share multiplied by 100, as the percent sign means. */
    function Report(render: real -> string): (lines: seq<string>)
      reads this, training, testing
      requires |training.items| + |testing.items| > 0
      ensures lines == ServiceReport(|training.items|, |testing.items|, Percent, render)
    {
      ServiceReport(|training.items|, |testing.items|, Percent, render)
    }
  }

  /** The service's share as written: part / total. */
  function ShareAsWritten(part: nat, total: nat): real
    requires total > 0
  {
    part as real / total as real
  }

  /** The share as a percentage: 100 * part / total. */
  function Percent(part: nat, total: nat): real
    requires total > 0
  {
    100.0 * part as real / total as real
  }

  /** The three report lines; `share` computes the printed percentage. */
  function ServiceReport(trainingSize: nat, testingSize: nat, share: (nat, nat) --> real,
                         render: real -> string): (lines: seq<string>)
    requires trainingSize + testingSize > 0
    requires forall p: nat, t: nat :: t > 0 ==> share.requires(p, t)
    ensures |lines| == 3 && lines[0] == "FileSampleService:\n"
  {
    var total := trainingSize + testingSize;
    ["FileSampleService:\n",
     "\ttraining={size=" + Text.IntToString(trainingSize) + ", percent="
       + render(share(trainingSize, total)) + "%}\n",
     "\t testing={size=" + Text.IntToString(testingSize) + ", percent="
       + render(share(testingSize, total)) + "%}\n"]
  }

  /** The printed shares sum to 1, not to 100: with 8 training and 2 testing
      samples the training line reads 0.8 followed by a percent sign. */
  lemma ShareIsFraction(trainingSize: nat, testingSize: nat)
    requires trainingSize + testingSize > 0
    ensures ShareAsWritten(trainingSize, trainingSize + testingSize)
          + ShareAsWritten(testingSize, trainingSize + testingSize) == 1.0
    ensures ShareAsWritten(8, 10) == 0.8
  {
    var t := (trainingSize + testingSize) as real;
    assert trainingSize as real / t + testingSize as real / t == (trainingSize as real + testingSize as real) / t;
  }

  /** The corrected shares are percentages that sum to 100. */
  lemma PercentsSumTo100(trainingSize: nat, testingSize: nat)
    requires trainingSize + testingSize > 0
    ensures Percent(trainingSize, trainingSize + testingSize)
          + Percent(testingSize, trainingSize + testingSize) == 100.0
    ensures Percent(8, 10) == 80.0
  {
    var t := (trainingSize + testingSize) as real;
    assert 100.0 * trainingSize as real / t + 100.0 * testingSize as real / t
      == 100.0 * (trainingSize as real + testingSize as real) / t;
  }
}
