// Training parameters and the record of one training run: their stream
// forms, the report of the parameters, the moving average of the training
// errors and the hours/minutes/seconds text of a duration.

module Training {
  import opened Wrappers
  import opened Streams
  import opened Text
  import opened Rates
  import Nets
  import Activations

  // ---------------------------------------------------------------- training parameters

  /** `writeExternal` of the parameters: two ints, a double, then the rate object. */
  function ParametersTokens(maxEpochsCount: int, batchSize: int, errorLimit: real, rate: Token): seq<Token>
  {
    [IntT(maxEpochsCount), IntT(batchSize), DoubleT(errorLimit), rate]
  }

  /** What `readExternal` of the parameters assigns, as a value. */
  datatype ParametersImage = ParametersImage(
    maxEpochsCount: int, batchSize: int, errorLimit: real, rate: Option<Schedule>)

  /** `readExternal`: the same order as `writeExternal`, the rate cast to `Rate`. */
  function ReadParametersImage(ts: seq<Token>): (r: Result<(ParametersImage, seq<Token>)>)
    ensures |ts| < 4 ==> r.Err?
  {
    var (maxEpochs, r1) :- ReadInt(ts);
    var (batch, r2) :- ReadInt(r1);
    var (limit, r3) :- ReadDouble(r2);
    var (t, r4) :- ReadObject(r3);
    var rate :- DecodeRate(t);
    Ok((ParametersImage(maxEpochs, batch, limit, rate), r4))
  }

  /** All four fields survive writing and reading back. */
  lemma ParametersRoundTrip(p: ParametersImage, rest: seq<Token>)
    ensures var rate := if p.rate.Some? then ScheduleToken(p.rate.value) else NullT;
      ReadParametersImage(ParametersTokens(p.maxEpochsCount, p.batchSize, p.errorLimit, rate) + rest)
        == Ok((p, rest))
  {
    var rate := if p.rate.Some? then ScheduleToken(p.rate.value) else NullT;
    if p.rate.Some? {
      DecodeRateExact(rate, p.rate.value);
    }
    var ts := ParametersTokens(p.maxEpochsCount, p.batchSize, p.errorLimit, rate) + rest;
    assert ts[1..][1..][1..][1..] == rest;
  }

  /** The schedule behind a rate field that may be null. */
  function ScheduleOf(rate: Option<Rate>): Option<Schedule>
    reads if rate.Some? then {rate.value.Object()} else {}
  {
    if rate.Some? then Some(rate.value.Value()) else None
  }

  /** `getReport`: a header, then one line per field. Ints are written in
      decimal, the double by `render`, the rate by its generated `toString`. */
  function ParametersReport(p: ParametersImage, render: real -> string): (lines: seq<string>)
    ensures |lines| == 5 && lines[0] == "TrainingParameters:\n"
    ensures lines[1] == "\tmaxEpochsCount=" + IntToString(p.maxEpochsCount) + "\n"
    ensures lines[2] == "\tbatchSize=" + IntToString(p.batchSize) + "\n"
    ensures lines[3] == "\terrorLimit=" + render(p.errorLimit) + "\n"
    ensures p.rate.None? ==> lines[4] == "\trate=null\n"
    ensures p.rate.Some? ==> lines[4] == "\trate=" + ScheduleText(p.rate.value, render) + "\n"
  {
    var rateText := if p.rate.Some? then ScheduleText(p.rate.value, render) else "null";
    ["TrainingParameters:\n",
     "\tmaxEpochsCount=" + IntToString(p.maxEpochsCount) + "\n",
     "\tbatchSize=" + IntToString(p.batchSize) + "\n",
     "\terrorLimit=" + render(p.errorLimit) + "\n",
     "\trate=" + rateText + "\n"]
  }

  class TrainingParameters {
    var rate: Option<Rate>
    var maxEpochsCount: int
    var batchSize: int
    var errorLimit: real

    /** The no-argument constructor: every field at its default. */
    constructor ()
      ensures rate == None && maxEpochsCount == 0 && batchSize == 0 && errorLimit == 0.0
    {
      rate := None;
      maxEpochsCount := 0;
      batchSize := 0;
      errorLimit := 0.0;
    }

    /** The four fields as a value. */
    function Image(): (p: ParametersImage)
      reads this, if rate.Some? then {rate.value.Object()} else {}
      ensures p.maxEpochsCount == maxEpochsCount && p.batchSize == batchSize
      ensures p.errorLimit == errorLimit && p.rate == ScheduleOf(rate)
    {
      ParametersImage(maxEpochsCount, batchSize, errorLimit, ScheduleOf(rate))
    }

    /** `clone`: a new object with the same field values; the rate object is
        shared, not copied. */
    method Clone() returns (c: TrainingParameters)
      ensures fresh(c)
      ensures c.rate == rate && c.maxEpochsCount == maxEpochsCount
      ensures c.batchSize == batchSize && c.errorLimit == errorLimit
    {
      c := new TrainingParameters();
      c.batchSize := batchSize;
      c.maxEpochsCount := maxEpochsCount;
      c.rate := rate;
      c.errorLimit := errorLimit;
    }

    /** `writeExternal`: reading the output back gives the same four fields. */
    method WriteExternal() returns (out: seq<Token>)
      ensures out == ParametersTokens(maxEpochsCount, batchSize, errorLimit, RateToken(rate))
      ensures ReadParametersImage(out) == Ok((Image(), []))
    {
      out := [IntT(maxEpochsCount), IntT(batchSize), DoubleT(errorLimit), RateToken(rate)];
      ParametersRoundTrip(Image(), []);
      assert out + [] == out;
    }

    /**
     * `readExternal`: the fields are assigned one after another, so a stream
     * that ends early leaves the fields read so far assigned. A rate read
     * back is a new object with the written factors.
     */
    method ReadExternal(input: seq<Token>) returns (r: Result<seq<Token>>)
      modifies this
      ensures r.Ok? <==> ReadParametersImage(input).Ok?
      ensures r.Err? ==> r.error == ReadParametersImage(input).error
      ensures r.Ok? ==> Image() == ReadParametersImage(input).value.0
      ensures r.Ok? ==> r.value == ReadParametersImage(input).value.1
      ensures r.Ok? && rate.Some? ==> fresh(rate.value.Object())
      ensures ReadInt(input).Ok? ==> maxEpochsCount == ReadInt(input).value.0
    {
      var x1 :- ReadInt(input);
      maxEpochsCount := x1.0;
      var x2 :- ReadInt(x1.1);
      batchSize := x2.0;
      var x3 :- ReadDouble(x2.1);
      errorLimit := x3.0;
      var x4 :- ReadObject(x3.1);
      var read :- ReadRate(x4.0);
      rate := read;
      r := Ok(x4.1);
    }

    function Report(render: real -> string): (lines: seq<string>)
      reads this, if rate.Some? then {rate.value.Object()} else {}
      ensures lines == ParametersReport(Image(), render)
    {
      ParametersReport(Image(), render)
    }
  }

  // ---------------------------------------------------------------- stop reasons

  /** Why training stopped. */
  datatype StopReason = MaxEpoch | MinError | Overfitting
  {
    /** The constant's name, which is what the stream holds. */
    function Name(): string
    {
      match this
      case MaxEpoch => "MAX_EPOCH"
      case MinError => "MIN_ERROR"
      case Overfitting => "OVERFITTING"
    }

    /** `getDescription`. */
    function Description(): string
    {
      match this
      case MaxEpoch => "Достигнуто максимальное количество эпох обучения."
      case MinError => "Достигнута минимальная ошибка обучения."
      case Overfitting => "Переобучение: ошибка обучения перестала убывать."
    }
  }

  const StopReasonClass: string := "com.synapse.core.training.TrainingResult$StopReason"

  /** `writeObject` of a stop reason that may be null: an enum constant is written by name. */
  function ReasonToken(reason: Option<StopReason>): (t: Token)
    ensures reason.None? <==> t == NullT
  {
    match reason
    case None => NullT
    case Some(s) => ObjectT(StopReasonClass, [UtfT(s.Name())])
  }

  /** `(StopReason) in.readObject()`: an unknown name is a corrupt stream, an
      object of another class fails the cast. */
  function DecodeReason(t: Token): (r: Result<Option<StopReason>>)
    ensures t == NullT <==> r == Ok(None)
    ensures t.ObjectT? && t.kind != StopReasonClass ==> r == Err(ClassCast(t.kind))
  {
    match t
    case NullT => Ok(None)
    case ObjectT(kind, fs) =>
      if kind != StopReasonClass then Err(ClassCast(kind))
      else if |fs| != 1 || !fs[0].UtfT? then Err(StreamCorrupted)
      else if fs[0].s == MaxEpoch.Name() then Ok(Some(MaxEpoch))
      else if fs[0].s == MinError.Name() then Ok(Some(MinError))
      else if fs[0].s == Overfitting.Name() then Ok(Some(Overfitting))
      else Err(StreamCorrupted)
    case _ => Err(StreamCorrupted)
  }

  /** Each stop reason, and null, is read back as written, and only its own
      token is read as it. */
  lemma ReasonExact(t: Token, reason: Option<StopReason>)
    ensures DecodeReason(t) == Ok(reason) <==> t == ReasonToken(reason)
  {
    if DecodeReason(t) == Ok(reason) && reason.Some? {
      assert t.fields == [UtfT(reason.value.Name())];
    }
  }

  // ---------------------------------------------------------------- training result

  /** `(Net) in.readObject()`: null, or a net whose fields read back
      completely; any other class fails the cast. */
  function NetCheck(t: Token): (r: Option<Error>)
    ensures t == NullT ==> r == None
    ensures t.ObjectT? && t.kind != Nets.NetClass ==> r == Some(ClassCast(t.kind))
    ensures r == None && t != NullT ==> (t.ObjectT? && t.kind == Nets.NetClass &&
      Nets.ReadNet(t.fields).Ok? && Nets.ReadNet(t.fields).value.3 == [])
  {
    if t == NullT then None
    else if !t.ObjectT? then Some(StreamCorrupted)
    else if t.kind != Nets.NetClass then Some(ClassCast(t.kind))
    else match Nets.ReadNet(t.fields)
      case Err(e) => Some(e)
      case Ok((_, _, _, rest)) => if rest != [] then Some(StreamCorrupted) else None
  }

  /** `(Net) in.readObject()` once the cast has succeeded: null, or a new
      net whose `readExternal` reads the fields written for it. */
  method ReadBestNet(t: Token, f: (real, real) -> real, df: (real, real) -> real) returns (net: Nets.Net?)
    requires NetCheck(t) == None
    ensures net == null <==> t == NullT
    ensures net != null ==> (fresh(net) && t.ObjectT? && Nets.ReadNet(t.fields).Ok? &&
      net.weights == Nets.ReadNet(t.fields).value.0 && net.biases == Nets.ReadNet(t.fields).value.1 &&
      net.activations.Length == |net.weights|)
  {
    if t == NullT {
      return null;
    }
    var none := new Activations.Activation[0];
    net := new Nets.Net.Adopt([], [], none);
    var left := net.ReadExternal(t.fields, f, df);
  }

  /** A list as `writeExternal` writes it: its size, then each value. */
  function ListTokens(s: seq<real>): seq<Token>
  {
    [IntT(|s|)] + Doubles(s)
  }

  /** The read loop of a list: a negative size reads nothing. */
  function ReadList(ts: seq<Token>): (r: Result<(seq<real>, seq<Token>)>)
    ensures ts == [] ==> r == Err(EndOfStream)
  {
    var (n, rest) :- ReadInt(ts);
    ReadDoubles(rest, if n < 0 then 0 else n)
  }

  lemma ListRoundTrip(s: seq<real>, rest: seq<Token>)
    ensures ReadList(ListTokens(s) + rest) == Ok((s, rest))
  {
    assert (ListTokens(s) + rest)[1..] == Doubles(s) + rest;
    DoublesRoundTrip(s, rest);
  }

  /** What `writeExternal` of a result writes, as a value. */
  datatype ResultImage = ResultImage(
    durationNanos: int, epochCount: int, bestNet: Token, stopReason: Option<StopReason>,
    trainingErrors: seq<real>, testingErrors: seq<real>, testingPercents: seq<real>)

  /** `writeExternal`: duration in nanoseconds, epoch count, best net, stop
      reason, then the training errors, testing errors and testing percents. */
  function ResultTokens(img: ResultImage): seq<Token>
  {
    [LongT(img.durationNanos), IntT(img.epochCount), img.bestNet, ReasonToken(img.stopReason)]
    + ListTokens(img.trainingErrors) + ListTokens(img.testingErrors) + ListTokens(img.testingPercents)
  }

  /** `readExternal`, in the same order. */
  function ReadResult(ts: seq<Token>): Result<(ResultImage, seq<Token>)>
  {
    var (nanos, r1) :- ReadLong(ts);
    var (epochs, r2) :- ReadInt(r1);
    var (net, r3) :- ReadObject(r2);
    if NetCheck(net).Some? then Err(NetCheck(net).value) else
    var (t, r4) :- ReadObject(r3);
    var reason :- DecodeReason(t);
    var (training, r5) :- ReadList(r4);
    var (testing, r6) :- ReadList(r5);
    var (percents, r7) :- ReadList(r6);
    Ok((ResultImage(nanos, epochs, net, reason, training, testing, percents), r7))
  }

  /** The reads of `readExternal`, one after the other, as values. */
  method ReadFields(input: seq<Token>) returns (r: Result<(ResultImage, seq<Token>)>)
    ensures r == ReadResult(input)
    ensures r.Ok? ==> NetCheck(r.value.0.bestNet) == None
  {
    var x1 :- ReadLong(input);
    var x2 :- ReadInt(x1.1);
    var x3 :- ReadObject(x2.1);
    var castError := NetCheck(x3.0);
    if castError.Some? {
      return Err(castError.value);
    }
    var x4 :- ReadObject(x3.1);
    var reason :- DecodeReason(x4.0);
    var training :- ReadListLoop(x4.1);
    var testing :- ReadListLoop(training.1);
    var percents :- ReadListLoop(testing.1);
    r := Ok((ResultImage(x1.0, x2.0, x3.0, reason, training.0, testing.0, percents.0), percents.1));
  }

  /** Reading back what was written restores every field in order. */
  lemma ResultRoundTrip(img: ResultImage, rest: seq<Token>)
    requires NetCheck(img.bestNet) == None
    ensures ReadResult(ResultTokens(img) + rest) == Ok((img, rest))
  {
    var tail3 := ListTokens(img.testingPercents) + rest;
    var tail2 := ListTokens(img.testingErrors) + tail3;
    var tail1 := ListTokens(img.trainingErrors) + tail2;
    var ts := ResultTokens(img) + rest;
    assert ts == [LongT(img.durationNanos), IntT(img.epochCount), img.bestNet, ReasonToken(img.stopReason)] + tail1;
    ReasonExact(ReasonToken(img.stopReason), img.stopReason);
    ListRoundTrip(img.trainingErrors, tail2);
    ListRoundTrip(img.testingErrors, tail3);
    ListRoundTrip(img.testingPercents, rest);
    assert ts[1..][1..][1..][1..] == tail1;
  }

  /** The write loop of one list. */
  method WriteList(s: seq<real>) returns (out: seq<Token>)
    ensures out == ListTokens(s)
  {
    out := [IntT(|s|)];
    for i := 0 to |s|
      invariant out == [IntT(|s|)] + Doubles(s[..i])
    {
      assert Doubles(s[..i + 1]) == Doubles(s[..i]) + [DoubleT(s[i])];
      out := out + [DoubleT(s[i])];
    }
    assert s[..|s|] == s;
  }

  /** The read loop of one list: `readInt`, then that many `readDouble`s. */
  method ReadListLoop(input: seq<Token>) returns (r: Result<(seq<real>, seq<Token>)>)
    ensures r == ReadList(input)
  {
    var count :- ReadInt(input);
    var n := if count.0 < 0 then 0 else count.0;
    var ts := count.1;
    var values: seq<real> := [];
    ghost var expected := ReadDoubles(ts, n);
    for i := 0 to n
      invariant expected.Ok? ==> values == expected.value.0[..i]
      invariant expected.Ok? ==> ReadDoubles(ts, n - i) == Ok((expected.value.0[i..], expected.value.1))
      invariant expected.Err? ==> ReadDoubles(ts, n - i) == expected
    {
      var x :- ReadDouble(ts);
      ghost var tail := ReadDoubles(x.1, n - i - 1);
      if expected.Ok? {
        assert tail.Ok? && [x.0] + tail.value.0 == expected.value.0[i..];
        calc {
          tail.value.0;
          ([x.0] + tail.value.0)[1..];
          expected.value.0[i + 1..];
        }
        assert expected.value.0[..i + 1] == expected.value.0[..i] + [x.0];
      }
      values := values + [x.0];
      ts := x.1;
    }
    assert expected.Ok?;
    assert expected.value.0[..n] == expected.value.0;
    r := Ok((values, ts));
  }

  class TrainingResult {
    var testingPercents: seq<real>
    var testingErrors: seq<real>
    var trainingErrors: seq<real>
    var epochCount: int
    var stopReason: Option<StopReason>
    /** The duration in nanoseconds; null until a run sets it. */
    var duration: Option<int>
    var bestNet: Nets.Net?

    /** A fresh result: empty lists, no epochs, no reason, duration and net. */
    constructor ()
      ensures testingPercents == [] && testingErrors == [] && trainingErrors == []
      ensures epochCount == 0 && stopReason == None && duration == None && bestNet == null
    {
      testingPercents := [];
      testingErrors := [];
      trainingErrors := [];
      epochCount := 0;
      stopReason := None;
      duration := None;
      bestNet := null;
    }

    /** The token `writeObject(bestNet)` writes. */
    function NetToken(): (t: Token)
      requires bestNet != null ==> bestNet.Valid()
      reads this, bestNet
      reads if bestNet != null then {bestNet.activations} else {}
      reads if bestNet != null then set k | 0 <= k < bestNet.activations.Length :: bestNet.activations[k] else {}
    {
      if bestNet == null then NullT
      else ObjectT(Nets.NetClass, Nets.NetTokens(bestNet.weights, bestNet.biases, bestNet.ActivationTokens(|bestNet.weights|)))
    }

    /** What is written for the best net reads back as a net, or null. */
    lemma NetTokenChecks()
      requires bestNet != null ==> bestNet.Valid()
      ensures NetCheck(NetToken()) == None
    {
      if bestNet != null {
        var acts := bestNet.ActivationTokens(|bestNet.weights|);
        Nets.NetRoundTrip(bestNet.weights, bestNet.biases, acts, []);
        assert Nets.NetTokens(bestNet.weights, bestNet.biases, acts) + [] == NetToken().fields;
      }
    }

    /** `writeObject(bestNet)`. */
    method WriteNet() returns (t: Token)
      requires bestNet != null ==> bestNet.Valid()
      ensures t == NetToken() && NetCheck(t) == None
    {
      t := NullT;
      if bestNet != null {
        var fields := bestNet.WriteExternal();
        t := ObjectT(Nets.NetClass, fields);
      }
    }

    /** The written fields as a value, with the best net written as `net`. */
    function Image(net: Token): ResultImage
      requires duration.Some?
      reads this
    {
      ResultImage(duration.value, epochCount, net, stopReason,
        trainingErrors, testingErrors, testingPercents)
    }

    /** `writeExternal`: a missing duration throws before anything is written;
        otherwise reading the output back gives every field. */
    method WriteExternal() returns (r: Result<seq<Token>>)
      requires bestNet != null ==> bestNet.Valid()
      ensures r.Err? <==> duration.None?
      ensures r.Err? ==> r.error == NullPointer
      ensures r.Ok? ==> r.value == ResultTokens(Image(NetToken()))
      ensures r.Ok? ==> ReadResult(r.value) == Ok((Image(NetToken()), []))
    {
      if duration.None? {
        return Err(NullPointer);
      }
      var training := WriteList(trainingErrors);
      var testing := WriteList(testingErrors);
      var percents := WriteList(testingPercents);
      var net := WriteNet();
      ghost var img := Image(net);
      var out := [LongT(duration.value), IntT(epochCount), net, ReasonToken(stopReason)]
        + training + testing + percents;
      assert out == ResultTokens(img);
      r := Ok(out);
      ResultRoundTrip(img, []);
      assert out + [] == out;
    }

    /**
     * `readExternal`: duration, epoch count, best net and stop reason are
     * replaced, and the three lists are APPENDED to the lists already held.
     * The best net is null or a new net read from its fields; f and df stand
     * for the functions its restored activations compute. (The source
     * replaces each field as soon as it is read, so a failed read leaves the
     * fields read before it replaced; nothing is stated of the state after a
     * failure.)
     */
    method ReadExternal(input: seq<Token>, f: (real, real) -> real, df: (real, real) -> real)
      returns (r: Result<seq<Token>>)
      modifies this
      ensures r.Ok? <==> ReadResult(input).Ok?
      ensures r.Err? ==> r.error == ReadResult(input).error
      ensures r.Ok? ==> var (img, rest) := ReadResult(input).value;
        duration == Some(img.durationNanos) && epochCount == img.epochCount &&
        stopReason == img.stopReason && r.value == rest &&
        trainingErrors == old(trainingErrors) + img.trainingErrors &&
        testingErrors == old(testingErrors) + img.testingErrors &&
        testingPercents == old(testingPercents) + img.testingPercents
      ensures r.Ok? ==> (bestNet == null <==> ReadResult(input).value.0.bestNet == NullT)
      ensures r.Ok? && bestNet != null ==> var t := ReadResult(input).value.0.bestNet;
        fresh(bestNet) && t.ObjectT? && Nets.ReadNet(t.fields).Ok? &&
        bestNet.weights == Nets.ReadNet(t.fields).value.0 &&
        bestNet.biases == Nets.ReadNet(t.fields).value.1 &&
        bestNet.activations.Length == |bestNet.weights|
    {
      var read :- ReadFields(input);
      var img := read.0;
      var net := ReadBestNet(img.bestNet, f, df);
      duration := Some(img.durationNanos);
      epochCount := img.epochCount;
      bestNet := net;
      stopReason := img.stopReason;
      trainingErrors := trainingErrors + img.trainingErrors;
      testingErrors := testingErrors + img.testingErrors;
      testingPercents := testingPercents + img.testingPercents;
      r := Ok(read.1);
    }

    /** `getAverageTrainingErrors`: for each index, the sum of the 51 clamped
        neighbours at offsets -25..25, divided by 50. */
    method GetAverageTrainingErrors() returns (values: seq<real>)
      ensures |values| == |trainingErrors|
      ensures forall i :: 0 <= i < |values| ==> values[i] == Average(trainingErrors, i)
    {
      var k := 50;
      values := [];
      for i := 0 to |trainingErrors|
        invariant |values| == i
        invariant forall p :: 0 <= p < i ==> values[p] == Average(trainingErrors, p)
      {
        var value := 0.0;
        var j := -k / 2;
        while j <= k / 2
          invariant -25 <= j <= 26
          invariant value == WindowSum(trainingErrors, i - 25, j + 25)
        {
          value := value + GetValue(trainingErrors, i + j);
          j := j + 1;
        }
        values := values + [value / k as real];
      }
    }
  }

  // ---------------------------------------------------------------- moving average

  /** `getValue`: an index before the start reads the first element, one past
      the end reads the last. */
  function GetValue(s: seq<real>, index: int): (v: real)
    requires |s| > 0
    ensures 0 <= index < |s| ==> v == s[index]
    ensures v in s
    ensures index < 0 ==> v == s[0]
    ensures index >= |s| ==> v == s[|s| - 1]
  {
    if index < 0 then s[0]
    else if index >= |s| then s[|s| - 1]
    else s[index]
  }

  /** The clamped values at from, from + 1, ..., from + count - 1, summed in that order. */
  function WindowSum(s: seq<real>, from: int, count: nat): real
    requires |s| > 0
  {
    if count == 0 then 0.0 else WindowSum(s, from, count - 1) + GetValue(s, from + count - 1)
  }

  /** The averaged entry at index i. */
  function Average(s: seq<real>, i: int): real
    requires |s| > 0
  {
    WindowSum(s, i - 25, 51) / 50.0
  }

  /** The same window divided by the number of values it holds, 51. */
  function AverageIntended(s: seq<real>, i: int): real
    requires |s| > 0
  {
    WindowSum(s, i - 25, 51) / 51.0
  }

  /** n copies of x added up; it keeps products out of the inductions below. */
  function Copies(n: nat, x: real): real
  {
    if n == 0 then 0.0 else Copies(n - 1, x) + x
  }

  lemma {:induction false} CopiesIsProduct(n: nat, x: real)
    ensures Copies(n, x) == n as real * x
  {
    if n > 0 {
      CopiesIsProduct(n - 1, x);
      assert n as real * x == (n - 1) as real * x + x;
    }
  }

  /** A window over values in [lo, hi] sums to between count copies of lo and of hi. */
  lemma {:induction false} WindowSumBounds(s: seq<real>, from: int, count: nat, lo: real, hi: real)
    requires |s| > 0
    requires forall k :: 0 <= k < |s| ==> lo <= s[k] <= hi
    ensures Copies(count, lo) <= WindowSum(s, from, count) <= Copies(count, hi)
  {
    if count > 0 {
      WindowSumBounds(s, from, count - 1, lo, hi);
      var v := GetValue(s, from + count - 1);
      var k :| 0 <= k < |s| && s[k] == v;
    }
  }

  /** On a constant list every window sums to count copies of c. */
  lemma {:induction false} WindowSumConstant(s: seq<real>, from: int, count: nat, c: real)
    requires |s| > 0
    requires forall k :: 0 <= k < |s| ==> s[k] == c
    ensures WindowSum(s, from, count) == Copies(count, c)
  {
    if count > 0 {
      WindowSumConstant(s, from, count - 1, c);
    }
  }

  /** Averaging a constant list c gives 51c/50 at every index: the divisor is
      50 while 51 values are summed. */
  lemma AverageOfConstant(s: seq<real>, i: int, c: real)
    requires |s| > 0
    requires forall k :: 0 <= k < |s| ==> s[k] == c
    ensures Average(s, i) == 51.0 * c / 50.0
    ensures c != 0.0 ==> Average(s, i) != c
  {
    WindowSumConstant(s, i - 25, 51, c);
    CopiesIsProduct(51, c);
  }

  /** Averages of values in [lo, hi] lie in [51·lo/50, 51·hi/50]. */
  lemma AverageBounds(s: seq<real>, i: int, lo: real, hi: real)
    requires |s| > 0
    requires forall k :: 0 <= k < |s| ==> lo <= s[k] <= hi
    ensures 51.0 * lo / 50.0 <= Average(s, i) <= 51.0 * hi / 50.0
  {
    WindowSumBounds(s, i - 25, 51, lo, hi);
    CopiesIsProduct(51, lo);
    CopiesIsProduct(51, hi);
  }

  /** Dividing by 51, a constant list averages to itself. */
  lemma AverageIntendedOfConstant(s: seq<real>, i: int, c: real)
    requires |s| > 0
    requires forall k :: 0 <= k < |s| ==> s[k] == c
    ensures AverageIntended(s, i) == c
  {
    WindowSumConstant(s, i - 25, 51, c);
    CopiesIsProduct(51, c);
  }

  /** Dividing by 51, averages of values in [lo, hi] stay in [lo, hi]. */
  lemma AverageIntendedBounds(s: seq<real>, i: int, lo: real, hi: real)
    requires |s| > 0
    requires forall k :: 0 <= k < |s| ==> lo <= s[k] <= hi
    ensures lo <= AverageIntended(s, i) <= hi
  {
    WindowSumBounds(s, i - 25, 51, lo, hi);
    CopiesIsProduct(51, lo);
    CopiesIsProduct(51, hi);
  }

  // ---------------------------------------------------------------- duration text

  /** Java's `/` on longs: the quotient truncated toward zero. */
  function JavaDiv(a: int, b: int): int
    requires b > 0
  {
    if a >= 0 then a / b else -((-a) / b)
  }

  /** Java's `%` on longs: the remainder takes the sign of the dividend. */
  function JavaRem(a: int, b: int): int
    requires b > 0
  {
    if a >= 0 then a % b else -((-a) % b)
  }

  /** The split of a non-negative number of seconds. */
  lemma SplitSeconds(a: nat)
    ensures 3600 * (a / 3600) + 60 * (a % 3600 / 60) + a % 60 == a
    ensures 0 <= a % 3600 / 60 < 60
  {
    var h := a / 3600;
    var rest := a % 3600;
    assert a == 3600 * h + rest;
    assert rest == 60 * (rest / 60) + rest % 60;
    assert rest % 60 == a % 60 by {
      assert a == 60 * (60 * h + rest / 60) + rest % 60;
    }
  }

  /** Hours, minutes and seconds as `stringTime` computes them. */
  function TimeParts(seconds: int): (hms: (int, int, int))
    ensures 3600 * hms.0 + 60 * hms.1 + hms.2 == seconds
    ensures seconds >= 0 ==> hms.0 >= 0 && 0 <= hms.1 < 60 && 0 <= hms.2 < 60
    ensures seconds < 0 ==> hms.0 <= 0 && -60 < hms.1 <= 0 && -60 < hms.2 <= 0
  {
    SplitSeconds(if seconds >= 0 then seconds else -seconds);
    (JavaDiv(seconds, 3600), JavaDiv(JavaRem(seconds, 3600), 60), JavaRem(seconds, 60))
  }

  /** `%02d`: at least two characters, a leading zero before a single digit. */
  function Pad2(n: int): (s: string)
    ensures 0 <= n < 10 ==> s == "0" + NatToString(n)
    ensures !(0 <= n < 10) ==> s == IntToString(n)
  {
    if 0 <= n < 10 then "0" + NatToString(n) else IntToString(n)
  }

  /** `stringTime(seconds)`: "hh ч. mm м. ss с." */
  function StringTime(seconds: int): (text: string)
    ensures var (h, m, r) := TimeParts(seconds);
      text == Pad2(h) + " ч. " + Pad2(m) + " м. " + Pad2(r) + " с."
  {
    var (h, m, r) := TimeParts(seconds);
    Pad2(h) + " ч. " + Pad2(m) + " м. " + Pad2(r) + " с."
  }

  /** For a non-negative duration the minutes and seconds fields are exactly
      two digits and the text determines the number of seconds. */
  lemma StringTimeFields(seconds: int)
    requires seconds >= 0
    ensures var (h, m, r) := TimeParts(seconds);
      |Pad2(m)| == 2 && |Pad2(r)| == 2 && |Pad2(h)| >= 2 &&
      seconds == 3600 * h + 60 * m + r
  {
    var (h, m, r) := TimeParts(seconds);
    if m >= 10 { assert NatToString(m) == NatToString(m / 10) + [DigitChar(m % 10)]; }
    if r >= 10 { assert NatToString(r) == NatToString(r / 10) + [DigitChar(r % 10)]; }
    if h >= 10 { assert NatToString(h) == NatToString(h / 10) + [DigitChar(h % 10)]; }
  }
}
