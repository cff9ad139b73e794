// Experiments: the parameters of one experiment (a net configuration, a
// training configuration and a sample service), the sweep that builds the
// Cartesian product of several configurations, the checks an experimenter
// makes before a sweep, the record of a series of experiments, and the
// tab-indented sub-reports they print.

module Experiments {
  import opened Wrappers
  import opened Streams
  import opened Text
  import Nets
  import Training
  import Rates
  import Activations
  import Arith

  // ---------------------------------------------------------------- sub-reports

  /** Each line of a sub-report behind one more tab, in order. */
  function Tabbed(lines: seq<string>): (r: seq<string>)
    ensures |r| == |lines|
    ensures forall k :: 0 <= k < |lines| ==> r[k] == "\t" + lines[k]
  {
    if lines == [] then [] else ["\t" + lines[0]] + Tabbed(lines[1..])
  }

  /** Every indented line starts with a tab. */
  lemma TabbedLead(lines: seq<string>)
    ensures forall k :: 0 <= k < |lines| ==> Tabbed(lines)[k] != [] && Tabbed(lines)[k][0] == '\t'
  {
    forall k | 0 <= k < |lines|
      ensures Tabbed(lines)[k] != [] && Tabbed(lines)[k][0] == '\t'
    {
      assert Tabbed(lines)[k] == "\t" + lines[k];
    }
  }

  /** Indenting two reports one after the other indents each of them. */
  lemma {:induction false} TabbedAppend(a: seq<string>, b: seq<string>)
    ensures Tabbed(a + b) == Tabbed(a) + Tabbed(b)
  {
    if a != [] {
      assert (a + b)[1..] == a[1..] + b;
      TabbedAppend(a[1..], b);
    } else {
      assert a + b == b;
    }
  }

  /** A list of report lines. A list made by `List.of` cannot be added to. */
  class ReportList {
    var lines: seq<string>
    const modifiable: bool

    constructor (lines: seq<string>, modifiable: bool)
      ensures this.lines == lines && this.modifiable == modifiable
    {
      this.lines := lines;
      this.modifiable := modifiable;
    }
  }

  /**
   * `addSubReports(report, subreports)`: one line per sub-report line, a tab
   * before it, appended in order after the lines already there. On a list
   * that cannot be added to, the first addition throws and nothing changes.
   */
  method AddSubReports(report: ReportList, subreports: seq<string>) returns (thrown: Option<Error>)
    modifies report
    ensures report.modifiable ==> thrown == None && report.lines == old(report.lines) + Tabbed(subreports)
    ensures !report.modifiable ==> report.lines == old(report.lines)
    ensures !report.modifiable ==> (thrown == None <==> subreports == [])
    ensures thrown.Some? ==> thrown.value == UnsupportedOperation
  {
    for k := 0 to |subreports|
      invariant !report.modifiable ==> k == 0
      invariant report.lines == old(report.lines) + Tabbed(subreports[..k])
    {
      if !report.modifiable {
        return Some(UnsupportedOperation);
      }
      TabbedAppend(subreports[..k], [subreports[k]]);
      assert subreports[..k + 1] == subreports[..k] + [subreports[k]];
      report.lines := report.lines + ["\t" + subreports[k]];
    }
    assert subreports[..|subreports|] == subreports;
    thrown := None;
  }

  // ---------------------------------------------------------------- experiment parameters

  const NetParametersClass: string := "com.synapse.core.nets.NetParameters"
  const TrainingParametersClass: string := "com.synapse.core.training.TrainingParameters"
  const ExperimentParametersClass: string := "com.synapse.core.experimentation.ExperimentParameters"
  const TrainingResultClass: string := "com.synapse.core.training.TrainingResult"

  /** The objects a net-parameters field reaches. */
  function NetParts(np: Nets.NetParameters?): set<object?>
    reads np
  {
    if np == null then {} else {np, np.layerSizes, np.activation}
  }

  /** The objects a training-parameters field reaches. */
  function TrainingParts(tp: Training.TrainingParameters?): set<object?>
    reads tp
  {
    if tp == null then {} else if tp.rate.None? then {tp} else {tp, tp.rate.value.Object()}
  }

  /** `writeObject` of a net-parameters field that may be null. */
  function NetParametersToken(np: Nets.NetParameters?): (t: Token)
    reads NetParts(np)
    ensures np == null <==> t == NullT
  {
    if np == null then NullT
    else ObjectT(NetParametersClass, Nets.ParametersTokens(np.layerSizes[..], np.ActivationToken()))
  }

  /** `writeObject` of a training-parameters field that may be null. */
  function TrainingParametersToken(tp: Training.TrainingParameters?): (t: Token)
    reads TrainingParts(tp)
    ensures tp == null <==> t == NullT
  {
    if tp == null then NullT
    else ObjectT(TrainingParametersClass,
      Training.ParametersTokens(tp.maxEpochsCount, tp.batchSize, tp.errorLimit, Rates.RateToken(tp.rate)))
  }

  /** What net parameters are read back as: the sizes, and the activation's
      token or null. */
  datatype NetImage = NetImage(layerSizes: seq<int>, activation: Option<Token>)

  /** The fields of net parameters as they are written, or None for null. */
  function NetImageOf(np: Nets.NetParameters?): Option<NetImage>
    reads NetParts(np)
  {
    if np == null then None
    else Some(NetImage(np.layerSizes[..], if np.activation == null then None else Some(np.activation.Externalized())))
  }

  /** The fields of training parameters, or None for null. */
  function TrainingImageOf(tp: Training.TrainingParameters?): Option<Training.ParametersImage>
    reads TrainingParts(tp)
  {
    if tp == null then None else Some(tp.Image())
  }

  /** `(NetParameters) in.readObject()`: null, or the fields its
      `readExternal` reads, which must use up the object's tokens; an object
      of another class fails the cast. */
  function DecodeNetParameters(t: Token): (r: Result<Option<NetImage>>)
    ensures t == NullT <==> r == Ok(None)
    ensures t.ObjectT? && t.kind != NetParametersClass ==> r == Err(ClassCast(t.kind))
  {
    match t
    case NullT => Ok(None)
    case ObjectT(kind, fs) =>
      if kind != NetParametersClass then Err(ClassCast(kind))
      else
        var (sizes, a, rest) :- Nets.ReadParameters(fs);
        if rest != [] then Err(StreamCorrupted) else Ok(Some(NetImage(sizes, a)))
    case _ => Err(StreamCorrupted)
  }

  /** `(TrainingParameters) in.readObject()`, in the same way. */
  function DecodeTrainingParameters(t: Token): (r: Result<Option<Training.ParametersImage>>)
    ensures t == NullT <==> r == Ok(None)
    ensures t.ObjectT? && t.kind != TrainingParametersClass ==> r == Err(ClassCast(t.kind))
  {
    match t
    case NullT => Ok(None)
    case ObjectT(kind, fs) =>
      if kind != TrainingParametersClass then Err(ClassCast(kind))
      else
        var (p, rest) :- Training.ReadParametersImage(fs);
        if rest != [] then Err(StreamCorrupted) else Ok(Some(p))
    case _ => Err(StreamCorrupted)
  }

  /** `readExternal` of experiment parameters: the net parameters, then the
      training parameters. Nothing is read for the sample service. */
  function ReadExperimentParameters(ts: seq<Token>)
    : (r: Result<(Option<NetImage>, Option<Training.ParametersImage>, seq<Token>)>)
    ensures |ts| < 2 ==> r.Err?
  {
    var (n, r1) :- ReadObject(ts);
    var net :- DecodeNetParameters(n);
    var (t, r2) :- ReadObject(r1);
    var training :- DecodeTrainingParameters(t);
    Ok((net, training, r2))
  }

  /** Whatever net parameters write is read back as the same sizes and
      activation class. */
  lemma NetParametersTokenRoundTrip(np: Nets.NetParameters?)
    ensures DecodeNetParameters(NetParametersToken(np)) == Ok(NetImageOf(np))
  {
    if np != null {
      var a := np.ActivationToken();
      Nets.ParametersRoundTrip(np.layerSizes[..], a, []);
      assert Nets.ParametersTokens(np.layerSizes[..], a) + [] == Nets.ParametersTokens(np.layerSizes[..], a);
    }
  }

  /** Whatever training parameters write is read back as the same four fields. */
  lemma TrainingParametersTokenRoundTrip(tp: Training.TrainingParameters?)
    ensures DecodeTrainingParameters(TrainingParametersToken(tp)) == Ok(TrainingImageOf(tp))
  {
    if tp != null {
      var p := tp.Image();
      Training.ParametersRoundTrip(p, []);
      var ts := Training.ParametersTokens(tp.maxEpochsCount, tp.batchSize, tp.errorLimit, Rates.RateToken(tp.rate));
      assert ts + [] == ts;
    }
  }

  /** The two objects written one after the other are read back in the same order. */
  lemma ExperimentParametersRoundTrip(np: Nets.NetParameters?, tp: Training.TrainingParameters?, rest: seq<Token>)
    ensures ReadExperimentParameters([NetParametersToken(np), TrainingParametersToken(tp)] + rest)
      == Ok((NetImageOf(np), TrainingImageOf(tp), rest))
  {
    NetParametersTokenRoundTrip(np);
    TrainingParametersTokenRoundTrip(tp);
    var ts := [NetParametersToken(np), TrainingParametersToken(tp)] + rest;
    assert ts[1..][1..] == rest;
  }

  /** The report of experiment parameters made of the training report and
      the net report: a header, then both reports behind a tab, training first. */
  function ParametersReport(training: seq<string>, net: seq<string>): (lines: seq<string>)
    ensures |lines| == 1 + |training| + |net| && lines[0] == "ExperimentParameters:\n"
    ensures lines[1..1 + |training|] == Tabbed(training)
    ensures lines[1 + |training|..] == Tabbed(net)
    ensures forall k :: 1 <= k < |lines| ==> lines[k] != [] && lines[k][0] == '\t'
  {
    var lines := ["ExperimentParameters:\n"] + Tabbed(training) + Tabbed(net);
    assert lines[1..1 + |training|] == Tabbed(training);
    assert lines[1 + |training|..] == Tabbed(net);
    TabbedLead(training);
    TabbedLead(net);
    lines
  }

  /** `String.valueOf(activation)` inside a report. */
  function ActivationText(a: Activations.Activation?, render: real -> string): (s: string)
    reads a
    ensures a == null <==> s == "null"
  {
    if a == null then "null" else a.ToString(render)
  }

  class ExperimentParameters {
    var netParameters: Nets.NetParameters?
    var trainingParameters: Training.TrainingParameters?
    /** The sample service: an object this model does not look into. */
    var sampleService: object?

    /** The no-argument constructor: all three fields null. */
    constructor ()
      ensures netParameters == null && trainingParameters == null && sampleService == null
    {
      netParameters := null;
      trainingParameters := null;
      sampleService := null;
    }

    /**
     * `getReport`: the header, the training parameters' five lines, then the
     * net parameters' three lines, each behind a tab. A missing part throws.
     * `renderSizes` writes the size array, `render` a double.
     */
    function Report(renderSizes: seq<int> -> string, render: real -> string): (r: Result<seq<string>>)
      reads this, NetParts(netParameters), TrainingParts(trainingParameters)
      ensures r.Err? <==> trainingParameters == null || netParameters == null
      ensures r.Err? ==> r.error == NullPointer
      ensures r.Ok? ==> |r.value| == 9
      ensures r.Ok? ==> r.value == ParametersReport(trainingParameters.Report(render),
        netParameters.Report(renderSizes, ActivationText(netParameters.activation, render)))
    {
      if trainingParameters == null || netParameters == null then Err(NullPointer)
      else Ok(ParametersReport(trainingParameters.Report(render),
        netParameters.Report(renderSizes, ActivationText(netParameters.activation, render))))
    }

    /**
     * `clone`: a new object with the same sample service and fresh clones of
     * the training and net parameters. The clones themselves share the rate
     * object, the size array and the activation with the originals. A null
     * part throws.
     */
    method Clone() returns (r: Result<ExperimentParameters>)
      ensures r.Err? <==> trainingParameters == null || netParameters == null
      ensures r.Err? ==> r.error == NullPointer
      ensures r.Ok? ==> fresh(r.value) && r.value.sampleService == sampleService
      ensures r.Ok? ==> var t := r.value.trainingParameters;
        t != null && fresh(t) && t.rate == trainingParameters.rate &&
        t.maxEpochsCount == trainingParameters.maxEpochsCount &&
        t.batchSize == trainingParameters.batchSize && t.errorLimit == trainingParameters.errorLimit
      ensures r.Ok? ==> var n := r.value.netParameters;
        n != null && fresh(n) && n.layerSizes == netParameters.layerSizes && n.activation == netParameters.activation
    {
      if trainingParameters == null || netParameters == null {
        return Err(NullPointer);
      }
      var c := new ExperimentParameters();
      c.sampleService := sampleService;
      var t := trainingParameters.Clone();
      c.trainingParameters := t;
      var n := netParameters.Clone();
      c.netParameters := n;
      r := Ok(c);
    }

    /** `writeExternal`: the net parameters, then the training parameters;
        reading the output back gives both, and nothing of the sample service. */
    method WriteExternal() returns (out: seq<Token>)
      ensures out == [NetParametersToken(netParameters), TrainingParametersToken(trainingParameters)]
      ensures ReadExperimentParameters(out) == Ok((NetImageOf(netParameters), TrainingImageOf(trainingParameters), []))
    {
      var n := NullT;
      if netParameters != null {
        var fields := netParameters.WriteExternal();
        n := ObjectT(NetParametersClass, fields);
      }
      var t := NullT;
      if trainingParameters != null {
        var fields := trainingParameters.WriteExternal();
        t := ObjectT(TrainingParametersClass, fields);
      }
      out := [n, t];
      ExperimentParametersRoundTrip(netParameters, trainingParameters, []);
      assert out + [] == out;
    }

    /**
     * `readExternal`: the net parameters and the training parameters are
     * replaced by new objects read from the stream (or null); the sample
     * service is left as it is. f and df stand for the functions a restored
     * activation computes.
     */
    method ReadExternal(input: seq<Token>, f: (real, real) -> real, df: (real, real) -> real)
      returns (r: Result<seq<Token>>)
      modifies this
      ensures r.Ok? <==> ReadExperimentParameters(input).Ok?
      ensures r.Err? ==> r.error == ReadExperimentParameters(input).error
      ensures sampleService == old(sampleService)
      ensures r.Ok? ==> r.value == ReadExperimentParameters(input).value.2
      ensures r.Ok? ==> NetRead(netParameters, ReadExperimentParameters(input).value.0)
      ensures r.Ok? ==> TrainingRead(trainingParameters, ReadExperimentParameters(input).value.1)
    {
      var x1 :- ReadObject(input);
      var net :- DecodeNetParameters(x1.0);
      var x2 :- ReadObject(x1.1);
      var training :- DecodeTrainingParameters(x2.0);
      var np := ReadNetParameters(x1.0, f, df);
      var tp := ReadTrainingParameters(x2.0);
      netParameters := np;
      trainingParameters := tp;
      r := Ok(x2.1);
    }
  }

  /** Net parameters read back from an image: null for None, otherwise an
      object with those sizes and an activation of the token's class, or null. */
  ghost predicate NetRead(np: Nets.NetParameters?, image: Option<NetImage>)
    reads NetParts(np)
  {
    (np == null <==> image.None?) &&
    (np != null ==>
      np.layerSizes[..] == image.value.layerSizes &&
      (np.activation == null <==> image.value.activation.None?) &&
      (np.activation != null ==>
        image.value.activation.value.ObjectT? &&
        Activations.KindOf(image.value.activation.value.kind) == Some(np.activation.kind)))
  }

  /** Training parameters read back from an image: null for None, otherwise
      an object whose fields are the image. */
  ghost predicate TrainingRead(tp: Training.TrainingParameters?, image: Option<Training.ParametersImage>)
    reads TrainingParts(tp)
  {
    (tp == null <==> image.None?) && (tp != null ==> tp.Image() == image.value)
  }

  /** The object `(NetParameters) in.readObject()` returns once the cast has
      succeeded: null, or a new object whose `readExternal` read the fields. */
  method ReadNetParameters(t: Token, f: (real, real) -> real, df: (real, real) -> real)
    returns (np: Nets.NetParameters?)
    requires DecodeNetParameters(t).Ok?
    ensures np != null ==> fresh(np) && fresh(np.layerSizes)
    ensures NetRead(np, DecodeNetParameters(t).value)
  {
    if t == NullT {
      return null;
    }
    var none := new int[0];
    np := new Nets.NetParameters(none, null);
    var left := np.ReadExternal(t.fields, f, df);
  }

  /** The object `(TrainingParameters) in.readObject()` returns once the
      cast has succeeded. */
  method ReadTrainingParameters(t: Token) returns (tp: Training.TrainingParameters?)
    requires DecodeTrainingParameters(t).Ok?
    ensures tp != null ==> fresh(tp)
    ensures TrainingRead(tp, DecodeTrainingParameters(t).value)
  {
    if t == NullT {
      return null;
    }
    tp := new Training.TrainingParameters();
    var left := tp.ReadExternal(t.fields);
  }

  /**
   * Deserialising experiment parameters: the no-argument constructor, then
   * `readExternal`. The sample service is never written, so it comes back null.
   */
  method ReadExperimentParametersObject(input: seq<Token>, f: (real, real) -> real, df: (real, real) -> real)
    returns (r: Result<(ExperimentParameters, seq<Token>)>)
    ensures r.Ok? <==> ReadExperimentParameters(input).Ok?
    ensures r.Ok? ==> fresh(r.value.0) && r.value.0.sampleService == null
    ensures r.Ok? ==> r.value.1 == ReadExperimentParameters(input).value.2
    ensures r.Ok? ==> NetRead(r.value.0.netParameters, ReadExperimentParameters(input).value.0)
    ensures r.Ok? ==> TrainingRead(r.value.0.trainingParameters, ReadExperimentParameters(input).value.1)
  {
    var p := new ExperimentParameters();
    var rest :- p.ReadExternal(input, f, df);
    r := Ok((p, rest));
  }

  // ---------------------------------------------------------------- the parameter sweep

  /** A value one of the factory's net setters assigns: the layer sizes, or
      the activation (the source's `NetParameters` holds one activation). */
  datatype NetSetting =
    | SizesSetting(sizes: array<int>)
    | ActivationSetting(activation: Activations.Activation?)

  /** A value one of the factory's training setters assigns. */
  datatype TrainingSetting =
    | MaxEpochsSetting(count: int)
    | RateSetting(rate: Rates.Rate)
    | ErrorLimitSetting(limit: real)
    | BatchSizeSetting(size: int)

  /** The fields of net parameters, as a value. */
  datatype NetFields = NetFields(layerSizes: array<int>, activation: Activations.Activation?)

  /** The fields of training parameters, as a value. */
  datatype TrainingFields = TrainingFields(rate: Option<Rates.Rate>, maxEpochsCount: int, batchSize: int, errorLimit: real)

  ghost function NetFieldsOf(np: Nets.NetParameters): NetFields
    reads np
  {
    NetFields(np.layerSizes, np.activation)
  }

  ghost function TrainingFieldsOf(tp: Training.TrainingParameters): TrainingFields
    reads tp
  {
    TrainingFields(tp.rate, tp.maxEpochsCount, tp.batchSize, tp.errorLimit)
  }

  /** The fields once one setter has run: the field it sets takes the value,
      every other field keeps its own. */
  function NetWith(f: NetFields, s: NetSetting): NetFields
  {
    match s
    case SizesSetting(a) => f.(layerSizes := a)
    case ActivationSetting(a) => f.(activation := a)
  }

  function TrainingWith(f: TrainingFields, s: TrainingSetting): TrainingFields
  {
    match s
    case MaxEpochsSetting(n) => f.(maxEpochsCount := n)
    case RateSetting(rate) => f.(rate := Some(rate))
    case ErrorLimitSetting(e) => f.(errorLimit := e)
    case BatchSizeSetting(n) => f.(batchSize := n)
  }

  /** The fields of `new TrainingParameters()`. */
  const TrainingDefaults := TrainingFields(None, 0, 0, 0.0)

  /** New net parameters after one setter: the set field has the value; the
      sizes array left unset is empty (the source leaves it null), the
      activation left unset is null. */
  ghost predicate NetDefaultWith(np: Nets.NetParameters, s: NetSetting)
    reads np
  {
    match s
    case SizesSetting(a) => np.layerSizes == a && np.activation == null
    case ActivationSetting(a) => np.activation == a && np.layerSizes.Length == 0
  }

  /** `NetParameters`' setter for one setting. */
  method SetNet(np: Nets.NetParameters, s: NetSetting)
    modifies np
    ensures NetFieldsOf(np) == NetWith(old(NetFieldsOf(np)), s)
  {
    match s
    case SizesSetting(a) => np.layerSizes := a;
    case ActivationSetting(a) => np.activation := a;
  }

  /** `TrainingParameters`' setter for one setting. */
  method SetTraining(tp: Training.TrainingParameters, s: TrainingSetting)
    modifies tp
    ensures TrainingFieldsOf(tp) == TrainingWith(old(TrainingFieldsOf(tp)), s)
  {
    match s
    case MaxEpochsSetting(n) => tp.maxEpochsCount := n;
    case RateSetting(rate) => tp.rate := Some(rate);
    case ErrorLimitSetting(e) => tp.errorLimit := e;
    case BatchSizeSetting(n) => tp.batchSize := n;
  }

  /**
   * The configurations a sweep gives from the configurations `sources`:
   * every setting applied to every source, setting by setting.
   */
  function Swept<F, S>(sources: seq<F>, settings: seq<S>, with: (F, S) -> F): (r: seq<F>)
  {
    if settings == [] then []
    else Swept(sources, settings[..|settings| - 1], with) + Applied(sources, settings[|settings| - 1], with)
  }

  /** One setting applied to every source. */
  function Applied<F, S>(sources: seq<F>, setting: S, with: (F, S) -> F): (r: seq<F>)
  {
    seq(|sources|, t requires 0 <= t < |sources| => with(sources[t], setting))
  }

  /** Index arithmetic of stacked blocks of width w: (i, t) with i <= p lies
      in the first p blocks when i < p and in block p otherwise. */
  lemma Stacked(p: nat, w: nat, i: nat, t: nat)
    requires i <= p && t < w
    ensures (p + 1) * w == p * w + w
    ensures i < p ==> i * w + t < p * w
    ensures i == p ==> i * w + t == p * w + t
  {
    if i < p {
      Arith.InRange(i, t, p, w);
    }
  }

  lemma NextMultiple(p: int, w: int)
    ensures (p + 1) * w == p * w + w
  {
  }

  lemma {:induction false} SweptLength<F, S>(sources: seq<F>, settings: seq<S>, with: (F, S) -> F)
    ensures |Swept(sources, settings, with)| == |settings| * |sources|
    ensures |Swept(sources, settings, with)| > 0 ==> |sources| > 0
  {
    if settings != [] {
      var n := |settings|;
      SweptLength(sources, settings[..n - 1], with);
      assert (n - 1) * |sources| + |sources| == n * |sources|;
    }
  }

  /** Entry m of a sweep is source m % |sources| with setting m / |sources|:
      the settings vary slowest. */
  lemma {:induction false} SweptAt<F, S>(sources: seq<F>, settings: seq<S>, with: (F, S) -> F, m: int)
    requires 0 <= m < |settings| * |sources|
    ensures |Swept(sources, settings, with)| == |settings| * |sources|
    ensures |sources| > 0 && 0 <= m / |sources| < |settings| && 0 <= m % |sources| < |sources|
    ensures Swept(sources, settings, with)[m] == with(sources[m % |sources|], settings[m / |sources|])
    decreases |settings|
  {
    var n, w := |settings|, |sources|;
    Arith.Split(m, n, w);
    var i, t := m / w, m % w;
    var front := settings[..n - 1];
    SweptLength(sources, settings, with);
    SweptLength(sources, front, with);
    Stacked(n - 1, w, i, t);
    if i < n - 1 {
      SweptAt(sources, front, with, m);
    } else {
      assert m == (n - 1) * w + t;
    }
  }

  /** `SweptAt` for every entry at once. */
  lemma SweptEvery<F, S>(sources: seq<F>, settings: seq<S>, with: (F, S) -> F)
    ensures |Swept(sources, settings, with)| == |settings| * |sources|
    ensures forall m :: 0 <= m < |Swept(sources, settings, with)| ==>
      Swept(sources, settings, with)[m] == with(sources[m % |sources|], settings[m / |sources|])
  {
    var r := Swept(sources, settings, with);
    SweptLength(sources, settings, with);
    forall m | 0 <= m < |r|
      ensures |sources| > 0 && 0 <= m % |sources| < |sources| && 0 <= m / |sources| < |settings|
      ensures r[m] == with(sources[m % |sources|], settings[m / |sources|])
    {
      SweptAt(sources, settings, with, m);
    }
  }

  /** The fields of a list of net parameters. */
  ghost function NetFieldsSeq(ps: seq<Nets.NetParameters>): (r: seq<NetFields>)
    reads ps
    ensures |r| == |ps| && forall k :: 0 <= k < |ps| ==> r[k] == NetFieldsOf(ps[k])
  {
    if ps == [] then [] else [NetFieldsOf(ps[0])] + NetFieldsSeq(ps[1..])
  }

  /** The fields of a list of training parameters. */
  ghost function TrainingFieldsSeq(ps: seq<Training.TrainingParameters>): (r: seq<TrainingFields>)
    reads ps
    ensures |r| == |ps| && forall k :: 0 <= k < |ps| ==> r[k] == TrainingFieldsOf(ps[k])
  {
    if ps == [] then [] else [TrainingFieldsOf(ps[0])] + TrainingFieldsSeq(ps[1..])
  }

  /** Clones of every source with one setting applied. */
  method NetClones(sources: seq<Nets.NetParameters>, s: NetSetting) returns (row: seq<Nets.NetParameters>)
    ensures |row| == |sources|
    ensures forall t :: 0 <= t < |row| ==>
      (fresh(row[t]) && NetFieldsOf(row[t]) == NetWith(NetFieldsOf(sources[t]), s))
  {
    row := [];
    for t := 0 to |sources|
      invariant |row| == t
      invariant forall q :: 0 <= q < t ==>
        (fresh(row[q]) && NetFieldsOf(row[q]) == NetWith(NetFieldsOf(sources[q]), s))
    {
      var temp := sources[t].Clone();
      SetNet(temp, s);
      row := row + [temp];
    }
  }

  /** Clones of every source with one setting applied. */
  method TrainingClones(sources: seq<Training.TrainingParameters>, s: TrainingSetting)
    returns (row: seq<Training.TrainingParameters>)
    ensures |row| == |sources|
    ensures forall t :: 0 <= t < |row| ==>
      (fresh(row[t]) && TrainingFieldsOf(row[t]) == TrainingWith(TrainingFieldsOf(sources[t]), s))
  {
    row := [];
    for t := 0 to |sources|
      invariant |row| == t
      invariant forall q :: 0 <= q < t ==>
        (fresh(row[q]) && TrainingFieldsOf(row[q]) == TrainingWith(TrainingFieldsOf(sources[q]), s))
    {
      var temp := sources[t].Clone();
      SetTraining(temp, s);
      row := row + [temp];
    }
  }

  /** One new net-parameters object per setting, with that setting applied. */
  method NetDefaults(settings: seq<NetSetting>) returns (after: seq<Nets.NetParameters>)
    ensures |after| == |settings|
    ensures forall m :: 0 <= m < |after| ==> (fresh(after[m]) && NetDefaultWith(after[m], settings[m]))
  {
    after := [];
    for v := 0 to |settings|
      invariant |after| == v
      invariant forall m :: 0 <= m < v ==> (fresh(after[m]) && NetDefaultWith(after[m], settings[m]))
    {
      var none := new int[0];
      var temp := new Nets.NetParameters(none, null);
      SetNet(temp, settings[v]);
      after := after + [temp];
    }
  }

  /** One new training-parameters object per setting, with that setting applied. */
  method TrainingDefaultsWith(settings: seq<TrainingSetting>) returns (after: seq<Training.TrainingParameters>)
    ensures |after| == |settings|
    ensures forall m :: 0 <= m < |after| ==>
      (fresh(after[m]) && TrainingFieldsOf(after[m]) == TrainingWith(TrainingDefaults, settings[m]))
  {
    after := [];
    for v := 0 to |settings|
      invariant |after| == v
      invariant forall m :: 0 <= m < v ==>
        (fresh(after[m]) && TrainingFieldsOf(after[m]) == TrainingWith(TrainingDefaults, settings[m]))
    {
      var temp := new Training.TrainingParameters();
      SetTraining(temp, settings[v]);
      after := after + [temp];
    }
  }

  /** Clones of the sources, one round per setting: the objects' fields are
      the sweep of the sources' fields. */
  method NetRounds(before: seq<Nets.NetParameters>, settings: seq<NetSetting>)
    returns (after: seq<Nets.NetParameters>)
    ensures |after| == |Swept(NetFieldsSeq(before), settings, NetWith)|
    ensures forall m :: 0 <= m < |after| ==>
      (fresh(after[m]) && NetFieldsOf(after[m]) == Swept(NetFieldsSeq(before), settings, NetWith)[m])
  {
    after := [];
    ghost var sources := NetFieldsSeq(before);
    for v := 0 to |settings|
      invariant |after| == |Swept(sources, settings[..v], NetWith)|
      invariant forall m :: 0 <= m < |after| ==>
        (fresh(after[m]) && NetFieldsOf(after[m]) == Swept(sources, settings[..v], NetWith)[m])
    {
      var row := NetClones(before, settings[v]);
      assert settings[..v + 1][..v] == settings[..v];
      after := after + row;
    }
    assert settings[..|settings|] == settings;
  }

  /** Clones of the sources, one round per setting, as `NetRounds`. */
  method TrainingRounds(before: seq<Training.TrainingParameters>, settings: seq<TrainingSetting>)
    returns (after: seq<Training.TrainingParameters>)
    ensures |after| == |Swept(TrainingFieldsSeq(before), settings, TrainingWith)|
    ensures forall m :: 0 <= m < |after| ==>
      (fresh(after[m]) && TrainingFieldsOf(after[m]) == Swept(TrainingFieldsSeq(before), settings, TrainingWith)[m])
  {
    after := [];
    ghost var sources := TrainingFieldsSeq(before);
    for v := 0 to |settings|
      invariant |after| == |Swept(sources, settings[..v], TrainingWith)|
      invariant forall m :: 0 <= m < |after| ==>
        (fresh(after[m]) && TrainingFieldsOf(after[m]) == Swept(sources, settings[..v], TrainingWith)[m])
    {
      var row := TrainingClones(before, settings[v]);
      assert settings[..v + 1][..v] == settings[..v];
      after := after + row;
    }
    assert settings[..|settings|] == settings;
  }

  /** The setting entry m of a sweep over n sources takes: m / n. */
  function SettingOf<S>(settings: seq<S>, n: int, m: int): S
    requires n > 0 && 0 <= m < |settings| * n
  {
    Arith.Split(m, |settings|, n);
    settings[m / n]
  }

  /**
   * The outcome of a net sweep: from an empty list, one new object per
   * setting; otherwise entry m is a clone of source m % |before| with
   * setting m / |before| applied, so the settings vary slowest.
   */
  ghost predicate NetSwept(before: seq<Nets.NetParameters>, after: seq<Nets.NetParameters>, settings: seq<NetSetting>)
    reads before, after
  {
    if before == [] then
      |after| == |settings| &&
      forall m :: 0 <= m < |after| ==> NetDefaultWith(after[m], settings[m])
    else
      |after| == |settings| * |before| &&
      forall m :: 0 <= m < |after| ==>
        NetFieldsOf(after[m]) == NetWith(NetFieldsOf(before[m % |before|]), SettingOf(settings, |before|, m))
  }

  /** The outcome of a training sweep, as `NetSwept`. */
  ghost predicate TrainingSwept(before: seq<Training.TrainingParameters>, after: seq<Training.TrainingParameters>,
    settings: seq<TrainingSetting>)
    reads before, after
  {
    if before == [] then
      |after| == |settings| &&
      forall m :: 0 <= m < |after| ==> TrainingFieldsOf(after[m]) == TrainingWith(TrainingDefaults, settings[m])
    else
      |after| == |settings| * |before| &&
      forall m :: 0 <= m < |after| ==>
        TrainingFieldsOf(after[m]) == TrainingWith(TrainingFieldsOf(before[m % |before|]), SettingOf(settings, |before|, m))
  }

  function SizesSettings(values: seq<array<int>>): (r: seq<NetSetting>)
    ensures |r| == |values| && forall k :: 0 <= k < |values| ==> r[k] == SizesSetting(values[k])
  {
    seq(|values|, k requires 0 <= k < |values| => SizesSetting(values[k]))
  }

  function ActivationSettings(values: seq<Activations.Activation>): (r: seq<NetSetting>)
    ensures |r| == |values| && forall k :: 0 <= k < |values| ==> r[k] == ActivationSetting(values[k])
  {
    seq(|values|, k requires 0 <= k < |values| => ActivationSetting(values[k]))
  }

  function RateSettings(values: seq<Rates.Rate>): (r: seq<TrainingSetting>)
    ensures |r| == |values| && forall k :: 0 <= k < |values| ==> r[k] == RateSetting(values[k])
  {
    seq(|values|, k requires 0 <= k < |values| => RateSetting(values[k]))
  }

  function ErrorLimitSettings(values: seq<real>): (r: seq<TrainingSetting>)
    ensures |r| == |values| && forall k :: 0 <= k < |values| ==> r[k] == ErrorLimitSetting(values[k])
  {
    seq(|values|, k requires 0 <= k < |values| => ErrorLimitSetting(values[k]))
  }

  function BatchSizeSettings(values: seq<int>): (r: seq<TrainingSetting>)
    ensures |r| == |values| && forall k :: 0 <= k < |values| ==> r[k] == BatchSizeSetting(values[k])
  {
    seq(|values|, k requires 0 <= k < |values| => BatchSizeSetting(values[k]))
  }

  function MaxEpochsSettings(values: seq<int>): (r: seq<TrainingSetting>)
    ensures |r| == |values| && forall k :: 0 <= k < |values| ==> r[k] == MaxEpochsSetting(values[k])
  {
    seq(|values|, k requires 0 <= k < |values| => MaxEpochsSetting(values[k]))
  }

  /**
   * `setNetParams` on the list `before`. An empty list gives one new object
   * per value with that value set; otherwise every value is set on a clone
   * of every object, value by value: entry m is source m % |before| with
   * value m / |before|. The objects of `before` are not changed.
   */
  method SweepNet(before: seq<Nets.NetParameters>, settings: seq<NetSetting>)
    returns (after: seq<Nets.NetParameters>)
    ensures forall m :: 0 <= m < |after| ==> fresh(after[m])
    ensures NetSwept(before, after, settings)
  {
    if before == [] {
      after := NetDefaults(settings);
      return;
    }
    after := NetRounds(before, settings);
    ghost var sources := NetFieldsSeq(before);
    SweptEvery(sources, settings, NetWith);
  }

  /** `setTrainingParams` on the list `before`, as `SweepNet`. */
  method SweepTraining(before: seq<Training.TrainingParameters>, settings: seq<TrainingSetting>)
    returns (after: seq<Training.TrainingParameters>)
    ensures forall m :: 0 <= m < |after| ==> fresh(after[m])
    ensures TrainingSwept(before, after, settings)
  {
    if before == [] {
      after := TrainingDefaultsWith(settings);
      return;
    }
    after := TrainingRounds(before, settings);
    ghost var sources := TrainingFieldsSeq(before);
    SweptEvery(sources, settings, TrainingWith);
  }

  /** The (net, training, sample service) triples `getExpParams` pairs up:
      nets outermost, sample services innermost. */
  function Combinations(nets: seq<Nets.NetParameters?>, trainings: seq<Training.TrainingParameters?>, services: seq<object?>)
    : (r: seq<(Nets.NetParameters?, Training.TrainingParameters?, object?)>)
  {
    if nets == [] then []
    else Combinations(nets[..|nets| - 1], trainings, services) + Block(nets[|nets| - 1], trainings, services)
  }

  /** The triples of one net. */
  function Block(net: Nets.NetParameters?, trainings: seq<Training.TrainingParameters?>, services: seq<object?>)
    : (r: seq<(Nets.NetParameters?, Training.TrainingParameters?, object?)>)
  {
    if trainings == [] then []
    else Block(net, trainings[..|trainings| - 1], services) + Row(net, trainings[|trainings| - 1], services)
  }

  /** The triples of one net and one training configuration. */
  function Row(net: Nets.NetParameters?, training: Training.TrainingParameters?, services: seq<object?>)
    : (r: seq<(Nets.NetParameters?, Training.TrainingParameters?, object?)>)
  {
    seq(|services|, k requires 0 <= k < |services| => (net, training, services[k]))
  }

  lemma {:induction false} BlockLength(net: Nets.NetParameters?, trainings: seq<Training.TrainingParameters?>,
    services: seq<object?>)
    ensures |Block(net, trainings, services)| == |trainings| * |services|
  {
    if trainings != [] {
      var n := |trainings|;
      BlockLength(net, trainings[..n - 1], services);
      assert (n - 1) * |services| + |services| == n * |services|;
    }
  }

  lemma {:induction false} CombinationsLength(nets: seq<Nets.NetParameters?>, trainings: seq<Training.TrainingParameters?>,
    services: seq<object?>)
    ensures |Combinations(nets, trainings, services)| == |nets| * (|trainings| * |services|)
  {
    if nets != [] {
      var n, w := |nets|, |trainings| * |services|;
      CombinationsLength(nets[..n - 1], trainings, services);
      BlockLength(nets[n - 1], trainings, services);
      NextMultiple(n - 1, w);
    }
  }

  lemma {:induction false} BlockAt(net: Nets.NetParameters?, trainings: seq<Training.TrainingParameters?>,
    services: seq<object?>, j: int, k: int)
    requires 0 <= j < |trainings| && 0 <= k < |services|
    ensures 0 <= j * |services| + k < |Block(net, trainings, services)|
    ensures Block(net, trainings, services)[j * |services| + k] == (net, trainings[j], services[k])
    decreases |trainings|
  {
    var n, c := |trainings|, |services|;
    var front := trainings[..n - 1];
    BlockLength(net, front, services);
    Stacked(n - 1, c, j, k);
    Arith.NonNegProduct(j, c);
    if j < n - 1 {
      BlockAt(net, front, services, j, k);
    }
  }

  /** Triple (i, j, k) stands at i * (|trainings| * |services|) + j * |services| + k;
      with `CombinationsLength`, the triples are exactly the product, nets outermost. */
  lemma {:induction false} CombinationsAt(nets: seq<Nets.NetParameters?>, trainings: seq<Training.TrainingParameters?>,
    services: seq<object?>, i: int, j: int, k: int)
    requires 0 <= i < |nets| && 0 <= j < |trainings| && 0 <= k < |services|
    ensures 0 <= i * (|trainings| * |services|) + j * |services| + k < |Combinations(nets, trainings, services)|
    ensures Combinations(nets, trainings, services)[i * (|trainings| * |services|) + j * |services| + k]
      == (nets[i], trainings[j], services[k])
    decreases |nets|
  {
    var n, w := |nets|, |trainings| * |services|;
    var front := nets[..n - 1];
    BlockLength(nets[i], trainings, services);
    BlockAt(nets[i], trainings, services, j, k);
    CombinationsLength(front, trainings, services);
    var m := j * |services| + k;
    Stacked(n - 1, w, i, m);
    Arith.NonNegProduct(i, w);
    if i < n - 1 {
      CombinationsAt(front, trainings, services, i, j, k);
    }
  }

  /** The three fields of an experiment's parameters. */
  ghost function Parts(e: ExperimentParameters): (Nets.NetParameters?, Training.TrainingParameters?, object?)
    reads e
  {
    (e.netParameters, e.trainingParameters, e.sampleService)
  }

  /**
   * The factory that builds the experiments of a sweep. Each setter of a
   * swept value multiplies the configurations held so far by its values;
   * `getExpParams` pairs every net configuration with every training
   * configuration and every sample service.
   */
  class ExperimentParametersFactory {
    var netParams: seq<Nets.NetParameters>
    var trainingParams: seq<Training.TrainingParameters>
    /** The sample services; None while never set (a null list). */
    var sampleServices: Option<seq<object>>

    constructor ()
      ensures netParams == [] && trainingParams == [] && sampleServices == None
    {
      netParams := [];
      trainingParams := [];
      sampleServices := None;
    }

    method SetSampleServices(services: seq<object>)
      modifies this`sampleServices
      ensures sampleServices == Some(services)
    {
      sampleServices := Some(services);
    }

    /** `setNetParams`: replaces the net configurations by the sweep. */
    method SetNetParams(settings: seq<NetSetting>)
      modifies this`netParams
      ensures forall m :: 0 <= m < |netParams| ==> fresh(netParams[m])
      ensures NetSwept(old(netParams), netParams, settings)
    {
      netParams := SweepNet(netParams, settings);
    }

    /** `setTrainingParams`: replaces the training configurations by the sweep. */
    method SetTrainingParams(settings: seq<TrainingSetting>)
      modifies this`trainingParams
      ensures forall m :: 0 <= m < |trainingParams| ==> fresh(trainingParams[m])
      ensures TrainingSwept(old(trainingParams), trainingParams, settings)
    {
      trainingParams := SweepTraining(trainingParams, settings);
    }

    /** `setLayerSizes`: the sweep over layer sizes. */
    method SetLayerSizes(values: seq<array<int>>)
      modifies this`netParams
      ensures forall m :: 0 <= m < |netParams| ==> fresh(netParams[m])
      ensures NetSwept(old(netParams), netParams, SizesSettings(values))
    {
      SetNetParams(SizesSettings(values));
    }

    /** The activation sweep (`setActivations`, over single activations). */
    method SetActivations(values: seq<Activations.Activation>)
      modifies this`netParams
      ensures forall m :: 0 <= m < |netParams| ==> fresh(netParams[m])
      ensures NetSwept(old(netParams), netParams, ActivationSettings(values))
    {
      SetNetParams(ActivationSettings(values));
    }

    /** `setRates`: the sweep over rates. */
    method SetRates(values: seq<Rates.Rate>)
      modifies this`trainingParams
      ensures forall m :: 0 <= m < |trainingParams| ==> fresh(trainingParams[m])
      ensures TrainingSwept(old(trainingParams), trainingParams, RateSettings(values))
    {
      SetTrainingParams(RateSettings(values));
    }

    /** `setErrorLimits`: the sweep over error limits. */
    method SetErrorLimits(values: seq<real>)
      modifies this`trainingParams
      ensures forall m :: 0 <= m < |trainingParams| ==> fresh(trainingParams[m])
      ensures TrainingSwept(old(trainingParams), trainingParams, ErrorLimitSettings(values))
    {
      SetTrainingParams(ErrorLimitSettings(values));
    }

    /** `setBatchSizes`: the sweep over batch sizes. */
    method SetBatchSizes(values: seq<int>)
      modifies this`trainingParams
      ensures forall m :: 0 <= m < |trainingParams| ==> fresh(trainingParams[m])
      ensures TrainingSwept(old(trainingParams), trainingParams, BatchSizeSettings(values))
    {
      SetTrainingParams(BatchSizeSettings(values));
    }

    /** `setMaxEpochs`: the sweep over epoch limits. */
    method SetMaxEpochs(values: seq<int>)
      modifies this`trainingParams
      ensures forall m :: 0 <= m < |trainingParams| ==> fresh(trainingParams[m])
      ensures TrainingSwept(old(trainingParams), trainingParams, MaxEpochsSettings(values))
    {
      SetTrainingParams(MaxEpochsSettings(values));
    }

    /** `setNetParameters`: appends configurations as given. */
    method SetNetParameters(list: seq<Nets.NetParameters>)
      modifies this`netParams
      ensures netParams == old(netParams) + list
    {
      netParams := netParams + list;
    }

    /** `setTrainingParameters`: appends configurations as given. */
    method SetTrainingParameters(list: seq<Training.TrainingParameters>)
      modifies this`trainingParams
      ensures trainingParams == old(trainingParams) + list
    {
      trainingParams := trainingParams + list;
    }

    /**
     * `getExpParams`: one new experiment per triple of `Combinations`, in
     * that order. The loop over the sample services is reached only when
     * there is a net and a training configuration; it throws on a null list.
     */
    method GetExpParams() returns (r: Result<seq<ExperimentParameters>>)
      ensures r.Err? <==> sampleServices.None? && netParams != [] && trainingParams != []
      ensures r.Err? ==> r.error == NullPointer
      ensures r.Ok? ==> |r.value| == |Combinations(netParams, trainingParams, ServicesOrEmpty())|
      ensures r.Ok? ==> forall m :: 0 <= m < |r.value| ==>
        fresh(r.value[m]) && Parts(r.value[m]) == Combinations(netParams, trainingParams, ServicesOrEmpty())[m]
    {
      if sampleServices.None? && netParams != [] && trainingParams != [] {
        return Err(NullPointer);
      }
      var services := ServicesOrEmpty();
      var out: seq<ExperimentParameters> := [];
      for i := 0 to |netParams|
        invariant |out| == |Combinations(netParams[..i], trainingParams, services)|
        invariant forall m :: 0 <= m < |out| ==>
          fresh(out[m]) && Parts(out[m]) == Combinations(netParams[..i], trainingParams, services)[m]
      {
        var block := NetBlock(netParams[i], trainingParams, services);
        assert netParams[..i + 1][..i] == netParams[..i];
        out := out + block;
      }
      assert netParams[..|netParams|] == netParams;
      r := Ok(out);
    }

    /** The sample services, or none when the list was never set. */
    function ServicesOrEmpty(): seq<object>
      reads this
    {
      if sampleServices.Some? then sampleServices.value else []
    }
  }

  /** The experiments of one net configuration. */
  method NetBlock(net: Nets.NetParameters, trainings: seq<Training.TrainingParameters>, services: seq<object>)
    returns (block: seq<ExperimentParameters>)
    ensures |block| == |Block(net, trainings, services)|
    ensures forall m :: 0 <= m < |block| ==> fresh(block[m]) && Parts(block[m]) == Block(net, trainings, services)[m]
  {
    block := [];
    for j := 0 to |trainings|
      invariant |block| == |Block(net, trainings[..j], services)|
      invariant forall m :: 0 <= m < |block| ==> fresh(block[m]) && Parts(block[m]) == Block(net, trainings[..j], services)[m]
    {
      var row := TrainingRow(net, trainings[j], services);
      assert trainings[..j + 1][..j] == trainings[..j];
      block := block + row;
    }
    assert trainings[..|trainings|] == trainings;
  }

  /** The experiments of one net and one training configuration: one per
      sample service. */
  method TrainingRow(net: Nets.NetParameters, training: Training.TrainingParameters, services: seq<object>)
    returns (row: seq<ExperimentParameters>)
    ensures |row| == |services|
    ensures forall k :: 0 <= k < |row| ==> fresh(row[k]) && Parts(row[k]) == (net, training, services[k])
  {
    row := [];
    for k := 0 to |services|
      invariant |row| == k
      invariant forall q :: 0 <= q < k ==> fresh(row[q]) && Parts(row[q]) == (net, training, services[q])
    {
      var e := new ExperimentParameters();
      e.netParameters := net;
      e.trainingParameters := training;
      e.sampleService := services[k];
      row := row + [e];
    }
  }

  /** Every triple of one net draws that net and a training configuration
      and a service from the lists. */
  lemma {:induction false} BlockFrom(net: Nets.NetParameters?, trainings: seq<Training.TrainingParameters?>,
    services: seq<object?>, q: int)
    requires 0 <= q < |Block(net, trainings, services)|
    ensures Block(net, trainings, services)[q].0 == net
    ensures Block(net, trainings, services)[q].1 in trainings && Block(net, trainings, services)[q].2 in services
    decreases |trainings|
  {
    var n := |trainings|;
    var front := trainings[..n - 1];
    if q < |Block(net, front, services)| {
      BlockFrom(net, front, services, q);
      assert forall x :: x in front ==> x in trainings;
    }
  }

  /** Every triple draws its parts from the three lists. */
  lemma {:induction false} CombinationsFrom(nets: seq<Nets.NetParameters?>, trainings: seq<Training.TrainingParameters?>,
    services: seq<object?>, m: int)
    requires 0 <= m < |Combinations(nets, trainings, services)|
    ensures Combinations(nets, trainings, services)[m].0 in nets
    ensures Combinations(nets, trainings, services)[m].1 in trainings
    ensures Combinations(nets, trainings, services)[m].2 in services
    decreases |nets|
  {
    var n := |nets|;
    var front := nets[..n - 1];
    var head := Combinations(front, trainings, services);
    if m < |head| {
      CombinationsFrom(front, trainings, services, m);
      assert forall x :: x in front ==> x in nets;
    } else {
      BlockFrom(nets[n - 1], trainings, services, m - |head|);
    }
  }

  // ---------------------------------------------------------------- the experimenter

  /** Net parameters whose sizes and activation come from the two lists. */
  ghost predicate NetDrawn(np: Nets.NetParameters, sizes: seq<array<int>>, activations: seq<Activations.Activation>)
    reads np
  {
    np.layerSizes in sizes && np.activation != null && np.activation in activations
  }

  /**
   * Training fields drawn from the lists up to a stage of the sweep, in the
   * order the experimenter sweeps them: epoch limits (stage 1), rates (2),
   * error limits (3), batch sizes (4).
   */
  predicate TrainingDrawn(f: TrainingFields, epochs: seq<int>, rates: seq<Rates.Rate>, limits: seq<real>,
    batches: seq<int>, stage: nat)
  {
    f.maxEpochsCount in epochs &&
    (stage >= 2 ==> f.rate.Some? && f.rate.value in rates) &&
    (stage >= 3 ==> f.errorLimit in limits) &&
    (stage >= 4 ==> f.batchSize in batches)
  }

  /** The settings of one stage after the first. */
  function StageSettings(rates: seq<Rates.Rate>, limits: seq<real>, batches: seq<int>, stage: nat): seq<TrainingSetting>
    requires 2 <= stage <= 4
  {
    if stage == 2 then RateSettings(rates)
    else if stage == 3 then ErrorLimitSettings(limits)
    else BatchSizeSettings(batches)
  }

  /** The number of values a stage sweeps. */
  function StageWidth(rates: seq<Rates.Rate>, limits: seq<real>, batches: seq<int>, stage: nat): nat
    requires 2 <= stage <= 4
  {
    if stage == 2 then |rates| else if stage == 3 then |limits| else |batches|
  }

  /** The net half of `makeExperimentParameters` without explicit net
      parameters: the activation sweep, then the layer-size sweep. */
  method SweepNets(factory: ExperimentParametersFactory, activations: seq<Activations.Activation>, sizes: seq<array<int>>)
    requires factory.netParams == [] && activations != []
    modifies factory`netParams
    ensures |factory.netParams| == |sizes| * |activations|
    ensures forall m :: 0 <= m < |factory.netParams| ==>
      (fresh(factory.netParams[m]) && NetDrawn(factory.netParams[m], sizes, activations))
  {
    factory.SetActivations(activations);
    ghost var first := factory.netParams;
    assert forall k :: 0 <= k < |first| ==> first[k].activation == activations[k];
    factory.SetLayerSizes(sizes);
    forall m | 0 <= m < |factory.netParams|
      ensures NetDrawn(factory.netParams[m], sizes, activations)
    {
      Arith.Split(m, |sizes|, |first|);
    }
  }

  /** One stage of the training sweep after the first: every entry drawn
      up to the stage before gives entries drawn up to this one. */
  method SweepTrainingStage(factory: ExperimentParametersFactory, epochs: seq<int>, rates: seq<Rates.Rate>,
    limits: seq<real>, batches: seq<int>, stage: nat)
    requires 2 <= stage <= 4 && factory.trainingParams != []
    requires forall k :: 0 <= k < |factory.trainingParams| ==>
      TrainingDrawn(TrainingFieldsOf(factory.trainingParams[k]), epochs, rates, limits, batches, stage - 1)
    modifies factory`trainingParams
    ensures |factory.trainingParams| == StageWidth(rates, limits, batches, stage) * |old(factory.trainingParams)|
    ensures forall m :: 0 <= m < |factory.trainingParams| ==>
      (fresh(factory.trainingParams[m]) &&
      TrainingDrawn(TrainingFieldsOf(factory.trainingParams[m]), epochs, rates, limits, batches, stage))
  {
    ghost var before := factory.trainingParams;
    var settings := StageSettings(rates, limits, batches, stage);
    if stage == 2 {
      factory.SetRates(rates);
    } else if stage == 3 {
      factory.SetErrorLimits(limits);
    } else {
      factory.SetBatchSizes(batches);
    }
    forall m | 0 <= m < |factory.trainingParams|
      ensures TrainingDrawn(TrainingFieldsOf(factory.trainingParams[m]), epochs, rates, limits, batches, stage)
    {
      Arith.Split(m, |settings|, |before|);
    }
  }

  /** The training half of `makeExperimentParameters` without explicit
      training parameters: epoch limits, rates, error limits, batch sizes. */
  method SweepTrainings(factory: ExperimentParametersFactory, epochs: seq<int>, rates: seq<Rates.Rate>,
    limits: seq<real>, batches: seq<int>)
    requires factory.trainingParams == [] && epochs != [] && rates != [] && limits != []
    modifies factory`trainingParams
    ensures |factory.trainingParams| == |batches| * (|limits| * (|rates| * |epochs|))
    ensures forall m :: 0 <= m < |factory.trainingParams| ==>
      (fresh(factory.trainingParams[m]) &&
      TrainingDrawn(TrainingFieldsOf(factory.trainingParams[m]), epochs, rates, limits, batches, 4))
  {
    factory.SetMaxEpochs(epochs);
    assert forall k :: 0 <= k < |factory.trainingParams| ==>
      factory.trainingParams[k].maxEpochsCount == epochs[k];
    SweepTrainingStage(factory, epochs, rates, limits, batches, 2);
    SweepTrainingStage(factory, epochs, rates, limits, batches, 3);
    SweepTrainingStage(factory, epochs, rates, limits, batches, 4);
  }

  /**
   * The experimenter: the values to sweep, or explicit configurations, and
   * the sample services. `call` checks that every list it needs is set and
   * not empty, then builds the experiments through the factory; running
   * them is left to subclasses.
   */
  class Experimenter {
    var epochCounts: Option<seq<int>>
    var batchSizes: Option<seq<int>>
    var errorLimits: Option<seq<real>>
    var layerSizes: Option<seq<array<int>>>
    var activations: Option<seq<Activations.Activation>>
    var rates: Option<seq<Rates.Rate>>
    var netParameters: Option<seq<Nets.NetParameters>>
    var trainingParameters: Option<seq<Training.TrainingParameters>>
    var sampleServices: Option<seq<object>>

    /** Every list starts unset (null). */
    constructor ()
      ensures epochCounts == None && batchSizes == None && errorLimits == None
      ensures layerSizes == None && activations == None && rates == None
      ensures netParameters == None && trainingParameters == None && sampleServices == None
    {
      epochCounts := None;
      batchSizes := None;
      errorLimits := None;
      layerSizes := None;
      activations := None;
      rates := None;
      netParameters := None;
      trainingParameters := None;
      sampleServices := None;
    }

    method SetSampleServices(values: seq<object>)
      modifies this`sampleServices
      ensures sampleServices == Some(values)
    {
      sampleServices := Some(values);
    }

    method SetEpochCounts(values: seq<int>)
      modifies this`epochCounts
      ensures epochCounts == Some(values)
    {
      epochCounts := Some(values);
    }

    method SetBatchSizes(values: seq<int>)
      modifies this`batchSizes
      ensures batchSizes == Some(values)
    {
      batchSizes := Some(values);
    }

    method SetErrorLimits(values: seq<real>)
      modifies this`errorLimits
      ensures errorLimits == Some(values)
    {
      errorLimits := Some(values);
    }

    method SetLayerSizes(values: seq<array<int>>)
      modifies this`layerSizes
      ensures layerSizes == Some(values)
    {
      layerSizes := Some(values);
    }

    method SetActivations(values: seq<Activations.Activation>)
      modifies this`activations
      ensures activations == Some(values)
    {
      activations := Some(values);
    }

    method SetRates(values: seq<Rates.Rate>)
      modifies this`rates
      ensures rates == Some(values)
    {
      rates := Some(values);
    }

    method SetNetParameters(values: seq<Nets.NetParameters>)
      modifies this`netParameters
      ensures netParameters == Some(values)
    {
      netParameters := Some(values);
    }

    method SetTrainingParameters(values: seq<Training.TrainingParameters>)
      modifies this`trainingParameters
      ensures trainingParameters == Some(values)
    {
      trainingParameters := Some(values);
    }

    /** The first check of `call` that fails, in the source's order; a
        sample-service list never set throws on its emptiness test. */
    function Precheck(): Option<Error>
      reads this
    {
      if sampleServices.None? then Some(NullPointer)
      else if sampleServices.value == [] then Some(IllegalState("SampleService is not set"))
      else if netParameters.None? && Unset(layerSizes) then Some(IllegalState("LayerSizes is not set"))
      else if netParameters.None? && Unset(activations) then Some(IllegalState("Activations is not set"))
      else if trainingParameters.None? && Unset(epochCounts) then Some(IllegalState("EpochCounts is not set"))
      else if trainingParameters.None? && Unset(errorLimits) then Some(IllegalState("ErrorLimits is not set"))
      else if trainingParameters.None? && Unset(rates) then Some(IllegalState("Rates is not set"))
      else if trainingParameters.None? && Unset(batchSizes) then Some(IllegalState("BatchSizes is not set"))
      else None
    }

    /** The number of net configurations the sweep yields. */
    function NetCount(): nat
      reads this
      requires Precheck() == None
    {
      if netParameters.Some? then |netParameters.value| else |layerSizes.value| * |activations.value|
    }

    /** The number of training configurations the sweep yields. */
    function TrainingCount(): nat
      reads this
      requires Precheck() == None
    {
      if trainingParameters.Some? then |trainingParameters.value|
      else |batchSizes.value| * (|errorLimits.value| * (|rates.value| * |epochCounts.value|))
    }

    /** An experiment built from this experimenter's lists: its sample service
        from the services, its configurations given or drawn from the swept values. */
    ghost predicate Drawn(e: ExperimentParameters)
      reads this, e, e.netParameters, e.trainingParameters
      requires Precheck() == None
    {
      e.sampleService in sampleServices.value &&
      e.netParameters != null && e.trainingParameters != null &&
      (if netParameters.Some? then e.netParameters in netParameters.value
       else NetDrawn(e.netParameters, layerSizes.value, activations.value)) &&
      (if trainingParameters.Some? then e.trainingParameters in trainingParameters.value
       else TrainingDrawn(TrainingFieldsOf(e.trainingParameters), epochCounts.value, rates.value,
         errorLimits.value, batchSizes.value, 4))
    }

    /**
     * `call` up to `performExperiments`: the checks, then the experiments
     * `makeExperimentParameters` builds: every net configuration with every
     * training configuration and every sample service.
     */
    method Call() returns (r: Result<seq<ExperimentParameters>>)
      ensures r.Err? <==> Precheck().Some?
      ensures r.Err? ==> r.error == Precheck().value
      ensures r.Ok? ==> |r.value| == NetCount() * (TrainingCount() * |sampleServices.value|)
      ensures r.Ok? ==> forall m :: 0 <= m < |r.value| ==> (fresh(r.value[m]) && Drawn(r.value[m]))
      ensures r.Ok? && netParameters.None? ==> forall m :: 0 <= m < |r.value| ==> fresh(r.value[m].netParameters)
      ensures r.Ok? && trainingParameters.None? ==>
        forall m :: 0 <= m < |r.value| ==> fresh(r.value[m].trainingParameters)
    {
      var failure := Precheck();
      if failure.Some? {
        return Err(failure.value);
      }
      var list := MakeExperimentParameters();
      r := Ok(list);
    }

    /** `makeExperimentParameters`, once `call`'s checks have passed. */
    method MakeExperimentParameters() returns (list: seq<ExperimentParameters>)
      requires Precheck() == None
      ensures |list| == NetCount() * (TrainingCount() * |sampleServices.value|)
      ensures forall m :: 0 <= m < |list| ==> (fresh(list[m]) && Drawn(list[m]))
      ensures netParameters.None? ==> forall m :: 0 <= m < |list| ==> fresh(list[m].netParameters)
      ensures trainingParameters.None? ==> forall m :: 0 <= m < |list| ==> fresh(list[m].trainingParameters)
    {
      var factory := new ExperimentParametersFactory();
      if netParameters.Some? {
        factory.SetNetParameters(netParameters.value);
      } else {
        SweepNets(factory, activations.value, layerSizes.value);
      }
      if trainingParameters.Some? {
        factory.SetTrainingParameters(trainingParameters.value);
      } else {
        SweepTrainings(factory, epochCounts.value, rates.value, errorLimits.value, batchSizes.value);
      }
      factory.SetSampleServices(sampleServices.value);
      var r := factory.GetExpParams();
      list := r.value;
      ghost var triples := Combinations(factory.netParams, factory.trainingParams, sampleServices.value);
      CombinationsLength(factory.netParams, factory.trainingParams, sampleServices.value);
      forall m | 0 <= m < |list|
        ensures Drawn(list[m])
        ensures netParameters.None? ==> fresh(list[m].netParameters)
        ensures trainingParameters.None? ==> fresh(list[m].trainingParameters)
      {
        CombinationsFrom(factory.netParams, factory.trainingParams, sampleServices.value, m);
      }
    }
  }

  /** A list that is null or empty. */
  predicate Unset<T>(list: Option<seq<T>>)
  {
    list.None? || list.value == []
  }

  // ---------------------------------------------------------------- the record of a series

  /** Keys 0, 1, ..., |m| - 1 and no other: the shape `addExperience` builds. */
  ghost predicate Consecutive<T>(m: map<int, T>)
  {
    forall k :: k in m <==> 0 <= k < |m|
  }

  /** The first n keys. */
  function Range(n: int): (r: set<int>)
    ensures forall k :: k in r <==> 0 <= k < n
  {
    if n <= 0 then {} else Range(n - 1) + {n - 1}
  }

  lemma {:induction false} RangeSize(n: nat)
    ensures |Range(n)| == n
  {
    if n > 0 {
      RangeSize(n - 1);
      assert Range(n) == Range(n - 1) + {n - 1};
      assert n - 1 !in Range(n - 1);
    }
  }

  /** `put(size(), entry)` on consecutive keys adds the next key. */
  lemma PutNextKeepsConsecutive<T>(m: map<int, T>, x: T)
    requires Consecutive(m)
    ensures |m[|m| := x]| == |m| + 1
    ensures Consecutive(m[|m| := x])
  {
    assert |m| !in m;
  }

  /** `put(i, ...)` for i < n on consecutive keys leaves the keys below the
      larger of the two counts. */
  lemma PutRangeKeepsConsecutive<T>(m: map<int, T>, after: map<int, T>, n: nat)
    requires Consecutive(m)
    requires after.Keys == m.Keys + Range(n)
    ensures |after| == if n < |m| then |m| else n
    ensures Consecutive(after)
  {
    var top := if n < |m| then |m| else n;
    assert m.Keys == Range(|m|);
    assert after.Keys == Range(top) by {
      forall k ensures k in after.Keys <==> k in Range(top) {
      }
    }
    RangeSize(top);
  }

  /** The map once the values have been put under keys 0, 1, ..., in order. */
  function Overlay<T>(m: map<int, T>, values: seq<T>): (r: map<int, T>)
    ensures r.Keys == m.Keys + Range(|values|)
    ensures forall k :: 0 <= k < |values| ==> r[k] == values[k]
    ensures forall k :: k in m && !(0 <= k < |values|) ==> r[k] == m[k]
  {
    if values == [] then m
    else Overlay(m, values[..|values| - 1])[|values| - 1 := values[|values| - 1]]
  }

  /** Putting values under keys 0, 1, ... keeps consecutive keys consecutive. */
  lemma OverlayKeepsConsecutive<T>(m: map<int, T>, values: seq<T>)
    requires Consecutive(m)
    ensures |Overlay(m, values)| == if |values| < |m| then |m| else |values|
    ensures Consecutive(Overlay(m, values))
  {
    PutRangeKeepsConsecutive(m, Overlay(m, values), |values|);
  }

  /** The hours, minutes and seconds parts of a duration of `nanos`
      nanoseconds: `toHoursPart`, `toMinutesPart`, `toSecondsPart`, on Java's
      truncating long division of the whole seconds. */
  function DurationParts(nanos: int): (parts: (int, int, int))
    ensures nanos >= 0 ==> 0 <= parts.0 < 24 && 0 <= parts.1 < 60 && 0 <= parts.2 < 60
    ensures nanos >= 0 ==>
      (nanos / 1_000_000_000 == 86400 * (nanos / 1_000_000_000 / 86400) + 3600 * parts.0 + 60 * parts.1 + parts.2)
  {
    var seconds := nanos / 1_000_000_000;
    var parts := (Training.JavaRem(Training.JavaDiv(seconds, 3600), 24),
                  Training.JavaRem(Training.JavaDiv(seconds, 60), 60),
                  Training.JavaRem(seconds, 60));
    if nanos >= 0 then
      DaySplit(seconds);
      parts
    else
      parts
  }

  /** Days, hours, minutes and seconds of a non-negative number of seconds. */
  lemma DaySplit(s: nat)
    ensures s == 86400 * (s / 86400) + 3600 * (s / 3600 % 24) + 60 * (s / 60 % 60) + s % 60
  {
    var m, r := s / 60, s % 60;
    var h, mm := m / 60, m % 60;
    assert s / 3600 == h by {
      assert s == 3600 * h + (60 * mm + r);
    }
    var d, hh := h / 24, h % 24;
    assert s / 86400 == d by {
      assert s == 86400 * d + (3600 * hh + 60 * mm + r);
    }
  }

  /** The lines of one experiment: its number (the key plus one), then the
      parameters' and the training result's reports behind two tabs. */
  function EntryLines(key: int, parameters: seq<string>, result: seq<string>): seq<string>
  {
    ["\tExperiment " + IntToString(key + 1) + ":\n"] + Tabbed(Tabbed(parameters)) + Tabbed(Tabbed(result))
  }

  /** The lines of the experiments with keys 0, 1, ..., in key order. */
  function EntriesLines(entries: seq<(seq<string>, seq<string>)>): seq<string>
  {
    if entries == [] then []
    else
      var last := entries[|entries| - 1];
      EntriesLines(entries[..|entries| - 1]) + EntryLines(|entries| - 1, last.0, last.1)
  }

  /** `getReport` of a record: the header, the duration line, then every experiment. */
  function ResultReport(parts: (int, int, int), entries: seq<(seq<string>, seq<string>)>): seq<string>
  {
    ["ExperimentResult:\n",
     "\tduration=" + IntToString(parts.0) + "ч. " + IntToString(parts.1) + "м. " + IntToString(parts.2) + "с.\n"]
    + EntriesLines(entries)
  }

  /** One more experiment adds its lines at the end of the report. */
  lemma ResultReportSnoc(parts: (int, int, int), entries: seq<(seq<string>, seq<string>)>, entry: (seq<string>, seq<string>))
    ensures ResultReport(parts, entries + [entry]) == ResultReport(parts, entries) + EntryLines(|entries|, entry.0, entry.1)
  {
    assert (entries + [entry])[..|entries|] == entries;
  }

  /** Each experiment adds its heading and both reports' lines. */
  lemma {:induction false} EntriesLinesSize(entries: seq<(seq<string>, seq<string>)>)
    ensures |EntriesLines(entries)| == LineCount(entries)
  {
    if entries != [] {
      EntriesLinesSize(entries[..|entries| - 1]);
    }
  }

  /** One heading per experiment plus the lines of its two reports. */
  function LineCount(entries: seq<(seq<string>, seq<string>)>): nat
  {
    if entries == [] then 0
    else LineCount(entries[..|entries| - 1]) + 1 + |entries[|entries| - 1].0| + |entries[|entries| - 1].1|
  }

  /** Every line of a record's report after the header is indented. */
  lemma {:induction false} ResultReportIndented(parts: (int, int, int), entries: seq<(seq<string>, seq<string>)>)
    ensures forall k :: 1 <= k < |ResultReport(parts, entries)| ==>
      ResultReport(parts, entries)[k] != [] && ResultReport(parts, entries)[k][0] == '\t'
  {
    EntriesIndented(entries);
  }

  lemma {:induction false} EntriesIndented(entries: seq<(seq<string>, seq<string>)>)
    ensures forall k :: 0 <= k < |EntriesLines(entries)| ==> EntriesLines(entries)[k] != [] && EntriesLines(entries)[k][0] == '\t'
  {
    if entries != [] {
      var last := entries[|entries| - 1];
      EntriesIndented(entries[..|entries| - 1]);
      TabbedLead(Tabbed(last.0));
      TabbedLead(Tabbed(last.1));
      var block := EntryLines(|entries| - 1, last.0, last.1);
      assert forall k :: 0 <= k < |block| ==> block[k] != [] && block[k][0] == '\t' by {
        forall k | 0 <= k < |block| ensures block[k] != [] && block[k][0] == '\t' {
          if k == 0 {
          } else if k < 1 + |last.0| {
            assert block[k] == Tabbed(Tabbed(last.0))[k - 1];
          } else {
            assert block[k] == Tabbed(Tabbed(last.1))[k - 1 - |last.0|];
          }
        }
      }
    }
  }

  /** The tokens of a record as written: the duration, the count, then each
      experiment's parameters and training result. */
  function Envelope(nanos: int, pairs: seq<(Token, Token)>): seq<Token>
  {
    [LongT(nanos), IntT(|pairs|)] + PairTokens(pairs)
  }

  function PairTokens(pairs: seq<(Token, Token)>): (ts: seq<Token>)
    ensures |ts| == 2 * |pairs|
  {
    if pairs == [] then [] else [pairs[0].0, pairs[0].1] + PairTokens(pairs[1..])
  }

  /** An experiment as read back: the parts of its parameters and the fields
      of its training result. */
  datatype ExperienceImage = ExperienceImage(net: Option<NetImage>, training: Option<Training.ParametersImage>,
    result: Training.ResultImage)

  /** `(ExperimentParameters) in.readObject()`: null, or the two parts its
      `readExternal` reads, which must use up the object's tokens. */
  function DecodeExperimentParameters(t: Token): (r: Result<Option<(Option<NetImage>, Option<Training.ParametersImage>)>>)
    ensures t == NullT <==> r == Ok(None)
    ensures t.ObjectT? && t.kind != ExperimentParametersClass ==> r == Err(ClassCast(t.kind))
  {
    match t
    case NullT => Ok(None)
    case ObjectT(kind, fs) =>
      if kind != ExperimentParametersClass then Err(ClassCast(kind))
      else
        var (net, training, rest) :- ReadExperimentParameters(fs);
        if rest != [] then Err(StreamCorrupted) else Ok(Some((net, training)))
    case _ => Err(StreamCorrupted)
  }

  /** `(TrainingResult) in.readObject()`, in the same way. */
  function DecodeTrainingResult(t: Token): (r: Result<Option<Training.ResultImage>>)
    ensures t == NullT <==> r == Ok(None)
    ensures t.ObjectT? && t.kind != TrainingResultClass ==> r == Err(ClassCast(t.kind))
  {
    match t
    case NullT => Ok(None)
    case ObjectT(kind, fs) =>
      if kind != TrainingResultClass then Err(ClassCast(kind))
      else
        var (img, rest) :- Training.ReadResult(fs);
        if rest != [] then Err(StreamCorrupted) else Ok(Some(img))
    case _ => Err(StreamCorrupted)
  }

  /** One experiment of `readExternal`: both objects are read and cast, then
      `Map.entry` refuses a null one. */
  function ReadExperience(ts: seq<Token>): Result<(ExperienceImage, seq<Token>)>
  {
    var (t1, r1) :- ReadObject(ts);
    var parameters :- DecodeExperimentParameters(t1);
    var (t2, r2) :- ReadObject(r1);
    var result :- DecodeTrainingResult(t2);
    if parameters.None? || result.None? then Err(NullPointer)
    else Ok((ExperienceImage(parameters.value.0, parameters.value.1, result.value), r2))
  }

  /** n values, one after the other, each read by `read`. */
  function ReadMany<T>(read: seq<Token> -> Result<(T, seq<Token>)>, ts: seq<Token>, n: nat): Result<(seq<T>, seq<Token>)>
    decreases n
  {
    if n == 0 then Ok(([], ts))
    else
      var (first, r1) :- read(ts);
      var (more, r2) :- ReadMany(read, r1, n - 1);
      Ok(([first] + more, r2))
  }

  /** n experiments, one after the other. */
  function ReadExperienceList(ts: seq<Token>, n: nat): Result<(seq<ExperienceImage>, seq<Token>)>
  {
    ReadMany(ReadExperience, ts, n)
  }

  /** `readExternal` of a record: the duration, the count, then that many
      experiments (none for a negative count). */
  function ReadRecord(ts: seq<Token>): Result<(int, seq<ExperienceImage>, seq<Token>)>
  {
    var (nanos, r1) :- ReadLong(ts);
    var (n, r2) :- ReadInt(r1);
    var (images, rest) :- ReadExperienceList(r2, if n < 0 then 0 else n);
    Ok((nanos, images, rest))
  }

  /** A pair of object tokens each of which reads back as an experiment part. */
  predicate Decodable(pair: (Token, Token))
  {
    DecodeExperimentParameters(pair.0).Ok? && DecodeExperimentParameters(pair.0).value.Some? &&
    DecodeTrainingResult(pair.1).Ok? && DecodeTrainingResult(pair.1).value.Some?
  }

  /** What a decodable pair reads back as. */
  function Decoded(pair: (Token, Token)): ExperienceImage
    requires Decodable(pair)
  {
    var p := DecodeExperimentParameters(pair.0).value.value;
    ExperienceImage(p.0, p.1, DecodeTrainingResult(pair.1).value.value)
  }

  /** Every pair is decodable. */
  predicate AllDecodable(pairs: seq<(Token, Token)>)
  {
    forall k :: 0 <= k < |pairs| ==> Decodable(pairs[k])
  }

  /** What decodable pairs read back as, in order. */
  function DecodedAll(pairs: seq<(Token, Token)>): (images: seq<ExperienceImage>)
    requires AllDecodable(pairs)
    ensures |images| == |pairs| && forall k :: 0 <= k < |pairs| ==> images[k] == Decoded(pairs[k])
  {
    if pairs == [] then [] else [Decoded(pairs[0])] + DecodedAll(pairs[1..])
  }

  /** Decodable pairs are a decodable first pair, then decodable pairs. */
  lemma AllDecodableCons(pairs: seq<(Token, Token)>)
    requires pairs != [] && AllDecodable(pairs)
    ensures Decodable(pairs[0]) && AllDecodable(pairs[1..])
    ensures DecodedAll(pairs) == [Decoded(pairs[0])] + DecodedAll(pairs[1..])
  {
    forall k | 0 <= k < |pairs| - 1
      ensures Decodable(pairs[1..][k])
    {
      assert pairs[1..][k] == pairs[k + 1];
    }
  }

  /** Reading back a written record gives the duration and every experiment,
      in order. */
  lemma {:induction false} RecordRoundTrip(nanos: int, pairs: seq<(Token, Token)>, rest: seq<Token>)
    requires AllDecodable(pairs)
    requires |pairs| <= 0x7FFF_FFFF
    ensures ReadRecord(Envelope(nanos, pairs) + rest) ==
      Ok((nanos, DecodedAll(pairs), rest))
  {
    var ts := Envelope(nanos, pairs) + rest;
    assert ts[2..] == PairTokens(pairs) + rest;
    ExperienceListRoundTrip(pairs, rest);
    ReadRecordParts(ts, nanos, |pairs|, DecodedAll(pairs), rest);
  }

  /** A record is a long, a non-negative count and that many experiments. */
  lemma ReadRecordParts(ts: seq<Token>, nanos: int, n: nat, images: seq<ExperienceImage>, rest: seq<Token>)
    requires |ts| >= 2 && ts[0] == LongT(nanos) && ts[1] == IntT(n)
    requires ReadExperienceList(ts[2..], n) == Ok((images, rest))
    ensures ReadRecord(ts) == Ok((nanos, images, rest))
  {
    assert ts[1..][1..] == ts[2..];
  }

  lemma ExperienceRoundTrip(pair: (Token, Token), rest: seq<Token>)
    requires Decodable(pair)
    ensures ReadExperience([pair.0, pair.1] + rest) == Ok((Decoded(pair), rest))
  {
    var ts := [pair.0, pair.1] + rest;
    assert ts[1..][1..] == rest;
  }

  lemma {:induction false} ExperienceListRoundTrip(pairs: seq<(Token, Token)>, rest: seq<Token>)
    requires AllDecodable(pairs)
    ensures ReadExperienceList(PairTokens(pairs) + rest, |pairs|) ==
      Ok((DecodedAll(pairs), rest))
  {
    if pairs != [] {
      var ts := PairTokens(pairs) + rest;
      var tail := PairTokens(pairs[1..]) + rest;
      AllDecodableCons(pairs);
      assert PairTokens(pairs) == [pairs[0].0, pairs[0].1] + PairTokens(pairs[1..]);
      Arith.AppendAssociates([pairs[0].0, pairs[0].1], PairTokens(pairs[1..]), rest);
      ExperienceRoundTrip(pairs[0], tail);
      ExperienceListRoundTrip(pairs[1..], rest);
      ReadManyCons(ReadExperience, ts, |pairs|, Decoded(pairs[0]), tail, DecodedAll(pairs[1..]), rest);
    } else {
      assert PairTokens(pairs) + rest == rest;
    }
  }

  /** Experiment parameters missing a part, which their report refuses. */
  predicate Incomplete(p: ExperimentParameters)
    reads p
  {
    p.trainingParameters == null || p.netParameters == null
  }

  /** One experiment's two reports: the parameters', which has both parts,
      and the training result's. */
  ghost predicate EntryReported(e: (ExperimentParameters, Training.TrainingResult), entry: (seq<string>, seq<string>),
    renderSizes: seq<int> -> string, render: real -> string, resultReport: Training.TrainingResult -> seq<string>)
    reads e.0, NetParts(e.0.netParameters), TrainingParts(e.0.trainingParameters)
  {
    !Incomplete(e.0) && entry == (e.0.Report(renderSizes, render).value, resultReport(e.1))
  }

  /** The two reports of one experiment, or None when its parameters'
      report throws. */
  function ReportEntry(e: (ExperimentParameters, Training.TrainingResult), renderSizes: seq<int> -> string,
    render: real -> string, resultReport: Training.TrainingResult -> seq<string>)
    : (entry: Option<(seq<string>, seq<string>)>)
    reads e.0, NetParts(e.0.netParameters), TrainingParts(e.0.trainingParameters)
    ensures entry.None? <==> Incomplete(e.0)
    ensures entry.Some? ==> EntryReported(e, entry.value, renderSizes, render, resultReport)
  {
    match e.0.Report(renderSizes, render)
    case Err(_) => None
    case Ok(lines) => Some((lines, resultReport(e.1)))
  }

  /** Appending a pair appends its two tokens. */
  lemma {:induction false} PairTokensSnoc(pairs: seq<(Token, Token)>, pair: (Token, Token))
    ensures PairTokens(pairs + [pair]) == PairTokens(pairs) + [pair.0, pair.1]
  {
    if pairs != [] {
      assert (pairs + [pair])[1..] == pairs[1..] + [pair];
      PairTokensSnoc(pairs[1..], pair);
    } else {
      assert PairTokens([pair]) == [pair.0, pair.1] + PairTokens([]);
    }
  }

  /** The token `writeObject(parameters)` writes for experiment parameters. */
  function ParametersObjectToken(p: ExperimentParameters): (t: Token)
    reads p, NetParts(p.netParameters), TrainingParts(p.trainingParameters)
  {
    ObjectT(ExperimentParametersClass, [NetParametersToken(p.netParameters), TrainingParametersToken(p.trainingParameters)])
  }

  /** The objects a training result and its best net reach. */
  ghost function ResultFrame(t: Training.TrainingResult): set<object>
    reads t, t.bestNet, if t.bestNet != null then {t.bestNet.activations} else {}
  {
    {t} + if t.bestNet == null then {} else
      {t.bestNet, t.bestNet.activations} + set k | 0 <= k < t.bestNet.activations.Length :: t.bestNet.activations[k]
  }

  /** A training result whose best net, if any, can be written. */
  ghost predicate NetReady(t: Training.TrainingResult)
    reads ResultFrame(t)
  {
    t.bestNet != null ==> t.bestNet.Valid()
  }

  /** One experiment as written: the parameters' object token, then the
      result's, which reads back as the parameters' parts and the result's
      fields. */
  ghost predicate WrittenAs(e: (ExperimentParameters, Training.TrainingResult), pair: (Token, Token))
    reads e.0, NetParts(e.0.netParameters), TrainingParts(e.0.trainingParameters), ResultFrame(e.1)
  {
    NetReady(e.1) && e.1.duration.Some? &&
    pair == (ParametersObjectToken(e.0), ResultObjectToken(e.1)) &&
    Decodable(pair) &&
    Decoded(pair) == ExperienceImage(NetImageOf(e.0.netParameters), TrainingImageOf(e.0.trainingParameters),
      e.1.Image(e.1.NetToken()))
  }

  /** A training result read back from its fields: the lists, counts and
      reason as read, and the best net null or made of the matrices read. */
  ghost predicate ResultRead(t: Training.TrainingResult, img: Training.ResultImage)
    reads t, t.bestNet
  {
    t.duration == Some(img.durationNanos) && t.epochCount == img.epochCount && t.stopReason == img.stopReason &&
    t.trainingErrors == img.trainingErrors && t.testingErrors == img.testingErrors &&
    t.testingPercents == img.testingPercents &&
    (t.bestNet == null <==> img.bestNet == NullT) &&
    (t.bestNet != null ==>
      (img.bestNet.ObjectT? && Nets.ReadNet(img.bestNet.fields).Ok? &&
       t.bestNet.weights == Nets.ReadNet(img.bestNet.fields).value.0 &&
       t.bestNet.biases == Nets.ReadNet(img.bestNet.fields).value.1))
  }

  /** An experiment read back: parameters without a sample service, with the
      parts read, and a training result with the fields read. */
  ghost function ExperienceFrame(e: (ExperimentParameters, Training.TrainingResult)): set<object?>
    reads e.0, e.0.netParameters, e.0.trainingParameters, e.1
  {
    {e.0} + NetParts(e.0.netParameters) + TrainingParts(e.0.trainingParameters) + {e.1, e.1.bestNet}
  }

  /** An experiment's objects are parameters, nets, arrays and schedules,
      never a series of experiments. */
  lemma ExperienceFrameExcludes(r: ExperimentResult, e: (ExperimentParameters, Training.TrainingResult))
    ensures r !in ExperienceFrame(e)
  {
    assert r !in NetParts(e.0.netParameters);
    assert r !in TrainingParts(e.0.trainingParameters);
  }

  ghost predicate ExperienceRead(e: (ExperimentParameters, Training.TrainingResult), img: ExperienceImage)
    reads ExperienceFrame(e)
  {
    e.0.sampleService == null && NetRead(e.0.netParameters, img.net) &&
    TrainingRead(e.0.trainingParameters, img.training) && ResultRead(e.1, img.result)
  }

  /** Whatever experiment parameters write reads back as their two parts. */
  lemma ParametersObjectDecodes(p: ExperimentParameters)
    ensures DecodeExperimentParameters(ParametersObjectToken(p)) ==
      Ok(Some((NetImageOf(p.netParameters), TrainingImageOf(p.trainingParameters))))
  {
    ExperimentParametersRoundTrip(p.netParameters, p.trainingParameters, []);
    assert [NetParametersToken(p.netParameters), TrainingParametersToken(p.trainingParameters)] + [] ==
      ParametersObjectToken(p).fields;
  }

  /** Whatever a training result writes reads back as its fields. */
  lemma ResultObjectDecodes(img: Training.ResultImage)
    requires Training.NetCheck(img.bestNet) == None
    ensures DecodeTrainingResult(ObjectT(TrainingResultClass, Training.ResultTokens(img))) == Ok(Some(img))
  {
    Training.ResultRoundTrip(img, []);
    assert Training.ResultTokens(img) + [] == Training.ResultTokens(img);
  }

  /** The token `writeObject(result)` writes: the fields its `writeExternal`
      writes. */
  function ResultObjectToken(t: Training.TrainingResult): Token
    requires NetReady(t) && t.duration.Some?
    reads ResultFrame(t)
  {
    ObjectT(TrainingResultClass, Training.ResultTokens(t.Image(t.NetToken())))
  }

  /** One pass of the write loop: `writeObject` of the parameters, then of
      the result, which throws when the result has no duration. */
  function WrittenPair(e: (ExperimentParameters, Training.TrainingResult)): (pair: Option<(Token, Token)>)
    requires NetReady(e.1)
    reads e.0, NetParts(e.0.netParameters), TrainingParts(e.0.trainingParameters), ResultFrame(e.1)
    ensures pair.None? <==> e.1.duration.None?
    ensures pair.Some? ==> WrittenAs(e, pair.value)
  {
    if e.1.duration.None? then None
    else
      ParametersObjectDecodes(e.0);
      e.1.NetTokenChecks();
      ResultObjectDecodes(e.1.Image(e.1.NetToken()));
      Some((ParametersObjectToken(e.0), ResultObjectToken(e.1)))
  }

  /** The loop of `getReport` over the experiments in key order; None when
      one of them has parameters without a part. */
  method ReportExperiences(m: map<int, (ExperimentParameters, Training.TrainingResult)>, parts: (int, int, int),
    renderSizes: seq<int> -> string, render: real -> string, resultReport: Training.TrainingResult -> seq<string>)
    returns (lines: Option<seq<string>>, ghost entries: seq<(seq<string>, seq<string>)>)
    requires Consecutive(m)
    ensures lines.None? <==> exists k :: k in m && Incomplete(m[k].0)
    ensures lines.Some? ==> |entries| == |m| && lines.value == ResultReport(parts, entries)
    ensures lines.Some? ==> forall k :: 0 <= k < |entries| ==> EntryReported(m[k], entries[k], renderSizes, render, resultReport)
  {
    entries := [];
    var out := ResultReport(parts, []);
    var n := |m|;
    for i := 0 to n
      invariant |entries| == i
      invariant out == ResultReport(parts, entries)
      invariant forall k :: 0 <= k < i ==> EntryReported(m[k], entries[k], renderSizes, render, resultReport)
    {
      assert i in m;
      var entry := ReportEntry(m[i], renderSizes, render, resultReport);
      if entry.None? {
        assert i in m && Incomplete(m[i].0);
        return None, entries;
      }
      ResultReportSnoc(parts, entries, entry.value);
      out := out + EntryLines(i, entry.value.0, entry.value.1);
      ghost var before := entries;
      entries := entries + [entry.value];
      forall k | 0 <= k < i + 1
        ensures EntryReported(m[k], entries[k], renderSizes, render, resultReport)
      {
        if k < i {
          assert entries[k] == before[k];
        }
      }
    }
    assert !exists k :: k in m && Incomplete(m[k].0) by {
      forall k | k in m ensures !Incomplete(m[k].0) {
        assert 0 <= k < n;
        assert EntryReported(m[k], entries[k], renderSizes, render, resultReport);
      }
    }
    lines := Some(out);
  }

  /** The loop of `writeExternal` over the experiments in key order; None
      when one of them throws. */
  method WriteExperiences(m: map<int, (ExperimentParameters, Training.TrainingResult)>)
    returns (r: Option<seq<Token>>, ghost pairs: seq<(Token, Token)>)
    requires Consecutive(m)
    requires forall k :: k in m ==> NetReady(m[k].1)
    ensures r.None? <==> exists k :: k in m && m[k].1.duration.None?
    ensures r.Some? ==> |pairs| == |m| && r.value == PairTokens(pairs)
    ensures r.Some? ==> forall k :: 0 <= k < |pairs| ==> WrittenAs(m[k], pairs[k])
  {
    pairs := [];
    var out := [];
    for i := 0 to |m|
      invariant |pairs| == i && out == PairTokens(pairs)
      invariant forall k :: 0 <= k < i ==> WrittenAs(m[k], pairs[k])
    {
      assert i in m;
      var pair := WrittenPair(m[i]);
      if pair.None? {
        return None, pairs;
      }
      PairTokensSnoc(pairs, pair.value);
      out := out + [pair.value.0, pair.value.1];
      WrittenSnoc(m, pairs, pair.value, i);
      pairs := pairs + [pair.value];
    }
    WrittenAll(m, pairs);
    r := Some(out);
  }

  /** One more experiment written extends the pairs written so far. */
  lemma WrittenSnoc(m: map<int, (ExperimentParameters, Training.TrainingResult)>,
                    pairs: seq<(Token, Token)>, pair: (Token, Token), i: nat)
    requires Consecutive(m) && i < |m| && |pairs| == i
    requires forall k :: 0 <= k < i ==> WrittenAs(m[k], pairs[k])
    requires WrittenAs(m[i], pair)
    ensures forall k :: 0 <= k < i + 1 ==> WrittenAs(m[k], (pairs + [pair])[k])
  {
    forall k | 0 <= k < i + 1
      ensures WrittenAs(m[k], (pairs + [pair])[k])
    {
      if k < i {
        assert (pairs + [pair])[k] == pairs[k];
      }
    }
  }

  /** Once every experiment is written, none of them lacks a duration. */
  lemma WrittenAll(m: map<int, (ExperimentParameters, Training.TrainingResult)>, pairs: seq<(Token, Token)>)
    requires Consecutive(m) && |pairs| == |m|
    requires forall k :: 0 <= k < |m| ==> WrittenAs(m[k], pairs[k])
    ensures !exists k :: k in m && m[k].1.duration.None?
  {
    forall k | k in m
      ensures m[k].1.duration.Some?
    {
      assert WrittenAs(m[k], pairs[k]);
    }
  }

  /** Reading one experiment takes its two object tokens. */
  lemma ExperienceAt(ts: seq<Token>)
    requires ReadExperience(ts).Ok?
    ensures |ts| >= 2 && Decodable((ts[0], ts[1]))
    ensures ReadExperience(ts) == Ok((Decoded((ts[0], ts[1])), ts[2..]))
  {
  }

  /** Reading n values is reading the first, then n - 1 more. */
  lemma ReadManyCons<T>(read: seq<Token> -> Result<(T, seq<Token>)>, ts: seq<Token>, n: nat,
    first: T, r1: seq<Token>, more: seq<T>, r2: seq<Token>)
    requires n > 0 && read(ts) == Ok((first, r1)) && ReadMany(read, r1, n - 1) == Ok((more, r2))
    ensures ReadMany(read, ts, n) == Ok(([first] + more, r2))
  {
  }

  /** A reader that always takes two tokens reads the k-th of n values from
      token 2k onwards. */
  lemma {:induction false} ReadManyAt<T>(read: seq<Token> -> Result<(T, seq<Token>)>, ts: seq<Token>, n: nat)
    requires forall u :: read(u).Ok? ==> |u| >= 2 && read(u).value.1 == u[2..]
    requires ReadMany(read, ts, n).Ok?
    ensures |ts| >= 2 * n && ReadMany(read, ts, n).value.1 == ts[2 * n..]
    ensures |ReadMany(read, ts, n).value.0| == n
    ensures forall k :: 0 <= k < n ==>
      read(ts[2 * k..]).Ok? && read(ts[2 * k..]).value.0 == ReadMany(read, ts, n).value.0[k]
  {
    if n > 0 {
      var tail := ts[2..];
      var first := read(ts).value.0;
      ReadManyAt(read, tail, n - 1);
      var more := ReadMany(read, tail, n - 1).value.0;
      assert ReadMany(read, ts, n).value.0 == [first] + more;
      forall k | 0 <= k < n
        ensures read(ts[2 * k..]).Ok? && read(ts[2 * k..]).value.0 == ([first] + more)[k]
      {
        if k > 0 {
          assert ts[2 * k..] == tail[2 * (k - 1)..];
        }
      }
    }
  }

  /** Reading n experiments takes two tokens for each: the k-th is read from
      tokens 2k and 2k + 1. */
  lemma ExperienceListAt(ts: seq<Token>, n: nat)
    requires ReadExperienceList(ts, n).Ok?
    ensures |ts| >= 2 * n && ReadExperienceList(ts, n).value.1 == ts[2 * n..]
    ensures |ReadExperienceList(ts, n).value.0| == n
    ensures forall k :: 0 <= k < n ==>
      Decodable((ts[2 * k], ts[2 * k + 1])) && Decoded((ts[2 * k], ts[2 * k + 1])) == ReadExperienceList(ts, n).value.0[k]
  {
    forall u | ReadExperience(u).Ok?
      ensures |u| >= 2 && ReadExperience(u).value.1 == u[2..]
    {
      ExperienceAt(u);
    }
    ReadManyAt(ReadExperience, ts, n);
    forall k | 0 <= k < n
      ensures Decodable((ts[2 * k], ts[2 * k + 1])) && Decoded((ts[2 * k], ts[2 * k + 1])) == ReadExperienceList(ts, n).value.0[k]
    {
      ExperienceAt(ts[2 * k..]);
    }
  }

  /**
   * One pass of the read loop once the tokens are known to read back:
   * `(ExperimentParameters) in.readObject()` and `(TrainingResult)
   * in.readObject()` make new objects whose `readExternal` reads their fields.
   */
  method ReadExperienceObjects(pair: (Token, Token), ghost image: ExperienceImage,
    f: (real, real) -> real, df: (real, real) -> real)
    returns (e: (ExperimentParameters, Training.TrainingResult))
    requires Decodable(pair) && Decoded(pair) == image
    ensures fresh(e.0) && fresh(e.1) && allocated(ExperienceFrame(e)) && ExperienceRead(e, image)
  {
    var t := new Training.TrainingResult();
    var left := t.ReadExternal(pair.1.fields, f, df);
    assert left.Ok? && ResultRead(t, image.result);
    var p := ReadExperimentParametersObject(pair.0.fields, f, df);
    assert p.Ok?;
    e := (p.value.0, t);
  }

  /** One pass of the read loop: the objects of one more experiment, after
      those read before, which it leaves as they were. */
  method ReadNextExperience(read: seq<(ExperimentParameters, Training.TrainingResult)>, ghost images: seq<ExperienceImage>,
    pair: (Token, Token), f: (real, real) -> real, df: (real, real) -> real)
    returns (more: seq<(ExperimentParameters, Training.TrainingResult)>)
    requires |read| < |images| && Decodable(pair) && Decoded(pair) == images[|read|]
    requires forall k :: 0 <= k < |read| ==> allocated(ExperienceFrame(read[k])) && ExperienceRead(read[k], images[k])
    ensures |more| == |read| + 1 && more[..|read|] == read && fresh(more[|read|].0) && fresh(more[|read|].1)
    ensures forall k :: 0 <= k < |more| ==> allocated(ExperienceFrame(more[k])) && ExperienceRead(more[k], images[k])
  {
    var e := ReadExperienceObjects(pair, images[|read|], f, df);
    more := read + [e];
    forall k | 0 <= k < |more|
      ensures allocated(ExperienceFrame(more[k])) && ExperienceRead(more[k], images[k])
    {
      if k < |read| {
        assert more[k] == read[k];
      }
    }
  }

  /** The read loop once the tokens are known to read back: one new pair of
      objects for each of the first n token pairs. */
  method ReadExperienceObjectList(ts: seq<Token>, n: nat, ghost images: seq<ExperienceImage>,
    f: (real, real) -> real, df: (real, real) -> real)
    returns (read: seq<(ExperimentParameters, Training.TrainingResult)>)
    requires |ts| >= 2 * n && |images| == n
    requires forall k :: 0 <= k < n ==>
      Decodable((ts[2 * k], ts[2 * k + 1])) && Decoded((ts[2 * k], ts[2 * k + 1])) == images[k]
    ensures |read| == n
    ensures forall k :: 0 <= k < n ==> fresh(read[k].0) && fresh(read[k].1) && ExperienceRead(read[k], images[k])
  {
    read := [];
    for i := 0 to n
      invariant |read| == i
      invariant forall k :: 0 <= k < i ==> fresh(read[k].0) && fresh(read[k].1)
      invariant forall k :: 0 <= k < i ==> allocated(ExperienceFrame(read[k])) && ExperienceRead(read[k], images[k])
    {
      ghost var before := read;
      read := ReadNextExperience(read, images, (ts[2 * i], ts[2 * i + 1]), f, df);
      forall k | 0 <= k < i + 1
        ensures fresh(read[k].0) && fresh(read[k].1)
      {
        if k < i {
          assert read[k] == before[k];
        }
      }
    }
  }

  /** The record of a series of experiments: each experiment's parameters and
      training result under its number (0, 1, ... in the order they were
      added), and the duration of the whole series. */
  class ExperimentResult {
    var experiences: map<int, (ExperimentParameters, Training.TrainingResult)>
    /** The duration in nanoseconds; null until it is set or read. */
    var duration: Option<int>

    /** The keys are 0, 1, ..., one per experiment: `addExperience` puts at
        `size()` and `readExternal` at 0 to n - 1. */
    ghost predicate Valid()
      reads this
    {
      Consecutive(experiences)
    }

    /** The no-argument constructor: no experiments and no duration. */
    constructor ()
      ensures Valid() && experiences == map[] && duration == None
    {
      experiences := map[];
      duration := None;
    }

    /** `setDuration`. */
    method SetDuration(nanos: Option<int>)
      modifies this
      ensures duration == nanos && experiences == old(experiences)
    {
      duration := nanos;
    }

    /**
     * `addExperience`: the pair is put under the next number; `Map.entry`
     * refuses a null part with a NullPointerException before anything is put.
     */
    method AddExperience(parameters: ExperimentParameters?, result: Training.TrainingResult?)
      returns (thrown: Option<Error>)
      requires Valid()
      modifies this
      ensures Valid() && duration == old(duration)
      ensures thrown.Some? <==> parameters == null || result == null
      ensures thrown.Some? ==> thrown == Some(NullPointer) && experiences == old(experiences)
      ensures thrown.None? ==>
        (|experiences| == |old(experiences)| + 1 &&
         experiences == old(experiences)[|old(experiences)| := (parameters, result)])
    {
      if parameters == null || result == null {
        return Some(NullPointer);
      }
      PutNextKeepsConsecutive(experiences, (parameters, result));
      experiences := experiences[|experiences| := (parameters, result)];
      thrown := None;
    }

    /**
     * `writeExternal`: the duration in nanoseconds, the number of
     * experiments, then each experiment's parameters and result in key
     * order. A missing duration throws first; a result without a duration
     * throws when it is written. What is written reads back as the duration
     * and every experiment, in order.
     */
    method WriteExternal() returns (r: Result<seq<Token>>, ghost pairs: seq<(Token, Token)>)
      requires Valid()
      requires forall k :: k in experiences ==> NetReady(experiences[k].1)
      ensures r.Err? <==> duration.None? || exists k :: k in experiences && experiences[k].1.duration.None?
      ensures r.Err? ==> r.error == NullPointer
      ensures r.Ok? ==> |pairs| == |experiences| && r.value == Envelope(duration.value, pairs)
      ensures r.Ok? ==> forall k :: 0 <= k < |pairs| ==> WrittenAs(experiences[k], pairs[k])
      ensures r.Ok? ==> AllDecodable(pairs)
      ensures r.Ok? && |pairs| <= 0x7FFF_FFFF ==> ReadRecord(r.value) == Ok((duration.value, DecodedAll(pairs), []))
    {
      pairs := [];
      if duration.None? {
        return Err(NullPointer), pairs;
      }
      var written;
      written, pairs := WriteExperiences(experiences);
      if written.None? {
        return Err(NullPointer), pairs;
      }
      var out := [LongT(duration.value), IntT(|experiences|)] + written.value;
      r := Ok(out);
      if |pairs| <= 0x7FFF_FFFF {
        RecordRoundTrip(duration.value, pairs, []);
        assert Envelope(duration.value, pairs) + [] == out;
      }
    }

    /** The read loop of `readExternal`: `experiences.put(i, ...)` for each of
        the n experiments once their tokens are known to read back. */
    method PutExperiences(ts: seq<Token>, n: nat, ghost images: seq<ExperienceImage>,
      f: (real, real) -> real, df: (real, real) -> real)
      returns (ghost read: seq<(ExperimentParameters, Training.TrainingResult)>)
      requires Valid()
      requires |ts| >= 2 * n && |images| == n
      requires forall k :: 0 <= k < n ==>
        Decodable((ts[2 * k], ts[2 * k + 1])) && Decoded((ts[2 * k], ts[2 * k + 1])) == images[k]
      modifies this
      ensures Valid() && duration == old(duration)
      ensures |read| == n && experiences == Overlay(old(experiences), read)
      ensures forall k :: 0 <= k < n ==> fresh(read[k].0) && fresh(read[k].1) && ExperienceRead(read[k], images[k])
    {
      var built := ReadExperienceObjectList(ts, n, images, f, df);
      OverlayKeepsConsecutive(experiences, built);
      forall k | 0 <= k < n
        ensures this !in ExperienceFrame(built[k])
      {
        ExperienceFrameExcludes(this, built[k]);
      }
      experiences := Overlay(experiences, built);
      read := built;
    }

    /**
     * `readExternal`: the duration is replaced, then for each of the count's
     * experiments (none for a negative count) the two objects are read and
     * put under keys 0, 1, ..., replacing what was there. A null object
     * throws. Keys at or past the count keep their entries.
     */
    method ReadExternal(input: seq<Token>, f: (real, real) -> real, df: (real, real) -> real)
      returns (r: Result<seq<Token>>, ghost read: seq<(ExperimentParameters, Training.TrainingResult)>)
      requires Valid()
      modifies this
      ensures Valid()
      ensures r.Ok? <==> ReadRecord(input).Ok?
      ensures r.Err? ==> r.error == ReadRecord(input).error
      ensures r.Ok? ==> var (nanos, images, rest) := ReadRecord(input).value;
        r.value == rest && duration == Some(nanos) && |read| == |images| &&
        experiences == Overlay(old(experiences), read) &&
        forall k :: 0 <= k < |read| ==> fresh(read[k].0) && fresh(read[k].1) && ExperienceRead(read[k], images[k])
    {
      read := [];
      var x1 :- ReadLong(input);
      duration := Some(x1.0);
      var x2 :- ReadInt(x1.1);
      var n := if x2.0 < 0 then 0 else x2.0;
      var ts := x2.1;
      var list := ReadExperienceList(ts, n);
      if list.Err? {
        return Err(list.error), read;
      }
      ghost var images := list.value.0;
      ExperienceListAt(ts, n);
      read := PutExperiences(ts, n, images, f, df);
      r := Ok(list.value.1);
    }

    /**
     * `getReport`: the header, the duration's hours, minutes and seconds
     * parts, then each experiment in key order: its number, its parameters'
     * report and its result's report, each behind two tabs. A missing
     * duration or parameters without a part throw. `resultReport` stands for
     * a training result's report.
     */
    method Report(renderSizes: seq<int> -> string, render: real -> string,
                  resultReport: Training.TrainingResult -> seq<string>)
      returns (r: Result<seq<string>>, ghost entries: seq<(seq<string>, seq<string>)>)
      requires Valid()
      ensures r.Err? <==>
        (duration.None? || exists k :: k in experiences && Incomplete(experiences[k].0))
      ensures r.Err? ==> r.error == NullPointer
      ensures r.Ok? ==> |entries| == |experiences| && r.value == ResultReport(DurationParts(duration.value), entries)
      ensures r.Ok? ==> forall k :: 0 <= k < |entries| ==>
        EntryReported(experiences[k], entries[k], renderSizes, render, resultReport)
    {
      entries := [];
      if duration.None? {
        return Err(NullPointer), entries;
      }
      var lines;
      lines, entries := ReportExperiences(experiences, DurationParts(duration.value), renderSizes, render, resultReport);
      if lines.None? {
        return Err(NullPointer), entries;
      }
      r := Ok(lines.value);
    }
  }
}
