// Learning-rate schedules. Each schedule is an object whose factors are
// validated before they are stored. `Math.exp` is a parameter; the model only
// uses exp(0) = 1, that exp is positive where a sign is needed, and that
// exp is non-decreasing where the decay is stated.

module Rates {
  import opened Wrappers
  import opened Streams

  /** `check` of a single factor: a non-positive value is rejected by name. */
  function CheckPositive(name: string, value: real): (thrown: Option<Error>)
    ensures thrown == None <==> value > 0.0
    ensures thrown.Some? ==> thrown.value.IllegalArgument? && thrown.value.what == name
  {
    if value <= 0.0 then Some(IllegalArgument(name)) else None
  }

  /** `factors[k]` of a varargs array: reading past its end throws. */
  function Factor(factors: seq<real>, k: nat): (r: Result<real>)
    ensures r.Ok? <==> k < |factors|
    ensures r.Ok? ==> r.value == factors[k]
    ensures r.Err? ==> r.error == IndexOutOfBounds(k)
  {
    if k < |factors| then Ok(factors[k]) else Err(IndexOutOfBounds(k))
  }

  class ConstantRate {
    var constRateValue: real

    ghost predicate Valid()
      reads this
    {
      constRateValue > 0.0
    }

    /** The fields set directly: deserialization takes this path, without the check. */
    constructor Make(value: real)
      ensures constRateValue == value
      ensures Valid() <==> value > 0.0
    {
      constRateValue := value;
    }

    /** `apply(epoch)`: the same value at every epoch. */
    function Apply(epoch: int): (rate: real)
      reads this
      ensures Valid() ==> rate > 0.0
    {
      constRateValue
    }

    /** `getFactors`. */
    function GetFactors(): (factors: seq<real>)
      reads this
      ensures |factors| == 1 && factors[0] == Apply(0)
    {
      [constRateValue]
    }

    /** `setFactors(factors)`: factors[0] is read and checked before it is stored. */
    method SetFactors(factors: seq<real>) returns (thrown: Option<Error>)
      modifies this
      ensures |factors| == 0 ==> thrown == Some(IndexOutOfBounds(0))
      ensures thrown == None <==> |factors| >= 1 && factors[0] > 0.0
      ensures thrown.Some? ==> constRateValue == old(constRateValue)
      ensures thrown == None ==> GetFactors() == factors[..1] && Valid()
    {
      var first := Factor(factors, 0);
      if first.Err? {
        return Some(first.error);
      }
      thrown := CheckPositive("constRateValue", first.value);
      if thrown == None {
        constRateValue := first.value;
      }
    }

    /** `equals(o)`: another constant rate with the same value (null is not equal). */
    function Equals(o: object?): (r: bool)
      reads this, o
      ensures r <==> o == this || (o is ConstantRate && (o as ConstantRate).constRateValue == constRateValue)
    {
      if o == this then true
      else if o is ConstantRate then (o as ConstantRate).constRateValue == constRateValue
      else false
    }

    /** `hashCode`: the hash (a parameter) of the value. */
    function HashCode(hash: real -> int): int
      reads this
    {
      hash(constRateValue)
    }
  }

  /** `new ConstantRate(value)`: rejects a non-positive value. */
  method NewConstantRate(value: real) returns (r: Result<ConstantRate>)
    ensures r.Err? <==> value <= 0.0
    ensures r.Err? ==> r.error == IllegalArgument("constRateValue")
    ensures r.Ok? ==> fresh(r.value) && r.value.constRateValue == value && r.value.Valid()
  {
    var thrown := CheckPositive("constRateValue", value);
    if thrown.Some? {
      return Err(thrown.value);
    }
    var rate := new ConstantRate.Make(value);
    r := Ok(rate);
  }

  /** `Rate.getDefault`: a constant rate of 1. */
  method DefaultRate() returns (r: ConstantRate)
    ensures fresh(r) && r.Apply(0) == 1.0
  {
    r := new ConstantRate.Make(1.0);
  }

  /** A constant rate does not depend on the epoch. */
  lemma ConstantRateIsConstant(r: ConstantRate, e1: int, e2: int)
    ensures r.Apply(e1) == r.Apply(e2) == r.GetFactors()[0]
  {
  }

  /** Equal constant rates hash alike. */
  lemma ConstantEqualsConsistentWithHash(a: ConstantRate, b: ConstantRate, hash: real -> int)
    requires a.Equals(b)
    ensures a.HashCode(hash) == b.HashCode(hash)
  {
  }

  class LinearRate {
    var startRateValue: real

    ghost predicate Valid()
      reads this
    {
      startRateValue > 0.0
    }

    /** The no-argument constructor: a start value of 10. */
    constructor Default()
      ensures startRateValue == 10.0 && Valid()
    {
      startRateValue := 10.0;
    }

    constructor Make(start: real)
      ensures startRateValue == start
      ensures Valid() <==> start > 0.0
    {
      startRateValue := start;
    }

    /** `apply(epoch)` = start / (epoch + 1). */
    function Apply(epoch: nat): (rate: real)
      reads this
      ensures rate * (epoch + 1) as real == startRateValue
    {
      startRateValue / (epoch + 1) as real
    }

    function GetFactors(): (factors: seq<real>)
      reads this
      ensures |factors| == 1 && factors[0] == Apply(0)
    {
      [startRateValue]
    }

    /** `setFactors(factors)`: factors[0] is read and checked before it is stored. */
    method SetFactors(factors: seq<real>) returns (thrown: Option<Error>)
      modifies this
      ensures |factors| == 0 ==> thrown == Some(IndexOutOfBounds(0))
      ensures thrown == None <==> |factors| >= 1 && factors[0] > 0.0
      ensures thrown.Some? ==> startRateValue == old(startRateValue)
      ensures thrown == None ==> GetFactors() == factors[..1] && Valid()
    {
      var first := Factor(factors, 0);
      if first.Err? {
        return Some(first.error);
      }
      thrown := CheckPositive("startRateValue", first.value);
      if thrown == None {
        startRateValue := first.value;
      }
    }

    function Equals(o: object?): (r: bool)
      reads this, o
      ensures r <==> o == this || (o is LinearRate && (o as LinearRate).startRateValue == startRateValue)
    {
      if o == this then true
      else if o is LinearRate then (o as LinearRate).startRateValue == startRateValue
      else false
    }
  }

  /** `new LinearRate(start)`: rejects a non-positive start. */
  method NewLinearRate(start: real) returns (r: Result<LinearRate>)
    ensures r.Err? <==> start <= 0.0
    ensures r.Err? ==> r.error == IllegalArgument("startRateValue")
    ensures r.Ok? ==> fresh(r.value) && r.value.startRateValue == start && r.value.Valid()
  {
    var thrown := CheckPositive("startRateValue", start);
    if thrown.Some? {
      return Err(thrown.value);
    }
    var rate := new LinearRate.Make(start);
    r := Ok(rate);
  }

  /** A valid linear rate is positive and never grows from one epoch to the next. */
  lemma LinearRateDecays(r: LinearRate, e1: nat, e2: nat)
    requires r.Valid() && e1 <= e2
    ensures 0.0 < r.Apply(e2) <= r.Apply(e1) <= r.Apply(0) == r.startRateValue
  {
    var s := r.startRateValue;
    var d1 := (e1 + 1) as real;
    var d2 := (e2 + 1) as real;
    assert r.Apply(e1) * d1 == s && r.Apply(e2) * d2 == s;
    assert r.Apply(e2) <= r.Apply(e1) by {
      var a2 := r.Apply(e2);
      assert a2 * d2 - a2 * d1 == a2 * (d2 - d1);
      assert 0.0 <= a2 * (d2 - d1);
      assert a2 * d1 <= r.Apply(e1) * d1;
    }
    assert r.Apply(e1) <= r.Apply(0) by {
      assert r.Apply(e1) * 1.0 <= r.Apply(e1) * d1;
    }
  }

  class ExponentRate {
    var height: real
    var curve: real

    ghost predicate Valid()
      reads this
    {
      height > 0.0 && curve > 0.0
    }

    /** The no-argument constructor: height and curve both 1. */
    constructor Default()
      ensures height == 1.0 && curve == 1.0 && Valid()
    {
      height := 1.0;
      curve := 1.0;
    }

    constructor Make(height: real, curve: real)
      ensures this.height == height && this.curve == curve
      ensures Valid() <==> height > 0.0 && curve > 0.0
    {
      this.height := height;
      this.curve := curve;
    }

    /** `apply(epoch)` = height · exp(−curve · epoch), with `exp` given. */
    function Apply(epoch: int, exp: real -> real): (rate: real)
      reads this
      ensures epoch >= 0 ==> rate == ExponentOf(height, curve).At(epoch, exp)
    {
      Decayed(height, curve, epoch, exp)
    }

    function GetFactors(): (factors: seq<real>)
      reads this
      ensures factors == [height, curve]
    {
      [height, curve]
    }

    /** `setFactors(factors)`: both factors are read, then height and curve
        are checked in that order, before either field is assigned. */
    method SetFactors(factors: seq<real>) returns (thrown: Option<Error>)
      modifies this
      ensures |factors| < 2 ==> thrown == Some(IndexOutOfBounds(|factors|))
      ensures |factors| >= 2 ==> thrown == Check(factors[0], factors[1])
      ensures thrown.Some? ==> height == old(height) && curve == old(curve)
      ensures thrown == None ==> GetFactors() == factors[..2] && Valid()
    {
      var first := Factor(factors, 0);
      if first.Err? {
        return Some(first.error);
      }
      var second := Factor(factors, 1);
      if second.Err? {
        return Some(second.error);
      }
      thrown := Check(first.value, second.value);
      if thrown == None {
        height := first.value;
        curve := second.value;
      }
    }

    function Equals(o: object?): (r: bool)
      reads this, o
      ensures r <==> (o == this ||
        (o is ExponentRate && (o as ExponentRate).height == height && (o as ExponentRate).curve == curve))
    {
      if o == this then true
      else if o is ExponentRate then (o as ExponentRate).height == height && (o as ExponentRate).curve == curve
      else false
    }
  }

  /** height · exp(−curve · epoch). */
  function Decayed(height: real, curve: real, epoch: int, exp: real -> real): real
  {
    height * exp(-curve * epoch as real)
  }

  /** `check(height, curve)` of the exponent rate. */
  function Check(height: real, curve: real): (thrown: Option<Error>)
    ensures thrown == None <==> height > 0.0 && curve > 0.0
    ensures height <= 0.0 ==> thrown == Some(IllegalArgument("height"))
    ensures height > 0.0 && curve <= 0.0 ==> thrown == Some(IllegalArgument("curve"))
  {
    match CheckPositive("height", height)
    case Some(e) => Some(e)
    case None => CheckPositive("curve", curve)
  }

  /** `new ExponentRate(height, curve)`. */
  method NewExponentRate(height: real, curve: real) returns (r: Result<ExponentRate>)
    ensures r.Err? <==> Check(height, curve).Some?
    ensures r.Err? ==> Some(r.error) == Check(height, curve)
    ensures r.Ok? ==> fresh(r.value) && r.value.GetFactors() == [height, curve] && r.value.Valid()
  {
    var thrown := Check(height, curve);
    if thrown.Some? {
      return Err(thrown.value);
    }
    var rate := new ExponentRate.Make(height, curve);
    r := Ok(rate);
  }

  /** At epoch 0 the exponent rate is its height; with a positive exp it stays positive. */
  lemma ExponentRateStart(r: ExponentRate, exp: real -> real, epoch: int)
    requires r.Valid() && exp(0.0) == 1.0
    requires exp(-r.curve * epoch as real) > 0.0
    ensures r.Apply(0, exp) == r.height
    ensures r.Apply(epoch, exp) > 0.0
  {
    assert -r.curve * 0 as real == 0.0;
  }

  /** With a non-decreasing exp the exponent rate decays: a later epoch never
      gets a larger rate. */
  lemma ExponentRateDecays(r: ExponentRate, exp: real -> real, early: int, late: int)
    requires r.Valid() && early <= late
    requires forall x: real, y: real :: x <= y ==> exp(x) <= exp(y)
    ensures r.Apply(late, exp) <= r.Apply(early, exp)
  {
  }

  /** The rate a training run is given: one of the three schedules. */
  datatype Rate =
    | Constant(constant: ConstantRate)
    | Linear(linear: LinearRate)
    | Exponent(exponent: ExponentRate)
  {
    function Object(): object
    {
      match this
      case Constant(c) => c
      case Linear(l) => l
      case Exponent(e) => e
    }

    /** `rate.apply(epoch)`: what the schedule the object holds gives at that epoch. */
    function Apply(epoch: nat, exp: real -> real): (rate: real)
      reads Object()
      ensures rate == Value().At(epoch, exp)
    {
      match this
      case Constant(c) => c.Apply(epoch)
      case Linear(l) => l.Apply(epoch)
      case Exponent(e) => e.Apply(epoch, exp)
    }

    /** The class and field values of the object, as a value. */
    function Value(): (s: Schedule)
      reads Object()
      ensures Constant? <==> s.ConstantOf?
      ensures Linear? <==> s.LinearOf?
      ensures s.ConstantOf? ==> s.value == constant.constRateValue
      ensures s.LinearOf? ==> s.start == linear.startRateValue
      ensures s.ExponentOf? ==> s.height == exponent.height && s.curve == exponent.curve
    {
      match this
      case Constant(c) => ConstantOf(c.constRateValue)
      case Linear(l) => LinearOf(l.startRateValue)
      case Exponent(e) => ExponentOf(e.height, e.curve)
    }
  }

  /** What a rate object holds: its class and its factors. */
  datatype Schedule =
    | ConstantOf(value: real)
    | LinearOf(start: real)
    | ExponentOf(height: real, curve: real)
  {
    /** The rate the schedule gives at an epoch, `exp` standing for `Math.exp`. */
    function At(epoch: nat, exp: real -> real): real
    {
      match this
      case ConstantOf(v) => v
      case LinearOf(v) => v / (epoch + 1) as real
      case ExponentOf(h, c) => Decayed(h, c, epoch, exp)
    }
  }

  const ConstantRateClass: string := "com.synapse.core.rates.ConstantRate"
  const LinearRateClass: string := "com.synapse.core.rates.LinearRate"
  const ExponentRateClass: string := "com.synapse.core.rates.ExponentRate"

  /** `writeObject(rate)`: the rates are plain serializable objects, so the
      stream holds the class and the double fields, sorted by field name
      (curve before height). */
  function ScheduleToken(s: Schedule): (t: Token)
    ensures t.ObjectT?
  {
    match s
    case ConstantOf(v) => ObjectT(ConstantRateClass, [DoubleT(v)])
    case LinearOf(v) => ObjectT(LinearRateClass, [DoubleT(v)])
    case ExponentOf(h, c) => ObjectT(ExponentRateClass, [DoubleT(c), DoubleT(h)])
  }

  /** The token of a rate field that may be null. */
  function RateToken(rate: Option<Rate>): (t: Token)
    reads if rate.Some? then {rate.value.Object()} else {}
    ensures rate.None? <==> t == NullT
  {
    match rate
    case None => NullT
    case Some(r) => ScheduleToken(r.Value())
  }

  /** `(Rate) in.readObject()`: null stays null, an object of another class
      fails the cast, and the fields are restored without the positivity check. */
  function DecodeRate(t: Token): (r: Result<Option<Schedule>>)
    ensures t == NullT <==> r == Ok(None)
    ensures t.ObjectT? && t.kind !in {ConstantRateClass, LinearRateClass, ExponentRateClass} ==>
      r == Err(ClassCast(t.kind))
  {
    match t
    case NullT => Ok(None)
    case ObjectT(kind, fs) =>
      if kind == ConstantRateClass then
        if |fs| == 1 && fs[0].DoubleT? then Ok(Some(ConstantOf(fs[0].d))) else Err(StreamCorrupted)
      else if kind == LinearRateClass then
        if |fs| == 1 && fs[0].DoubleT? then Ok(Some(LinearOf(fs[0].d))) else Err(StreamCorrupted)
      else if kind == ExponentRateClass then
        if |fs| == 2 && fs[0].DoubleT? && fs[1].DoubleT? then Ok(Some(ExponentOf(fs[1].d, fs[0].d)))
        else Err(StreamCorrupted)
      else Err(ClassCast(kind))
    case _ => Err(StreamCorrupted)
  }

  /** Decoding inverts writing exactly: a token decodes to a schedule if and
      only if it is the token of that schedule. */
  lemma DecodeRateExact(t: Token, s: Schedule)
    ensures DecodeRate(t) == Ok(Some(s)) <==> t == ScheduleToken(s)
  {
    if DecodeRate(t) == Ok(Some(s)) {
      var fs := t.fields;
      if s.ExponentOf? {
        assert fs == [DoubleT(s.curve), DoubleT(s.height)];
      } else {
        assert fs == [fs[0]];
      }
    }
  }

  /** Rebuilds the object a decoded token describes. */
  method ReadRate(t: Token) returns (r: Result<Option<Rate>>)
    ensures r.Ok? <==> DecodeRate(t).Ok?
    ensures r.Err? ==> r.error == DecodeRate(t).error
    ensures r.Ok? ==> (r.value.None? <==> DecodeRate(t).value.None?)
    ensures r.Ok? && r.value.Some? ==>
      fresh(r.value.value.Object()) && Some(r.value.value.Value()) == DecodeRate(t).value
  {
    var decoded :- DecodeRate(t);
    if decoded.None? {
      return Ok(None);
    }
    var schedule := decoded.value;
    if schedule.ConstantOf? {
      var c := new ConstantRate.Make(schedule.value);
      r := Ok(Some(Constant(c)));
    } else if schedule.LinearOf? {
      var l := new LinearRate.Make(schedule.start);
      r := Ok(Some(Linear(l)));
    } else {
      var e := new ExponentRate.Make(schedule.height, schedule.curve);
      r := Ok(Some(Exponent(e)));
    }
  }

  /** The generated `toString` of a rate: the class's simple name and its fields
      in declaration order, each double rendered by `render`. */
  function ScheduleText(s: Schedule, render: real -> string): (text: string)
    ensures |text| > 0 && text[|text| - 1] == ')'
    ensures s.ConstantOf? <==> |text| > 0 && text[0] == 'C'
    ensures s.LinearOf? <==> |text| > 0 && text[0] == 'L'
    ensures s.ExponentOf? <==> |text| > 0 && text[0] == 'E'
  {
    match s
    case ConstantOf(v) => "ConstantRate(constRateValue=" + render(v) + ")"
    case LinearOf(v) => "LinearRate(startRateValue=" + render(v) + ")"
    case ExponentOf(h, c) => "ExponentRate(height=" + render(h) + ", curve=" + render(c) + ")"
  }

  /** The text of a rate names its class: rates of different classes are
      never rendered alike, whatever the rendering of their fields. */
  lemma ScheduleTextShowsClass(s: Schedule, t: Schedule, render: real -> string)
    requires ScheduleText(s, render) == ScheduleText(t, render)
    ensures s.ConstantOf? == t.ConstantOf? && s.LinearOf? == t.LinearOf? && s.ExponentOf? == t.ExponentOf?
  {
  }
}
