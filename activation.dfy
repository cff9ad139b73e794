// Activation functions. Each activation object stores a scale and two
// functions, the activator f and the deactivator f' (its derivative). In the
// source these functions are lambdas that read the `scale` field of the
// object that created them. The model makes that capture explicit: `owner`
// is the object whose scale the two functions read. Transcendental formulas
// (logistic, tanh, atan, sin) are not computed here. Their functions are
// parameters `(scale, x) -> value`. The rectifier is written out exactly.

module Activations {
  import opened Wrappers
  import opened Streams

  /** The concrete activation classes. */
  datatype Kind = Atan | Log | Logistic | ReLU | Sin | Tanh

  /** `getName` of each class. */
  function Name(kind: Kind): (name: string)
    ensures kind == ReLU <==> name == "relu"
    ensures kind == Log || kind == Logistic <==> name == "logistic"
    ensures name != DefaultName
  {
    match kind
    case Atan => "atan"
    case Log => "logistic"
    case Logistic => "logistic"
    case ReLU => "relu"
    case Sin => "sin"
    case Tanh => "tanh"
  }

  /** `getName` of an activation class that does not override it. */
  const DefaultName: string := "activation"

  /** `getClass().getName()`, which `hashCode` feeds to the hash. */
  function ClassName(kind: Kind): (name: string)
    ensures |name| > 28 && name[..28] == "com.synapse.core.activation."
  {
    "com.synapse.core.activation." +
    match kind
    case Atan => "ActivationAtan"
    case Log => "ActivationLog"
    case Logistic => "ActivationLogistic"
    case ReLU => "ActivationReLU"
    case Sin => "ActivationSin"
    case Tanh => "ActivationTanh"
  }

  /** Distinct classes have distinct names, so `hashCode` can tell them apart. */
  lemma ClassNameInjective(k1: Kind, k2: Kind)
    ensures ClassName(k1) == ClassName(k2) <==> k1 == k2
  {
    if k1 != k2 {
      assert ClassName(k1)[28..] != ClassName(k2)[28..];
    }
  }

  /** The activation class a class name denotes, if any. */
  function KindOf(name: string): (k: Option<Kind>)
    ensures k.Some? ==> ClassName(k.value) == name
  {
    if name == ClassName(Atan) then Some(Atan)
    else if name == ClassName(Log) then Some(Log)
    else if name == ClassName(Logistic) then Some(Logistic)
    else if name == ClassName(ReLU) then Some(ReLU)
    else if name == ClassName(Sin) then Some(Sin)
    else if name == ClassName(Tanh) then Some(Tanh)
    else None
  }

  /** Every class name is recognised as its own class. */
  lemma KindOfClassName(kind: Kind)
    ensures KindOf(ClassName(kind)) == Some(kind)
  {
    ClassNameInjective(kind, Atan);
    ClassNameInjective(kind, Log);
    ClassNameInjective(kind, Logistic);
    ClassNameInjective(kind, ReLU);
    ClassNameInjective(kind, Sin);
  }

  /** A token `(Activation) readObject()` accepts without a cast failure and
      without leaving a null behind. */
  predicate IsActivationToken(t: Token)
  {
    t.ObjectT? && KindOf(t.kind).Some?
  }

  /** Class of a serialized lambda; what it captures is not modelled. */
  const LambdaClass: string := "java.lang.invoke.SerializedLambda"

  /** The pair of functions an activation holds. */
  datatype Formula =
    | Rectifier
    | Curve(f: (real, real) -> real, df: (real, real) -> real)

  /** The rectifier `x > 0 ? scale * x : 0`. */
  function Relu(scale: real, x: real): real
  {
    if x > 0.0 then scale * x else 0.0
  }

  /** Its derivative `x > 0 ? scale : 0`. */
  function ReluSlope(scale: real, x: real): real
  {
    if x > 0.0 then scale else 0.0
  }

  /** With a non-negative scale the rectifier is never negative and never decreases. */
  lemma ReluShape(scale: real, x: real, y: real)
    requires 0.0 <= scale
    ensures 0.0 <= Relu(scale, x)
    ensures x <= y ==> Relu(scale, x) <= Relu(scale, y)
    ensures 0.0 <= ReluSlope(scale, x) <= scale
  {
    if x <= y && x > 0.0 {
      assert scale * y - scale * x == scale * (y - x);
      assert 0.0 <= scale * (y - x);
    }
  }

  class Activation {
    var kind: Kind
    var scale: real
    var formula: Formula
    /** The object whose scale the stored functions read. */
    var owner: Activation?

    /** A rectifier activation owns its functions exactly when it is a ReLU. */
    ghost predicate Valid()
      reads this
    {
      owner != null && (kind == ReLU <==> formula == Rectifier)
    }

    /** `new ActivationReLU(k)`: the functions read this object's scale. */
    constructor ReLUWith(k: real)
      ensures kind == ReLU && scale == k && formula == Rectifier && owner == this
      ensures Valid()
    {
      kind := ReLU;
      scale := k;
      formula := Rectifier;
      new;
      owner := this;
    }

    /** A transcendental activation with scale k and the given formula pair. */
    constructor WithCurve(kind: Kind, k: real, f: (real, real) -> real, df: (real, real) -> real)
      requires kind != ReLU
      ensures this.kind == kind && scale == k && formula == Curve(f, df) && owner == this
      ensures Valid()
    {
      this.kind := kind;
      scale := k;
      formula := Curve(f, df);
      new;
      owner := this;
    }

    /**
     * An activation read back from a stream: the no-argument constructor
     * leaves the scale at 0.0, and the two functions come from the stream.
     * The written lambdas capture the activation itself, so the restored
     * functions call themselves without end; that divergence is not
     * modelled. A restored rectifier computes as a rectifier, and the
     * functions of any other class are the parameters f and df.
     */
    constructor Restored(kind: Kind, f: (real, real) -> real, df: (real, real) -> real)
      ensures this.kind == kind && scale == 0.0 && owner == this && Valid()
      ensures kind == ReLU ==> formula == Rectifier
      ensures kind != ReLU ==> formula == Curve(f, df)
    {
      this.kind := kind;
      scale := 0.0;
      formula := if kind == ReLU then Rectifier else Curve(f, df);
      new;
      owner := this;
    }

    /** `getActivator().apply(x)`: the stored function, reading the owner's scale. */
    function Activate(x: real): (y: real)
      requires owner != null
      reads this, owner
      ensures formula == Rectifier ==> y == Relu(owner.scale, x)
      ensures formula.Curve? ==> y == formula.f(owner.scale, x)
    {
      match formula
      case Rectifier => Relu(owner.scale, x)
      case Curve(f, _) => f(owner.scale, x)
    }

    /** `getDeactivator().apply(x)`. */
    function Deactivate(x: real): (y: real)
      requires owner != null
      reads this, owner
      ensures formula == Rectifier ==> y == ReluSlope(owner.scale, x)
      ensures formula.Curve? ==> y == formula.df(owner.scale, x)
    {
      match formula
      case Rectifier => ReluSlope(owner.scale, x)
      case Curve(_, df) => df(owner.scale, x)
    }

    /** The activator as a function value, fixed at the owner's current scale. */
    function Activator(): (f: real -> real)
      requires owner != null
      reads this, owner
      ensures forall x: real :: f(x) == Activate(x)
    {
      var s := owner.scale;
      match formula
      case Rectifier => x => Relu(s, x)
      case Curve(g, _) => x => g(s, x)
    }

    /** The deactivator as a function value, fixed at the owner's current scale. */
    function Deactivator(): (f: real -> real)
      requires owner != null
      reads this, owner
      ensures forall x: real :: f(x) == Deactivate(x)
    {
      var s := owner.scale;
      match formula
      case Rectifier => x => ReluSlope(s, x)
      case Curve(_, dg) => x => dg(s, x)
    }

    /** `writeExternal` inside `writeObject`: the class, then the two functions as
        serialized lambdas. The scale itself is not written. */
    function Externalized(): (t: Token)
      reads this
      ensures t.ObjectT? && t.kind == ClassName(kind) && |t.fields| == 2
      ensures IsActivationToken(t) && KindOf(t.kind) == Some(kind)
    {
      KindOfClassName(kind);
      ObjectT(ClassName(kind), [ObjectT(LambdaClass, []), ObjectT(LambdaClass, [])])
    }

    /** `setScale`: only the scale changes; functions owned by this object now use it. */
    method SetScale(s: real)
      modifies this
      ensures scale == s
      ensures kind == old(kind) && formula == old(formula) && owner == old(owner)
      ensures owner == this && formula == Rectifier ==>
        forall x: real :: Activate(x) == Relu(s, x) && Deactivate(x) == ReluSlope(s, x)
    {
      scale := s;
    }

    /** `getName`. */
    function GetName(): (name: string)
      reads this
      ensures name == Name(kind)
    {
      Name(kind)
    }

    /** `clone`: a fresh object with the same class and scale whose functions
        are shared with this one, so they keep reading the original's scale. */
    method Clone() returns (c: Activation)
      ensures fresh(c)
      ensures c.kind == kind && c.scale == scale && c.formula == formula && c.owner == owner
      ensures owner != null ==> c.owner != c
      ensures owner != null ==>
        forall x: real :: c.Activate(x) == Activate(x) && c.Deactivate(x) == Deactivate(x)
    {
      c := new Activation.ReLUWith(scale);
      c.kind := kind;
      c.formula := formula;
      c.owner := owner;
    }

    /** `equals(o)`: identity, else the same class and equal scales; a null argument throws. */
    function Equals(o: Activation?): (r: Result<bool>)
      reads this, o
      ensures o == null <==> r == Err(NullPointer)
      ensures o != null ==> r == Ok(kind == o.kind && scale == o.scale)
    {
      if o == this then Ok(true)
      else if o == null then Err(NullPointer)
      else Ok(kind == o.kind && scale == o.scale)
    }

    /** `hashCode`: the hash (a parameter) of the class name and the scale. */
    function HashCode(hash: (string, real) -> int): int
      reads this
    {
      hash(ClassName(kind), scale)
    }

    /** `toString`: the name, then the scale rendered by `render`, in parentheses. */
    function ToString(render: real -> string): (s: string)
      reads this
      ensures s == Name(kind) + "(" + render(scale) + ")"
      ensures |s| > |Name(kind)| + 1 && s[|s| - 1] == ')'
    {
      GetName() + "(" + render(scale) + ")"
    }
  }

  /** Objects that compare equal have equal hash codes, whatever the hash. */
  lemma EqualsConsistentWithHash(a: Activation, b: Activation, hash: (string, real) -> int)
    requires a.Equals(b) == Ok(true)
    ensures a.HashCode(hash) == b.HashCode(hash)
  {
  }

  /** `equals` is symmetric on non-null arguments. */
  lemma EqualsSymmetric(a: Activation, b: Activation)
    ensures a.Equals(b) == b.Equals(a)
  {
  }

  /** `getDefault`: a logistic activation of scale 0.2. */
  method GetDefault(sigmoid: (real, real) -> real, slope: (real, real) -> real)
    returns (a: Activation)
    ensures fresh(a) && a.Valid()
    ensures a.kind == Log && a.scale == 0.2 && a.GetName() == "logistic"
  {
    a := new Activation.WithCurve(Log, 0.2, sigmoid, slope);
  }

  /** `arrayOf(a, n)`: an array of n references to the very same object. */
  method ArrayOf(a: Activation, length: int) returns (r: Result<array<Activation>>)
    ensures length < 0 <==> r == Err(NegativeArraySize(length))
    ensures length >= 0 <==> r.Ok?
    ensures r.Ok? ==> fresh(r.value) && r.value.Length == length
    ensures r.Ok? ==> forall k :: 0 <= k < length ==> r.value[k] == a
  {
    if length < 0 {
      return Err(NegativeArraySize(length));
    }
    var items := new Activation[length](_ => a);
    r := Ok(items);
  }

  /** Because the entries of `arrayOf` are one object, rescaling through any
      entry rescales the activation every entry uses. */
  method RescaleThroughEntry(items: array<Activation>, i: int, s: real)
    requires 0 <= i < items.Length
    requires forall k :: 0 <= k < items.Length ==> items[k] == items[0]
    modifies items[i]
    ensures forall k :: 0 <= k < items.Length ==> items[k].scale == s
  {
    items[i].SetScale(s);
  }
}
