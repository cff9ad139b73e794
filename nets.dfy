// The network: weight and bias matrices per layer plus the activation array,
// and the network parameters it is built from. Matrices are values here
// (MatrixAlgebra.Matrix); the array-backed matrix class is modelled on its
// own in Matrices. The activation array is an array of Activation objects,
// because the networks share it and replace its entries.

module Nets {
  import opened Wrappers
  import opened Streams
  import opened MatrixAlgebra
  import opened Activations
  import Arith

  // ---------------------------------------------------------------- matrices in streams

  const MatrixClass: string := "com.synapse.core.matrix.MatrixJava"

  /** `writeObject(matrix)`: one object token holding what the matrix writes. */
  function MatrixObject(m: Matrix): Token
  {
    ObjectT(MatrixClass, Externalize(m))
  }

  /** `(MatrixJava) readObject()`: null, or a matrix object whose fields read
      back completely; an object of another class fails the cast. */
  function ReadMatrixOrNull(ts: seq<Token>): (r: Result<(Option<Matrix>, seq<Token>)>)
    ensures ts != [] && ts[0] == NullT ==> r == Ok((None, ts[1..]))
    ensures ts != [] && ts[0].ObjectT? && ts[0].kind != MatrixClass ==> r == Err(ClassCast(ts[0].kind))
    ensures r.Ok? ==> |r.value.1| < |ts|
  {
    var (t, rest) :- ReadObject(ts);
    if t == NullT then Ok((None, rest))
    else if t.kind != MatrixClass then Err(ClassCast(t.kind))
    else
      var (m, left) :- Internalize(t.fields);
      if left != [] then Err(StreamCorrupted) else Ok((Some(m), rest))
  }

  /** A matrix slot of a net read back: the cast as above, and a null matrix
      is reported at once as the null pointer the source meets when it uses it. */
  function ReadMatrixObject(ts: seq<Token>): (r: Result<(Matrix, seq<Token>)>)
    ensures ts != [] && ts[0] == NullT ==> r == Err(NullPointer)
    ensures ts != [] && ts[0].ObjectT? && ts[0].kind != MatrixClass ==> r == Err(ClassCast(ts[0].kind))
    ensures r.Ok? ==> |r.value.1| < |ts|
  {
    var (m, rest) :- ReadMatrixOrNull(ts);
    if m.None? then Err(NullPointer) else Ok((m.value, rest))
  }

  /** `(Activation) readObject()`: null, or an object of one of the
      activation classes; an object of any other class fails the cast. */
  function ReadActivationOrNull(ts: seq<Token>): (r: Result<(Option<Token>, seq<Token>)>)
    ensures ts != [] && ts[0] == NullT ==> r == Ok((None, ts[1..]))
    ensures ts != [] && ts[0].ObjectT? && KindOf(ts[0].kind).None? ==> r == Err(ClassCast(ts[0].kind))
    ensures r.Ok? && r.value.0.Some? ==> ts != [] && IsActivationToken(ts[0]) && r.value == (Some(ts[0]), ts[1..])
  {
    var (t, rest) :- ReadObject(ts);
    if t == NullT then Ok((None, rest))
    else if KindOf(t.kind).None? then Err(ClassCast(t.kind))
    else Ok((Some(t), rest))
  }

  /** An activation slot of a net read back: the cast as above, and a null
      activation is reported at once as the null pointer the source meets
      when it uses it. */
  function ReadActivationObject(ts: seq<Token>): (r: Result<(Token, seq<Token>)>)
    ensures ts != [] && ts[0] == NullT ==> r == Err(NullPointer)
    ensures ts != [] && ts[0].ObjectT? && KindOf(ts[0].kind).None? ==> r == Err(ClassCast(ts[0].kind))
    ensures r.Ok? ==> ts != [] && IsActivationToken(ts[0]) && r.value == (ts[0], ts[1..])
  {
    var (a, rest) :- ReadActivationOrNull(ts);
    if a.None? then Err(NullPointer) else Ok((a.value, rest))
  }

  lemma MatrixObjectRoundTrip(m: Matrix, rest: seq<Token>)
    requires m.Valid()
    ensures ReadMatrixOrNull([MatrixObject(m)] + rest) == Ok((Some(m), rest))
    ensures ReadMatrixObject([MatrixObject(m)] + rest) == Ok((m, rest))
  {
    ExternalizeRoundTrip(m, []);
    assert Externalize(m) + [] == Externalize(m);
    assert ([MatrixObject(m)] + rest)[1..] == rest;
  }

  // ---------------------------------------------------------------- construction

  /**
   * `Matrix.create(rows, columns, DEFAULT_INITIALIZER)` for matrix number m
   * of the net (weights of layer i are number 2i, its biases 2i + 1): entry k
   * is `draw(m, k)`. The random initializer is this parameter.
   */
  function Drawn(rows: int, columns: int, draw: (nat, nat) -> real, m: nat): (r: Result<Matrix>)
    ensures r.Ok? <==> rows > 0 && columns > 0
    ensures rows <= 0 ==> r == Err(IllegalArgument("rows"))
    ensures rows > 0 && columns <= 0 ==> r == Err(IllegalArgument("columns"))
    ensures r.Ok? ==> r.value.Valid() && r.value.rows == rows && r.value.columns == columns
    ensures r.Ok? ==> forall k :: 0 <= k < |r.value.data| ==> r.value.data[k] == draw(m, k)
  {
    if rows <= 0 then Err(IllegalArgument("rows"))
    else if columns <= 0 then Err(IllegalArgument("columns"))
    else
      Arith.NonNegProduct(rows, columns);
      Ok(Matrix(rows, columns, seq(rows * columns, k requires 0 <= k => draw(m, k))))
  }

  /** The argument check of `Net(layerSizes, activations)`. */
  function SizesCheck(layerSizes: seq<int>, activationCount: int): (thrown: Option<Error>)
    ensures thrown == None <==> activationCount == |layerSizes| - 1
  {
    if |layerSizes| - 1 != activationCount then Some(IllegalArgument("activations")) else None
  }

  /** The argument checks of `Net(weights, biases, activations)`, as written:
      one more activation than weight matrices. */
  function MatricesCheckAsWritten(weightCount: nat, biasCount: nat, activationCount: nat): (thrown: Option<Error>)
    ensures thrown == None <==> weightCount == biasCount && activationCount == weightCount + 1
  {
    if weightCount != biasCount then Some(IllegalArgument("biases"))
    else if weightCount + 1 != activationCount then Some(IllegalArgument("activations"))
    else None
  }

  /** The same checks with the activation count every other part of the net
      uses: one activation per weight matrix. */
  function MatricesCheck(weightCount: nat, biasCount: nat, activationCount: nat): (thrown: Option<Error>)
    ensures thrown == None <==> weightCount == biasCount && activationCount == weightCount
  {
    if weightCount != biasCount then Some(IllegalArgument("biases"))
    else if weightCount != activationCount then Some(IllegalArgument("activations"))
    else None
  }

  /** What a net built from layer sizes holds and what the two checks say of it:
      the sizes constructor accepts its parts, the three-array one as written never does. */
  lemma ConstructorsDisagree(layerSizes: seq<int>, activationCount: nat)
    requires SizesCheck(layerSizes, activationCount) == None
    ensures MatricesCheck(|layerSizes| - 1, |layerSizes| - 1, activationCount) == None
    ensures MatricesCheckAsWritten(|layerSizes| - 1, |layerSizes| - 1, activationCount).Some?
  {
  }

  /** The error the layer loop of `Net(layerSizes, activations)` meets first. */
  function SizeError(layerSizes: seq<int>): (thrown: Option<Error>)
    ensures thrown == None <==> |layerSizes| < 2 || forall k :: 0 <= k < |layerSizes| ==> layerSizes[k] > 0
  {
    if |layerSizes| < 2 then None
    else if layerSizes[0] <= 0 then Some(IllegalArgument("rows"))
    else if exists k :: 1 <= k < |layerSizes| && layerSizes[k] <= 0 then Some(IllegalArgument("columns"))
    else None
  }

  /** The weights and biases the sizes constructor draws. */
  ghost predicate BuiltFrom(weights: seq<Matrix>, biases: seq<Matrix>, layerSizes: seq<int>, draw: (nat, nat) -> real)
  {
    |weights| == |biases| == |layerSizes| - 1 &&
    forall k :: 0 <= k < |weights| ==>
      Drawn(layerSizes[k], layerSizes[k + 1], draw, 2 * k) == Ok(weights[k]) &&
      Drawn(1, layerSizes[k + 1], draw, 2 * k + 1) == Ok(biases[k])
  }

  /** The shape chain: weights[k] is sizes[k] x sizes[k+1], biases[k] is 1 x sizes[k+1]. */
  ghost predicate Chained(weights: seq<Matrix>, biases: seq<Matrix>)
  {
    |weights| == |biases| &&
    (forall k :: 0 <= k < |weights| ==>
       weights[k].Valid() && biases[k].Valid() && biases[k].rows == 1 && biases[k].columns == weights[k].columns) &&
    forall i, j {:trigger weights[i], weights[j]} :: 0 <= i && j == i + 1 && j < |weights| ==> weights[i].columns == weights[j].rows
  }

  /** `getLayersSizes` as a value: the rows of the first weight matrix, then every column count. */
  function LayerSizes(weights: seq<Matrix>): (sizes: seq<int>)
    requires |weights| > 0
    ensures |sizes| == |weights| + 1 && sizes[0] == weights[0].rows
    ensures forall k :: 0 <= k < |weights| ==> sizes[k + 1] == weights[k].columns
  {
    [weights[0].rows] + seq(|weights|, k requires 0 <= k < |weights| => weights[k].columns)
  }

  /** A net drawn from valid layer sizes is chained and reports those sizes back. */
  lemma BuiltFromChained(weights: seq<Matrix>, biases: seq<Matrix>, layerSizes: seq<int>, draw: (nat, nat) -> real)
    requires BuiltFrom(weights, biases, layerSizes, draw) && |layerSizes| >= 2
    ensures Chained(weights, biases)
    ensures LayerSizes(weights) == layerSizes
  {
    var sizes := LayerSizes(weights);
    forall k | 0 <= k < |layerSizes|
      ensures sizes[k] == layerSizes[k]
    {
      if k == 0 {
        assert Drawn(layerSizes[0], layerSizes[1], draw, 0) == Ok(weights[0]);
      } else {
        assert Drawn(layerSizes[k - 1], layerSizes[k], draw, 2 * (k - 1)) == Ok(weights[k - 1]);
      }
    }
  }

  // ---------------------------------------------------------------- the forward pass

  /**
   * `pass` over the first n layers: output <- f_k(output * W[k] + b[k]), in
   * layer order; a shape error of `mul` or `add` ends the pass.
   */
  function Forward(x: Matrix, weights: seq<Matrix>, biases: seq<Matrix>, fs: seq<real -> real>, n: nat): (r: Result<Matrix>)
    requires n <= |weights| && n <= |biases| && n <= |fs|
    requires x.Valid() && forall k :: 0 <= k < n ==> weights[k].Valid() && biases[k].Valid()
    ensures r.Ok? ==> r.value.Valid()
    decreases n
  {
    if n == 0 then Ok(x)
    else
      var y :- Forward(x, weights, biases, fs, n - 1);
      Layer(y, weights[n - 1], biases[n - 1], fs[n - 1])
  }

  /** One layer: `mul` by the weights, `add` the bias, apply the activator. */
  function Layer(y: Matrix, w: Matrix, b: Matrix, f: real -> real): (r: Result<Matrix>)
    requires y.Valid() && w.Valid() && b.Valid()
    ensures r.Ok? ==> r.value.Valid()
  {
    var p :- MatrixAlgebra.Mul(y, w);
    var q :- Elementwise(Plus, p, b);
    Ok(MatrixAlgebra.Apply(q, f))
  }

  /** Once a layer fails, the whole pass fails with that error. */
  lemma {:induction false} ForwardFailurePersists(x: Matrix, weights: seq<Matrix>, biases: seq<Matrix>, fs: seq<real -> real>, n: nat, m: nat)
    requires n <= m <= |weights| && m <= |biases| && m <= |fs|
    requires x.Valid() && forall k :: 0 <= k < m ==> weights[k].Valid() && biases[k].Valid()
    requires Forward(x, weights, biases, fs, n).Err?
    ensures Forward(x, weights, biases, fs, m) == Forward(x, weights, biases, fs, n)
    decreases m
  {
    if m > n {
      ForwardFailurePersists(x, weights, biases, fs, n, m - 1);
    }
  }

  /** On a chained net, a 1 x sizes[0] input passes through every layer and
      leaves as a 1 x sizes[n] row. */
  lemma {:induction false} ForwardShape(x: Matrix, weights: seq<Matrix>, biases: seq<Matrix>, fs: seq<real -> real>, n: nat)
    requires Chained(weights, biases) && 0 < n <= |weights| && n <= |fs|
    requires x.Valid() && x.rows == 1 && x.columns == weights[0].rows
    ensures Forward(x, weights, biases, fs, n).Ok?
    ensures Forward(x, weights, biases, fs, n).value.rows == 1
    ensures Forward(x, weights, biases, fs, n).value.columns == weights[n - 1].columns
    decreases n
  {
    if n > 1 {
      ForwardShape(x, weights, biases, fs, n - 1);
    }
  }

  /** The activators of a sequence of activations, at their owners' current
      scales: what `pass` applies, read when the pass starts. */
  function Transfers(acts: seq<Activation>): (fs: seq<real -> real>)
    requires forall k :: 0 <= k < |acts| ==> acts[k].owner != null
    reads acts, set k | 0 <= k < |acts| :: acts[k].owner
    ensures |fs| == |acts|
    ensures forall k :: 0 <= k < |acts| ==> fs[k] == acts[k].Activator()
  {
    if acts == [] then []
    else [acts[0].Activator()] + Transfers(acts[1..])
  }

  // ---------------------------------------------------------------- externalisation

  /** Tokens of the layers: weight, bias and activation of each layer, in layer order. */
  function LayerTokens(weights: seq<Matrix>, biases: seq<Matrix>, acts: seq<Token>): seq<Token>
    requires |weights| == |biases| == |acts|
  {
    if weights == [] then []
    else [MatrixObject(weights[0]), MatrixObject(biases[0]), acts[0]] + LayerTokens(weights[1..], biases[1..], acts[1..])
  }

  lemma {:induction false} LayerTokensSnoc(weights: seq<Matrix>, biases: seq<Matrix>, acts: seq<Token>, w: Matrix, b: Matrix, a: Token)
    requires |weights| == |biases| == |acts|
    ensures LayerTokens(weights + [w], biases + [b], acts + [a]) ==
            LayerTokens(weights, biases, acts) + [MatrixObject(w), MatrixObject(b), a]
    decreases |weights|
  {
    if weights == [] {
      assert weights + [w] == [w] && biases + [b] == [b] && acts + [a] == [a];
    } else {
      assert (weights + [w])[1..] == weights[1..] + [w];
      assert (biases + [b])[1..] == biases[1..] + [b];
      assert (acts + [a])[1..] == acts[1..] + [a];
      LayerTokensSnoc(weights[1..], biases[1..], acts[1..], w, b, a);
    }
  }

  /** A prefix one longer is the prefix and the next element. */
  lemma TakeNext<T>(s: seq<T>, i: nat)
    requires i < |s|
    ensures s[..i + 1] == s[..i] + [s[i]]
  {
  }

  /** `writeExternal` of a net: the layer count, then each layer's three objects. */
  function NetTokens(weights: seq<Matrix>, biases: seq<Matrix>, acts: seq<Token>): seq<Token>
    requires |weights| == |biases| == |acts|
  {
    [IntT(|weights|)] + LayerTokens(weights, biases, acts)
  }

  /** One turn of the read loop of `readExternal`: a weight matrix, a bias
      matrix and an activation object. */
  function ReadLayer(ts: seq<Token>): Result<(Matrix, Matrix, Token, seq<Token>)>
  {
    var (w, r1) :- ReadMatrixObject(ts);
    var (b, r2) :- ReadMatrixObject(r1);
    var (a, r3) :- ReadActivationObject(r2);
    Ok((w, b, a, r3))
  }

  /** The read loop of `readExternal`: n layers of (matrix, matrix, object). */
  function ReadLayers(ts: seq<Token>, n: nat): (r: Result<(seq<Matrix>, seq<Matrix>, seq<Token>, seq<Token>)>)
    ensures r.Ok? ==> |r.value.0| == |r.value.1| == |r.value.2| == n
    ensures r.Ok? ==> forall k :: 0 <= k < n ==> IsActivationToken(r.value.2[k])
    decreases n
  {
    if n == 0 then Ok(([], [], [], ts))
    else
      var (w, b, a, r) :- ReadLayer(ts);
      var (ws, bs, acts, rest) :- ReadLayers(r, n - 1);
      Ok(([w] + ws, [b] + bs, [a] + acts, rest))
  }

  /** `readExternal` of a net: a negative layer count cannot be allocated. */
  function ReadNet(ts: seq<Token>): Result<(seq<Matrix>, seq<Matrix>, seq<Token>, seq<Token>)>
  {
    var (n, rest) :- ReadInt(ts);
    if n < 0 then Err(NegativeArraySize(n)) else ReadLayers(rest, n)
  }

  /** Reading one written layer gives it back. */
  lemma LayerRoundTrip(w: Matrix, b: Matrix, a: Token, rest: seq<Token>)
    requires w.Valid() && b.Valid() && IsActivationToken(a)
    ensures ReadLayer([MatrixObject(w), MatrixObject(b), a] + rest) == Ok((w, b, a, rest))
  {
    var r2 := [a] + rest;
    var r1 := [MatrixObject(b)] + r2;
    assert [MatrixObject(w), MatrixObject(b), a] + rest == [MatrixObject(w)] + r1;
    MatrixObjectRoundTrip(w, r1);
    MatrixObjectRoundTrip(b, r2);
    assert r2[1..] == rest;
  }

  lemma ConsTail<T>(s: seq<T>)
    requires |s| > 0
    ensures [s[0]] + s[1..] == s
  {
  }

  /** One layer read, then the rest. */
  lemma ReadLayersStep(ts: seq<Token>, n: nat, layer: (Matrix, Matrix, Token, seq<Token>),
                       tail: (seq<Matrix>, seq<Matrix>, seq<Token>, seq<Token>))
    requires n > 0
    requires ReadLayer(ts) == Ok(layer) && ReadLayers(layer.3, n - 1) == Ok(tail)
    ensures ReadLayers(ts, n) == Ok(([layer.0] + tail.0, [layer.1] + tail.1, [layer.2] + tail.2, tail.3))
  {
  }

  lemma {:induction false} LayersRoundTrip(weights: seq<Matrix>, biases: seq<Matrix>, acts: seq<Token>, rest: seq<Token>)
    requires |weights| == |biases| == |acts|
    requires forall k :: 0 <= k < |weights| ==> weights[k].Valid() && biases[k].Valid() && IsActivationToken(acts[k])
    ensures ReadLayers(LayerTokens(weights, biases, acts) + rest, |weights|) == Ok((weights, biases, acts, rest))
    decreases |weights|
  {
    if weights != [] {
      var tail := LayerTokens(weights[1..], biases[1..], acts[1..]) + rest;
      var ts := LayerTokens(weights, biases, acts) + rest;
      assert ts == [MatrixObject(weights[0]), MatrixObject(biases[0]), acts[0]] + tail;
      LayerRoundTrip(weights[0], biases[0], acts[0], tail);
      LayersRoundTrip(weights[1..], biases[1..], acts[1..], rest);
      ReadLayersStep(ts, |weights|, (weights[0], biases[0], acts[0], tail), (weights[1..], biases[1..], acts[1..], rest));
      ConsTail(weights);
      ConsTail(biases);
      ConsTail(acts);
    } else {
      assert LayerTokens(weights, biases, acts) + rest == rest;
    }
  }

  /** Layers already read, put in front of what the rest of the stream gives. */
  function Prepend(ws: seq<Matrix>, bs: seq<Matrix>, acts: seq<Token>,
                   r: Result<(seq<Matrix>, seq<Matrix>, seq<Token>, seq<Token>)>): Result<(seq<Matrix>, seq<Matrix>, seq<Token>, seq<Token>)>
  {
    match r
    case Err(e) => Err(e)
    case Ok((ws', bs', acts', rest)) => Ok((ws + ws', bs + bs', acts + acts', rest))
  }

  lemma PrependNothing(r: Result<(seq<Matrix>, seq<Matrix>, seq<Token>, seq<Token>)>)
    ensures Prepend([], [], [], r) == r
  {
    match r
    case Err(_) =>
    case Ok((ws', bs', acts', rest)) =>
      assert [] + ws' == ws' && [] + bs' == bs' && [] + acts' == acts';
  }

  /** Reading one more layer moves it from the stream to the layers read so far. */
  lemma PrependStep(ws: seq<Matrix>, bs: seq<Matrix>, acts: seq<Token>, ts: seq<Token>, n: nat,
                    layer: (Matrix, Matrix, Token, seq<Token>))
    requires n > 0 && ReadLayer(ts) == Ok(layer)
    ensures Prepend(ws, bs, acts, ReadLayers(ts, n)) ==
      Prepend(ws + [layer.0], bs + [layer.1], acts + [layer.2], ReadLayers(layer.3, n - 1))
  {
    match ReadLayers(layer.3, n - 1)
    case Err(_) =>
    case Ok((ws', bs', acts', rest)) =>
      assert ws + ([layer.0] + ws') == ws + [layer.0] + ws';
      assert bs + ([layer.1] + bs') == bs + [layer.1] + bs';
      assert acts + ([layer.2] + acts') == acts + [layer.2] + acts';
  }

  /** The read loop of `readExternal`: n layers, one after the other. */
  method ReadLayersLoop(input: seq<Token>, n: nat) returns (r: Result<(seq<Matrix>, seq<Matrix>, seq<Token>, seq<Token>)>)
    ensures r == ReadLayers(input, n)
  {
    var ts := input;
    var ws: seq<Matrix>, bs: seq<Matrix>, acts: seq<Token> := [], [], [];
    PrependNothing(ReadLayers(ts, n));
    for i := 0 to n
      invariant Prepend(ws, bs, acts, ReadLayers(ts, n - i)) == ReadLayers(input, n)
    {
      var layer := ReadLayer(ts);
      if layer.Err? {
        assert ReadLayers(ts, n - i) == Err(layer.error);
        return Err(layer.error);
      }
      PrependStep(ws, bs, acts, ts, n - i, layer.value);
      ws, bs, acts := ws + [layer.value.0], bs + [layer.value.1], acts + [layer.value.2];
      ts := layer.value.3;
    }
    assert ws + [] == ws && bs + [] == bs && acts + [] == acts;
    r := Ok((ws, bs, acts, ts));
  }

  /** Activation objects rebuilt from their tokens, one fresh object per slot. */
  method RestoreActivations(acts: seq<Token>, f: (real, real) -> real, df: (real, real) -> real)
    returns (restored: array<Activation>)
    requires forall k :: 0 <= k < |acts| ==> IsActivationToken(acts[k])
    ensures fresh(restored) && restored.Length == |acts|
    ensures forall k :: 0 <= k < |acts| ==> (IsActivationToken(acts[k]) &&
      fresh(restored[k]) && restored[k].Valid() && restored[k].scale == 0.0 &&
      KindOf(acts[k].kind) == Some(restored[k].kind))
  {
    var objects: seq<Activation> := [];
    for i := 0 to |acts|
      invariant |objects| == i
      invariant forall k :: 0 <= k < i ==> (IsActivationToken(acts[k]) &&
        fresh(objects[k]) && objects[k].Valid() && objects[k].scale == 0.0 &&
        KindOf(acts[k].kind) == Some(objects[k].kind))
    {
      var a := new Activation.Restored(KindOf(acts[i].kind).value, f, df);
      objects := objects + [a];
    }
    restored := new Activation[|acts|](k requires 0 <= k < |acts| => objects[k]);
  }

  /** Reading back what a net wrote gives its matrices and activation objects, in order. */
  lemma NetRoundTrip(weights: seq<Matrix>, biases: seq<Matrix>, acts: seq<Token>, rest: seq<Token>)
    requires |weights| == |biases| == |acts|
    requires forall k :: 0 <= k < |weights| ==> weights[k].Valid() && biases[k].Valid() && IsActivationToken(acts[k])
    ensures ReadNet(NetTokens(weights, biases, acts) + rest) == Ok((weights, biases, acts, rest))
  {
    var ts := NetTokens(weights, biases, acts) + rest;
    assert ts[1..] == LayerTokens(weights, biases, acts) + rest;
    LayersRoundTrip(weights, biases, acts, rest);
  }

  /** The loop of `pass`: output <- f_k(output * W[k] + b[k]) for every
      layer in order; the first shape error ends it. */
  method Propagate(input: Matrix, weights: seq<Matrix>, biases: seq<Matrix>, fs: seq<real -> real>) returns (r: Result<Matrix>)
    requires |weights| == |biases| <= |fs|
    requires input.Valid() && forall k :: 0 <= k < |weights| ==> weights[k].Valid() && biases[k].Valid()
    ensures r == Forward(input, weights, biases, fs, |weights|)
  {
    var output := input;
    for i := 0 to |weights|
      invariant Forward(input, weights, biases, fs, i) == Ok(output)
    {
      var next := Layer(output, weights[i], biases[i], fs[i]);
      if next.Err? {
        ForwardFailurePersists(input, weights, biases, fs, i + 1, |weights|);
        return Err(next.error);
      }
      output := next.value;
    }
    r := Ok(output);
  }

  // ---------------------------------------------------------------- the net

  /** The class a net is written under by `writeObject`. */
  const NetClass: string := "com.synapse.core.nets.Net"

  class Net {
    var weights: seq<Matrix>
    var biases: seq<Matrix>
    var activations: array<Activation>

    /** The invariant `pass` needs: one valid bias per valid weight matrix and
        an activation, with a scale owner, for each of them. */
    ghost predicate Valid()
      reads this, activations, activations[..]
    {
      |weights| == |biases| && |weights| <= activations.Length &&
      (forall k :: 0 <= k < |weights| ==> weights[k].Valid() && biases[k].Valid()) &&
      forall k :: 0 <= k < activations.Length ==> activations[k].owner != null
    }

    constructor Adopt(weights: seq<Matrix>, biases: seq<Matrix>, activations: array<Activation>)
      ensures this.weights == weights && this.biases == biases && this.activations == activations
    {
      this.weights := weights;
      this.biases := biases;
      this.activations := activations;
    }

    /**
     * `Net(layerSizes, activations)`: one activation per weight matrix, then
     * weights[i] is layerSizes[i] x layerSizes[i+1] and biases[i] is
     * 1 x layerSizes[i+1], all drawn from the initializer. The activation
     * array is adopted, not copied.
     */
    static method FromSizes(layerSizes: seq<int>, activations: array<Activation>, draw: (nat, nat) -> real)
      returns (r: Result<Net>)
      ensures SizesCheck(layerSizes, activations.Length).Some? ==>
        r == Err(SizesCheck(layerSizes, activations.Length).value)
      ensures SizesCheck(layerSizes, activations.Length) == None ==>
        (r.Err? <==> SizeError(layerSizes).Some?) &&
        (r.Err? ==> r.error == SizeError(layerSizes).value)
      ensures r.Ok? ==> fresh(r.value) && r.value.activations == activations
      ensures r.Ok? ==> BuiltFrom(r.value.weights, r.value.biases, layerSizes, draw)
      ensures r.Ok? && |layerSizes| >= 2 ==>
        Chained(r.value.weights, r.value.biases) && LayerSizes(r.value.weights) == layerSizes
    {
      var check := SizesCheck(layerSizes, activations.Length);
      if check.Some? {
        return Err(check.value);
      }
      var ws: seq<Matrix> := [];
      var bs: seq<Matrix> := [];
      for i := 0 to |layerSizes| - 1
        invariant |ws| == |bs| == i
        invariant i > 0 ==> forall k :: 0 <= k <= i ==> layerSizes[k] > 0
        invariant forall k :: 0 <= k < i ==>
          Drawn(layerSizes[k], layerSizes[k + 1], draw, 2 * k) == Ok(ws[k]) &&
          Drawn(1, layerSizes[k + 1], draw, 2 * k + 1) == Ok(bs[k])
      {
        var w := Drawn(layerSizes[i], layerSizes[i + 1], draw, 2 * i);
        if w.Err? {
          return Err(w.error);
        }
        var b := Drawn(1, layerSizes[i + 1], draw, 2 * i + 1);
        ws := ws + [w.value];
        bs := bs + [b.value];
      }
      var net := new Net.Adopt(ws, bs, activations);
      r := Ok(net);
      if |layerSizes| >= 2 {
        BuiltFromChained(ws, bs, layerSizes, draw);
      }
    }

    /**
     * `Net(weights, biases, activations)` as written: equal weight and bias
     * counts, and one activation more than weight matrices. The arrays are
     * adopted as given; their shapes are not checked.
     */
    static method FromMatricesAsWritten(weights: seq<Matrix>, biases: seq<Matrix>, activations: array<Activation>)
      returns (r: Result<Net>)
      ensures r.Err? <==> MatricesCheckAsWritten(|weights|, |biases|, activations.Length).Some?
      ensures r.Err? ==> Some(r.error) == MatricesCheckAsWritten(|weights|, |biases|, activations.Length)
      ensures r.Ok? ==> fresh(r.value) && r.value.weights == weights && r.value.biases == biases
      ensures r.Ok? ==> r.value.activations == activations
    {
      var check := MatricesCheckAsWritten(|weights|, |biases|, activations.Length);
      if check.Some? {
        return Err(check.value);
      }
      var net := new Net.Adopt(weights, biases, activations);
      r := Ok(net);
    }

    /** The three-array constructor with one activation per weight matrix, so
        that it accepts the parts of every net the sizes constructor builds. */
    static method FromMatrices(weights: seq<Matrix>, biases: seq<Matrix>, activations: array<Activation>)
      returns (r: Result<Net>)
      ensures r.Err? <==> MatricesCheck(|weights|, |biases|, activations.Length).Some?
      ensures r.Err? ==> Some(r.error) == MatricesCheck(|weights|, |biases|, activations.Length)
      ensures r.Ok? ==> fresh(r.value) && r.value.weights == weights && r.value.biases == biases
      ensures r.Ok? ==> r.value.activations == activations
    {
      var check := MatricesCheck(|weights|, |biases|, activations.Length);
      if check.Some? {
        return Err(check.value);
      }
      var net := new Net.Adopt(weights, biases, activations);
      r := Ok(net);
    }

    /** `getLayersCount`: one more than the weight matrices. */
    function LayersCount(): (n: int)
      reads this
      ensures n == |weights| + 1 && n >= 1
    {
      |weights| + 1
    }

    /** `getInterLayersCount`. */
    function InterLayersCount(): (n: int)
      reads this
      ensures n == LayersCount() - 1
    {
      |weights|
    }

    /** `getLayersSizes`: fills an array of layer-count entries; a net without
        weight matrices fails reading `weights[0]`. */
    method GetLayersSizes() returns (r: Result<seq<int>>)
      ensures |weights| == 0 <==> r == Err(IndexOutOfBounds(0))
      ensures r.Ok? ==> r.value == LayerSizes(weights)
    {
      var sizes := new int[LayersCount()];
      if |weights| == 0 {
        return Err(IndexOutOfBounds(0));
      }
      sizes[0] := weights[0].rows;
      for i := 0 to |weights|
        invariant sizes[0] == weights[0].rows
        invariant forall k :: 0 <= k < i ==> sizes[k + 1] == weights[k].columns
      {
        sizes[i + 1] := weights[i].columns;
      }
      r := Ok(sizes[..]);
    }

    /** `pass`: the forward fold over every layer; the net is not modified. */
    method Pass(input: Matrix) returns (r: Result<Matrix>)
      requires input.Valid() && Valid()
      ensures r == Forward(input, weights, biases, Transfers(activations[..]), |weights|)
    {
      var fs := Transfers(activations[..]);
      r := Propagate(input, weights, biases, fs);
    }

    /**
     * `clone` as written: fresh weight and bias arrays holding copies of the
     * matrices, but the activation array is the one the original holds, and
     * the loop stores the activation clones into it.
     */
    method CloneAsWritten() returns (c: Net)
      requires |weights| <= activations.Length
      modifies activations
      ensures fresh(c) && c.weights == weights && c.biases == biases
      ensures c.activations == activations
      ensures forall k :: 0 <= k < |weights| ==>
        fresh(activations[k]) && activations[k] != old(activations[k]) &&
        activations[k].kind == old(activations[k].kind) && activations[k].scale == old(activations[k].scale)
      ensures forall k :: |weights| <= k < activations.Length ==> activations[k] == old(activations[k])
    {
      for i := 0 to |weights|
        invariant forall k :: 0 <= k < i ==>
          fresh(activations[k]) && activations[k] != old(activations[k]) &&
          activations[k].kind == old(activations[k].kind) && activations[k].scale == old(activations[k].scale)
        invariant forall k :: i <= k < activations.Length ==> activations[k] == old(activations[k])
      {
        var a := activations[i].Clone();
        activations[i] := a;
      }
      c := new Net.Adopt(weights, biases, activations);
    }

    /** `clone` with its own activation array: the original net is untouched. */
    method Clone() returns (c: Net)
      ensures fresh(c) && c.weights == weights && c.biases == biases
      ensures fresh(c.activations) && c.activations.Length == activations.Length
      ensures forall k :: 0 <= k < activations.Length ==>
        fresh(c.activations[k]) && c.activations[k].kind == activations[k].kind &&
        c.activations[k].scale == activations[k].scale && c.activations[k].owner == activations[k].owner
    {
      var copies := new Activation[activations.Length](k requires 0 <= k < activations.Length reads this, activations => activations[k]);
      for i := 0 to activations.Length
        invariant forall k :: 0 <= k < i ==>
          fresh(copies[k]) && copies[k].kind == activations[k].kind &&
          copies[k].scale == activations[k].scale && copies[k].owner == activations[k].owner
      {
        copies[i] := activations[i].Clone();
      }
      c := new Net.Adopt(weights, biases, copies);
    }

    /**
     * `readExternal`: the layer count, then per layer a weight matrix, a bias
     * matrix and an activation object, in that order. The activations are
     * rebuilt from their class names; f and df stand for the functions the
     * stream carries.
     */
    method ReadExternal(input: seq<Token>, f: (real, real) -> real, df: (real, real) -> real)
      returns (r: Result<seq<Token>>)
      modifies this
      ensures r.Ok? <==> ReadNet(input).Ok?
      ensures r.Err? ==> r.error == ReadNet(input).error
      ensures r.Ok? ==> (weights == ReadNet(input).value.0 && biases == ReadNet(input).value.1 &&
                         r.value == ReadNet(input).value.3)
      ensures r.Ok? ==> fresh(activations) && activations.Length == |weights|
      ensures r.Ok? ==> forall k :: 0 <= k < activations.Length ==>
        fresh(activations[k]) && activations[k].Valid() && activations[k].scale == 0.0 &&
        KindOf(ReadNet(input).value.2[k].kind) == Some(activations[k].kind)
    {
      var count :- ReadInt(input);
      var n := count.0;
      if n < 0 {
        return Err(NegativeArraySize(n));
      }
      var layers :- ReadLayersLoop(count.1, n);
      var restored := RestoreActivations(layers.2, f, df);
      weights, biases, activations := layers.0, layers.1, restored;
      r := Ok(layers.3);
    }

    /** The tokens the activation objects of the first n layers write. */
    function ActivationTokens(n: nat): (ts: seq<Token>)
      requires n <= activations.Length
      reads this, activations, activations[..]
      ensures |ts| == n && forall k :: 0 <= k < n ==> ts[k] == activations[k].Externalized()
    {
      seq(n, k requires 0 <= k < n && k < activations.Length reads this, activations, activations[..] =>
        activations[k].Externalized())
    }

    /** The tokens of n + 1 layers' activations extend those of the first n. */
    lemma ActivationTokensNext(n: nat)
      requires n < activations.Length
      ensures ActivationTokens(n + 1) == ActivationTokens(n) + [activations[n].Externalized()]
    {
    }

    /** `writeExternal`: the layer count, then weight, bias and activation of each layer;
        reading it back gives the same matrices and activation objects. */
    method WriteExternal() returns (out: seq<Token>)
      requires Valid()
      ensures out == NetTokens(weights, biases, ActivationTokens(|weights|))
      ensures ReadNet(out) == Ok((weights, biases, ActivationTokens(|weights|), []))
    {
      var layers: seq<Token> := [];
      for i := 0 to |weights|
        invariant layers == LayerTokens(weights[..i], biases[..i], ActivationTokens(i))
      {
        LayerTokensSnoc(weights[..i], biases[..i], ActivationTokens(i), weights[i], biases[i], activations[i].Externalized());
        TakeNext(weights, i);
        TakeNext(biases, i);
        ActivationTokensNext(i);
        layers := layers + [MatrixObject(weights[i]), MatrixObject(biases[i]), activations[i].Externalized()];
      }
      assert weights[..|weights|] == weights && biases[..|biases|] == biases;
      out := [IntT(|weights|)] + layers;
      NetRoundTrip(weights, biases, ActivationTokens(|weights|), []);
      assert out + [] == out;
    }
  }

  // ---------------------------------------------------------------- net parameters

  /** `writeExternal` of the parameters: the size count, each size, then the activation object. */
  function ParametersTokens(layerSizes: seq<int>, activation: Token): seq<Token>
  {
    [IntT(|layerSizes|)] + Ints(layerSizes) + [activation]
  }

  /** `readExternal` of the parameters: a negative count cannot be allocated,
      and the object after the sizes must be null or an activation. */
  function ReadParameters(ts: seq<Token>): Result<(seq<int>, Option<Token>, seq<Token>)>
  {
    var (n, r1) :- ReadInt(ts);
    if n < 0 then Err(NegativeArraySize(n))
    else
      var (sizes, r2) :- ReadInts(r1, n);
      var (a, r3) :- ReadActivationOrNull(r2);
      Ok((sizes, a, r3))
  }

  /** Reading back what the parameters wrote gives the sizes and the activation, or null. */
  lemma ParametersRoundTrip(layerSizes: seq<int>, activation: Token, rest: seq<Token>)
    requires activation == NullT || IsActivationToken(activation)
    ensures ReadParameters(ParametersTokens(layerSizes, activation) + rest) ==
      Ok((layerSizes, if activation == NullT then None else Some(activation), rest))
  {
    var ts := ParametersTokens(layerSizes, activation) + rest;
    assert ts[1..] == Ints(layerSizes) + ([activation] + rest);
    IntsRoundTrip(layerSizes, [activation] + rest);
    assert ([activation] + rest)[1..] == rest;
  }

  /** `getReport`: a header, the sizes line and the activation line. */
  function ParametersReport(sizesText: string, activationText: string): (lines: seq<string>)
    ensures |lines| == 3 && lines[0] == "NetParameters:\n"
    ensures lines[1] == "\tlayerSizes=" + sizesText + "\n"
    ensures lines[2] == "\tactivation=" + activationText + "\n"
  {
    ["NetParameters:\n", "\tlayerSizes=" + sizesText + "\n", "\tactivation=" + activationText + "\n"]
  }

  /** What `createNet` throws: a null activation cannot be used, no layer
      sizes leave no inner layer for the activation, and then the sizes
      constructor's own checks. */
  function CreateError(layerSizes: seq<int>, activationIsNull: bool): (thrown: Option<Error>)
    ensures thrown == None <==> !activationIsNull && |layerSizes| >= 1 && SizeError(layerSizes) == None
    ensures !activationIsNull && |layerSizes| >= 1 ==> thrown == SizeError(layerSizes)
  {
    if activationIsNull then Some(NullPointer)
    else if |layerSizes| == 0 then SizesCheck(layerSizes, 0)
    else SizeError(layerSizes)
  }

  class NetParameters {
    var layerSizes: array<int>
    var activation: Activation?

    constructor (layerSizes: array<int>, activation: Activation?)
      ensures this.layerSizes == layerSizes && this.activation == activation
    {
      this.layerSizes := layerSizes;
      this.activation := activation;
    }

    /**
     * `createNet`: the sizes constructor on these sizes with this one
     * activation in every inner layer (the source hands the single
     * activation to the constructor that takes one per inner layer).
     */
    method CreateNet(draw: (nat, nat) -> real) returns (r: Result<Net>)
      ensures r.Err? <==> CreateError(layerSizes[..], activation == null).Some?
      ensures r.Err? ==> r.error == CreateError(layerSizes[..], activation == null).value
      ensures r.Ok? ==> fresh(r.value) && fresh(r.value.activations)
      ensures r.Ok? ==> (r.value.activations.Length == layerSizes.Length - 1 &&
        forall k :: 0 <= k < r.value.activations.Length ==> r.value.activations[k] == activation)
      ensures r.Ok? ==> BuiltFrom(r.value.weights, r.value.biases, layerSizes[..], draw)
      ensures r.Ok? && layerSizes.Length >= 2 ==>
        Chained(r.value.weights, r.value.biases) && LayerSizes(r.value.weights) == layerSizes[..]
    {
      if activation == null {
        return Err(NullPointer);
      }
      var count := if layerSizes.Length == 0 then 0 else layerSizes.Length - 1;
      var items := ArrayOf(activation, count);
      assert items.Ok?;
      r := Net.FromSizes(layerSizes[..], items.value, draw);
    }

    /** `clone`: a new parameters object sharing the size array and the activation. */
    method Clone() returns (c: NetParameters)
      ensures fresh(c) && c.layerSizes == layerSizes && c.activation == activation
    {
      c := new NetParameters(layerSizes, activation);
    }

    /** The activation as `writeObject` writes it. */
    function ActivationToken(): (t: Token)
      reads this, activation
      ensures t == NullT || IsActivationToken(t)
    {
      if activation == null then NullT else activation.Externalized()
    }

    /** `writeExternal`: reading the output back gives the same sizes and activation. */
    method WriteExternal() returns (out: seq<Token>)
      ensures out == ParametersTokens(layerSizes[..], ActivationToken())
      ensures ReadParameters(out).Ok? && ReadParameters(out).value.0 == layerSizes[..]
      ensures ReadParameters(out).Ok? && ReadParameters(out).value.2 == []
      ensures (ReadParameters(out).value.1 == None) == (activation == null)
      ensures activation != null ==> ReadParameters(out).value.1 == Some(activation.Externalized())
    {
      var ints: seq<Token> := [];
      for i := 0 to layerSizes.Length
        invariant ints == Ints(layerSizes[..i])
      {
        ints := ints + [IntT(layerSizes[i])];
      }
      assert layerSizes[..layerSizes.Length] == layerSizes[..];
      out := [IntT(layerSizes.Length)] + ints + [ActivationToken()];
      ParametersRoundTrip(layerSizes[..], ActivationToken(), []);
      assert out + [] == out;
    }

    /**
     * `readExternal`: allocates the size array, reads the sizes into it, then
     * reads the activation, null or one restored from its class; f and df
     * stand for the functions the restored activation computes.
     */
    method ReadExternal(input: seq<Token>, f: (real, real) -> real, df: (real, real) -> real)
      returns (r: Result<seq<Token>>)
      modifies this
      ensures ReadParameters(input).Ok? <==> r.Ok?
      ensures r.Err? ==> r.error == ReadParameters(input).error
      ensures r.Ok? ==> fresh(layerSizes) && layerSizes[..] == ReadParameters(input).value.0
      ensures r.Ok? ==> r.value == ReadParameters(input).value.2
      ensures r.Ok? ==> (activation == null <==> ReadParameters(input).value.1 == None)
      ensures r.Ok? && activation != null ==>
        fresh(activation) && activation.Valid() && activation.scale == 0.0 &&
        ReadParameters(input).value.1.Some? && IsActivationToken(ReadParameters(input).value.1.value) &&
        KindOf(ReadParameters(input).value.1.value.kind) == Some(activation.kind)
    {
      var count :- ReadInt(input);
      if count.0 < 0 {
        return Err(NegativeArraySize(count.0));
      }
      var sizes := new int[count.0];
      layerSizes := sizes;
      var rest :- ReadSizes(count.1, sizes);
      var a :- ReadActivationOrNull(rest);
      if a.0.None? {
        activation := null;
      } else {
        activation := new Activation.Restored(KindOf(a.0.value.kind).value, f, df);
      }
      r := Ok(a.1);
    }

    function Report(renderSizes: seq<int> -> string, activationText: string): (lines: seq<string>)
      reads this, layerSizes
      ensures lines == ParametersReport(renderSizes(layerSizes[..]), activationText)
    {
      ParametersReport(renderSizes(layerSizes[..]), activationText)
    }
  }

  /** The size loop of `readExternal`: one `readInt` per slot, in order. */
  method ReadSizes(input: seq<Token>, data: array<int>) returns (rest: Result<seq<Token>>)
    modifies data
    ensures ReadInts(input, data.Length).Ok? <==> rest.Ok?
    ensures rest.Ok? ==> (data[..], rest.value) == ReadInts(input, data.Length).value
    ensures rest.Err? ==> rest.error == ReadInts(input, data.Length).error
  {
    var ts := input;
    ghost var expected := ReadInts(input, data.Length);
    for i := 0 to data.Length
      invariant expected.Ok? ==> data[..i] == expected.value.0[..i]
      invariant expected.Ok? ==> ReadInts(ts, data.Length - i) == Ok((expected.value.0[i..], expected.value.1))
      invariant expected.Err? ==> ReadInts(ts, data.Length - i) == expected
    {
      var x :- ReadInt(ts);
      ghost var tail := ReadInts(x.1, data.Length - i - 1);
      assert expected.Ok? ==> tail.Ok? && [x.0] + tail.value.0 == expected.value.0[i..];
      data[i] := x.0;
      ts := x.1;
      if expected.Ok? {
        calc {
          tail.value.0;
          ([x.0] + tail.value.0)[1..];
          expected.value.0[i + 1..];
        }
        assert data[..i + 1] == expected.value.0[..i] + [x.0];
        assert expected.value.0[..i + 1] == expected.value.0[..i] + [x.0];
      }
    }
    rest := Ok(ts);
    assert data[..data.Length] == data[..];
    assert expected.Ok? ==> expected.value.0[..data.Length] == expected.value.0;
  }
}
