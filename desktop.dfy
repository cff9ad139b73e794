// The text side of two desktop classes: the net-structure form, whose three
// text fields hold the input size, the space-separated hidden sizes and the
// output size, and the file extensions the dialogs filter on. The JavaFX
// widgets are left out: a text field is the string it holds.

module Controllers {
  import opened Wrappers
  import Arith
  import opened Numerics
  import opened Text

  /** `reduce(1, (x, y) -> x * y)` over ints: the product from the left,
      wrapping at every step as Java's int multiplication does. */
  function Product32(vs: seq<int>): (p: int)
    ensures IntMin <= p <= IntMax
    decreases |vs|
  {
    if vs == [] then 1 else Wrap32(Product32(vs[..|vs| - 1]) * vs[|vs| - 1])
  }

  /** Each text parsed by `f`; None as soon as one does not parse. */
  function ParseAll(texts: seq<string>, f: string -> Option<int>): (r: Option<seq<int>>)
    ensures r.Some? <==> forall k :: 0 <= k < |texts| ==> f(texts[k]).Some?
    ensures r.Some? ==> |r.value| == |texts| && forall k :: 0 <= k < |texts| ==> r.value[k] == f(texts[k]).value
    decreases |texts|
  {
    if texts == [] then Some([])
    else
      match ParseAll(texts[..|texts| - 1], f)
      case None => None
      case Some(vs) =>
        match f(texts[|texts| - 1])
        case None => None
        case Some(v) => Some(vs + [v])
  }

  /** The texts that are not empty, in order. */
  function NonEmpty(texts: seq<string>): (r: seq<string>)
    ensures forall k :: 0 <= k < |r| ==> r[k] != []
    decreases |texts|
  {
    if texts == [] then []
    else if texts[|texts| - 1] == [] then NonEmpty(texts[..|texts| - 1])
    else NonEmpty(texts[..|texts| - 1]) + [texts[|texts| - 1]]
  }

  /** `parseUnsignedInt` of the trimmed text. */
  function ParseFactor(text: string): Option<int>
  {
    ParseUnsignedInt(Trim(text))
  }

  /** `parseLayer`: the text cut at '*', every piece trimmed and parsed as
      an unsigned int, the pieces multiplied; null (None) when a piece does
      not parse. */
  function ParseLayer(text: string): Option<int>
  {
    match ParseAll(Split(text, '*'), ParseFactor)
    case None => None
    case Some(factors) => Some(Product32(factors))
  }

  /** `parseLayers`: the text cut at single spaces, the empty pieces dropped
      and the rest parsed as unsigned ints; null (None) when one does not. */
  function ParseLayers(text: string): Option<seq<int>>
  {
    ParseAll(NonEmpty(Split(text, ' ')), ParseUnsignedInt)
  }

  /** The text `setLayers` builds for the hidden sizes: each one followed by
      a space. */
  function Spaced(vs: seq<int>): (s: string)
    decreases |vs|
  {
    if vs == [] then "" else IntToString(vs[0]) + " " + Spaced(vs[1..])
  }

  lemma {:induction false} SpacedSnoc(vs: seq<int>, v: int)
    ensures Spaced(vs + [v]) == Spaced(vs) + IntToString(v) + " "
    decreases |vs|
  {
    if vs != [] {
      SpacedSnoc(vs[1..], v);
      var a, t := IntToString(vs[0]), IntToString(v);
      var tail := Spaced(vs[1..]);
      assert (vs + [v])[0] == vs[0] && (vs + [v])[1..] == vs[1..] + [v];
      calc {
        Spaced(vs + [v]);
        a + " " + Spaced(vs[1..] + [v]);
        a + " " + (tail + t + " ");
        { Arith.AppendAssociates(a + " ", tail + t, " ");
          Arith.AppendAssociates(a + " ", tail, t); }
        a + " " + tail + t + " ";
      }
    }
  }

  /** The text of a number has neither '*' nor ' ', nor blanks to trim. */
  lemma IntTextPlain(n: int)
    ensures '*' !in IntToString(n) && ' ' !in IntToString(n)
    ensures Trim(IntToString(n)) == IntToString(n)
  {
    var s := IntToString(n);
    if n >= 0 {
      assert forall k :: 0 <= k < |s| ==> IsDigit(s[k]);
    } else {
      assert s == "-" + NatToString(-n);
      assert forall k :: 1 <= k < |s| ==> IsDigit(s[k]);
    }
  }

  /** `parseLayer` reads back the text `setLayers` writes for a size exactly
      when the size is not negative. */
  lemma ParseLayerOfText(n: int)
    requires IntMin <= n <= IntMax
    ensures n >= 0 ==> ParseLayer(IntToString(n)) == Some(n)
    ensures n < 0 ==> ParseLayer(IntToString(n)) == None
  {
    var s := IntToString(n);
    IntTextPlain(n);
    ParseUnsignedIntOfText(n);
    assert Split(s, '*') == [s];
    if n >= 0 {
      assert ParseFactor(s) == Some(n);
      assert [s][..0] == [] && [n] == [] + [n];
      assert ParseAll([s], ParseFactor) == Some([n]);
      assert Product32([n]) == Wrap32(1 * n);
    } else {
      assert ParseFactor(s).None?;
    }
  }

  /** The decimal texts of the numbers. */
  function Texts(vs: seq<int>): (ts: seq<string>)
    ensures |ts| == |vs| && forall k :: 0 <= k < |vs| ==> ts[k] == IntToString(vs[k])
    decreases |vs|
  {
    if vs == [] then [] else [IntToString(vs[0])] + Texts(vs[1..])
  }

  /** The pieces of the spaced text are the numbers' texts and one empty
      piece at the end. */
  lemma {:induction false} PiecesOfSpaced(vs: seq<int>)
    ensures Pieces(Spaced(vs), ' ') == Texts(vs) + [""]
    decreases |vs|
  {
    if vs != [] {
      PiecesOfSpaced(vs[1..]);
      IntTextPlain(vs[0]);
      PiecesAfter(IntToString(vs[0]), ' ', Spaced(vs[1..]));
      assert IntToString(vs[0]) + " " + Spaced(vs[1..]) == IntToString(vs[0]) + [' '] + Spaced(vs[1..]);
      assert Texts(vs) + [""] == [IntToString(vs[0])] + (Texts(vs[1..]) + [""]);
    }
  }

  /** A space follows the first number's text. */
  lemma SpacedHasSpace(vs: seq<int>)
    requires vs != []
    ensures ' ' in Spaced(vs)
  {
    var a := IntToString(vs[0]);
    assert Spaced(vs) == a + " " + Spaced(vs[1..]);
    assert Spaced(vs)[|a|] == ' ';
  }

  /** Non-empty texts are kept whole. */
  lemma {:induction false} NonEmptyKeeps(texts: seq<string>)
    requires forall k :: 0 <= k < |texts| ==> texts[k] != []
    ensures NonEmpty(texts) == texts
    decreases |texts|
  {
    if texts != [] {
      NonEmptyKeeps(texts[..|texts| - 1]);
    }
  }

  /** `parseLayers` reads back the hidden sizes `setLayers` writes when none
      of them is negative. */
  lemma ParseLayersOfSpaced(vs: seq<int>)
    requires forall k :: 0 <= k < |vs| ==> 0 <= vs[k] <= IntMax
    ensures ParseLayers(Spaced(vs)) == Some(vs)
  {
    SplitSpaced(vs);
    ParseTexts(vs);
  }

  /** No number's text is empty. */
  lemma TextsNonEmpty(vs: seq<int>)
    ensures forall k :: 0 <= k < |Texts(vs)| ==> Texts(vs)[k] != []
  {
    forall k | 0 <= k < |vs|
      ensures Texts(vs)[k] != []
    {
      assert |IntToString(vs[k])| >= 1;
    }
  }

  /** One empty piece after a non-empty last piece is the only one dropped. */
  lemma DropOneTrailing(ps: seq<string>)
    requires ps != [] && ps[|ps| - 1] != []
    ensures DropTrailingEmpty(ps + [""]) == ps
  {
    assert (ps + [""])[..|ps|] == ps;
  }

  /** The spaced text of some numbers splits into their texts. */
  lemma SplitSpacedPieces(vs: seq<int>)
    requires vs != []
    ensures Split(Spaced(vs), ' ') == Texts(vs)
  {
    TextsNonEmpty(vs);
    SpacedHasSpace(vs);
    PiecesOfSpaced(vs);
    DropOneTrailing(Texts(vs));
  }

  /** Cutting the spaced text at spaces and dropping empty pieces gives the
      numbers' texts. */
  lemma SplitSpaced(vs: seq<int>)
    ensures NonEmpty(Split(Spaced(vs), ' ')) == Texts(vs)
  {
    if vs == [] {
      assert Spaced(vs) == "";
      assert Split(Spaced(vs), ' ') == [""];
      assert NonEmpty([""]) == NonEmpty([]);
    } else {
      SplitSpacedPieces(vs);
    }
    TextsNonEmpty(vs);
    NonEmptyKeeps(Texts(vs));
  }

  /** The texts of non-negative ints parse back to them. */
  lemma ParseTexts(vs: seq<int>)
    requires forall k :: 0 <= k < |vs| ==> 0 <= vs[k] <= IntMax
    ensures ParseAll(Texts(vs), ParseUnsignedInt) == Some(vs)
  {
    var texts := Texts(vs);
    forall k | 0 <= k < |vs|
      ensures ParseUnsignedInt(texts[k]) == Some(vs[k])
    {
      ParseUnsignedIntOfText(vs[k]);
    }
    var r := ParseAll(texts, ParseUnsignedInt);
    assert r.Some?;
    forall k | 0 <= k < |vs|
      ensures r.value[k] == vs[k]
    {
      assert ParseUnsignedInt(texts[k]) == Some(vs[k]);
    }
    assert r.value == vs;
  }

  /** The array `getItem` fills: the input size, the hidden sizes copied
      after it, the output size last. */
  method Framed(input: int, mid: seq<int>, output: int) returns (layerSizes: seq<int>)
    ensures |layerSizes| == |mid| + 2
    ensures layerSizes[0] == input && layerSizes[|mid| + 1] == output && layerSizes[1..|mid| + 1] == mid
  {
    var a := new int[|mid| + 2];
    a[0] := input;
    forall k | 0 <= k < |mid| {
      a[k + 1] := mid[k];
    }
    a[a.Length - 1] := output;
    layerSizes := a[..];
    assert layerSizes[1..|mid| + 1] == mid;
  }

  /** The `StringBuilder` loop of `setLayers`: each hidden size, then a space. */
  method SpacedText(vs: seq<int>) returns (s: string)
    ensures s == Spaced(vs)
  {
    s := "";
    for i := 0 to |vs|
      invariant s == Spaced(vs[..i])
    {
      SpacedSnoc(vs[..i], vs[i]);
      assert vs[..i + 1] == vs[..i] + [vs[i]];
      s := s + IntToString(vs[i]) + " ";
    }
    assert vs[..|vs|] == vs;
  }

  /** The three text fields of the net-structure form. */
  class NetStructureController {
    var inputText: string
    var midText: string
    var outputText: string

    constructor (inputText: string, midText: string, outputText: string)
      ensures this.inputText == inputText && this.midText == midText && this.outputText == outputText
    {
      this.inputText := inputText;
      this.midText := midText;
      this.outputText := outputText;
    }

    /** `isValid`: the input, output and hidden fields all parse. */
    predicate IsValid()
      reads this
    {
      ParseLayer(inputText).Some? && ParseLayer(outputText).Some? && ParseLayers(midText).Some?
    }

    /** `getItem`: the input size, the hidden sizes, the output size; a field
        that does not parse is a null the unboxing or the length read
        dereferences. */
    method GetItem() returns (r: Result<seq<int>>)
      ensures r.Ok? <==> IsValid()
      ensures r.Err? ==> r.error == NullPointer
      ensures r.Ok? ==> |r.value| == |ParseLayers(midText).value| + 2
      ensures r.Ok? ==> r.value[0] == ParseLayer(inputText).value && r.value[|r.value| - 1] == ParseLayer(outputText).value
      ensures r.Ok? ==> r.value[1..|r.value| - 1] == ParseLayers(midText).value
    {
      var input := ParseLayer(inputText);
      if input.None? {
        return Err(NullPointer);
      }
      var mid := ParseLayers(midText);
      var output := ParseLayer(outputText);
      if output.None? || mid.None? {
        return Err(NullPointer);
      }
      var layerSizes := Framed(input.value, mid.value, output.value);
      r := Ok(layerSizes);
    }

    /** `setLayers(item)`: the first and last sizes go to the input and
        output fields; the hidden field is rewritten only when there are
        hidden sizes, and otherwise keeps what it held. An empty item fails
        at `item[0]` before any field changes. */
    method SetLayers(item: seq<int>) returns (thrown: Option<Error>)
      modifies this
      ensures |item| == 0 ==> thrown == Some(IndexOutOfBounds(0)) && unchanged(this)
      ensures |item| > 0 ==> thrown == None && inputText == IntToString(item[0]) &&
                             outputText == IntToString(item[|item| - 1])
      ensures |item| > 2 ==> midText == Spaced(item[1..|item| - 1])
      ensures |item| <= 2 ==> midText == old(midText)
    {
      if |item| == 0 {
        return Some(IndexOutOfBounds(0));
      }
      inputText := IntToString(item[0]);
      outputText := IntToString(item[|item| - 1]);
      if |item| > 2 {
        midText := SpacedText(item[1..|item| - 1]);
      }
      thrown := None;
    }
  }

  /**
   * What `getItem` returns after `setLayers(item)`: the item back when it
   * has hidden sizes and none is negative, since every field then parses
   * to what was written.
   */
  lemma LayersRoundTrip(item: seq<int>)
    requires |item| > 2 && forall k :: 0 <= k < |item| ==> 0 <= item[k] <= IntMax
    ensures ParseLayer(IntToString(item[0])) == Some(item[0])
    ensures ParseLayer(IntToString(item[|item| - 1])) == Some(item[|item| - 1])
    ensures ParseLayers(Spaced(item[1..|item| - 1])) == Some(item[1..|item| - 1])
  {
    ParseLayerOfText(item[0]);
    ParseLayerOfText(item[|item| - 1]);
    ParseLayersOfSpaced(item[1..|item| - 1]);
  }

  /** A trailing '*' is cut off with the empty piece after it. */
  lemma TrailingStar()
    ensures ParseLayer("3*") == Some(3)
  {
    PiecesAfter("3", '*', "");
    assert "3*" == "3" + ['*'] + "";
    assert Split("3*", '*') == DropTrailingEmpty(["3", ""]) == ["3"];
    ParseLayerOfText(3);
    assert IntToString(3) == "3";
  }

  /** A leading '*' leaves an empty first piece, which does not parse. */
  lemma LeadingStar()
    ensures ParseLayer("*3") == None
  {
    PiecesAfter("", '*', "3");
    assert "*3" == "" + ['*'] + "3";
    assert "3"[1..] == "" && Pieces("", '*') == [""];
    assert Pieces("3", '*') == [['3'] + ""] + [];
    assert ['3'] + "" == "3";
    assert "*3"[0] == '*';
    assert Split("*3", '*') == DropTrailingEmpty(["", "3"]) == ["", "3"];
    assert ParseFactor("").None?;
  }

  /** "*" alone has no pieces left and is the empty product, 1. */
  lemma StarAlone()
    ensures ParseLayer("*") == Some(1)
  {
    PiecesAfter("", '*', "");
    assert "*" == "" + ['*'] + "";
    assert Split("*", '*') == DropTrailingEmpty(["", ""]) == [];
  }
}

module Extensions {

  /** The file types of the desktop dialogs. */
  datatype Extension =
    | ActivationFile | SampleFile | MatrixFile | NetFile | NetParFile
    | TrainParFile | TrainResFile | ExpParFile | ExpResFile

  /** `name()`: the constant's own name. */
  function ConstantName(e: Extension): string
  {
    match e
    case ActivationFile => "ACTIVATION"
    case SampleFile => "SAMPLE"
    case MatrixFile => "MATRIX"
    case NetFile => "NET"
    case NetParFile => "NET_PAR"
    case TrainParFile => "TRAIN_PAR"
    case TrainResFile => "TRAIN_RES"
    case ExpParFile => "EXP_PAR"
    case ExpResFile => "EXP_RES"
  }

  /** `getExtensionName`: the name the constant is declared with. */
  function ExtensionName(e: Extension): string
  {
    match e
    case ActivationFile => "activation"
    case SampleFile => "sample"
    case MatrixFile => "matrix"
    case NetFile => "network"
    case NetParFile => "net.par"
    case TrainParFile => "train.par"
    case TrainResFile => "train.res"
    case ExpParFile => "exp.par"
    case ExpResFile => "exp.res"
  }

  /** `toString`: the glob pattern "*." followed by the extension name. */
  function Pattern(e: Extension): (s: string)
    ensures |s| == |ExtensionName(e)| + 2 && s[..2] == "*." && s[2..] == ExtensionName(e)
  {
    "*." + ExtensionName(e)
  }

  /** Distinct constants have distinct patterns. */
  lemma PatternInjective(a: Extension, b: Extension)
    requires Pattern(a) == Pattern(b)
    ensures a == b
  {
    assert Pattern(a)[2..] == ExtensionName(a) && Pattern(b)[2..] == ExtensionName(b);
  }

  predicate EndsWith(s: string, suffix: string)
  {
    |suffix| <= |s| && s[|s| - |suffix|..] == suffix
  }

  /** `getFileFilter`: a file name is accepted when it ends with the pattern
      itself, asterisk included. */
  predicate Accepts(e: Extension, fileName: string)
  {
    EndsWith(fileName, Pattern(e))
  }

  /** `getExtensionFilter`: the constant's name described by the pattern. */
  function ChooserFilter(e: Extension): (f: (string, string))
    ensures f.1 == Pattern(e)
  {
    (ConstantName(e), Pattern(e))
  }

  /** The filter accepts a name with the extension exactly when the part
      before the dot ends with an asterisk: "data.sample" is refused. */
  lemma AcceptsOnlyAsterisk(e: Extension, base: string)
    ensures Accepts(e, base + "." + ExtensionName(e)) <==> base != [] && base[|base| - 1] == '*'
  {
    var name := base + "." + ExtensionName(e);
    var p := Pattern(e);
    if Accepts(e, name) {
      assert name[|name| - |p|] == p[0] == '*';
      assert name[|name| - |p|] == base[|base| - 1];
    }
    if base != [] && base[|base| - 1] == '*' {
      assert name[|name| - |p|..] == [base[|base| - 1]] + "." + ExtensionName(e);
    }
  }

  /** The filter the pattern evidently stands for: the name ends with a dot
      and the extension name. */
  predicate AcceptsExtension(e: Extension, fileName: string)
  {
    EndsWith(fileName, "." + ExtensionName(e))
  }

  /** That filter accepts every name with the extension. */
  lemma AcceptsExtensionOfNamed(e: Extension, base: string)
    ensures AcceptsExtension(e, base + "." + ExtensionName(e))
  {
    var name := base + "." + ExtensionName(e);
    assert name[|name| - |"." + ExtensionName(e)|..] == "." + ExtensionName(e);
  }

  /** It also accepts whatever the as-written filter accepts. */
  lemma AcceptsExtensionOfAccepted(e: Extension, fileName: string)
    requires Accepts(e, fileName)
    ensures AcceptsExtension(e, fileName)
  {
    var p := Pattern(e);
    assert fileName[|fileName| - |p|..][1..] == p[1..] == "." + ExtensionName(e);
    assert fileName[|fileName| - |p|..][1..] == fileName[|fileName| - |p| + 1..];
  }
}
