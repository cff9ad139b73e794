// The two datasets of the data module: CIFAR-10 records read from a binary
// file, one label byte then three 1024-byte colour planes per image, and
// Iris lines of four measurements and a species name. Opening and reading
// the files is left out: a CIFAR-10 stream is the bytes it still holds, an
// Iris file the lines it holds, and `Double.parseDouble` is a parameter that
// yields None where Java throws NumberFormatException.

module Datasets {
  import opened Wrappers
  import opened MatrixAlgebra
  import opened Samples
  import opened Converters
  import Text
  import Testers

  /** A one-row target with 1 at `index` and 0 elsewhere. */
  function OneHot(size: nat, index: nat): (m: Matrix)
    requires index < size
    ensures m.Valid() && m.rows == 1 && m.columns == size
    ensures forall k :: 0 <= k < size ==> m.data[k] == if k == index then 1.0 else 0.0
  {
    Matrix(1, size, seq(size, k => if k == index then 1.0 else 0.0))
  }

  /** A tester reads the class of a one-hot target back as its index. */
  lemma OneHotClass(size: nat, index: nat)
    requires index < size
    ensures Testers.ClassIndexOf(Testers.RowItems, OneHot(size, index)) == Ok(index)
  {
    var m := OneHot(size, index);
    var r := Testers.ClassIndexOf(Testers.RowItems, m);
    assert m.data[index] <= m.data[r.value];
  }

  // ---------------------------------------------------------------- CIFAR-10

  /** `IMAGE_SIZE`: the bytes of one image, three planes of 1024. */
  const ImageSize := 3072

  /**
   * Position p after i passes of the copy loop of `formatBytes` and
   * `nextSource`: pass j writes positions j, j + 1 and j + 2 from bytes j,
   * j + 1024 and j + 2048, so each pass overwrites two positions of the one
   * before it.
   */
  function Overlaid<T>(planes: seq<T>, zero: T, i: nat, p: nat): T
    requires i == 0 || i + 2047 < |planes|
  {
    if i == 0 || p > i + 1 then zero
    else if p < i then planes[p]
    else if p == i then planes[i + 1023]
    else planes[i + 2047]
  }

  /** The ⌊n/3⌋ passes over n bytes read nothing past the end. */
  predicate OverlayFits(n: nat)
  {
    n / 3 == 0 || n / 3 + 2047 < n
  }

  /** The first index past the end that the passes read when they do not fit. */
  function FirstOutside(n: nat): int
  {
    if n <= 1024 then 1024 else if n <= 2048 then 2048 else n
  }

  /** A whole image: the red plane in the first 1024 positions, then the
      last green and the last blue byte, then zeros. */
  lemma OverlaidImage<T>(planes: seq<T>, zero: T, p: nat)
    requires |planes| == ImageSize && p < ImageSize
    ensures OverlayFits(|planes|) && |planes| / 3 == 1024
    ensures p < 1024 ==> Overlaid(planes, zero, 1024, p) == planes[p]
    ensures p == 1024 ==> Overlaid(planes, zero, 1024, p) == planes[2047]
    ensures p == 1025 ==> Overlaid(planes, zero, 1024, p) == planes[3071]
    ensures p > 1025 ==> Overlaid(planes, zero, 1024, p) == zero
  {
  }

  /** `formatBytes`: a fresh array of the same length filled by the
      overlapping copy; an array too short for its passes is read past its
      end. */
  method FormatBytes(bytes: seq<Byte>) returns (r: Result<seq<Byte>>)
    ensures r.Ok? <==> OverlayFits(|bytes|)
    ensures r.Err? ==> r.error == IndexOutOfBounds(FirstOutside(|bytes|))
    ensures r.Ok? ==> OverlayFits(|bytes|) && |r.value| == |bytes|
    ensures r.Ok? ==> forall p :: 0 <= p < |bytes| ==> r.value[p] == Overlaid(bytes, 0, |bytes| / 3, p)
  {
    var n := |bytes|;
    var b := new Byte[n](_ => 0);
    var i := 0;
    while i < n / 3
      invariant 0 <= i <= n / 3
      invariant i == 0 || i + 2047 < n
      invariant forall p :: 0 <= p < n ==> b[p] == Overlaid(bytes, 0, i, p)
    {
      b[i] := bytes[i];
      if i + 1024 >= n {
        return Err(IndexOutOfBounds(i + 1024));
      }
      b[i + 1] := bytes[i + 1024];
      if i + 2048 >= n {
        return Err(IndexOutOfBounds(i + 2048));
      }
      b[i + 2] := bytes[i + 2048];
      i := i + 1;
    }
    r := Ok(b[..]);
  }

  /** The loop of `nextSource`: the same overlapping copy, of intensities. */
  method SourceEntries(bytes: seq<Byte>) returns (r: Result<seq<real>>)
    ensures r.Ok? <==> OverlayFits(|bytes|)
    ensures r.Err? ==> r.error == IndexOutOfBounds(FirstOutside(|bytes|))
    ensures r.Ok? ==> OverlayFits(|bytes|) && |r.value| == |bytes|
    ensures r.Ok? ==> forall p :: 0 <= p < |bytes| ==> r.value[p] == Intensity(Overlaid(bytes, 0, |bytes| / 3, p))
  {
    var n := |bytes|;
    var d := new real[n](_ => 0.0);
    var i := 0;
    assert Intensity(0) == 0.0;
    while i < n / 3
      invariant 0 <= i <= n / 3
      invariant i == 0 || i + 2047 < n
      invariant forall p :: 0 <= p < n ==> d[p] == Intensity(Overlaid(bytes, 0, i, p))
    {
      d[i] := Intensity(bytes[i]);
      if i + 1024 >= n {
        return Err(IndexOutOfBounds(i + 1024));
      }
      d[i + 1] := Intensity(bytes[i + 1024]);
      if i + 2048 >= n {
        return Err(IndexOutOfBounds(i + 2048));
      }
      d[i + 2] := Intensity(bytes[i + 2048]);
      i := i + 1;
    }
    r := Ok(d[..]);
  }

  /** The label `in.read()` yields: the next byte unsigned, -1 at the end. */
  function Label(stream: seq<Byte>): int
  {
    if stream == [] then -1 else Unsigned(stream[0])
  }

  /** The bytes `readNBytes(3072)` takes after the label: as many as are left, up to 3072. */
  function Taken(stream: seq<Byte>): nat
  {
    if stream == [] then 0 else if |stream| - 1 < ImageSize then |stream| - 1 else ImageSize
  }

  /** The source `nextSource` builds from the bytes it read. */
  function SourceOf(bytes: seq<Byte>): (r: Result<Matrix>)
    ensures r.Ok? ==> r.value.Valid() && r.value.rows == 1 && r.value.columns == |bytes|
  {
    if !OverlayFits(|bytes|) then Err(IndexOutOfBounds(FirstOutside(|bytes|)))
    else Create(1, |bytes|, seq(|bytes|, p requires 0 <= p < |bytes| => Intensity(Overlaid(bytes, 0, |bytes| / 3, p))))
  }

  /** What `next()` returns on a stream: the target from the label byte,
      then the source from the bytes after it. */
  function Record(stream: seq<Byte>): Result<Sample>
  {
    var cls := Label(stream);
    if !(0 <= cls < 10) then Err(IndexOutOfBounds(cls))
    else
      match SourceOf(stream[1..][..Taken(stream)])
      case Err(e) => Err(e)
      case Ok(source) => NewSample(source, OneHot(10, cls))
  }

  /** The stream after `next()`: the label byte, and the image bytes once
      the label is a class. */
  function RecordRest(stream: seq<Byte>): seq<Byte>
  {
    if stream == [] then []
    else if !(0 <= Label(stream) < 10) then stream[1..]
    else stream[1..][Taken(stream)..]
  }

  /** The iterator `readSamplesFromBinFile` returns, over the bytes the file
      still holds. */
  class Cifar10Reader {
    var remaining: seq<Byte>

    constructor (content: seq<Byte>)
      ensures remaining == content
    {
      remaining := content;
    }

    /** `hasNext`: at least `IMAGE_SIZE` bytes are available. */
    predicate HasNext()
      reads this
    {
      |remaining| >= ImageSize
    }

    /** `nextTarget`: ten zeros with a 1 at the label; a label outside 0..9,
        -1 at the end of the stream included, is an index error. */
    method NextTarget() returns (r: Result<Matrix>)
      modifies this
      ensures remaining == if old(remaining) == [] then [] else old(remaining)[1..]
      ensures r.Ok? <==> 0 <= Label(old(remaining)) < 10
      ensures r.Err? ==> r.error == IndexOutOfBounds(Label(old(remaining)))
      ensures r.Ok? ==> r.value == OneHot(10, Label(old(remaining)))
    {
      var doubles := new real[10](_ => 0.0);
      var index := Label(remaining);
      if remaining != [] {
        remaining := remaining[1..];
      }
      if !(0 <= index < 10) {
        return Err(IndexOutOfBounds(index));
      }
      doubles[index] := 1.0;
      r := Create(1, 10, doubles[..]);
      assert doubles[..] == OneHot(10, index).data;
    }

    /** `nextSource`: up to 3072 bytes, spread by the overlapping copy. */
    method NextSource() returns (r: Result<Matrix>)
      modifies this
      ensures var n := if |old(remaining)| < ImageSize then |old(remaining)| else ImageSize;
        remaining == old(remaining)[n..] && r == SourceOf(old(remaining)[..n])
    {
      var n := if |remaining| < ImageSize then |remaining| else ImageSize;
      var bytes := remaining[..n];
      remaining := remaining[n..];
      var entries := SourceEntries(bytes);
      if entries.Err? {
        return Err(entries.error);
      }
      r := Create(1, |bytes|, entries.value);
      assert entries.value == seq(|bytes|, p requires 0 <= p < |bytes| => Intensity(Overlaid(bytes, 0, |bytes| / 3, p)));
    }

    /** `next()`: the target, then the source, then the sample. */
    method Next() returns (r: Result<Sample>)
      modifies this
      ensures r == Record(old(remaining)) && remaining == RecordRest(old(remaining))
    {
      ghost var stream := remaining;
      var target := NextTarget();
      if target.Err? {
        return Err(target.error);
      }
      assert remaining == stream[1..];
      var source := NextSource();
      assert stream[1..][..Taken(stream)] == remaining[..0] + old(remaining)[..0] + stream[1..][..Taken(stream)];
      if source.Err? {
        return Err(source.error);
      }
      r := NewSample(source.value, target.value);
    }
  }

  /** A record with a class label and a whole image: the one-hot target,
      and a source of 3072 entries holding the red plane, then the last
      green and blue bytes, then zeros. */
  lemma FullRecord(stream: seq<Byte>, p: nat)
    requires |stream| > ImageSize && Label(stream) < 10 && p < ImageSize
    ensures Record(stream).Ok? && Record(stream).value.target == OneHot(10, Label(stream))
    ensures Record(stream).value.source.columns == ImageSize
    ensures p < 1024 ==> Record(stream).value.source.data[p] == Intensity(stream[p + 1])
    ensures p == 1024 ==> Record(stream).value.source.data[p] == Intensity(stream[2048])
    ensures p == 1025 ==> Record(stream).value.source.data[p] == Intensity(stream[3072])
    ensures p > 1025 ==> Record(stream).value.source.data[p] == 0.0
  {
    var bytes := stream[1..][..ImageSize];
    OverlaidImage(bytes, 0, p);
    assert Intensity(0) == 0.0;
  }

  /** `hasNext` asks for 3072 bytes, one fewer than a record takes: on a
      stream of exactly 3072 bytes with a class label, `next()` still
      succeeds, with a source of 3071 entries. */
  lemma ShortRecord(stream: seq<Byte>)
    requires |stream| == ImageSize && Label(stream) < 10
    ensures Record(stream).Ok? && Record(stream).value.source.columns == ImageSize - 1
    ensures RecordRest(stream) == []
  {
    assert OverlayFits(ImageSize - 1);
  }

  /** An exhausted stream fails at the label, with index -1. */
  lemma EndOfStreamRecord()
    ensures Record([]) == Err(IndexOutOfBounds(-1))
  {
  }

  /** The planar-to-interleaved copy the loop evidently stands for: pixel k
      takes its red, green and blue bytes from k, k + 1024 and k + 2048. */
  function Interleaved<T>(planes: seq<T>): (r: seq<T>)
    requires |planes| == ImageSize
    ensures |r| == ImageSize
  {
    seq(ImageSize, p requires 0 <= p < ImageSize => planes[(p % 3) * 1024 + p / 3])
  }

  /** In the interleaved copy channel c of pixel k sits at 3k + c, so every
      byte of the record appears exactly once. */
  lemma InterleavedPixel<T>(planes: seq<T>, k: nat, c: nat)
    requires |planes| == ImageSize && k < 1024 && c < 3
    ensures Interleaved(planes)[3 * k + c] == planes[c * 1024 + k]
  {
    assert (3 * k + c) % 3 == c && (3 * k + c) / 3 == k;
  }

  // ---------------------------------------------------------------- Iris

  /** `types`: the species, in the order of the target's positions. */
  const Species: seq<string> := ["Iris-setosa", "Iris-versicolor", "Iris-virginica"]

  /** `List.indexOf`: the first position of x, or -1. */
  function IndexOf(s: seq<string>, x: string): (i: int)
    ensures -1 <= i < |s|
    ensures i >= 0 ==> s[i] == x && forall k :: 0 <= k < i ==> s[k] != x
    ensures i == -1 <==> x !in s
    decreases |s|
  {
    if s == [] then -1
    else if s[0] == x then 0
    else
      var j := IndexOf(s[1..], x);
      if j == -1 then -1 else j + 1
  }

  /** The first of the first `bound` fields that does not parse, or `bound`. */
  function FirstUnparsed(line: seq<string>, parse: string -> Option<real>, bound: nat): (k: nat)
    requires bound <= |line|
    ensures k <= bound
    ensures k < bound ==> parse(line[k]).None?
    ensures forall j :: 0 <= j < k ==> parse(line[j]).Some?
    decreases bound
  {
    if bound == 0 then 0
    else
      var k := FirstUnparsed(line, parse, bound - 1);
      if k < bound - 1 then k
      else if parse(line[bound - 1]).None? then bound - 1
      else bound
  }

  /** The passes of `convert(String[])`'s loop that parse a field: one per
      field before the last, the fifth of them failing on its store. */
  function Passes(line: seq<string>): nat
  {
    if |line| == 0 then 0 else if |line| - 1 < 5 then |line| - 1 else 5
  }

  /** The four measurements of a line whose first four fields parse. */
  function Measurements(line: seq<string>, parse: string -> Option<real>): (r: seq<real>)
    requires |line| >= 4 && forall k :: 0 <= k < 4 ==> parse(line[k]).Some?
    ensures |r| == 4 && forall k :: 0 <= k < 4 ==> r[k] == parse(line[k]).value
  {
    [parse(line[0]).value, parse(line[1]).value, parse(line[2]).value, parse(line[3]).value]
  }

  /**
   * What `convert(String[])` returns for a split line: the fields before
   * the last parsed into a four-entry source, and the one-hot target of the
   * species in field 4. A field that does not parse fails first; a line of
   * more than five fields then fails on storing field 4, one of fewer than
   * five on reading field 4, and an unknown species at index -1.
   */
  function IrisSample(line: seq<string>, parse: string -> Option<real>): Result<Sample>
  {
    var bad := FirstUnparsed(line, parse, Passes(line));
    if bad < Passes(line) then Err(NumberFormat(line[bad]))
    else if |line| != 5 then Err(IndexOutOfBounds(4))
    else
      var index := IndexOf(Species, line[4]);
      if index < 0 then Err(IndexOutOfBounds(index))
      else Ok(Sample(Matrix(1, 4, Measurements(line, parse)), OneHot(3, index)))
  }

  /** A line converts exactly when it has five fields, the first four parse
      and the fifth names a species; the sample then holds the four values
      and the species' position, which a tester reads back as the class. */
  lemma IrisSampleOk(line: seq<string>, parse: string -> Option<real>)
    ensures IrisSample(line, parse).Ok? <==>
      |line| == 5 && (forall k :: 0 <= k < 4 ==> parse(line[k]).Some?) && line[4] in Species
    ensures IrisSample(line, parse).Ok? ==>
      var s := IrisSample(line, parse).value;
      s.source.Valid() && s.source.rows == 1 && s.source.columns == 4 &&
      (forall k :: 0 <= k < 4 ==> s.source.data[k] == parse(line[k]).value) &&
      Testers.ClassIndexOf(Testers.RowItems, s.target) == Ok(IndexOf(Species, line[4]))
  {
    var bad := FirstUnparsed(line, parse, Passes(line));
    if |line| == 5 && (forall k :: 0 <= k < 4 ==> parse(line[k]).Some?) {
      assert bad == 4;
      if line[4] in Species {
        OneHotClass(3, IndexOf(Species, line[4]));
      }
    }
  }

  /** `convert(String[])`: the loop that fills the four-entry source, then
      the species' position in the three-entry target. */
  method ConvertLine(line: seq<string>, parse: string -> Option<real>) returns (r: Result<Sample>)
    ensures r == IrisSample(line, parse)
  {
    var source := new real[4](_ => 0.0);
    var i := 0;
    while i < |line| - 1
      invariant 0 <= i <= Passes(line) && i <= 4
      invariant forall k :: 0 <= k < i ==> parse(line[k]).Some? && source[k] == parse(line[k]).value
    {
      var x := parse(line[i]);
      if x.None? {
        assert FirstUnparsed(line, parse, i + 1) == i;
        FirstUnparsedStays(line, parse, i + 1, Passes(line));
        return Err(NumberFormat(line[i]));
      }
      if i >= 4 {
        assert FirstUnparsed(line, parse, 5) == 5;
        return Err(IndexOutOfBounds(i));
      }
      source[i] := x.value;
      i := i + 1;
    }
    assert FirstUnparsed(line, parse, i) == i == Passes(line);
    if |line| <= 4 {
      return Err(IndexOutOfBounds(4));
    }
    var index := IndexOf(Species, line[4]);
    if index < 0 {
      return Err(IndexOutOfBounds(index));
    }
    var target := new real[3](_ => 0.0);
    target[index] := 1.0;
    assert source[..] == Measurements(line, parse);
    assert target[..] == OneHot(3, index).data;
    var sourceRow := Create(1, 4, source[..]);
    var targetRow := Create(1, 3, target[..]);
    r := NewSample(sourceRow.value, targetRow.value);
  }

  /** A failure among the first n fields is the first failure among more. */
  lemma {:induction false} FirstUnparsedStays(line: seq<string>, parse: string -> Option<real>, n: nat, m: nat)
    requires n <= m <= |line| && FirstUnparsed(line, parse, n) < n
    ensures FirstUnparsed(line, parse, m) == FirstUnparsed(line, parse, n)
    decreases m
  {
    if m > n {
      FirstUnparsedStays(line, parse, n, m - 1);
    }
  }

  /** One line of the file: cut at commas, then converted. */
  function LineSample(line: string, parse: string -> Option<real>): Result<Sample>
  {
    IrisSample(Text.Split(line, ','), parse)
  }

  /** `map(...).toList()` over a conversion that may throw: the values in
      order, or the exception of the first element that fails. */
  function ConvertAll<T, U>(xs: seq<T>, convert: T -> Result<U>): Result<seq<U>>
    decreases |xs|
  {
    if xs == [] then Ok([])
    else
      match convert(xs[0])
      case Err(e) => Err(e)
      case Ok(y) =>
        match ConvertAll(xs[1..], convert)
        case Err(e) => Err(e)
        case Ok(rest) => Ok([y] + rest)
  }

  /** The list converts exactly when every element does, to their values in
      order; otherwise it fails with the exception of the first element
      that fails. */
  lemma {:induction false} ConvertAllInOrder<T, U>(xs: seq<T>, convert: T -> Result<U>)
    ensures ConvertAll(xs, convert).Ok? <==> forall k :: 0 <= k < |xs| ==> convert(xs[k]).Ok?
    ensures ConvertAll(xs, convert).Ok? ==> |ConvertAll(xs, convert).value| == |xs|
    ensures ConvertAll(xs, convert).Ok? ==>
      forall k :: 0 <= k < |xs| ==> convert(xs[k]) == Ok(ConvertAll(xs, convert).value[k])
    ensures ConvertAll(xs, convert).Err? ==>
      exists k :: 0 <= k < |xs| && convert(xs[k]) == Err(ConvertAll(xs, convert).error)
        && (forall j :: 0 <= j < k ==> convert(xs[j]).Ok?)
    decreases |xs|
  {
    if xs != [] {
      var tail := xs[1..];
      ConvertAllInOrder(tail, convert);
      var r := ConvertAll(xs, convert);
      var rest := ConvertAll(tail, convert);
      assert forall k :: 1 <= k < |xs| ==> xs[k] == tail[k - 1];
      if convert(xs[0]).Err? {
        assert convert(xs[0]) == Err(r.error);
      } else if rest.Err? {
        var k :| 0 <= k < |tail| && convert(tail[k]) == Err(rest.error)
          && (forall j :: 0 <= j < k ==> convert(tail[j]).Ok?);
        assert convert(xs[k + 1]) == Err(r.error);
        assert forall j :: 1 <= j < k + 1 ==> convert(xs[j]).Ok?;
      } else {
        assert r.value == [convert(xs[0]).value] + rest.value;
      }
    }
  }

  /** `convert(File)`: every line of the file cut at commas and converted. */
  function ConvertLines(lines: seq<string>, parse: string -> Option<real>): Result<seq<Sample>>
  {
    ConvertAll(lines, line => LineSample(line, parse))
  }

  /** The file converts exactly when every line does, to those lines'
      samples in order; otherwise it fails with the exception of the first
      line that fails. */
  lemma ConvertLinesInOrder(lines: seq<string>, parse: string -> Option<real>)
    ensures ConvertLines(lines, parse).Ok? <==> forall k :: 0 <= k < |lines| ==> LineSample(lines[k], parse).Ok?
    ensures ConvertLines(lines, parse).Ok? ==> |ConvertLines(lines, parse).value| == |lines|
    ensures ConvertLines(lines, parse).Ok? ==>
      forall k :: 0 <= k < |lines| ==> LineSample(lines[k], parse) == Ok(ConvertLines(lines, parse).value[k])
    ensures ConvertLines(lines, parse).Err? ==>
      exists k :: 0 <= k < |lines| && LineSample(lines[k], parse) == Err(ConvertLines(lines, parse).error)
        && (forall j :: 0 <= j < k ==> LineSample(lines[j], parse).Ok?)
  {
    ConvertAllInOrder(lines, line => LineSample(line, parse));
  }
}
