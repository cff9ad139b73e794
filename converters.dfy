// `ImageService`: the pixel bytes of an image as a one-row matrix of channel
// intensities in [0, 1]. Reading and writing image files and the raster
// lookup that yields the byte array are left out: the bytes, and whether the
// image has an alpha raster, are parameters.

module Converters {
  import opened Wrappers
  import opened MatrixAlgebra

  /** Java's signed `byte`. */
  newtype Byte = b: int | -128 <= b < 128

  /** `value & 0xFF`: the low eight bits of the byte, read as unsigned. */
  function Unsigned(b: Byte): (u: int)
    ensures 0 <= u < 256 && (u - b as int) % 256 == 0
  {
    if b < 0 then b as int + 256 else b as int
  }

  /** `getUnsignedDouble`: the unsigned byte scaled to [0, 1]. */
  function Intensity(b: Byte): (x: real)
    ensures 0.0 <= x <= 1.0
  {
    Unsigned(b) as real / 255.0
  }

  /** Distinct bytes give distinct intensities: the scaling loses nothing. */
  lemma IntensityInjective(a: Byte, b: Byte)
    requires Intensity(a) == Intensity(b)
    ensures a == b
  {
    assert Unsigned(a) as real == Intensity(a) * 255.0;
    assert Unsigned(b) as real == Intensity(b) * 255.0;
  }

  /** The byte read for entry i once the first byte of every four is dropped. */
  function SkipAlpha(i: nat): nat
  {
    i + i / 3 + 1
  }

  /** Entry c of pixel q reads byte c + 1 of that pixel's four. */
  lemma SkipAlphaPixel(q: nat, c: nat)
    requires c < 3
    ensures SkipAlpha(3 * q + c) == 4 * q + c + 1
  {
    assert (3 * q + c) / 3 == q;
  }

  /** Below ⌊n/4⌋·3 entries the byte read stays inside the array. */
  lemma SkipAlphaInRange(n: nat, i: nat)
    requires i < n / 4 * 3
    ensures SkipAlpha(i) < n
  {
    SkipAlphaPixel(i / 3, i % 3);
    assert i == 3 * (i / 3) + i % 3;
  }

  /** Every byte as an intensity, in order. */
  function AllChannels(pixels: seq<Byte>): (r: seq<real>)
    ensures |r| == |pixels| && forall i :: 0 <= i < |pixels| ==> r[i] == Intensity(pixels[i])
  {
    seq(|pixels|, i requires 0 <= i < |pixels| => Intensity(pixels[i]))
  }

  /** Three intensities per four-byte pixel: the pixel's first byte, its
      alpha, is left out. */
  function WithoutAlpha(pixels: seq<Byte>): (r: seq<real>)
    ensures |r| == |pixels| / 4 * 3
  {
    seq(|pixels| / 4 * 3, i requires 0 <= i < |pixels| / 4 * 3 =>
      SkipAlphaInRange(|pixels|, i); Intensity(pixels[SkipAlpha(i)]))
  }

  /** Entry c of pixel q is byte c + 1 of the pixel; no alpha byte is read. */
  lemma WithoutAlphaPixel(pixels: seq<Byte>, q: nat, c: nat)
    requires q < |pixels| / 4 && c < 3
    ensures 3 * q + c < |WithoutAlpha(pixels)| && 4 * q + c + 1 < |pixels|
    ensures WithoutAlpha(pixels)[3 * q + c] == Intensity(pixels[4 * q + c + 1])
  {
    SkipAlphaPixel(q, c);
  }

  /** `getArrayRGB_withoutAlpha`: the loop over ⌊L/4⌋·3 entries. */
  method ArrayWithoutAlpha(pixels: seq<Byte>) returns (r: seq<real>)
    ensures r == WithoutAlpha(pixels)
  {
    var n := |pixels| / 4 * 3;
    var a := new real[n];
    for i := 0 to n
      invariant forall k :: 0 <= k < i ==> a[k] == WithoutAlpha(pixels)[k]
    {
      SkipAlphaInRange(|pixels|, i);
      a[i] := Intensity(pixels[i + i / 3 + 1]);
    }
    r := a[..];
  }

  /** `getArrayARGB_withAlpha`: one entry per byte. */
  method ArrayWithAlpha(pixels: seq<Byte>) returns (r: seq<real>)
    ensures r == AllChannels(pixels)
  {
    var a := new real[|pixels|];
    for i := 0 to |pixels|
      invariant forall k :: 0 <= k < i ==> a[k] == Intensity(pixels[k])
    {
      a[i] := Intensity(pixels[i]);
    }
    r := a[..];
  }

  /** What `getArrayRGB` returns: the alpha bytes are dropped only when the
      image has an alpha raster and the caller declines it. */
  function Channels(pixels: seq<Byte>, hasAlpha: bool, withAlpha: bool): seq<real>
  {
    if hasAlpha && !withAlpha then WithoutAlpha(pixels) else AllChannels(pixels)
  }

  /** `getArrayRGB`. */
  method ArrayRGB(pixels: seq<Byte>, hasAlpha: bool, withAlpha: bool) returns (r: seq<real>)
    ensures r == Channels(pixels, hasAlpha, withAlpha)
  {
    if hasAlpha && !withAlpha {
      r := ArrayWithoutAlpha(pixels);
    } else {
      r := ArrayWithAlpha(pixels);
    }
  }

  /** `convertRGB(source, withAlpha)`: the channels as one row, every entry
      in [0, 1]; an image without channels has no columns, which
      `Matrix.create` refuses. */
  method ConvertRGB(pixels: seq<Byte>, hasAlpha: bool, withAlpha: bool) returns (r: Result<Matrix>)
    ensures r.Ok? <==> |Channels(pixels, hasAlpha, withAlpha)| > 0
    ensures r.Err? ==> r.error == IllegalArgument("columns")
    ensures r.Ok? ==> r.value.rows == 1 && r.value.data == Channels(pixels, hasAlpha, withAlpha)
    ensures r.Ok? ==> forall k :: 0 <= k < |r.value.data| ==> 0.0 <= r.value.data[k] <= 1.0
  {
    var data := ArrayRGB(pixels, hasAlpha, withAlpha);
    r := Create(1, |data|, data);
    if r.Ok? && !(hasAlpha && !withAlpha) {
      assert forall k :: 0 <= k < |data| ==> data[k] == Intensity(pixels[k]);
    } else if r.Ok? {
      forall k | 0 <= k < |data|
        ensures 0.0 <= data[k] <= 1.0
      {
        SkipAlphaInRange(|pixels|, k);
      }
    }
  }
}
