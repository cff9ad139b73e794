// Externalisation as an ordered sequence of typed values. `writeInt`,
// `writeLong`, `writeDouble` and `writeUTF` each emit one token; `writeObject`
// emits one object token that holds the object's class name and the tokens its
// own writer emits (or a null token). Stream framing, headers and handles are
// not modelled.

module Streams {
  import opened Wrappers

  datatype Token =
    | IntT(i: int)
    | LongT(l: int)
    | DoubleT(d: real)
    | UtfT(s: string)
    | ObjectT(kind: string, fields: seq<Token>)
    | NullT

  function ReadInt(ts: seq<Token>): (r: Result<(int, seq<Token>)>)
    ensures ts == [] ==> r == Err(EndOfStream)
    ensures r.Ok? <==> ts != [] && ts[0].IntT?
    ensures r.Ok? ==> r.value == (ts[0].i, ts[1..])
  {
    if ts == [] then Err(EndOfStream)
    else if ts[0].IntT? then Ok((ts[0].i, ts[1..]))
    else Err(StreamCorrupted)
  }

  function ReadLong(ts: seq<Token>): (r: Result<(int, seq<Token>)>)
    ensures ts == [] ==> r == Err(EndOfStream)
    ensures r.Ok? <==> ts != [] && ts[0].LongT?
    ensures r.Ok? ==> r.value == (ts[0].l, ts[1..])
  {
    if ts == [] then Err(EndOfStream)
    else if ts[0].LongT? then Ok((ts[0].l, ts[1..]))
    else Err(StreamCorrupted)
  }

  function ReadDouble(ts: seq<Token>): (r: Result<(real, seq<Token>)>)
    ensures ts == [] ==> r == Err(EndOfStream)
    ensures r.Ok? <==> ts != [] && ts[0].DoubleT?
    ensures r.Ok? ==> r.value == (ts[0].d, ts[1..])
  {
    if ts == [] then Err(EndOfStream)
    else if ts[0].DoubleT? then Ok((ts[0].d, ts[1..]))
    else Err(StreamCorrupted)
  }

  /** `readObject`: the next object or null token, whatever its class. */
  function ReadObject(ts: seq<Token>): (r: Result<(Token, seq<Token>)>)
    ensures ts == [] ==> r == Err(EndOfStream)
    ensures r.Ok? <==> ts != [] && (ts[0].ObjectT? || ts[0].NullT?)
    ensures r.Ok? ==> r.value == (ts[0], ts[1..])
  {
    if ts == [] then Err(EndOfStream)
    else if ts[0].ObjectT? || ts[0].NullT? then Ok((ts[0], ts[1..]))
    else Err(StreamCorrupted)
  }

  /** One `writeDouble` per value, in order. */
  function Doubles(s: seq<real>): (ts: seq<Token>)
    ensures |ts| == |s|
    ensures forall k :: 0 <= k < |s| ==> ts[k] == DoubleT(s[k])
  {
    seq(|s|, k requires 0 <= k < |s| => DoubleT(s[k]))
  }

  /** n successive `readDouble` calls. */
  function ReadDoubles(ts: seq<Token>, n: nat): (r: Result<(seq<real>, seq<Token>)>)
    ensures r.Ok? ==> |r.value.0| == n
    decreases n
  {
    if n == 0 then Ok(([], ts))
    else if ts == [] then Err(EndOfStream)
    else if !ts[0].DoubleT? then Err(StreamCorrupted)
    else match ReadDoubles(ts[1..], n - 1)
      case Err(e) => Err(e)
      case Ok((xs, rest)) => Ok(([ts[0].d] + xs, rest))
  }

  /** Reading back as many doubles as were written returns them and leaves the rest. */
  lemma {:induction false} DoublesRoundTrip(s: seq<real>, rest: seq<Token>)
    ensures ReadDoubles(Doubles(s) + rest, |s|) == Ok((s, rest))
  {
    if s != [] {
      var ts := Doubles(s) + rest;
      assert ts[0] == DoubleT(s[0]);
      assert ts[1..] == Doubles(s[1..]) + rest;
      DoublesRoundTrip(s[1..], rest);
      assert [s[0]] + s[1..] == s;
    } else {
      assert Doubles(s) + rest == rest;
    }
  }

  /** One `writeInt` per value, in order. */
  function Ints(s: seq<int>): (ts: seq<Token>)
    ensures |ts| == |s|
    ensures forall k :: 0 <= k < |s| ==> ts[k] == IntT(s[k])
  {
    seq(|s|, k requires 0 <= k < |s| => IntT(s[k]))
  }

  /** n successive `readInt` calls. */
  function ReadInts(ts: seq<Token>, n: nat): (r: Result<(seq<int>, seq<Token>)>)
    ensures r.Ok? ==> |r.value.0| == n
    decreases n
  {
    if n == 0 then Ok(([], ts))
    else if ts == [] then Err(EndOfStream)
    else if !ts[0].IntT? then Err(StreamCorrupted)
    else match ReadInts(ts[1..], n - 1)
      case Err(e) => Err(e)
      case Ok((xs, rest)) => Ok(([ts[0].i] + xs, rest))
  }

  lemma {:induction false} IntsRoundTrip(s: seq<int>, rest: seq<Token>)
    ensures ReadInts(Ints(s) + rest, |s|) == Ok((s, rest))
  {
    if s != [] {
      var ts := Ints(s) + rest;
      assert ts[0] == IntT(s[0]);
      assert ts[1..] == Ints(s[1..]) + rest;
      IntsRoundTrip(s[1..], rest);
      assert [s[0]] + s[1..] == s;
    } else {
      assert Ints(s) + rest == rest;
    }
  }
}
