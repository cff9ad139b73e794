// Decimal text of integers, as `String.valueOf(int)` and `%d` write it, and
// the few `String` operations the parsers use: `split` around a single
// character, `trim` and `Integer.parseUnsignedInt`.

module Text {
  import opened Wrappers
  import opened Numerics

  predicate IsDigit(c: char)
  {
    '0' <= c <= '9'
  }

  function DigitChar(d: nat): (c: char)
    requires d < 10
    ensures IsDigit(c) && (c as int) - ('0' as int) == d
  {
    (('0' as int) + d) as char
  }

  /** The decimal digits of n, without leading zeros. */
  function NatToString(n: nat): (s: string)
    ensures |s| >= 1 && (forall k :: 0 <= k < |s| ==> IsDigit(s[k]))
    ensures s[0] == '0' ==> n == 0
    decreases n
  {
    if n < 10 then [DigitChar(n)] else NatToString(n / 10) + [DigitChar(n % 10)]
  }

  /** `String.valueOf(n)`: a minus sign before the digits of a negative number. */
  function IntToString(n: int): (s: string)
    ensures |s| >= 1 && (n < 0 <==> s[0] == '-')
    ensures n >= 0 ==> s == NatToString(n)
  {
    if n < 0 then "-" + NatToString(-n) else NatToString(n)
  }

  /** The value of a string of decimal digits. */
  function DigitsValue(s: string): nat
    requires forall k :: 0 <= k < |s| ==> IsDigit(s[k])
  {
    if s == [] then 0
    else
      assert IsDigit(s[|s| - 1]);
      10 * DigitsValue(s[..|s| - 1]) + ((s[|s| - 1] as int) - ('0' as int))
  }

  /** Reading the digits back gives the number: the text is exact. */
  lemma {:induction false} NatToStringValue(n: nat)
    ensures DigitsValue(NatToString(n)) == n
    decreases n
  {
    var s := NatToString(n);
    if n >= 10 {
      NatToStringValue(n / 10);
      assert s[..|s| - 1] == NatToString(n / 10);
    }
  }

  /** Distinct numbers are written differently. */
  lemma IntToStringInjective(a: int, b: int)
    requires IntToString(a) == IntToString(b)
    ensures a == b
  {
    if a >= 0 {
      NatToStringValue(a);
      NatToStringValue(b);
    } else {
      assert IntToString(a)[1..] == NatToString(-a);
      assert IntToString(b)[1..] == NatToString(-b);
      NatToStringValue(-a);
      NatToStringValue(-b);
    }
  }

  // ---------------------------------------------------------------- split

  /** The pieces of s between the occurrences of sep, left to right: one
      more piece than there are occurrences, empty pieces included. */
  function Pieces(s: string, sep: char): (ps: seq<string>)
    ensures |ps| >= 1
    ensures forall k :: 0 <= k < |ps| ==> sep !in ps[k]
    decreases |s|
  {
    if s == [] then [[]]
    else
      var rest := Pieces(s[1..], sep);
      if s[0] == sep then [[]] + rest else [[s[0]] + rest[0]] + rest[1..]
  }

  /** The pieces written back with sep between them. */
  function Join(ps: seq<string>, sep: char): string
    requires |ps| >= 1
    decreases |ps|
  {
    if |ps| == 1 then ps[0] else ps[0] + [sep] + Join(ps[1..], sep)
  }

  /** Cutting at sep and joining with sep gives the text back. */
  lemma {:induction false} PiecesJoin(s: string, sep: char)
    ensures Join(Pieces(s, sep), sep) == s
    decreases |s|
  {
    if s != [] {
      PiecesJoin(s[1..], sep);
      var rest := Pieces(s[1..], sep);
      if s[0] != sep && |rest| > 1 {
        assert Join(rest, sep) == rest[0] + [sep] + Join(rest[1..], sep);
        assert ([s[0]] + rest[0]) + [sep] + Join(rest[1..], sep) == [s[0]] + Join(rest, sep);
      }
    }
  }

  /** A first piece free of sep, then sep, is cut off as the first piece. */
  lemma {:induction false} PiecesAfter(a: string, sep: char, rest: string)
    requires sep !in a
    ensures Pieces(a + [sep] + rest, sep) == [a] + Pieces(rest, sep)
    decreases |a|
  {
    if a != [] {
      PiecesAfter(a[1..], sep, rest);
      var s := a + [sep] + rest;
      assert s[0] == a[0] && s[1..] == a[1..] + [sep] + rest;
      var r := Pieces(s[1..], sep);
      assert r[0] == a[1..] && r[1..] == Pieces(rest, sep);
      assert [a[0]] + a[1..] == a;
    } else {
      assert (a + [sep] + rest)[1..] == rest;
    }
  }

  /** The list without its trailing empty strings. */
  function DropTrailingEmpty(ps: seq<string>): (qs: seq<string>)
    ensures |qs| <= |ps| && qs == ps[..|qs|]
    ensures qs != [] ==> qs[|qs| - 1] != []
    ensures forall k :: |qs| <= k < |ps| ==> ps[k] == []
    decreases |ps|
  {
    if ps != [] && ps[|ps| - 1] == [] then DropTrailingEmpty(ps[..|ps| - 1]) else ps
  }

  /** `s.split(sep)` with a one-character pattern and no limit: the text
      itself when sep does not occur, otherwise its pieces without the
      trailing empty ones. */
  function Split(s: string, sep: char): (ps: seq<string>)
    ensures forall k :: 0 <= k < |ps| ==> sep !in ps[k]
  {
    if sep !in s then [s] else DropTrailingEmpty(Pieces(s, sep))
  }

  // ---------------------------------------------------------------- trim

  /** `trim`: the text without the leading and trailing characters at or
      below the space character. */
  function Trim(s: string): (t: string)
    ensures |t| <= |s|
    ensures t != [] ==> t[0] > ' ' && t[|t| - 1] > ' '
    ensures (s == [] || (s[0] > ' ' && s[|s| - 1] > ' ')) ==> t == s
    decreases |s|
  {
    if s != [] && s[0] <= ' ' then Trim(s[1..])
    else if s != [] && s[|s| - 1] <= ' ' then Trim(s[..|s| - 1])
    else s
  }

  // ---------------------------------------------------------------- parseUnsignedInt

  predicate AllDigits(s: string)
  {
    forall k :: 0 <= k < |s| ==> IsDigit(s[k])
  }

  /** The digits after an optional leading plus sign. */
  function UnsignedDigits(s: string): string
  {
    if s != [] && s[0] == '+' then s[1..] else s
  }

  /** `Integer.parseUnsignedInt(s)`: an optional '+' and at least one
      decimal digit, worth at most 2^32 - 1; the value comes back as the int
      with the same 32 bits. Anything else, a minus sign included, is a
      NumberFormatException, here None. */
  function ParseUnsignedInt(s: string): (r: Option<int>)
    ensures r.Some? <==> UnsignedDigits(s) != [] && AllDigits(UnsignedDigits(s)) && DigitsValue(UnsignedDigits(s)) <= 0xFFFF_FFFF
    ensures r.Some? ==> IntMin <= r.value <= IntMax && (r.value - DigitsValue(UnsignedDigits(s))) % 0x1_0000_0000 == 0
    ensures r.Some? && DigitsValue(UnsignedDigits(s)) <= IntMax ==> r.value == DigitsValue(UnsignedDigits(s))
  {
    var digits := UnsignedDigits(s);
    if digits == [] || !AllDigits(digits) then None
    else
      var v := DigitsValue(digits);
      if v > 0xFFFF_FFFF then None else Some(Wrap32(v))
  }

  /** The text of a non-negative int parses back to it, and the text of a
      negative one, which starts with a minus sign, does not parse. */
  lemma ParseUnsignedIntOfText(n: int)
    requires IntMin <= n <= IntMax
    ensures n >= 0 ==> ParseUnsignedInt(IntToString(n)) == Some(n)
    ensures n < 0 ==> ParseUnsignedInt(IntToString(n)) == None
  {
    var s := IntToString(n);
    if n >= 0 {
      NatToStringValue(n);
      assert UnsignedDigits(s) == s;
    } else {
      assert UnsignedDigits(s) == s && !IsDigit(s[0]);
    }
  }
}
