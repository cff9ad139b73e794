// Result and Option wrappers for the exceptions the Java code throws, and the
// few facts about integer products and row-major indices that the solver
// cannot find on its own.

module Wrappers {

  datatype Option<T> = None | Some(value: T)

  /** The exceptions of the Java code, one constructor per kind of failure. */
  datatype Error =
    | IllegalArgument(what: string)      // IllegalArgumentException
    | Arithmetic(what: string)           // ArithmeticException (shape mismatch)
    | IllegalState(what: string)         // IllegalStateException
    | IndexOutOfBounds(index: int)       // ArrayIndexOutOfBounds / IndexOutOfBounds
    | NullPointer                        // NullPointerException
    | NumberFormat(text: string)         // NumberFormatException
    | NegativeArraySize(size: int)       // NegativeArraySizeException
    | EndOfStream                        // EOFException: the stream ended early
    | StreamCorrupted                    // a value of another type where one was expected
    | ClassCast(kind: string)            // ClassCastException: an object of another class
    | NoSuchElement                      // NoSuchElementException: an exhausted iterator
    | UnsupportedOperation               // UnsupportedOperationException: an unmodifiable list

  datatype Result<T> = Ok(value: T) | Err(error: Error)
  {
    predicate IsFailure() { Err? }
    function PropagateFailure<U>(): Result<U>
      requires Err?
    {
      Err(error)
    }
    function Extract(): T
      requires Ok?
    {
      value
    }
  }
}

module Arith {

  lemma {:induction false} NonNegProduct(x: int, y: int)
    requires 0 <= x && 0 <= y
    ensures 0 <= x * y
    decreases y
  {
    if y > 0 {
      NonNegProduct(x, y - 1);
      assert x * y == x * (y - 1) + x;
    }
  }

  lemma MulMonotone(a: int, b: int, c: int)
    requires a <= b && 0 <= c
    ensures a * c <= b * c
  {
    assert b * c == a * c + (b - a) * c;
    NonNegProduct(b - a, c);
  }

  /** Appending in two steps appends the concatenation; stated once so that
      proofs over appended records and token lists need not rediscover it. */
  lemma AppendAssociates<T>(a: seq<T>, b: seq<T>, c: seq<T>)
    ensures (a + b) + c == a + (b + c)
  {
  }

  /** n copies of c added up; it keeps products out of loop invariants. */
  function Times(n: nat, c: int): int
  {
    if n == 0 then 0 else Times(n - 1, c) + c
  }

  lemma {:induction false} TimesIsProduct(n: nat, c: int)
    ensures Times(n, c) == n * c
  {
    if n > 0 {
      TimesIsProduct(n - 1, c);
      assert n * c == (n - 1) * c + c;
    }
  }

  /** Row-major index (i, j) of a rows-by-columns matrix lies inside the buffer. */
  lemma InRange(i: int, j: int, rows: int, columns: int)
    requires 0 <= i < rows && 0 <= j < columns
    ensures 0 <= i * columns + j < rows * columns
  {
    NonNegProduct(i, columns);
    MulMonotone(i + 1, rows, columns);
    assert (i + 1) * columns == i * columns + columns;
  }

  /** The row-major index determines its row and column. */
  lemma DivMod(i: int, j: int, columns: int)
    requires columns > 0 && 0 <= i && 0 <= j < columns
    ensures (i * columns + j) / columns == i && (i * columns + j) % columns == j
  {
    var k := i * columns + j;
    var q, m := k / columns, k % columns;
    assert k == q * columns + m;
    if q > i {
      assert (i + 1) * columns == i * columns + columns;
      MulMonotone(i + 1, q, columns);
    } else if q < i {
      assert (q + 1) * columns == q * columns + columns;
      MulMonotone(q + 1, i, columns);
    }
  }

  /** The index of entry `offset` of block `block` in a layout of blocks of `size`. */
  function Slot(block: int, size: int, offset: int): int
  {
    block * size + offset
  }

  /** Every buffer index is the row-major index of one in-range (row, column). */
  lemma Split(k: int, rows: int, columns: int)
    requires columns > 0 && 0 <= k < rows * columns
    ensures 0 <= k / columns < rows && 0 <= k % columns < columns
    ensures k == (k / columns) * columns + k % columns
  {
    var q := k / columns;
    assert k == q * columns + k % columns;
    if q >= rows {
      MulMonotone(rows, q, columns);
    }
  }
}

// Java's fixed-width integers, and the conversions from double that the
// source applies, written out over unbounded integers.
module Numerics {

  const IntMin: int := -0x8000_0000
  const IntMax: int := 0x7FFF_FFFF
  const LongMin: int := -0x8000_0000_0000_0000
  const LongMax: int := 0x7FFF_FFFF_FFFF_FFFF

  /** The narrowing `(int)` of a long: the low 32 bits as a two's-complement value. */
  function Wrap32(x: int): (r: int)
    ensures IntMin <= r <= IntMax
    ensures (x - r) % 0x1_0000_0000 == 0
    ensures IntMin <= x <= IntMax ==> r == x
  {
    (x - IntMin) % 0x1_0000_0000 + IntMin
  }

  /** `Math.round(double)`: floor(x + 0.5), saturated to the long range. */
  function RoundLong(x: real): (n: int)
    ensures LongMin <= n <= LongMax
    ensures LongMin <= (x + 0.5).Floor <= LongMax ==> x - 0.5 < n as real <= x + 0.5
    ensures (x + 0.5).Floor > LongMax ==> n == LongMax
    ensures (x + 0.5).Floor < LongMin ==> n == LongMin
  {
    var f := (x + 0.5).Floor;
    if f < LongMin then LongMin else if f > LongMax then LongMax else f
  }
}
