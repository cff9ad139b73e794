// The output-buffer operations of `matrix/MatrixUtils.java`. Each operation
// validates shapes, then writes its result into a matrix the caller supplies.
// The output may be the very object passed as an input: the element-wise
// operations read entry i before writing entry i, so they stay correct under
// that aliasing, while the products and `trans` read entries after earlier
// writes and their entries are specified only for an output distinct from the
// inputs; their exceptions are specified for every call.
//
// The Java class calls `getItem(i)`, `setItem(i, v)`, `setItem(row, column, v)`
// and `getItemsNumber()`, which the matrix interface of this snapshot does not
// declare; they are taken here as the flat and row-major buffer accesses of
// `MatrixJava`, with Java's array bounds check on the flat ones and the
// `getItem` bounds check (row first, then column) on the two-index one.

module MatrixUtils {
  import opened Wrappers
  import opened MatrixAlgebra
  import opened Matrices
  import Arith

  // ------------------------------------------------------------ validators

  /** `validateRowsMismatch`. */
  function RowsCheck(leftRows: int, rightRows: int): Option<Error> {
    if leftRows != rightRows then Some(RowsMismatch) else None
  }

  /** `validateColumnsMismatch`. */
  function ColumnsCheck(leftColumns: int, rightColumns: int): Option<Error> {
    if leftColumns != rightColumns then Some(ColumnsMismatch) else None
  }

  /** `validateColumnsRowsMismatch` (and, arguments swapped, `validateRowsColumnsMismatch`). */
  function ColumnsRowsCheck(leftColumns: int, rightRows: int): Option<Error> {
    if leftColumns != rightRows then Some(ColumnsRowsMismatch) else None
  }

  /** Validators run in order: the first failure is the one thrown. */
  function Then(first: Option<Error>, second: Option<Error>): Option<Error> {
    if first.Some? then first else second
  }

  /** Rows, then columns, of two matrices. */
  function SameShape(a: MatrixJava, b: MatrixJava): Option<Error>
    reads a, b
  {
    Then(RowsCheck(a.rowLength, b.rowLength), ColumnsCheck(a.columnLength, b.columnLength))
  }

  // ------------------------------------------------------------ element-wise

  /**
   * The flat loop every element-wise operation runs: `c[i] = f(a[i], b[i])`
   * for each i below a's length, reading both inputs before the write. A c
   * shorter than a fails with an index error at its first missing slot, after
   * every earlier slot has been written.
   */
  method ZipInto(a: array<real>, b: array<real>, f: (real, real) -> real, c: array<real>)
    returns (thrown: Option<Error>)
    requires a.Length <= b.Length
    modifies c
    ensures thrown == (if c.Length < a.Length then Some(IndexOutOfBounds(c.Length)) else None)
    ensures forall k :: 0 <= k < a.Length && k < c.Length ==> c[k] == f(old(a[k]), old(b[k]))
    ensures forall k :: a.Length <= k < c.Length ==> c[k] == old(c[k])
  {
    for i := 0 to a.Length
      invariant i <= c.Length
      invariant forall k :: 0 <= k < i ==> c[k] == f(old(a[k]), old(b[k]))
      invariant forall k :: i <= k < c.Length ==> c[k] == old(c[k])
      invariant forall k :: i <= k < a.Length ==> a[k] == old(a[k])
      invariant forall k :: i <= k < b.Length ==> b[k] == old(b[k])
    {
      if i == c.Length {
        return Some(IndexOutOfBounds(i));
      }
      c[i] := f(a[i], b[i]);
    }
    thrown := None;
  }

  /** `add`, `sub` and `prod`: a and b, then a and c, must have one shape; c = a op b. */
  method Pointwise(op: Pointwise, a: MatrixJava, b: MatrixJava, c: MatrixJava) returns (thrown: Option<Error>)
    requires a.Valid() && b.Valid() && c.Valid()
    modifies c.buffer
    ensures thrown == Then(SameShape(a, b), SameShape(a, c))
    ensures thrown.Some? ==> c.buffer[..] == old(c.buffer[..])
    ensures thrown.None? ==> c.Value() == Elementwise(op, old(a.Value()), old(b.Value())).value
  {
    thrown := Then(SameShape(a, b), SameShape(a, c));
    if thrown.Some? {
      return;
    }
    ghost var spec := Elementwise(op, a.Value(), b.Value()).value;
    var _ := ZipInto(a.buffer, b.buffer, (x, y) => Combine(op, x, y), c.buffer);
    assert c.buffer[..] == spec.data;
  }

  method Add(a: MatrixJava, b: MatrixJava, c: MatrixJava) returns (thrown: Option<Error>)
    requires a.Valid() && b.Valid() && c.Valid()
    modifies c.buffer
    ensures thrown == Then(SameShape(a, b), SameShape(a, c))
    ensures thrown.Some? ==> c.buffer[..] == old(c.buffer[..])
    ensures thrown.None? ==> c.Value() == Elementwise(Plus, old(a.Value()), old(b.Value())).value
  {
    thrown := Pointwise(Plus, a, b, c);
  }

  method Sub(a: MatrixJava, b: MatrixJava, c: MatrixJava) returns (thrown: Option<Error>)
    requires a.Valid() && b.Valid() && c.Valid()
    modifies c.buffer
    ensures thrown == Then(SameShape(a, b), SameShape(a, c))
    ensures thrown.Some? ==> c.buffer[..] == old(c.buffer[..])
    ensures thrown.None? ==> c.Value() == Elementwise(Minus, old(a.Value()), old(b.Value())).value
  {
    thrown := Pointwise(Minus, a, b, c);
  }

  method Prod(a: MatrixJava, b: MatrixJava, c: MatrixJava) returns (thrown: Option<Error>)
    requires a.Valid() && b.Valid() && c.Valid()
    modifies c.buffer
    ensures thrown == Then(SameShape(a, b), SameShape(a, c))
    ensures thrown.Some? ==> c.buffer[..] == old(c.buffer[..])
    ensures thrown.None? ==> c.Value() == Elementwise(Times, old(a.Value()), old(b.Value())).value
  {
    thrown := Pointwise(Times, a, b, c);
  }

  /** `scale(a, s, b)`: a and b must have one shape; b = s·a. */
  method Scale(a: MatrixJava, s: real, b: MatrixJava) returns (thrown: Option<Error>)
    requires a.Valid() && b.Valid()
    modifies b.buffer
    ensures thrown == SameShape(a, b)
    ensures thrown.Some? ==> b.buffer[..] == old(b.buffer[..])
    ensures thrown.None? ==> b.Value() == MatrixAlgebra.Scale(old(a.Value()), s)
  {
    thrown := SameShape(a, b);
    if thrown.Some? {
      return;
    }
    ghost var spec := MatrixAlgebra.Scale(a.Value(), s);
    var _ := ZipInto(a.buffer, a.buffer, (x, y) => x * s, b.buffer);
    forall k | 0 <= k < b.buffer.Length
      ensures b.buffer[k] == spec.data[k]
    {
      assert b.buffer[k] == old(a.buffer[k]) * s;
    }
    assert b.buffer[..] == spec.data;
  }

  /**
   * `scaleAdd(a, b, s, c)`: only a and b are checked against each other;
   * c[i] = a[i] + s·b[i] for every i of a. A c with fewer entries fails part
   * way, a c with more keeps its tail.
   */
  method ScaleAdd(a: MatrixJava, b: MatrixJava, s: real, c: MatrixJava) returns (thrown: Option<Error>)
    requires a.Valid() && b.Valid() && c.Valid()
    modifies c.buffer
    ensures SameShape(a, b).Some? ==> thrown == SameShape(a, b) && c.buffer[..] == old(c.buffer[..])
    ensures SameShape(a, b).None? ==> thrown == (if c.buffer.Length < a.buffer.Length then Some(IndexOutOfBounds(c.buffer.Length)) else None)
    ensures SameShape(a, b).None? ==> forall k :: 0 <= k < a.buffer.Length && k < c.buffer.Length ==>
      c.buffer[k] == MatrixAlgebra.ScaleAdd(old(a.Value()), s, old(b.Value())).value.data[k]
    ensures forall k :: a.buffer.Length <= k < c.buffer.Length ==> c.buffer[k] == old(c.buffer[k])
  {
    thrown := SameShape(a, b);
    if thrown.Some? {
      return;
    }
    thrown := ZipInto(a.buffer, b.buffer, (x, y) => x + s * y, c.buffer);
  }

  /** `scaleSub(a, b, s, c)`: the checks of `scaleAdd`; c[i] = a[i] − s·b[i], that is scaleAdd with −s. */
  method ScaleSub(a: MatrixJava, b: MatrixJava, s: real, c: MatrixJava) returns (thrown: Option<Error>)
    requires a.Valid() && b.Valid() && c.Valid()
    modifies c.buffer
    ensures SameShape(a, b).Some? ==> thrown == SameShape(a, b) && c.buffer[..] == old(c.buffer[..])
    ensures SameShape(a, b).None? ==> thrown == (if c.buffer.Length < a.buffer.Length then Some(IndexOutOfBounds(c.buffer.Length)) else None)
    ensures SameShape(a, b).None? ==> forall k :: 0 <= k < a.buffer.Length && k < c.buffer.Length ==>
      c.buffer[k] == MatrixAlgebra.ScaleAdd(old(a.Value()), -s, old(b.Value())).value.data[k]
    ensures forall k :: a.buffer.Length <= k < c.buffer.Length ==> c.buffer[k] == old(c.buffer[k])
  {
    thrown := SameShape(a, b);
    if thrown.Some? {
      return;
    }
    thrown := ZipInto(a.buffer, b.buffer, (x, y) => x - s * y, c.buffer);
  }

  /** `apply(a, f, b)`: a and b must have one shape; b = f applied to each entry of a. */
  method Apply(a: MatrixJava, f: real -> real, b: MatrixJava) returns (thrown: Option<Error>)
    requires a.Valid() && b.Valid()
    modifies b.buffer
    ensures thrown == SameShape(a, b)
    ensures thrown.Some? ==> b.buffer[..] == old(b.buffer[..])
    ensures thrown.None? ==> b.Value() == MatrixAlgebra.Apply(old(a.Value()), f)
  {
    thrown := SameShape(a, b);
    if thrown.Some? {
      return;
    }
    ghost var spec := MatrixAlgebra.Apply(a.Value(), f);
    var _ := ZipInto(a.buffer, a.buffer, (x, y) => f(x), b.buffer);
    assert b.buffer[..] == spec.data;
  }

  /** `copyTo(a, b)`: a and b must have one shape; b then holds a's entries. */
  method CopyTo(a: MatrixJava, b: MatrixJava) returns (thrown: Option<Error>)
    requires a.Valid() && b.Valid()
    modifies b.buffer
    ensures thrown == SameShape(a, b)
    ensures thrown.Some? ==> b.buffer[..] == old(b.buffer[..])
    ensures thrown.None? ==> b.Value() == old(a.Value())
  {
    thrown := SameShape(a, b);
    if thrown.Some? {
      return;
    }
    ghost var spec := a.Value();
    var _ := ZipInto(a.buffer, a.buffer, (x, y) => x, b.buffer);
    assert b.buffer[..] == spec.data;
  }

  // ------------------------------------------------------------ products

  /** The checks of `mul(a, b, c)`: rows of a and c, columns of b and c, then a's columns against b's rows. */
  function MulCheck(a: MatrixJava, b: MatrixJava, c: MatrixJava): Option<Error>
    reads a, b, c
  {
    Then(RowsCheck(a.rowLength, c.rowLength),
      Then(ColumnsCheck(b.columnLength, c.columnLength), ColumnsRowsCheck(a.columnLength, b.rowLength)))
  }

  /**
   * `mul(a, b, c)`: each c(i, j) is overwritten with row i of a times column
   * j of b, whatever c held before.
   */
  method Mul(a: MatrixJava, b: MatrixJava, c: MatrixJava) returns (thrown: Option<Error>)
    requires a.Valid() && b.Valid() && c.Valid()
    modifies c.buffer
    ensures thrown == MulCheck(a, b, c)
    ensures thrown.Some? ==> c.buffer[..] == old(c.buffer[..])
    ensures thrown.None? && c.buffer != a.buffer && c.buffer != b.buffer ==>
      c.Value() == MatrixAlgebra.Mul(old(a.Value()), old(b.Value())).value
  {
    thrown := MulCheck(a, b, c);
    if thrown.Some? {
      return;
    }
    ghost var separate := c.buffer != a.buffer && c.buffer != b.buffer;
    ghost var p := MatrixAlgebra.Mul(a.Value(), b.Value()).value;
    ghost var before := c.Value();
    var r1, c1 := c.rowLength, c.columnLength;
    for i := 0 to r1
      invariant c.Valid()
      invariant separate ==> a.Value() == old(a.Value()) && b.Value() == old(b.Value())
      invariant separate ==> forall i', j' :: 0 <= i' < r1 && 0 <= j' < c1 ==>
        c.Value().Entry(i', j') == if i' < i then p.Entry(i', j') else before.Entry(i', j')
    {
      for j := 0 to c1
        invariant c.Valid()
        invariant separate ==> a.Value() == old(a.Value()) && b.Value() == old(b.Value())
        invariant separate ==> forall i', j' :: 0 <= i' < r1 && 0 <= j' < c1 ==>
          c.Value().Entry(i', j') == if i' < i || (i' == i && j' < j) then p.Entry(i', j') else before.Entry(i', j')
      {
        var value := a.RowTimesColumn(i, b, j);
        ghost var current := c.Value();
        UpdateEntries(current, i, j, value);
        c.buffer[i * c1 + j] := value;
        assert c.Value() == Update(current, i, j, value);
      }
    }
    if separate {
      Extensionality(c.Value(), p);
    }
  }

  /** The checks of `tMul(a, b, c)`: rows of a and b, a's columns against c's rows, columns of c and b. */
  function TMulCheck(a: MatrixJava, b: MatrixJava, c: MatrixJava): Option<Error>
    reads a, b, c
  {
    Then(RowsCheck(a.rowLength, b.rowLength),
      Then(ColumnsRowsCheck(a.columnLength, c.rowLength), ColumnsCheck(c.columnLength, b.columnLength)))
  }

  /** `tMul(a, b, c)`: each c(i, j) is overwritten with column i of a times column j of b. */
  method TMul(a: MatrixJava, b: MatrixJava, c: MatrixJava) returns (thrown: Option<Error>)
    requires a.Valid() && b.Valid() && c.Valid()
    modifies c.buffer
    ensures thrown == TMulCheck(a, b, c)
    ensures thrown.Some? ==> c.buffer[..] == old(c.buffer[..])
    ensures thrown.None? && c.buffer != a.buffer && c.buffer != b.buffer ==>
      c.Value() == MatrixAlgebra.TMul(old(a.Value()), old(b.Value())).value
  {
    thrown := TMulCheck(a, b, c);
    if thrown.Some? {
      return;
    }
    ghost var separate := c.buffer != a.buffer && c.buffer != b.buffer;
    ghost var p := MatrixAlgebra.TMul(a.Value(), b.Value()).value;
    ghost var before := c.Value();
    var r1, c1 := c.rowLength, c.columnLength;
    for i := 0 to r1
      invariant c.Valid()
      invariant separate ==> a.Value() == old(a.Value()) && b.Value() == old(b.Value())
      invariant separate ==> forall i', j' :: 0 <= i' < r1 && 0 <= j' < c1 ==>
        c.Value().Entry(i', j') == if i' < i then p.Entry(i', j') else before.Entry(i', j')
    {
      for j := 0 to c1
        invariant c.Valid()
        invariant separate ==> a.Value() == old(a.Value()) && b.Value() == old(b.Value())
        invariant separate ==> forall i', j' :: 0 <= i' < r1 && 0 <= j' < c1 ==>
          c.Value().Entry(i', j') == if i' < i || (i' == i && j' < j) then p.Entry(i', j') else before.Entry(i', j')
      {
        var value := a.ColumnTimesColumn(i, b, j);
        ghost var current := c.Value();
        UpdateEntries(current, i, j, value);
        c.buffer[i * c1 + j] := value;
        assert c.Value() == Update(current, i, j, value);
      }
    }
    if separate {
      Extensionality(c.Value(), p);
    }
  }

  /** The checks of `mulT(a, b, c)`: columns of a and b, rows of c and a, c's columns against b's rows. */
  function MulTCheck(a: MatrixJava, b: MatrixJava, c: MatrixJava): Option<Error>
    reads a, b, c
  {
    Then(ColumnsCheck(a.columnLength, b.columnLength),
      Then(RowsCheck(c.rowLength, a.rowLength), ColumnsRowsCheck(c.columnLength, b.rowLength)))
  }

  /** `mulT(a, b, c)`: each c(i, j) is overwritten with row i of a times row j of b. */
  method MulT(a: MatrixJava, b: MatrixJava, c: MatrixJava) returns (thrown: Option<Error>)
    requires a.Valid() && b.Valid() && c.Valid()
    modifies c.buffer
    ensures thrown == MulTCheck(a, b, c)
    ensures thrown.Some? ==> c.buffer[..] == old(c.buffer[..])
    ensures thrown.None? && c.buffer != a.buffer && c.buffer != b.buffer ==>
      c.Value() == MatrixAlgebra.MulT(old(a.Value()), old(b.Value())).value
  {
    thrown := MulTCheck(a, b, c);
    if thrown.Some? {
      return;
    }
    ghost var separate := c.buffer != a.buffer && c.buffer != b.buffer;
    ghost var p := MatrixAlgebra.MulT(a.Value(), b.Value()).value;
    ghost var before := c.Value();
    var r1, c1 := c.rowLength, c.columnLength;
    for i := 0 to r1
      invariant c.Valid()
      invariant separate ==> a.Value() == old(a.Value()) && b.Value() == old(b.Value())
      invariant separate ==> forall i', j' :: 0 <= i' < r1 && 0 <= j' < c1 ==>
        c.Value().Entry(i', j') == if i' < i then p.Entry(i', j') else before.Entry(i', j')
    {
      for j := 0 to c1
        invariant c.Valid()
        invariant separate ==> a.Value() == old(a.Value()) && b.Value() == old(b.Value())
        invariant separate ==> forall i', j' :: 0 <= i' < r1 && 0 <= j' < c1 ==>
          c.Value().Entry(i', j') == if i' < i || (i' == i && j' < j) then p.Entry(i', j') else before.Entry(i', j')
      {
        var value := a.RowTimesRow(i, b, j);
        ghost var current := c.Value();
        UpdateEntries(current, i, j, value);
        c.buffer[i * c1 + j] := value;
        assert c.Value() == Update(current, i, j, value);
      }
    }
    if separate {
      Extensionality(c.Value(), p);
    }
  }

  // ------------------------------------------------------------ transpose

  /**
   * The loops of `trans` over the first n rows of a: `b.setItem(j, i, a(i, j))`
   * for i < n and every column j of a. When b has its own buffer, b's other
   * columns keep their entries; when it shares a's, later reads see earlier
   * writes and the entries are not stated.
   */
  method TransposeRows(a: MatrixJava, b: MatrixJava, n: int)
    requires a.Valid() && b.Valid()
    requires b.rowLength == a.columnLength && 0 <= n <= a.rowLength && n <= b.columnLength
    modifies b.buffer
    ensures b.Valid()
    ensures a.buffer != b.buffer ==> forall j, i :: 0 <= j < b.rowLength && 0 <= i < b.columnLength ==>
      b.Value().Entry(j, i) == if i < n then old(a.Value()).Entry(i, j) else old(b.Value()).Entry(j, i)
  {
    ghost var separate := a.buffer != b.buffer;
    ghost var before := b.Value();
    for i := 0 to n
      invariant b.Valid() && a.Valid()
      invariant separate ==> a.Value() == old(a.Value())
      invariant separate ==> forall j', i' :: 0 <= j' < b.rowLength && 0 <= i' < b.columnLength ==>
        b.Value().Entry(j', i') == if i' < i then a.Value().Entry(i', j') else before.Entry(j', i')
    {
      for j := 0 to a.columnLength
        invariant b.Valid() && a.Valid()
        invariant separate ==> a.Value() == old(a.Value())
        invariant separate ==> forall j', i' :: 0 <= j' < b.rowLength && 0 <= i' < b.columnLength ==>
          b.Value().Entry(j', i') == if i' < i || (i' == i && j' < j) then a.Value().Entry(i', j') else before.Entry(j', i')
      {
        Arith.InRange(i, j, a.rowLength, a.columnLength);
        var value := a.buffer[i * a.columnLength + j];
        assert value == a.Value().Entry(i, j);
        ghost var current := b.Value();
        UpdateEntries(current, j, i, value);
        b.buffer[j * b.columnLength + i] := value;
        assert b.Value() == Update(current, j, i, value);
      }
    }
  }

  /** The checks of `trans(a, b)` as written: columns of a and b, then a's columns against b's rows. */
  function TransCheck(aRows: int, aColumns: int, bRows: int, bColumns: int): Option<Error> {
    Then(ColumnsCheck(aColumns, bColumns), ColumnsRowsCheck(aColumns, bRows))
  }

  /**
   * `trans(a, b)` as written. Validation passes only when b is a square matrix
   * as wide as a; the loops then write b(j, i) = a(i, j). Once i reaches b's
   * column count (a has more rows than columns) the two-index `setItem`
   * rejects the column, after the earlier rows have been written. The
   * exception does not depend on b sharing a's buffer (`trans(a, a)`); the
   * entries written are stated only for a b with a buffer of its own.
   */
  method TransAsWritten(a: MatrixJava, b: MatrixJava) returns (thrown: Option<Error>)
    requires a.Valid() && b.Valid()
    modifies b.buffer
    ensures TransCheck(a.rowLength, a.columnLength, b.rowLength, b.columnLength).Some? ==>
      thrown == TransCheck(a.rowLength, a.columnLength, b.rowLength, b.columnLength) && b.buffer[..] == old(b.buffer[..])
    ensures TransCheck(a.rowLength, a.columnLength, b.rowLength, b.columnLength).None? ==>
      thrown == (if a.rowLength <= b.columnLength then None else Some(IllegalArgument("column")))
    ensures TransCheck(a.rowLength, a.columnLength, b.rowLength, b.columnLength).None? && a.buffer != b.buffer ==>
      forall j, i :: 0 <= j < b.rowLength && 0 <= i < b.columnLength ==>
        b.Value().Entry(j, i) == if i < a.rowLength then old(a.Value()).Entry(i, j) else old(b.Value()).Entry(j, i)
  {
    thrown := TransCheck(a.rowLength, a.columnLength, b.rowLength, b.columnLength);
    if thrown.Some? {
      return;
    }
    if a.rowLength <= b.columnLength {
      TransposeRows(a, b, a.rowLength);
    } else {
      TransposeRows(a, b, b.columnLength);
      thrown := Some(IllegalArgument("column"));
    }
  }

  /** The checks `trans` evidently intends: b has a's columns as rows and a's rows as columns. */
  function TransposeShapeCheck(aRows: int, aColumns: int, bRows: int, bColumns: int): Option<Error> {
    Then(ColumnsRowsCheck(aColumns, bRows), ColumnsRowsCheck(bColumns, aRows))
  }

  /**
   * `trans(a, b)` with the intended validation: b becomes the transpose of a
   * when it has a buffer of its own. The same loop with b sharing a's buffer
   * passes the check for a square a but does not transpose it.
   */
  method Trans(a: MatrixJava, b: MatrixJava) returns (thrown: Option<Error>)
    requires a.Valid() && b.Valid()
    modifies b.buffer
    ensures thrown == TransposeShapeCheck(a.rowLength, a.columnLength, b.rowLength, b.columnLength)
    ensures thrown.Some? ==> b.buffer[..] == old(b.buffer[..])
    ensures thrown.None? && a.buffer != b.buffer ==> b.Value() == Transpose(old(a.Value()))
  {
    thrown := TransposeShapeCheck(a.rowLength, a.columnLength, b.rowLength, b.columnLength);
    if thrown.Some? {
      return;
    }
    TransposeRows(a, b, a.rowLength);
    if a.buffer != b.buffer {
      ghost var t := Transpose(old(a.Value()));
      forall j, i | 0 <= j < b.rowLength && 0 <= i < b.columnLength
        ensures b.Value().Entry(j, i) == t.Entry(j, i)
      {
      }
      Extensionality(b.Value(), t);
    }
  }

  /**
   * A 1×2 matrix and a 2×1 target, the shape of its transpose, fail the
   * as-written validation.
   */
  lemma TransRejectsTransposeShape()
    ensures TransCheck(1, 2, 2, 1) == Some(ColumnsMismatch)
    ensures TransposeShapeCheck(1, 2, 2, 1) == None
  {
  }

  /** As written, a target of the transpose's shape passes only for a square a. */
  lemma TransCheckNeedsSquare(rows: int, columns: int)
    ensures TransCheck(rows, columns, columns, rows).None? <==> rows == columns
    ensures TransposeShapeCheck(rows, columns, columns, rows).None?
  {
  }

  /** The as-written check passes exactly when b is aColumns × aColumns. */
  lemma TransAsWrittenShapes(aRows: int, aColumns: int, bRows: int, bColumns: int)
    ensures TransCheck(aRows, aColumns, bRows, bColumns).None? <==> bRows == aColumns && bColumns == aColumns
  {
  }
}
