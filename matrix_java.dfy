// The buffer-backed matrix class of `matrix/MatrixJava.java`; the static
// factories of the `matrix/Matrix.java` interface are the static methods at
// the end. The older `nets/Matrix.java` keeps the same fields and the same
// loops for the operations below, and differs in a few places this class
// does not follow: it names its transpose `T()`, zero-fills through a static
// `zeros(Matrix...)`, has no `scaleAdd`, and clones through `super.clone()`
// before copying the array. Its one-row constructor `Matrix(int columns)` is
// `this(1, columns)` and refuses a non-positive count with
// IllegalArgumentException, where the interface's `create(int columns)`
// allocates `new double[columns]` first and so fails a negative count with
// NegativeArraySizeException (`CreateShape`). Sizes are unbounded integers:
// Java's `rows * columns` is an `int` product that can wrap around.

module Matrices {
  import opened Wrappers
  import opened Streams
  import opened MatrixAlgebra
  import Arith

  class MatrixJava {
    var rowLength: int
    var columnLength: int
    var buffer: array<real>

    ghost predicate Valid()
      reads this
    {
      rowLength > 0 && columnLength > 0 && buffer.Length == rowLength * columnLength
    }

    /** The matrix this object currently holds. */
    ghost function Value(): Matrix
      reads this, buffer
    {
      Matrix(rowLength, columnLength, buffer[..])
    }

    /** Stores the three fields; the checked constructors are the static methods below. */
    constructor Adopt(rows: int, columns: int, data: array<real>)
      ensures rowLength == rows && columnLength == columns && buffer == data
    {
      rowLength := rows;
      columnLength := columns;
      buffer := data;
    }

    // ------------------------------------------------------------ constructors

    /** `MatrixJava(rows, columns)`: rows checked first, then columns; entries start at 0. */
    static method New(rows: int, columns: int) returns (r: Result<MatrixJava>)
      ensures r.Ok? <==> rows > 0 && columns > 0
      ensures rows <= 0 ==> r == Err(IllegalArgument("rows"))
      ensures rows > 0 && columns <= 0 ==> r == Err(IllegalArgument("columns"))
      ensures r.Ok? ==> fresh(r.value) && fresh(r.value.buffer) && r.value.Valid()
      ensures r.Ok? ==> r.value.Value() == Matrix(rows, columns, MatrixAlgebra.Zeros(rows, columns))
    {
      if rows <= 0 {
        return Err(IllegalArgument("rows"));
      }
      if columns <= 0 {
        return Err(IllegalArgument("columns"));
      }
      Arith.NonNegProduct(rows, columns);
      var data := new real[rows * columns](_ => 0.0);
      var m := new MatrixJava.Adopt(rows, columns, data);
      r := Ok(m);
    }

    /**
     * `MatrixJava(rows, columns, data)`: the dimension checks of `New`, then the
     * length check; the caller's buffer is adopted, not copied.
     */
    static method WithData(rows: int, columns: int, data: array<real>) returns (r: Result<MatrixJava>)
      ensures r.Ok? <==> MatrixAlgebra.Create(rows, columns, data[..]).Ok?
      ensures r.Err? ==> r.error == MatrixAlgebra.Create(rows, columns, data[..]).error
      ensures r.Ok? ==> fresh(r.value) && r.value.buffer == data && r.value.Valid()
      ensures r.Ok? ==> r.value.Value() == MatrixAlgebra.Create(rows, columns, data[..]).value
    {
      if rows <= 0 {
        return Err(IllegalArgument("rows"));
      }
      if columns <= 0 {
        return Err(IllegalArgument("columns"));
      }
      if rows * columns != data.Length {
        return Err(IllegalArgument("length"));
      }
      var m := new MatrixJava.Adopt(rows, columns, data);
      r := Ok(m);
    }

    /**
     * `MatrixJava(rows, columns, initializer)`: entry k is the initializer's
     * k-th value, `draw(k)`.
     */
    static method Generate(rows: int, columns: int, draw: nat -> real) returns (r: Result<MatrixJava>)
      ensures r.Ok? <==> rows > 0 && columns > 0
      ensures rows <= 0 ==> r == Err(IllegalArgument("rows"))
      ensures rows > 0 && columns <= 0 ==> r == Err(IllegalArgument("columns"))
      ensures r.Ok? ==> fresh(r.value) && fresh(r.value.buffer) && r.value.Valid()
      ensures r.Ok? ==> r.value.rowLength == rows && r.value.columnLength == columns
      ensures r.Ok? ==> forall k :: 0 <= k < rows * columns ==> r.value.buffer[k] == draw(k)
    {
      if rows <= 0 {
        return Err(IllegalArgument("rows"));
      }
      if columns <= 0 {
        return Err(IllegalArgument("columns"));
      }
      Arith.NonNegProduct(rows, columns);
      var data := new real[rows * columns](_ => 0.0);
      for i := 0 to data.Length
        invariant forall k :: 0 <= k < i ==> data[k] == draw(k)
      {
        data[i] := draw(i);
      }
      var m := new MatrixJava.Adopt(rows, columns, data);
      r := Ok(m);
    }

    // ------------------------------------------------------------ access

    /** `getItem(row, column)`: bounds-checked, row first; reads `buffer[columns * row + column]`. */
    method GetItem(row: int, column: int) returns (r: Result<real>)
      requires Valid()
      ensures row < 0 || row >= rowLength ==> r == Err(IllegalArgument("row"))
      ensures 0 <= row < rowLength && (column < 0 || column >= columnLength) ==> r == Err(IllegalArgument("column"))
      ensures 0 <= row < rowLength && 0 <= column < columnLength ==> r == Ok(Value().Entry(row, column))
    {
      if row < 0 || row >= rowLength {
        return Err(IllegalArgument("row"));
      }
      if column < 0 || column >= columnLength {
        return Err(IllegalArgument("column"));
      }
      Arith.InRange(row, column, rowLength, columnLength);
      assert row * columnLength == columnLength * row;
      r := Ok(buffer[columnLength * row + column]);
    }

    // ------------------------------------------------------------ element-wise

    /** The loop shared by `add`, `sub` and `prod`: rows, then columns, then a fresh result. */
    method Pointwise(m: MatrixJava, op: Pointwise) returns (r: Result<MatrixJava>)
      requires Valid() && m.Valid()
      ensures Produces(r, Elementwise(op, Value(), m.Value()))
      ensures r.Ok? ==> fresh(r.value) && fresh(r.value.buffer)
    {
      if rowLength != m.rowLength {
        return Err(RowsMismatch);
      }
      if columnLength != m.columnLength {
        return Err(ColumnsMismatch);
      }
      ghost var spec := Elementwise(op, Value(), m.Value()).value;
      var result := new real[buffer.Length];
      for i := 0 to buffer.Length
        invariant forall k :: 0 <= k < i ==> result[k] == spec.data[k]
      {
        result[i] := Combine(op, buffer[i], m.buffer[i]);
      }
      assert result[..] == spec.data;
      var c := new MatrixJava.Adopt(rowLength, columnLength, result);
      r := Ok(c);
    }

    method Add(m: MatrixJava) returns (r: Result<MatrixJava>)
      requires Valid() && m.Valid()
      ensures Produces(r, Elementwise(Plus, Value(), m.Value()))
      ensures r.Ok? ==> fresh(r.value) && fresh(r.value.buffer)
    {
      r := Pointwise(m, Plus);
    }

    method Sub(m: MatrixJava) returns (r: Result<MatrixJava>)
      requires Valid() && m.Valid()
      ensures Produces(r, Elementwise(Minus, Value(), m.Value()))
      ensures r.Ok? ==> fresh(r.value) && fresh(r.value.buffer)
    {
      r := Pointwise(m, Minus);
    }

    method Prod(m: MatrixJava) returns (r: Result<MatrixJava>)
      requires Valid() && m.Valid()
      ensures Produces(r, Elementwise(Times, Value(), m.Value()))
      ensures r.Ok? ==> fresh(r.value) && fresh(r.value.buffer)
    {
      r := Pointwise(m, Times);
    }

    method Scale(s: real) returns (r: MatrixJava)
      requires Valid()
      ensures fresh(r) && fresh(r.buffer) && r.Valid()
      ensures r.Value() == MatrixAlgebra.Scale(Value(), s)
    {
      ghost var spec := MatrixAlgebra.Scale(Value(), s);
      var result := new real[buffer.Length];
      for i := 0 to buffer.Length
        invariant forall k :: 0 <= k < i ==> result[k] == spec.data[k]
      {
        result[i] := buffer[i] * s;
      }
      assert result[..] == spec.data;
      r := new MatrixJava.Adopt(rowLength, columnLength, result);
    }

    /** `scaleAdd(s, m)`: rows, then columns, then this + s * m. */
    method ScaleAdd(s: real, m: MatrixJava) returns (r: Result<MatrixJava>)
      requires Valid() && m.Valid()
      ensures Produces(r, MatrixAlgebra.ScaleAdd(Value(), s, m.Value()))
      ensures r.Ok? ==> fresh(r.value) && fresh(r.value.buffer)
    {
      if rowLength != m.rowLength {
        return Err(RowsMismatch);
      }
      if columnLength != m.columnLength {
        return Err(ColumnsMismatch);
      }
      ghost var spec := MatrixAlgebra.ScaleAdd(Value(), s, m.Value()).value;
      var result := new real[buffer.Length];
      for i := 0 to buffer.Length
        invariant forall k :: 0 <= k < i ==> result[k] == spec.data[k]
      {
        result[i] := buffer[i] + s * m.buffer[i];
      }
      assert result[..] == spec.data;
      var c := new MatrixJava.Adopt(rowLength, columnLength, result);
      r := Ok(c);
    }

    method Apply(f: real -> real) returns (r: MatrixJava)
      requires Valid()
      ensures fresh(r) && fresh(r.buffer) && r.Valid()
      ensures r.Value() == MatrixAlgebra.Apply(Value(), f)
    {
      ghost var spec := MatrixAlgebra.Apply(Value(), f);
      var result := new real[buffer.Length];
      for i := 0 to buffer.Length
        invariant forall k :: 0 <= k < i ==> result[k] == spec.data[k]
      {
        result[i] := f(buffer[i]);
      }
      assert result[..] == spec.data;
      r := new MatrixJava.Adopt(rowLength, columnLength, result);
    }

    // ------------------------------------------------------------ products
    //
    // Each product fills a zeroed buffer entry by entry, and each entry is the
    // innermost loop's `+=` accumulation starting from 0; the three helpers
    // below are those innermost loops.

    /** The k-loop of `mul`: row i of this times column j of m, accumulated in k order. */
    method RowTimesColumn(i: int, m: MatrixJava, j: int) returns (s: real)
      requires Valid() && m.Valid() && columnLength == m.rowLength
      requires 0 <= i < rowLength && 0 <= j < m.columnLength
      ensures s == Dot(Value().Row(i), m.Value().Column(j))
    {
      ghost var x, y := Value(), m.Value();
      s := 0.0;
      for k := 0 to columnLength
        invariant s == DotUpTo(x.Row(i), y.Column(j), k)
      {
        Arith.InRange(i, k, rowLength, columnLength);
        Arith.InRange(k, j, m.rowLength, m.columnLength);
        var a := buffer[i * columnLength + k];
        var b := m.buffer[k * m.columnLength + j];
        RowColumnStep(x, i, y, j, k, a, b);
        s := s + a * b;
      }
    }

    /** The k-loop of `tMul`: column i of this times column j of m. */
    method ColumnTimesColumn(i: int, m: MatrixJava, j: int) returns (s: real)
      requires Valid() && m.Valid() && rowLength == m.rowLength
      requires 0 <= i < columnLength && 0 <= j < m.columnLength
      ensures s == Dot(Value().Column(i), m.Value().Column(j))
    {
      ghost var x, y := Value(), m.Value();
      s := 0.0;
      for k := 0 to rowLength
        invariant s == DotUpTo(x.Column(i), y.Column(j), k)
      {
        Arith.InRange(k, i, rowLength, columnLength);
        Arith.InRange(k, j, m.rowLength, m.columnLength);
        var a := buffer[k * columnLength + i];
        var b := m.buffer[k * m.columnLength + j];
        ColumnColumnStep(x, i, y, j, k, a, b);
        s := s + a * b;
      }
    }

    /** The k-loop of `mulT`: row i of this times row j of m. */
    method RowTimesRow(i: int, m: MatrixJava, j: int) returns (s: real)
      requires Valid() && m.Valid() && columnLength == m.columnLength
      requires 0 <= i < rowLength && 0 <= j < m.rowLength
      ensures s == Dot(Value().Row(i), m.Value().Row(j))
    {
      ghost var x, y := Value(), m.Value();
      s := 0.0;
      for k := 0 to columnLength
        invariant s == DotUpTo(x.Row(i), y.Row(j), k)
      {
        Arith.InRange(i, k, rowLength, columnLength);
        Arith.InRange(j, k, m.rowLength, m.columnLength);
        var a := buffer[i * columnLength + k];
        var b := m.buffer[j * m.columnLength + k];
        RowRowStep(x, i, y, j, k, a, b);
        s := s + a * b;
      }
    }

    /**
     * The j-loop of `mul` for row i of the result: writes entries
     * `i * m.columnLength` to `i * m.columnLength + m.columnLength - 1`, each the k-loop's sum.
     */
    method MulRow(m: MatrixJava, i: int, result: array<real>, ghost x: Matrix, ghost y: Matrix, ghost p: Matrix)
      requires Valid() && m.Valid() && columnLength == m.rowLength && 0 <= i < rowLength
      requires Value() == x && m.Value() == y
      requires p.Valid() && p.rows == rowLength && p.columns == m.columnLength && result.Length == |p.data|
      requires forall jj :: 0 <= jj < m.columnLength ==> p.Entry(i, jj) == Dot(x.Row(i), y.Column(jj))
      requires result != buffer && result != m.buffer
      requires forall t :: 0 <= t < result.Length && t < i * m.columnLength ==> result[t] == p.data[t]
      modifies result
      ensures forall t :: 0 <= t < result.Length && t < (i + 1) * m.columnLength ==> result[t] == p.data[t]
    {
      Arith.InRange(i, m.columnLength - 1, rowLength, m.columnLength);
      assert (i + 1) * m.columnLength == i * m.columnLength + m.columnLength;
      for j := 0 to m.columnLength
        invariant Value() == x && m.Value() == y
        invariant forall t :: 0 <= t < result.Length && t < i * m.columnLength + j ==> result[t] == p.data[t]
      {
        var s := RowTimesColumn(i, m, j);
        EntryAt(p, i, j);
        result[i * m.columnLength + j] := s;
      }
    }

    /**
     * The j-loop of `tMul` for row i of the result: writes entries
     * `i * m.columnLength` to `i * m.columnLength + m.columnLength - 1`, each the k-loop's sum.
     */
    method TMulRow(m: MatrixJava, i: int, result: array<real>, ghost x: Matrix, ghost y: Matrix, ghost p: Matrix)
      requires Valid() && m.Valid() && rowLength == m.rowLength && 0 <= i < columnLength
      requires Value() == x && m.Value() == y
      requires p.Valid() && p.rows == columnLength && p.columns == m.columnLength && result.Length == |p.data|
      requires forall jj :: 0 <= jj < m.columnLength ==> p.Entry(i, jj) == Dot(x.Column(i), y.Column(jj))
      requires result != buffer && result != m.buffer
      requires forall t :: 0 <= t < result.Length && t < i * m.columnLength ==> result[t] == p.data[t]
      modifies result
      ensures forall t :: 0 <= t < result.Length && t < (i + 1) * m.columnLength ==> result[t] == p.data[t]
    {
      Arith.InRange(i, m.columnLength - 1, columnLength, m.columnLength);
      assert (i + 1) * m.columnLength == i * m.columnLength + m.columnLength;
      for j := 0 to m.columnLength
        invariant Value() == x && m.Value() == y
        invariant forall t :: 0 <= t < result.Length && t < i * m.columnLength + j ==> result[t] == p.data[t]
      {
        var s := ColumnTimesColumn(i, m, j);
        EntryAt(p, i, j);
        result[i * m.columnLength + j] := s;
      }
    }

    /**
     * The j-loop of `mulT` for row i of the result: writes entries
     * `i * m.rowLength` to `i * m.rowLength + m.rowLength - 1`, each the k-loop's sum.
     */
    method MulTRow(m: MatrixJava, i: int, result: array<real>, ghost x: Matrix, ghost y: Matrix, ghost p: Matrix)
      requires Valid() && m.Valid() && columnLength == m.columnLength && 0 <= i < rowLength
      requires Value() == x && m.Value() == y
      requires p.Valid() && p.rows == rowLength && p.columns == m.rowLength && result.Length == |p.data|
      requires forall jj :: 0 <= jj < m.rowLength ==> p.Entry(i, jj) == Dot(x.Row(i), y.Row(jj))
      requires result != buffer && result != m.buffer
      requires forall t :: 0 <= t < result.Length && t < i * m.rowLength ==> result[t] == p.data[t]
      modifies result
      ensures forall t :: 0 <= t < result.Length && t < (i + 1) * m.rowLength ==> result[t] == p.data[t]
    {
      Arith.InRange(i, m.rowLength - 1, rowLength, m.rowLength);
      assert (i + 1) * m.rowLength == i * m.rowLength + m.rowLength;
      for j := 0 to m.rowLength
        invariant Value() == x && m.Value() == y
        invariant forall t :: 0 <= t < result.Length && t < i * m.rowLength + j ==> result[t] == p.data[t]
      {
        var s := RowTimesRow(i, m, j);
        EntryAt(p, i, j);
        result[i * m.rowLength + j] := s;
      }
    }

    /** The i-loop of `mul`: fills `result` row by row with the entries of the product. */
    method MulInto(m: MatrixJava, result: array<real>, ghost x: Matrix, ghost y: Matrix, ghost p: Matrix)
      requires Valid() && m.Valid() && columnLength == m.rowLength
      requires Value() == x && m.Value() == y && MatrixAlgebra.Mul(x, y) == Ok(p)
      requires result.Length == rowLength * m.columnLength && result != buffer && result != m.buffer
      modifies result
      ensures result[..] == p.data
    {
      for i := 0 to rowLength
        invariant Value() == x && m.Value() == y
        invariant forall t :: 0 <= t < result.Length && t < i * m.columnLength ==> result[t] == p.data[t]
      {
        MulRow(m, i, result, x, y, p);
      }
    }

    /** `mul`: columns must equal m's rows; result (i, j) is row i times column j. */
    method Mul(m: MatrixJava) returns (r: Result<MatrixJava>)
      requires Valid() && m.Valid()
      ensures Produces(r, MatrixAlgebra.Mul(Value(), m.Value()))
      ensures r.Ok? ==> fresh(r.value) && fresh(r.value.buffer)
    {
      if columnLength != m.rowLength {
        return Err(ColumnsRowsMismatch);
      }
      ghost var x, y := Value(), m.Value();
      ghost var p := MatrixAlgebra.Mul(x, y).value;
      var mc := m.columnLength;
      Arith.NonNegProduct(rowLength, mc);
      var result := new real[rowLength * mc](_ => 0.0);
      MulInto(m, result, x, y, p);
      var c := new MatrixJava.Adopt(rowLength, mc, result);
      r := Ok(c);
    }

    /** `tMul`: equal row counts; result (i, j) is column i times column j. */
    method TMul(m: MatrixJava) returns (r: Result<MatrixJava>)
      requires Valid() && m.Valid()
      ensures Produces(r, MatrixAlgebra.TMul(Value(), m.Value()))
      ensures r.Ok? ==> fresh(r.value) && fresh(r.value.buffer)
    {
      if rowLength != m.rowLength {
        return Err(RowsMismatch);
      }
      ghost var x, y := Value(), m.Value();
      ghost var p := MatrixAlgebra.TMul(x, y).value;
      var mc := m.columnLength;
      Arith.NonNegProduct(columnLength, mc);
      var result := new real[columnLength * mc](_ => 0.0);
      TMulInto(m, result, x, y, p);
      var c := new MatrixJava.Adopt(columnLength, mc, result);
      r := Ok(c);
    }

    /** The i-loop of `tMul`: fills `result` row by row with the entries of the product. */
    method TMulInto(m: MatrixJava, result: array<real>, ghost x: Matrix, ghost y: Matrix, ghost p: Matrix)
      requires Valid() && m.Valid() && rowLength == m.rowLength
      requires Value() == x && m.Value() == y && MatrixAlgebra.TMul(x, y) == Ok(p)
      requires result.Length == columnLength * m.columnLength && result != buffer && result != m.buffer
      modifies result
      ensures result[..] == p.data
    {
      for i := 0 to columnLength
        invariant Value() == x && m.Value() == y
        invariant forall t :: 0 <= t < result.Length && t < i * m.columnLength ==> result[t] == p.data[t]
      {
        TMulRow(m, i, result, x, y, p);
      }
    }

    /** The i-loop of `mulT`: fills `result` row by row with the entries of the product. */
    method MulTInto(m: MatrixJava, result: array<real>, ghost x: Matrix, ghost y: Matrix, ghost p: Matrix)
      requires Valid() && m.Valid() && columnLength == m.columnLength
      requires Value() == x && m.Value() == y && MatrixAlgebra.MulT(x, y) == Ok(p)
      requires result.Length == rowLength * m.rowLength && result != buffer && result != m.buffer
      modifies result
      ensures result[..] == p.data
    {
      for i := 0 to rowLength
        invariant Value() == x && m.Value() == y
        invariant forall t :: 0 <= t < result.Length && t < i * m.rowLength ==> result[t] == p.data[t]
      {
        MulTRow(m, i, result, x, y, p);
      }
    }

    /** `mulT`: equal column counts; result (i, j) is row i times row j. */
    method MulT(m: MatrixJava) returns (r: Result<MatrixJava>)
      requires Valid() && m.Valid()
      ensures Produces(r, MatrixAlgebra.MulT(Value(), m.Value()))
      ensures r.Ok? ==> fresh(r.value) && fresh(r.value.buffer)
    {
      if columnLength != m.columnLength {
        return Err(ColumnsMismatch);
      }
      ghost var x, y := Value(), m.Value();
      ghost var p := MatrixAlgebra.MulT(x, y).value;
      var mr := m.rowLength;
      Arith.NonNegProduct(rowLength, mr);
      var result := new real[rowLength * mr](_ => 0.0);
      MulTInto(m, result, x, y, p);
      var c := new MatrixJava.Adopt(rowLength, mr, result);
      r := Ok(c);
    }

    /**
     * The j-loop of `Trans()` for row i: writes entry (i, j) to index
     * `j * rows + i` of the result, which is result column i.
     */
    method TransposeRow(i: int, result: array<real>)
      requires Valid() && result != buffer && result.Length == buffer.Length
      requires 0 <= i < rowLength
      modifies result
      ensures forall p :: 0 <= p < result.Length && p % rowLength == i ==> result[p] == Transpose(Value()).data[p]
      ensures forall p :: 0 <= p < result.Length && p % rowLength != i ==> result[p] == old(result[p])
    {
      ghost var t := Transpose(Value());
      var rows, columns := rowLength, columnLength;
      for j := 0 to columns
        invariant forall k :: 0 <= k < j ==>
          0 <= Arith.Slot(k, rows, i) < result.Length && result[Arith.Slot(k, rows, i)] == t.data[Arith.Slot(k, rows, i)]
        invariant forall p :: 0 <= p < result.Length && p % rows != i ==> result[p] == old(result[p])
        invariant forall p :: j * rows <= p < result.Length ==> result[p] == old(result[p])
      {
        Arith.InRange(j, i, columns, rows);
        Arith.InRange(i, j, rows, columns);
        Arith.DivMod(j, i, rows);
        assert t.Entry(j, i) == Value().Entry(i, j);
        result[Arith.Slot(j, rows, i)] := buffer[i * columns + j];
        assert (j + 1) * rows == j * rows + rows;
      }
      assert columns * rows == result.Length;
      forall p | 0 <= p < result.Length && p % rows == i
        ensures result[p] == t.data[p]
      {
        Arith.Split(p, columns, rows);
        assert p == Arith.Slot(p / rows, rows, i);
      }
    }

    /** `Trans()` / `T()`: writes `result[j * rows + i] = array[i * columns + j]`. */
    method Trans() returns (r: MatrixJava)
      requires Valid()
      ensures fresh(r) && fresh(r.buffer) && r.Valid()
      ensures r.Value() == Transpose(Value())
    {
      ghost var t := Transpose(Value());
      var result := new real[buffer.Length];
      for i := 0 to rowLength
        invariant forall p :: 0 <= p < result.Length && p % rowLength < i ==> result[p] == t.data[p]
      {
        TransposeRow(i, result);
      }
      forall p | 0 <= p < result.Length
        ensures result[p] == t.data[p]
      {
        Arith.Split(p, columnLength, rowLength);
      }
      assert result[..] == t.data;
      r := new MatrixJava.Adopt(columnLength, rowLength, result);
    }

    // ------------------------------------------------------------ reductions

    method Sum() returns (s: real)
      requires Valid()
      ensures s == MatrixAlgebra.Sum(Value().data)
    {
      s := 0.0;
      for i := 0 to buffer.Length
        invariant s == MatrixAlgebra.Sum(buffer[..i])
      {
        assert buffer[..i + 1][..i] == buffer[..i];
        s := s + buffer[i];
      }
      assert buffer[..buffer.Length] == buffer[..];
    }

    method SqrsSum() returns (s: real)
      requires Valid()
      ensures s == MatrixAlgebra.SqrsSum(Value().data)
      ensures s >= 0.0
    {
      s := 0.0;
      for i := 0 to buffer.Length
        invariant s == MatrixAlgebra.SqrsSum(buffer[..i])
      {
        assert buffer[..i + 1][..i] == buffer[..i];
        s := s + buffer[i] * buffer[i];
      }
      assert buffer[..buffer.Length] == buffer[..];
      SqrsSumNonNegative(buffer[..]);
    }

    /** `average`: the sum divided by the number of entries. */
    method Average() returns (avg: real)
      requires Valid()
      ensures avg == MatrixAlgebra.Average(Value())
    {
      var s := Sum();
      Arith.MulMonotone(1, rowLength, columnLength);
      avg := s / (buffer.Length as real);
    }

    // ------------------------------------------------------------ state changes

    /** `zeros`: every entry becomes 0; the shape and the buffer object stay. */
    method Zeros()
      requires Valid()
      modifies buffer
      ensures Valid() && Value() == Matrix(old(rowLength), old(columnLength), MatrixAlgebra.Zeros(rowLength, columnLength))
    {
      for i := 0 to buffer.Length
        invariant forall k :: 0 <= k < i ==> buffer[k] == 0.0
      {
        buffer[i] := 0.0;
      }
    }

    /** `clone`: an equal matrix over a fresh buffer. */
    method Clone() returns (c: MatrixJava)
      requires Valid()
      ensures fresh(c) && fresh(c.buffer) && c.Valid() && c.Value() == Value()
    {
      var copy := new real[buffer.Length](k requires 0 <= k < buffer.Length reads this, buffer => buffer[k]);
      c := new MatrixJava.Adopt(rowLength, columnLength, copy);
    }

    /** `writeExternal`: rows, columns, then every entry in buffer order. */
    method WriteExternal() returns (out: seq<Token>)
      requires Valid()
      ensures out == Externalize(Value())
      ensures Internalize(out) == Ok((Value(), []))
    {
      var ds: seq<Token> := [];
      for i := 0 to buffer.Length
        invariant ds == Doubles(buffer[..i])
      {
        ds := ds + [DoubleT(buffer[i])];
      }
      assert buffer[..buffer.Length] == buffer[..];
      out := [IntT(rowLength), IntT(columnLength)] + ds;
      ExternalizeRoundTrip(Value(), []);
      assert out + [] == out;
    }

    /**
     * `readExternal`: assigns rows and columns, allocates the buffer, then reads
     * the entries one by one. Fields already assigned stay assigned when a later
     * read fails.
     */
    method ReadExternal(input: seq<Token>) returns (rest: Result<seq<Token>>)
      modifies this
      ensures Internalize(input).Ok? <==> rest.Ok?
      ensures rest.Ok? ==> Value() == Internalize(input).value.0 && rest.value == Internalize(input).value.1
      ensures rest.Err? ==> rest.error == Internalize(input).error
      ensures rest.Ok? ==> (Valid() <==> Value().Valid())
    {
      var rows :- ReadInt(input);
      rowLength := rows.0;
      var columns :- ReadInt(rows.1);
      columnLength := columns.0;
      if rowLength * columnLength < 0 {
        return Err(NegativeArraySize(rowLength * columnLength));
      }
      var data := new real[rowLength * columnLength](_ => 0.0);
      buffer := data;
      rest := ReadEntries(columns.1, data);
    }
  }

  /** The entry loop of `readExternal`: one `readDouble` per buffer slot, in order. */
  method ReadEntries(input: seq<Token>, data: array<real>) returns (rest: Result<seq<Token>>)
    modifies data
    ensures ReadDoubles(input, data.Length).Ok? <==> rest.Ok?
    ensures rest.Ok? ==> (data[..], rest.value) == ReadDoubles(input, data.Length).value
    ensures rest.Err? ==> rest.error == ReadDoubles(input, data.Length).error
  {
    var ts := input;
    ghost var expected := ReadDoubles(input, data.Length);
    for i := 0 to data.Length
      invariant expected.Ok? ==> data[..i] == expected.value.0[..i]
      invariant expected.Ok? ==> ReadDoubles(ts, data.Length - i) == Ok((expected.value.0[i..], expected.value.1))
      invariant expected.Err? ==> ReadDoubles(ts, data.Length - i) == expected
    {
      var x :- ReadDouble(ts);
      ghost var tail := ReadDoubles(x.1, data.Length - i - 1);
      assert expected.Ok? ==> tail.Ok? && [x.0] + tail.value.0 == expected.value.0[i..];
      data[i] := x.0;
      ts := x.1;
      if expected.Ok? {
        calc {
          tail.value.0;
          ([x.0] + tail.value.0)[1..];
          expected.value.0[i + 1..];
        }
        assert data[..i + 1] == expected.value.0[..i] + [x.0];
        assert expected.value.0[..i + 1] == expected.value.0[..i] + [x.0];
      }
    }
    rest := Ok(ts);
    assert data[..data.Length] == data[..];
    assert expected.Ok? ==> expected.value.0[..data.Length] == expected.value.0;
  }

  /** Entry (i, j) of a valid matrix sits at `i * columns + j` of its buffer. */
  lemma EntryAt(p: Matrix, i: int, j: int)
    requires p.Valid() && 0 <= i < p.rows && 0 <= j < p.columns
    ensures 0 <= i * p.columns + j < |p.data| && p.data[i * p.columns + j] == p.Entry(i, j)
  {
    Arith.InRange(i, j, p.rows, p.columns);
  }

  ghost predicate Produces(r: Result<MatrixJava>, spec: Result<Matrix>)
    reads if r.Ok? then {r.value, r.value.buffer} else {}
  {
    match r
    case Ok(m) => spec.Ok? && m.Valid() && m.Value() == spec.value
    case Err(e) => spec == Err(e)
  }

  // -------------------------------------------------------------- matrix/Matrix.java factories

  /**
   * `Matrix.create(rows, columns)`: allocates `new double[rows * columns]`
   * first, which fails for a negative product, then runs the data constructor.
   */
  method CreateShape(rows: int, columns: int) returns (r: Result<MatrixJava>)
    ensures rows * columns < 0 ==> r == Err(NegativeArraySize(rows * columns))
    ensures rows * columns >= 0 ==> (r.Ok? <==> rows > 0 && columns > 0)
    ensures rows * columns >= 0 && rows <= 0 ==> r == Err(IllegalArgument("rows"))
    ensures r.Ok? ==> fresh(r.value) && fresh(r.value.buffer) && r.value.Valid()
    ensures r.Ok? ==> r.value.Value() == Matrix(rows, columns, MatrixAlgebra.Zeros(rows, columns))
  {
    if rows * columns < 0 {
      return Err(NegativeArraySize(rows * columns));
    }
    var data := new real[rows * columns](_ => 0.0);
    r := MatrixJava.WithData(rows, columns, data);
    if r.Ok? {
      assert data[..] == MatrixAlgebra.Zeros(rows, columns);
    }
  }

  /** `Matrix.create(columns)`: a zero row vector with `columns` entries. */
  method CreateRow(columns: int) returns (r: Result<MatrixJava>)
    ensures r.Ok? <==> columns > 0
    ensures r.Ok? ==> fresh(r.value) && r.value.Valid() && r.value.rowLength == 1 && r.value.columnLength == columns
    ensures r.Ok? ==> forall k :: 0 <= k < columns ==> r.value.buffer[k] == 0.0
  {
    r := CreateShape(1, columns);
  }

  /** `Matrix.create(double... m)`: one row holding m in order, over m's own buffer. */
  method CreateVector(m: array<real>) returns (r: Result<MatrixJava>)
    ensures r.Ok? <==> m.Length > 0
    ensures r.Ok? ==> fresh(r.value) && r.value.buffer == m && r.value.Valid()
    ensures r.Ok? ==> r.value.Value() == Matrix(1, m.Length, m[..])
  {
    r := MatrixJava.WithData(1, m.Length, m);
  }

  /** `Matrix.create(columns, double... m)`: one row; m must have exactly `columns` entries. */
  method CreateRowOf(columns: int, m: array<real>) returns (r: Result<MatrixJava>)
    ensures r.Ok? <==> columns > 0 && columns == m.Length
    ensures r.Ok? ==> fresh(r.value) && r.value.buffer == m && r.value.Valid()
    ensures r.Ok? ==> r.value.Value() == Matrix(1, columns, m[..])
  {
    r := MatrixJava.WithData(1, columns, m);
  }

  /** The static `zeros(Matrix...)`: zero-fills every argument, keeping each shape. */
  method ZerosAll(ms: seq<MatrixJava>)
    requires forall i :: 0 <= i < |ms| ==> ms[i].Valid()
    modifies set i | 0 <= i < |ms| :: ms[i].buffer
    ensures forall i :: 0 <= i < |ms| ==>
      ms[i].Valid() && ms[i].Value() == Matrix(ms[i].rowLength, ms[i].columnLength, MatrixAlgebra.Zeros(ms[i].rowLength, ms[i].columnLength))
  {
    for n := 0 to |ms|
      invariant forall i :: 0 <= i < |ms| ==> ms[i].Valid()
      invariant forall i :: 0 <= i < n ==> forall k :: 0 <= k < ms[i].buffer.Length ==> ms[i].buffer[k] == 0.0
    {
      ms[n].Zeros();
    }
    forall i | 0 <= i < |ms|
      ensures ms[i].Value() == Matrix(ms[i].rowLength, ms[i].columnLength, MatrixAlgebra.Zeros(ms[i].rowLength, ms[i].columnLength))
    {
      assert ms[i].buffer[..] == MatrixAlgebra.Zeros(ms[i].rowLength, ms[i].columnLength);
    }
  }
}
