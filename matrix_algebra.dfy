// The value-level meaning of a dense matrix: a rows-by-columns grid stored
// row-major in one flat sequence, and the operations the matrix classes of
// the trainer perform on it. Every Java matrix implementation in the model
// (MatrixJava, the older nets Matrix, the in-place MatrixUtils) is proved
// against these definitions.

module MatrixAlgebra {
  import opened Wrappers
  import opened Streams
  import Arith

  datatype Matrix = Matrix(rows: int, columns: int, data: seq<real>)
  {
    /** The constructors' invariant: positive dimensions and a full buffer. */
    predicate Valid() {
      rows > 0 && columns > 0 && |data| == rows * columns
    }

    /** Entry (i, j), read as `array[columns * i + j]`; 0 outside the grid. */
    function Entry(i: int, j: int): real {
      var k := i * columns + j;
      if 0 <= k < |data| then data[k] else 0.0
    }

    function Row(i: int): (r: seq<real>)
      requires columns >= 0
      ensures |r| == columns
    {
      seq(columns, k => Entry(i, k))
    }

    function Column(j: int): (c: seq<real>)
      requires rows >= 0
      ensures |c| == rows
    {
      seq(rows, k => Entry(k, j))
    }
  }

  /** Row i of a valid matrix, read straight from the buffer. */
  lemma RowAt(a: Matrix, i: int, k: int)
    requires a.Valid() && 0 <= i < a.rows && 0 <= k < a.columns
    ensures 0 <= i * a.columns + k < |a.data|
    ensures a.Row(i)[k] == a.data[i * a.columns + k]
  {
    Arith.InRange(i, k, a.rows, a.columns);
  }

  /** Column j of a valid matrix, read straight from the buffer. */
  lemma ColumnAt(a: Matrix, k: int, j: int)
    requires a.Valid() && 0 <= k < a.rows && 0 <= j < a.columns
    ensures 0 <= k * a.columns + j < |a.data|
    ensures a.Column(j)[k] == a.data[k * a.columns + j]
  {
    Arith.InRange(k, j, a.rows, a.columns);
  }

  /** The row-major buffer whose entry (i, j) is f(i, j). */
  function Tabulate(rows: nat, columns: nat, f: (int, int) -> real): seq<real>
  {
    Arith.NonNegProduct(rows, columns);
    if columns == 0 then [] else seq(rows * columns, k => f(k / columns, k % columns))
  }

  lemma TabulateAt(rows: nat, columns: nat, f: (int, int) -> real)
    requires columns > 0
    ensures |Tabulate(rows, columns, f)| == rows * columns
    ensures forall i, j :: 0 <= i < rows && 0 <= j < columns ==>
      Matrix(rows, columns, Tabulate(rows, columns, f)).Entry(i, j) == f(i, j)
  {
    Arith.NonNegProduct(rows, columns);
    var m := Matrix(rows, columns, Tabulate(rows, columns, f));
    forall i, j | 0 <= i < rows && 0 <= j < columns
      ensures m.Entry(i, j) == f(i, j)
    {
      Arith.InRange(i, j, rows, columns);
      Arith.DivMod(i, j, columns);
    }
  }

  /** The matrix whose entries are given by f; its defining property is FromEntries' ensures. */
  function FromEntries(rows: nat, columns: nat, f: (int, int) -> real): (m: Matrix)
    requires rows > 0 && columns > 0
    ensures m.Valid() && m.rows == rows && m.columns == columns
    ensures forall i, j :: 0 <= i < rows && 0 <= j < columns ==> m.Entry(i, j) == f(i, j)
  {
    TabulateAt(rows, columns, f);
    Matrix(rows, columns, Tabulate(rows, columns, f))
  }

  /** Two valid matrices of one shape with the same entries are the same matrix. */
  lemma Extensionality(a: Matrix, b: Matrix)
    requires a.Valid() && b.Valid() && a.rows == b.rows && a.columns == b.columns
    requires forall i, j :: 0 <= i < a.rows && 0 <= j < a.columns ==> a.Entry(i, j) == b.Entry(i, j)
    ensures a == b
  {
    forall k | 0 <= k < |a.data|
      ensures a.data[k] == b.data[k]
    {
      Arith.Split(k, a.rows, a.columns);
      var i, j := k / a.columns, k % a.columns;
      assert a.Entry(i, j) == b.Entry(i, j);
    }
  }

  /** Replacing the slot of entry (i, j) leaves entry (i', j') alone unless it is (i, j). */
  lemma UpdateEntry(m: Matrix, i: int, j: int, v: real, i': int, j': int)
    requires m.Valid() && 0 <= i < m.rows && 0 <= j < m.columns
    requires 0 <= i' < m.rows && 0 <= j' < m.columns
    ensures 0 <= i * m.columns + j < |m.data|
    ensures Matrix(m.rows, m.columns, m.data[i * m.columns + j := v]).Entry(i', j') == if i' == i && j' == j then v else m.Entry(i', j')
  {
    var k, k' := i * m.columns + j, i' * m.columns + j';
    Arith.InRange(i, j, m.rows, m.columns);
    Arith.InRange(i', j', m.rows, m.columns);
    Arith.DivMod(i, j, m.columns);
    Arith.DivMod(i', j', m.columns);
    assert k == k' <==> i' == i && j' == j;
  }

  /** Replacing one buffer slot changes exactly one entry. */
  lemma UpdateEntries(m: Matrix, i: int, j: int, v: real)
    requires m.Valid() && 0 <= i < m.rows && 0 <= j < m.columns
    ensures 0 <= i * m.columns + j < |m.data|
    ensures forall i', j' :: 0 <= i' < m.rows && 0 <= j' < m.columns ==>
      Matrix(m.rows, m.columns, m.data[i * m.columns + j := v]).Entry(i', j') == if i' == i && j' == j then v else m.Entry(i', j')
  {
    Arith.InRange(i, j, m.rows, m.columns);
    var u := Matrix(m.rows, m.columns, m.data[i * m.columns + j := v]);
    forall i', j' | 0 <= i' < m.rows && 0 <= j' < m.columns
      ensures u.Entry(i', j') == if i' == i && j' == j then v else m.Entry(i', j')
    {
      UpdateEntry(m, i, j, v, i', j');
    }
  }

  /** m after `setItem(i, j, v)`. */
  function Update(m: Matrix, i: int, j: int, v: real): (u: Matrix)
    requires m.Valid() && 0 <= i < m.rows && 0 <= j < m.columns
    ensures u.Valid() && u.rows == m.rows && u.columns == m.columns
    ensures forall i', j' :: 0 <= i' < m.rows && 0 <= j' < m.columns ==>
      u.Entry(i', j') == if i' == i && j' == j then v else m.Entry(i', j')
  {
    UpdateEntries(m, i, j, v);
    Matrix(m.rows, m.columns, m.data[i * m.columns + j := v])
  }

  // ---------------------------------------------------------------- shape checks

  const RowsMismatch := Arithmetic("rows mismatch")
  const ColumnsMismatch := Arithmetic("columns mismatch")
  const ColumnsRowsMismatch := Arithmetic("columns of the left and rows of the right mismatch")

  // ---------------------------------------------------------------- construction

  /**
   * The data constructor: rows and columns must be positive (checked in that
   * order) and the data must have exactly rows * columns entries.
   */
  function Create(rows: int, columns: int, data: seq<real>): (r: Result<Matrix>)
    ensures r.Ok? <==> rows > 0 && columns > 0 && rows * columns == |data|
    ensures r.Ok? ==> r.value.Valid() && r.value == Matrix(rows, columns, data)
    ensures rows <= 0 ==> r == Err(IllegalArgument("rows"))
    ensures rows > 0 && columns <= 0 ==> r == Err(IllegalArgument("columns"))
  {
    if rows <= 0 then Err(IllegalArgument("rows"))
    else if columns <= 0 then Err(IllegalArgument("columns"))
    else if rows * columns != |data| then Err(IllegalArgument("length"))
    else Ok(Matrix(rows, columns, data))
  }

  function Zeros(rows: nat, columns: nat): (z: seq<real>)
    ensures |z| == rows * columns
    ensures forall k :: 0 <= k < |z| ==> z[k] == 0.0
  {
    Arith.NonNegProduct(rows, columns);
    seq(rows * columns, _ => 0.0)
  }

  // ---------------------------------------------------------------- element-wise

  datatype Pointwise = Plus | Minus | Times

  function Combine(op: Pointwise, x: real, y: real): real {
    match op
    case Plus => x + y
    case Minus => x - y
    case Times => x * y
  }

  function Zip(op: Pointwise, a: seq<real>, b: seq<real>): (z: seq<real>)
    requires |a| == |b|
    ensures |z| == |a|
    ensures forall k :: 0 <= k < |z| ==> z[k] == Combine(op, a[k], b[k])
  {
    seq(|a|, k requires 0 <= k < |a| => Combine(op, a[k], b[k]))
  }

  /** `add`, `sub` and `prod`: rows are checked before columns. */
  function Elementwise(op: Pointwise, a: Matrix, b: Matrix): (r: Result<Matrix>)
    requires a.Valid() && b.Valid()
    ensures r.Ok? <==> a.rows == b.rows && a.columns == b.columns
    ensures a.rows != b.rows ==> r == Err(RowsMismatch)
    ensures a.rows == b.rows && a.columns != b.columns ==> r == Err(ColumnsMismatch)
    ensures r.Ok? ==> r.value.Valid() && r.value.rows == a.rows && r.value.columns == a.columns
    ensures r.Ok? ==> forall k :: 0 <= k < |a.data| ==> r.value.data[k] == Combine(op, a.data[k], b.data[k])
  {
    if a.rows != b.rows then Err(RowsMismatch)
    else if a.columns != b.columns then Err(ColumnsMismatch)
    else Ok(Matrix(a.rows, a.columns, Zip(op, a.data, b.data)))
  }

  function Scale(a: Matrix, s: real): (r: Matrix)
    requires a.Valid()
    ensures r.Valid() && r.rows == a.rows && r.columns == a.columns
    ensures forall k :: 0 <= k < |a.data| ==> r.data[k] == a.data[k] * s
  {
    Matrix(a.rows, a.columns, seq(|a.data|, k requires 0 <= k < |a.data| => a.data[k] * s))
  }

  /** `scaleAdd(s, m)`: this + s * m, after the row and column checks. */
  function ScaleAdd(a: Matrix, s: real, b: Matrix): (r: Result<Matrix>)
    requires a.Valid() && b.Valid()
    ensures r.Ok? <==> a.rows == b.rows && a.columns == b.columns
    ensures a.rows != b.rows ==> r == Err(RowsMismatch)
    ensures a.rows == b.rows && a.columns != b.columns ==> r == Err(ColumnsMismatch)
    ensures r.Ok? ==> r.value.Valid() && r.value.rows == a.rows && r.value.columns == a.columns
    ensures r.Ok? ==> forall k :: 0 <= k < |a.data| ==> r.value.data[k] == a.data[k] + s * b.data[k]
  {
    if a.rows != b.rows then Err(RowsMismatch)
    else if a.columns != b.columns then Err(ColumnsMismatch)
    else Ok(Matrix(a.rows, a.columns, seq(|a.data|, k requires 0 <= k < |a.data| => a.data[k] + s * b.data[k])))
  }

  function Apply(a: Matrix, f: real -> real): (r: Matrix)
    requires a.Valid()
    ensures r.Valid() && r.rows == a.rows && r.columns == a.columns
    ensures forall k :: 0 <= k < |a.data| ==> r.data[k] == f(a.data[k])
  {
    Matrix(a.rows, a.columns, seq(|a.data|, k requires 0 <= k < |a.data| => f(a.data[k])))
  }

  // ---------------------------------------------------------------- products

  /** Sum of u[k] * v[k] over k < n, accumulated in increasing k as the loops do. */
  function DotUpTo(u: seq<real>, v: seq<real>, n: nat): real
    requires n <= |u| && n <= |v|
  {
    if n == 0 then 0.0 else DotUpTo(u, v, n - 1) + u[n - 1] * v[n - 1]
  }

  /** One more step of the accumulation adds the next product. */
  lemma DotUpToStep(u: seq<real>, v: seq<real>, k: nat)
    requires k < |u| && k < |v|
    ensures DotUpTo(u, v, k + 1) == DotUpTo(u, v, k) + u[k] * v[k]
  {
  }

  function Dot(u: seq<real>, v: seq<real>): real
    requires |u| == |v|
  {
    DotUpTo(u, v, |u|)
  }

  /** Step k of row i of x dotted with column j of y, a and b read from the buffers. */
  lemma RowColumnStep(x: Matrix, i: int, y: Matrix, j: int, k: int, a: real, b: real)
    requires x.Valid() && y.Valid() && x.columns == y.rows
    requires 0 <= i < x.rows && 0 <= j < y.columns && 0 <= k < x.columns
    requires 0 <= i * x.columns + k < |x.data| && a == x.data[i * x.columns + k]
    requires 0 <= k * y.columns + j < |y.data| && b == y.data[k * y.columns + j]
    ensures DotUpTo(x.Row(i), y.Column(j), k + 1) == DotUpTo(x.Row(i), y.Column(j), k) + a * b
  {
    var u, v := x.Row(i), y.Column(j);
    RowAt(x, i, k);
    ColumnAt(y, k, j);
    assert u[k] == a && v[k] == b;
    DotUpToStep(u, v, k);
  }

  /** Step k of column i of x dotted with column j of y, a and b read from the buffers. */
  lemma ColumnColumnStep(x: Matrix, i: int, y: Matrix, j: int, k: int, a: real, b: real)
    requires x.Valid() && y.Valid() && x.rows == y.rows
    requires 0 <= i < x.columns && 0 <= j < y.columns && 0 <= k < x.rows
    requires 0 <= k * x.columns + i < |x.data| && a == x.data[k * x.columns + i]
    requires 0 <= k * y.columns + j < |y.data| && b == y.data[k * y.columns + j]
    ensures DotUpTo(x.Column(i), y.Column(j), k + 1) == DotUpTo(x.Column(i), y.Column(j), k) + a * b
  {
    var u, v := x.Column(i), y.Column(j);
    ColumnAt(x, k, i);
    ColumnAt(y, k, j);
    assert u[k] == a && v[k] == b;
    DotUpToStep(u, v, k);
  }

  /** Step k of row i of x dotted with row j of y, a and b read from the buffers. */
  lemma RowRowStep(x: Matrix, i: int, y: Matrix, j: int, k: int, a: real, b: real)
    requires x.Valid() && y.Valid() && x.columns == y.columns
    requires 0 <= i < x.rows && 0 <= j < y.rows && 0 <= k < x.columns
    requires 0 <= i * x.columns + k < |x.data| && a == x.data[i * x.columns + k]
    requires 0 <= j * y.columns + k < |y.data| && b == y.data[j * y.columns + k]
    ensures DotUpTo(x.Row(i), y.Row(j), k + 1) == DotUpTo(x.Row(i), y.Row(j), k) + a * b
  {
    var u, v := x.Row(i), y.Row(j);
    RowAt(x, i, k);
    RowAt(y, j, k);
    assert u[k] == a && v[k] == b;
    DotUpToStep(u, v, k);
  }

  /** `mul`: needs columns == m.rows; entry (i, j) is row i of a dotted with column j of b. */
  function Mul(a: Matrix, b: Matrix): (r: Result<Matrix>)
    requires a.Valid() && b.Valid()
    ensures r.Ok? <==> a.columns == b.rows
    ensures r.Err? ==> r.error == ColumnsRowsMismatch
    ensures r.Ok? ==> r.value.Valid() && r.value.rows == a.rows && r.value.columns == b.columns
    ensures r.Ok? ==> forall i, j :: 0 <= i < a.rows && 0 <= j < b.columns ==>
      r.value.Entry(i, j) == Dot(a.Row(i), b.Column(j))
  {
    if a.columns != b.rows then Err(ColumnsRowsMismatch)
    else Ok(FromEntries(a.rows, b.columns, (i, j) => Dot(a.Row(i), b.Column(j))))
  }

  /** `tMul`: needs equal row counts; entry (i, j) is column i of a dotted with column j of b. */
  function TMul(a: Matrix, b: Matrix): (r: Result<Matrix>)
    requires a.Valid() && b.Valid()
    ensures r.Ok? <==> a.rows == b.rows
    ensures r.Err? ==> r.error == RowsMismatch
    ensures r.Ok? ==> r.value.Valid() && r.value.rows == a.columns && r.value.columns == b.columns
    ensures r.Ok? ==> forall i, j :: 0 <= i < a.columns && 0 <= j < b.columns ==>
      r.value.Entry(i, j) == Dot(a.Column(i), b.Column(j))
  {
    if a.rows != b.rows then Err(RowsMismatch)
    else Ok(FromEntries(a.columns, b.columns, (i, j) => Dot(a.Column(i), b.Column(j))))
  }

  /** `mulT`: needs equal column counts; entry (i, j) is row i of a dotted with row j of b. */
  function MulT(a: Matrix, b: Matrix): (r: Result<Matrix>)
    requires a.Valid() && b.Valid()
    ensures r.Ok? <==> a.columns == b.columns
    ensures r.Err? ==> r.error == ColumnsMismatch
    ensures r.Ok? ==> r.value.Valid() && r.value.rows == a.rows && r.value.columns == b.rows
    ensures r.Ok? ==> forall i, j :: 0 <= i < a.rows && 0 <= j < b.rows ==>
      r.value.Entry(i, j) == Dot(a.Row(i), b.Row(j))
  {
    if a.columns != b.columns then Err(ColumnsMismatch)
    else Ok(FromEntries(a.rows, b.rows, (i, j) => Dot(a.Row(i), b.Row(j))))
  }

  /** `Trans` / `T()`: dimensions swap and entry (j, i) of the result is entry (i, j). */
  function Transpose(a: Matrix): (t: Matrix)
    requires a.Valid()
    ensures t.Valid() && t.rows == a.columns && t.columns == a.rows
    ensures forall i, j :: 0 <= i < a.rows && 0 <= j < a.columns ==> t.Entry(j, i) == a.Entry(i, j)
  {
    FromEntries(a.columns, a.rows, (j, i) => a.Entry(i, j))
  }

  // ---------------------------------------------------------------- reductions

  /** Sum of the entries, added left to right. */
  function Sum(s: seq<real>): real {
    if s == [] then 0.0 else Sum(s[..|s| - 1]) + s[|s| - 1]
  }

  /** Sum of the squared entries, added left to right. */
  function SqrsSum(s: seq<real>): real {
    if s == [] then 0.0 else SqrsSum(s[..|s| - 1]) + s[|s| - 1] * s[|s| - 1]
  }

  function Average(a: Matrix): real
    requires a.Valid()
  {
    Arith.NonNegProduct(a.rows, a.columns);
    Arith.MulMonotone(1, a.rows, a.columns);
    Sum(a.data) / (|a.data| as real)
  }

  // ---------------------------------------------------------------- properties

  lemma {:induction false} SqrsSumNonNegative(s: seq<real>)
    ensures SqrsSum(s) >= 0.0
  {
    if s != [] {
      SqrsSumNonNegative(s[..|s| - 1]);
    }
  }

  lemma {:induction false} SumConstant(s: seq<real>, c: real)
    requires forall k :: 0 <= k < |s| ==> s[k] == c
    ensures Sum(s) == (|s| as real) * c
  {
    if s != [] {
      SumConstant(s[..|s| - 1], c);
    }
  }

  /** The average of a matrix whose entries all equal c is c. */
  lemma AverageConstant(a: Matrix, c: real)
    requires a.Valid()
    requires forall k :: 0 <= k < |a.data| ==> a.data[k] == c
    ensures Average(a) == c
  {
    SumConstant(a.data, c);
    Arith.MulMonotone(1, a.rows, a.columns);
  }

  /** Zero-filling keeps the shape and the average of the result is 0. */
  lemma ZerosAverage(a: Matrix)
    requires a.Valid()
    ensures Matrix(a.rows, a.columns, Zeros(a.rows, a.columns)).Valid()
    ensures Average(Matrix(a.rows, a.columns, Zeros(a.rows, a.columns))) == 0.0
  {
    AverageConstant(Matrix(a.rows, a.columns, Zeros(a.rows, a.columns)), 0.0);
  }

  lemma {:induction false} DotUpToCongruent(u: seq<real>, v: seq<real>, u': seq<real>, v': seq<real>, n: nat)
    requires n <= |u| && n <= |v| && n <= |u'| && n <= |v'|
    requires forall k :: 0 <= k < n ==> u[k] == u'[k] && v[k] == v'[k]
    ensures DotUpTo(u, v, n) == DotUpTo(u', v', n)
  {
    if n > 0 {
      DotUpToCongruent(u, v, u', v', n - 1);
    }
  }

  /** Row i of the transpose is column i of the original, and the other way round. */
  lemma TransposeRowColumn(a: Matrix, i: int)
    requires a.Valid()
    ensures 0 <= i < a.columns ==> Transpose(a).Row(i) == a.Column(i)
    ensures 0 <= i < a.rows ==> Transpose(a).Column(i) == a.Row(i)
  {
    var t := Transpose(a);
    if 0 <= i < a.columns {
      assert forall k :: 0 <= k < a.rows ==> t.Row(i)[k] == t.Entry(i, k) == a.Entry(k, i);
    }
    if 0 <= i < a.rows {
      assert forall k :: 0 <= k < a.columns ==> t.Column(i)[k] == t.Entry(k, i) == a.Entry(i, k);
    }
  }

  /** Transposing twice gives back the original matrix. */
  lemma TransposeInvolution(a: Matrix)
    requires a.Valid()
    ensures Transpose(Transpose(a)) == a
  {
    var t := Transpose(a);
    var tt := Transpose(t);
    forall i, j | 0 <= i < a.rows && 0 <= j < a.columns
      ensures tt.Entry(i, j) == a.Entry(i, j)
    {
      assert tt.Entry(i, j) == t.Entry(j, i);
    }
    Extensionality(tt, a);
  }

  /** `tMul(a, b)` is the product of the transpose of a with b. */
  lemma TMulIsTransposeMul(a: Matrix, b: Matrix)
    requires a.Valid() && b.Valid()
    ensures TMul(a, b).Ok? <==> Mul(Transpose(a), b).Ok?
    ensures TMul(a, b).Ok? ==> TMul(a, b).value == Mul(Transpose(a), b).value
  {
    if a.rows == b.rows {
      var l, r := TMul(a, b).value, Mul(Transpose(a), b).value;
      forall i, j | 0 <= i < a.columns && 0 <= j < b.columns
        ensures l.Entry(i, j) == r.Entry(i, j)
      {
        TransposeRowColumn(a, i);
      }
      Extensionality(l, r);
    }
  }

  /** `mulT(a, b)` is the product of a with the transpose of b. */
  lemma MulTIsMulTranspose(a: Matrix, b: Matrix)
    requires a.Valid() && b.Valid()
    ensures MulT(a, b).Ok? <==> Mul(a, Transpose(b)).Ok?
    ensures MulT(a, b).Ok? ==> MulT(a, b).value == Mul(a, Transpose(b)).value
  {
    if a.columns == b.columns {
      var l, r := MulT(a, b).value, Mul(a, Transpose(b)).value;
      forall i, j | 0 <= i < a.rows && 0 <= j < b.rows
        ensures l.Entry(i, j) == r.Entry(i, j)
      {
        TransposeRowColumn(b, j);
      }
      Extensionality(l, r);
    }
  }

  /** Hence `T(A).tMul(B)` is `A.mul(B)`. */
  lemma TransposeTMul(a: Matrix, b: Matrix)
    requires a.Valid() && b.Valid()
    ensures TMul(Transpose(a), b).Ok? <==> Mul(a, b).Ok?
    ensures Mul(a, b).Ok? ==> TMul(Transpose(a), b).value == Mul(a, b).value
  {
    TMulIsTransposeMul(Transpose(a), b);
    TransposeInvolution(a);
  }

  /** And `A.mul(T(C))` is `A.mulT(C)`. */
  lemma MulTransposeIsMulT(a: Matrix, c: Matrix)
    requires a.Valid() && c.Valid()
    ensures Mul(a, Transpose(c)).Ok? <==> MulT(a, c).Ok?
    ensures MulT(a, c).Ok? ==> Mul(a, Transpose(c)).value == MulT(a, c).value
  {
    MulTIsMulTranspose(a, c);
  }

  // ---------------------------------------------------------------- externalisation

  /** `writeExternal`: rows, columns, then the entries in row-major order. */
  function Externalize(m: Matrix): seq<Token> {
    [IntT(m.rows), IntT(m.columns)] + Doubles(m.data)
  }

  /**
   * `readExternal`: rows and columns, a buffer of rows * columns entries
   * (a negative product cannot be allocated), then that many doubles. No
   * dimension check is made, as in the source.
   */
  function Internalize(ts: seq<Token>): Result<(Matrix, seq<Token>)> {
    var (rows, r1) :- ReadInt(ts);
    var (columns, r2) :- ReadInt(r1);
    if rows * columns < 0 then Err(NegativeArraySize(rows * columns))
    else
      var (data, r3) :- ReadDoubles(r2, rows * columns);
      Ok((Matrix(rows, columns, data), r3))
  }

  /** Reading back what `writeExternal` wrote restores the matrix and leaves what follows. */
  lemma ExternalizeRoundTrip(m: Matrix, rest: seq<Token>)
    requires m.Valid()
    ensures Internalize(Externalize(m) + rest) == Ok((m, rest))
  {
    var ts := Externalize(m) + rest;
    assert ts[0] == IntT(m.rows) && ts[1] == IntT(m.columns);
    assert ts[2..] == Doubles(m.data) + rest;
    DoublesRoundTrip(m.data, rest);
  }

  // ---------------------------------------------------------------- a worked example

  const ExampleLeft := Matrix(2, 3, [1.0, 2.0, 3.0, 4.0, 5.0, 6.0])
  const ExampleRight := Matrix(3, 2, [6.0, 5.0, 4.0, 3.0, 2.0, 1.0])

  lemma ExampleRows()
    ensures ExampleLeft.Row(0) == [1.0, 2.0, 3.0] && ExampleLeft.Row(1) == [4.0, 5.0, 6.0]
  {
    var a := ExampleLeft;
    assert a.Entry(0, 0) == 1.0 && a.Entry(0, 1) == 2.0 && a.Entry(0, 2) == 3.0;
    assert a.Entry(1, 0) == 4.0 && a.Entry(1, 1) == 5.0 && a.Entry(1, 2) == 6.0;
  }

  lemma ExampleColumns()
    ensures ExampleRight.Column(0) == [6.0, 4.0, 2.0] && ExampleRight.Column(1) == [5.0, 3.0, 1.0]
  {
    var b := ExampleRight;
    assert b.Entry(0, 0) == 6.0 && b.Entry(1, 0) == 4.0 && b.Entry(2, 0) == 2.0;
    assert b.Entry(0, 1) == 5.0 && b.Entry(1, 1) == 3.0 && b.Entry(2, 1) == 1.0;
  }

  const ExampleProduct := Matrix(2, 2, [20.0, 14.0, 56.0, 41.0])

  lemma ExampleEntries(i: int, j: int)
    requires 0 <= i < 2 && 0 <= j < 2
    ensures Mul(ExampleLeft, ExampleRight).value.Entry(i, j) == ExampleProduct.Entry(i, j)
  {
    var a, b := ExampleLeft, ExampleRight;
    assert Mul(a, b).value.Entry(i, j) == Dot(a.Row(i), b.Column(j));
    ExampleRows();
    ExampleColumns();
    var u, v := a.Row(i), b.Column(j);
    DotOfThree(u, v);
    if i == 0 && j == 0 {
      assert ExampleProduct.Entry(0, 0) == 20.0;
    } else if i == 0 {
      assert ExampleProduct.Entry(0, 1) == 14.0;
    } else if j == 0 {
      assert ExampleProduct.Entry(1, 0) == 56.0;
    } else {
      assert ExampleProduct.Entry(1, 1) == 41.0;
    }
  }

  /** The 2x3 matrix [1..6] times the 3x2 matrix [6..1] is the 2x2 matrix [20, 14, 56, 41]. */
  lemma MulExample()
    ensures Mul(ExampleLeft, ExampleRight) == Ok(ExampleProduct)
  {
    var p := Mul(ExampleLeft, ExampleRight).value;
    forall i, j | 0 <= i < 2 && 0 <= j < 2
      ensures p.Entry(i, j) == ExampleProduct.Entry(i, j)
    {
      ExampleEntries(i, j);
    }
    Extensionality(p, ExampleProduct);
  }

  lemma DotOfThree(u: seq<real>, v: seq<real>)
    requires |u| == 3 && |v| == 3
    ensures Dot(u, v) == u[0] * v[0] + u[1] * v[1] + u[2] * v[2]
  {
    assert DotUpTo(u, v, 1) == u[0] * v[0];
    assert DotUpTo(u, v, 2) == u[0] * v[0] + u[1] * v[1];
  }
}
