/**
  Dense vectors and matrices (src/core/linear_algebra.c).

  A vector of length n is a `seq<real>` of length n and a rows x columns matrix is a
  `seq<seq<real>>` of `rows` rows of `columns` entries each (the library's `double**`,
  one heap row per matrix row). Every routine of the library allocates a fresh result
  and fills it with index loops; here each routine is a method that builds its result
  with the same loops, in the same order, and never changes its arguments. The sizes
  the library passes around as `int` are kept as explicit parameters and each method
  requires its arguments to have the shapes it is told they have (the library cannot
  check this and reads out of bounds otherwise).
 */
module LinearAlgebra {
  import opened Wrappers

  type Vector = seq<real>
  type Matrix = seq<seq<real>>

  predicate IsMatrix(A: Matrix, rows: nat, columns: nat) {
    |A| == rows && forall i :: 0 <= i < rows ==> |A[i]| == columns
  }

  /* ---------------------------------------------------------------------------
     Specification functions
     --------------------------------------------------------------------------- */

  /** Σ_{q<k} a[q]·b[q] */
  function Dot(a: Vector, b: Vector, k: nat): real
    requires k <= |a| && k <= |b|
  {
    if k == 0 then 0.0 else Dot(a, b, k - 1) + a[k - 1] * b[k - 1]
  }

  /** Entry (i, j) of A·B summed over the first k terms: Σ_{q<k} A[i][q]·B[q][j] */
  function MulEntry(A: Matrix, B: Matrix, i: nat, j: nat, k: nat): real
    requires i < |A| && k <= |A[i]| && k <= |B|
    requires forall q :: 0 <= q < k ==> j < |B[q]|
  {
    if k == 0 then 0.0 else MulEntry(A, B, i, j, k - 1) + A[i][k - 1] * B[k - 1][j]
  }

  /** Entry (i, j) of A·Bᵀ: Σ_{q<k} A[i][q]·B[j][q] */
  function MulTransposedEntry(A: Matrix, B: Matrix, i: nat, j: nat, k: nat): real
    requires i < |A| && j < |B| && k <= |A[i]| && k <= |B[j]|
  {
    if k == 0 then 0.0 else MulTransposedEntry(A, B, i, j, k - 1) + A[i][k - 1] * B[j][k - 1]
  }

  /** Entry (i, j) of Aᵀ·B: Σ_{q<k} A[q][i]·B[q][j] */
  function TransposedMulEntry(A: Matrix, B: Matrix, i: nat, j: nat, k: nat): real
    requires k <= |A| && k <= |B|
    requires forall q :: 0 <= q < k ==> i < |A[q]| && j < |B[q]|
  {
    if k == 0 then 0.0 else TransposedMulEntry(A, B, i, j, k - 1) + A[k - 1][i] * B[k - 1][j]
  }

  /** Σ_{q<k} A[q][j]: the sum of the first k entries of column j */
  function ColumnSum(A: Matrix, j: nat, k: nat): real
    requires k <= |A|
    requires forall q :: 0 <= q < k ==> j < |A[q]|
  {
    if k == 0 then 0.0 else ColumnSum(A, j, k - 1) + A[k - 1][j]
  }

  function Column(A: Matrix, rows: nat, columns: nat, j: nat): (c: Vector)
    requires IsMatrix(A, rows, columns) && j < columns
    ensures |c| == rows
  {
    seq(rows, i requires 0 <= i < rows => A[i][j])
  }

  function VectorSum(a: Vector, b: Vector): (r: Vector)
    requires |a| == |b|
    ensures |r| == |a|
  {
    seq(|a|, i requires 0 <= i < |a| => a[i] + b[i])
  }

  function VectorDifference(a: Vector, b: Vector): (r: Vector)
    requires |a| == |b|
    ensures |r| == |a|
  {
    seq(|a|, i requires 0 <= i < |a| => a[i] - b[i])
  }

  function VectorScaled(a: Vector, scalar: real): (r: Vector)
    ensures |r| == |a|
  {
    seq(|a|, i requires 0 <= i < |a| => scalar * a[i])
  }

  function MatrixSum(A: Matrix, B: Matrix, rows: nat, columns: nat): (R: Matrix)
    requires IsMatrix(A, rows, columns) && IsMatrix(B, rows, columns)
    ensures IsMatrix(R, rows, columns)
  {
    seq(rows, i requires 0 <= i < rows => VectorSum(A[i], B[i]))
  }

  function MatrixDifference(A: Matrix, B: Matrix, rows: nat, columns: nat): (R: Matrix)
    requires IsMatrix(A, rows, columns) && IsMatrix(B, rows, columns)
    ensures IsMatrix(R, rows, columns)
  {
    seq(rows, i requires 0 <= i < rows => VectorDifference(A[i], B[i]))
  }

  function MatrixScaled(A: Matrix, rows: nat, columns: nat, scalar: real): (R: Matrix)
    requires IsMatrix(A, rows, columns)
    ensures IsMatrix(R, rows, columns)
  {
    seq(rows, i requires 0 <= i < rows => seq(columns, j requires 0 <= j < columns => A[i][j] * scalar))
  }

  function Transpose(A: Matrix, rows: nat, columns: nat): (T: Matrix)
    requires IsMatrix(A, rows, columns)
    ensures IsMatrix(T, columns, rows)
  {
    seq(columns, i requires 0 <= i < columns => seq(rows, j requires 0 <= j < rows => A[j][i]))
  }

  /** A without row i and column j (any i and j: an index outside the matrix drops the last row or column, a negative one the first) */
  function Submatrix(A: Matrix, rows: nat, columns: nat, i: int, j: int): (S: Matrix)
    requires IsMatrix(A, rows, columns) && rows >= 1 && columns >= 1
    ensures IsMatrix(S, rows - 1, columns - 1)
  {
    seq(rows - 1, r requires 0 <= r < rows - 1 =>
      seq(columns - 1, c requires 0 <= c < columns - 1 =>
        A[if r < i then r else r + 1][if c < j then c else c + 1]))
  }

  /**
    The determinant as the library computes it: the entry itself for a 1 x 1 matrix,
    otherwise the expansion along the first row (which is the empty sum 0 for the
    0 x 0 matrix).
   */
  function Det(A: Matrix, n: nat): real
    requires IsMatrix(A, n, n)
    decreases n, 1, 0
  {
    if n == 1 then A[0][0] else DetSum(A, n, n)
  }

  /** The first k terms of the first-row expansion Σ_{q<k} A[0][q]·(-1)^q·Det(Submatrix(A, 0, q)) */
  function DetSum(A: Matrix, n: nat, k: nat): real
    requires IsMatrix(A, n, n) && k <= n
    decreases n, 0, k
  {
    if k == 0 then 0.0 else DetSum(A, n, k - 1) + ExpansionTerm(A, n, k - 1)
  }

  /** The sign factor of column q in the first-row expansion: 1 at an even column, -1 at an odd one */
  function SignFactor(q: nat): int {
    if q % 2 == 0 then 1 else -1
  }

  /** A[0][q]·(-1)^q·Det(Submatrix(A, 0, q)): the term of the expansion for column q */
  function ExpansionTerm(A: Matrix, n: nat, q: nat): real
    requires IsMatrix(A, n, n) && q < n
    decreases n, 0, 0
  {
    A[0][q] * (SignFactor(q) as real) * Det(Submatrix(A, n, n, 0, q), n - 1)
  }

  function Minor(A: Matrix, n: nat, i: int, j: int): real
    requires IsMatrix(A, n, n) && n > 1
  {
    Det(Submatrix(A, n, n, i, j), n - 1)
  }

  function Cofactor(A: Matrix, n: nat, i: int, j: int): real
    requires IsMatrix(A, n, n) && n > 1
  {
    if (i + j) % 2 == 0 then Minor(A, n, i, j) else -Minor(A, n, i, j)
  }

  /** The row-major concatenation of the rows of A */
  function Flat(A: Matrix): Vector {
    if |A| == 0 then [] else Flat(A[..|A| - 1]) + A[|A| - 1]
  }

  /** Row r of a row-major vector: v[r·columns .. r·columns + columns] */
  function Row(v: Vector, rows: nat, columns: nat, r: nat): (row: Vector)
    requires |v| == rows * columns && r < rows
    ensures |row| == columns
  {
    RowBounds(r, rows, columns);
    v[r * columns .. r * columns + columns]
  }

  /** The rows x columns matrix whose rows are consecutive slices of v */
  function Unflatten(v: Vector, rows: nat, columns: nat): (M: Matrix)
    requires |v| == rows * columns
    ensures IsMatrix(M, rows, columns)
  {
    seq(rows, r requires 0 <= r < rows => Row(v, rows, columns, r))
  }

  function ColumnMatrix(a: Vector): (M: Matrix)
    ensures IsMatrix(M, |a|, 1)
  {
    seq(|a|, i requires 0 <= i < |a| => [a[i]])
  }

  function FirstColumn(A: Matrix, rows: nat): (v: Vector)
    requires IsMatrix(A, rows, 1)
    ensures |v| == rows
  {
    seq(rows, i requires 0 <= i < rows => A[i][0])
  }

  /* ---------------------------------------------------------------------------
     Index arithmetic
     --------------------------------------------------------------------------- */

  lemma RowBounds(r: nat, rows: nat, columns: nat)
    requires r < rows
    ensures r * columns + columns <= rows * columns
  {
    assert r * columns + columns == (r + 1) * columns;
    assert (r + 1) * columns <= rows * columns by {
      assert r + 1 <= rows;
      MulMonotone(r + 1, rows, columns);
    }
  }

  lemma MulMonotone(a: nat, b: nat, c: nat)
    requires a <= b
    ensures a * c <= b * c
  {
  }

  lemma RowMajorIndex(i: nat, j: nat, rows: nat, columns: nat)
    requires i < rows && j < columns
    ensures i * columns + j < rows * columns
  {
    RowBounds(i, rows, columns);
  }

  /* ---------------------------------------------------------------------------
     Vectors
     --------------------------------------------------------------------------- */

  /** initZeroVector: n zeros */
  method InitZeroVector(n: nat) returns (v: Vector)
    ensures |v| == n
    ensures forall i :: 0 <= i < n ==> v[i] == 0.0
  {
    v := [];
    var i := 0;
    while i < n
      invariant 0 <= i <= n
      invariant |v| == i
      invariant forall k :: 0 <= k < i ==> v[k] == 0.0
    {
      v := v + [0.0];
      i := i + 1;
    }
  }

  /** initVector has the same body as initZeroVector: it also zero-fills */
  method InitVector(n: nat) returns (v: Vector)
    ensures |v| == n
    ensures forall i :: 0 <= i < n ==> v[i] == 0.0
  {
    v := InitZeroVector(n);
  }

  /** vectorAppend: insert `number` at position `index`, shifting the later entries up by one */
  method VectorAppend(vector: Vector, n: nat, number: real, index: nat) returns (r: Vector)
    requires |vector| == n && index <= n
    ensures |r| == n + 1
    ensures forall i :: 0 <= i < index ==> r[i] == vector[i]
    ensures r[index] == number
    ensures forall i :: index < i <= n ==> r[i] == vector[i - 1]
    ensures r == vector[..index] + [number] + vector[index..]
  {
    r := [];
    var i := 0;
    while i < n + 1
      invariant 0 <= i <= n + 1
      invariant |r| == i
      invariant forall k :: 0 <= k < i && k < index ==> r[k] == vector[k]
      invariant index < i ==> r[index] == number
      invariant forall k :: index < k < i ==> r[k] == vector[k - 1]
    {
      if i < index {
        r := r + [vector[i]];
      } else if i == index {
        r := r + [number];
      } else if i > index {
        r := r + [vector[i - 1]];
      }
      i := i + 1;
    }
    assert r == vector[..index] + [number] + vector[index..];
  }

  method VectorAddition(a: Vector, b: Vector, n: nat) returns (r: Vector)
    requires |a| == n && |b| == n
    ensures r == VectorSum(a, b)
  {
    r := [];
    var i := 0;
    while i < n
      invariant 0 <= i <= n
      invariant r == VectorSum(a[..i], b[..i])
    {
      r := r + [a[i] + b[i]];
      i := i + 1;
    }
    assert a[..n] == a && b[..n] == b;
  }

  method VectorSubtraction(a: Vector, b: Vector, n: nat) returns (r: Vector)
    requires |a| == n && |b| == n
    ensures r == VectorDifference(a, b)
  {
    r := [];
    var i := 0;
    while i < n
      invariant 0 <= i <= n
      invariant r == VectorDifference(a[..i], b[..i])
    {
      r := r + [a[i] - b[i]];
      i := i + 1;
    }
    assert a[..n] == a && b[..n] == b;
  }

  method VectorScalarMultiplication(vector: Vector, n: nat, scalar: real) returns (r: Vector)
    requires |vector| == n
    ensures r == VectorScaled(vector, scalar)
  {
    r := [];
    var i := 0;
    while i < n
      invariant 0 <= i <= n
      invariant |r| == i
      invariant forall k :: 0 <= k < i ==> r[k] == scalar * vector[k]
    {
      r := r + [scalar * vector[i]];
      i := i + 1;
    }
    assert forall k :: 0 <= k < n ==> r[k] == VectorScaled(vector, scalar)[k];
  }

  method VectorDotProduct(a: Vector, b: Vector, n: nat) returns (r: real)
    requires |a| == n && |b| == n
    ensures r == Dot(a, b, n)
  {
    r := 0.0;
    var i := 0;
    while i < n
      invariant 0 <= i <= n
      invariant r == Dot(a, b, i)
    {
      r := r + a[i] * b[i];
      i := i + 1;
    }
  }

  /** Subtraction undoes addition, element by element */
  lemma SubtractionUndoesAddition(a: Vector, b: Vector)
    requires |a| == |b|
    ensures VectorDifference(VectorSum(a, b), b) == a
  {
  }

  /** Scaling by s and then by 1/s gives the vector back */
  lemma ScalingIsInvertible(a: Vector, s: real)
    requires s != 0.0
    ensures VectorScaled(VectorScaled(a, s), 1.0 / s) == a
  {
    forall i | 0 <= i < |a|
      ensures VectorScaled(VectorScaled(a, s), 1.0 / s)[i] == a[i]
    {
      calc {
        VectorScaled(VectorScaled(a, s), 1.0 / s)[i];
        (1.0 / s) * (s * a[i]);
        ((1.0 / s) * s) * a[i];
        a[i];
      }
    }
  }

  /** The dot product is symmetric */
  lemma {:induction false} DotSymmetric(a: Vector, b: Vector, k: nat)
    requires k <= |a| && k <= |b|
    ensures Dot(a, b, k) == Dot(b, a, k)
  {
    if k > 0 {
      DotSymmetric(a, b, k - 1);
    }
  }

  /* ---------------------------------------------------------------------------
     Matrices
     --------------------------------------------------------------------------- */

  method InitZeroMatrix(rows: nat, columns: nat) returns (R: Matrix)
    ensures IsMatrix(R, rows, columns)
    ensures forall i, j :: 0 <= i < rows && 0 <= j < columns ==> R[i][j] == 0.0
  {
    R := [];
    var i := 0;
    while i < rows
      invariant 0 <= i <= rows
      invariant IsMatrix(R, i, columns)
      invariant forall p, q :: 0 <= p < i && 0 <= q < columns ==> R[p][q] == 0.0
    {
      var row := [];
      var j := 0;
      while j < columns
        invariant 0 <= j <= columns
        invariant |row| == j
        invariant forall q :: 0 <= q < j ==> row[q] == 0.0
      {
        row := row + [0.0];
        j := j + 1;
      }
      R := R + [row];
      i := i + 1;
    }
  }

  /** matrixGetRow: a copy of row `index` */
  method MatrixGetRow(A: Matrix, rows: nat, columns: nat, index: nat) returns (row: Vector)
    requires IsMatrix(A, rows, columns) && index < rows
    ensures row == A[index]
  {
    row := [];
    var i := 0;
    while i < columns
      invariant 0 <= i <= columns
      invariant row == A[index][..i]
    {
      row := row + [A[index][i]];
      i := i + 1;
    }
  }

  /** matrixGetColumn: a copy of column `index` */
  method MatrixGetColumn(A: Matrix, rows: nat, columns: nat, index: nat) returns (column: Vector)
    requires IsMatrix(A, rows, columns) && index < columns
    ensures column == Column(A, rows, columns, index)
  {
    column := [];
    var i := 0;
    while i < rows
      invariant 0 <= i <= rows
      invariant |column| == i
      invariant forall k :: 0 <= k < i ==> column[k] == A[k][index]
    {
      column := column + [A[i][index]];
      i := i + 1;
    }
  }

  method MatrixAddition(A: Matrix, B: Matrix, rows: nat, columns: nat) returns (R: Matrix)
    requires IsMatrix(A, rows, columns) && IsMatrix(B, rows, columns)
    ensures R == MatrixSum(A, B, rows, columns)
  {
    R := [];
    var i := 0;
    while i < rows
      invariant 0 <= i <= rows
      invariant |R| == i
      invariant forall p :: 0 <= p < i ==> R[p] == VectorSum(A[p], B[p])
    {
      var row := [];
      var j := 0;
      while j < columns
        invariant 0 <= j <= columns
        invariant row == VectorSum(A[i][..j], B[i][..j])
      {
        row := row + [A[i][j] + B[i][j]];
        j := j + 1;
      }
      assert A[i][..columns] == A[i] && B[i][..columns] == B[i];
      R := R + [row];
      i := i + 1;
    }
  }

  method MatrixSubtraction(A: Matrix, B: Matrix, rows: nat, columns: nat) returns (R: Matrix)
    requires IsMatrix(A, rows, columns) && IsMatrix(B, rows, columns)
    ensures R == MatrixDifference(A, B, rows, columns)
  {
    R := [];
    var i := 0;
    while i < rows
      invariant 0 <= i <= rows
      invariant |R| == i
      invariant forall p :: 0 <= p < i ==> R[p] == VectorDifference(A[p], B[p])
    {
      var row := [];
      var j := 0;
      while j < columns
        invariant 0 <= j <= columns
        invariant row == VectorDifference(A[i][..j], B[i][..j])
      {
        row := row + [A[i][j] - B[i][j]];
        j := j + 1;
      }
      assert A[i][..columns] == A[i] && B[i][..columns] == B[i];
      R := R + [row];
      i := i + 1;
    }
  }

  method MatrixScalarMultiplication(A: Matrix, rows: nat, columns: nat, scalar: real) returns (R: Matrix)
    requires IsMatrix(A, rows, columns)
    ensures R == MatrixScaled(A, rows, columns, scalar)
  {
    R := [];
    var i := 0;
    while i < rows
      invariant 0 <= i <= rows
      invariant IsMatrix(R, i, columns)
      invariant forall p, q :: 0 <= p < i && 0 <= q < columns ==> R[p][q] == A[p][q] * scalar
    {
      var row := [];
      var j := 0;
      while j < columns
        invariant 0 <= j <= columns
        invariant |row| == j
        invariant forall q :: 0 <= q < j ==> row[q] == A[i][q] * scalar
      {
        row := row + [A[i][j] * scalar];
        j := j + 1;
      }
      R := R + [row];
      i := i + 1;
    }
    MatrixExtensionality(R, MatrixScaled(A, rows, columns, scalar), rows, columns);
  }

  /** Subtraction undoes addition for matrices */
  lemma MatrixSubtractionUndoesAddition(A: Matrix, B: Matrix, rows: nat, columns: nat)
    requires IsMatrix(A, rows, columns) && IsMatrix(B, rows, columns)
    ensures MatrixDifference(MatrixSum(A, B, rows, columns), B, rows, columns) == A
  {
    forall i | 0 <= i < rows
      ensures MatrixDifference(MatrixSum(A, B, rows, columns), B, rows, columns)[i] == A[i]
    {
      SubtractionUndoesAddition(A[i], B[i]);
    }
  }

  /** matrixMultiplication: defined only when columns_A == rows_B */
  method MatrixMultiplication(A: Matrix, rowsA: nat, columnsA: nat, B: Matrix, rowsB: nat, columnsB: nat)
    returns (r: Result<Matrix>)
    requires IsMatrix(A, rowsA, columnsA) && IsMatrix(B, rowsB, columnsB)
    ensures r.Success? <==> columnsA == rowsB
    ensures r.Failure? ==> r.error == DimensionMismatch
    ensures r.Success? ==> IsMatrix(r.value, rowsA, columnsB)
    ensures r.Success? ==> forall i, j :: 0 <= i < rowsA && 0 <= j < columnsB ==>
              r.value[i][j] == MulEntry(A, B, i, j, columnsA)
  {
    if columnsA == rowsB {
      var R: Matrix := [];
      var aRow := 0;
      while aRow < rowsA
        invariant 0 <= aRow <= rowsA
        invariant IsMatrix(R, aRow, columnsB)
        invariant forall i, j :: 0 <= i < aRow && 0 <= j < columnsB ==> R[i][j] == MulEntry(A, B, i, j, columnsA)
      {
        var row := [];
        var bColumn := 0;
        while bColumn < columnsB
          invariant 0 <= bColumn <= columnsB
          invariant |row| == bColumn
          invariant forall j :: 0 <= j < bColumn ==> row[j] == MulEntry(A, B, aRow, j, columnsA)
        {
          var newItem := 0.0;
          var index := 0;
          while index < columnsA
            invariant 0 <= index <= columnsA
            invariant newItem == MulEntry(A, B, aRow, bColumn, index)
          {
            newItem := newItem + A[aRow][index] * B[index][bColumn];
            index := index + 1;
          }
          row := row + [newItem];
          bColumn := bColumn + 1;
        }
        R := R + [row];
        aRow := aRow + 1;
      }
      r := Success(R);
    } else {
      r := Failure(DimensionMismatch);
    }
  }

  /** Entry (i, j) of a product is the dot product of row i of A with column j of B */
  lemma {:induction false} MulEntryIsDot(A: Matrix, B: Matrix, rowsB: nat, columnsB: nat, i: nat, j: nat, k: nat)
    requires IsMatrix(B, rowsB, columnsB) && j < columnsB
    requires i < |A| && k <= |A[i]| && k <= rowsB
    ensures MulEntry(A, B, i, j, k) == Dot(A[i], Column(B, rowsB, columnsB, j), k)
  {
    if k > 0 {
      MulEntryIsDot(A, B, rowsB, columnsB, i, j, k - 1);
    }
  }

  /** Σ_q A[i][q]·B[j][q] is entry (i, j) of A·Bᵀ */
  lemma {:induction false} MulTransposedEntryIsProduct(A: Matrix, B: Matrix, rowsB: nat, columnsB: nat, i: nat, j: nat, k: nat)
    requires IsMatrix(B, rowsB, columnsB) && j < rowsB
    requires i < |A| && k <= |A[i]| && k <= columnsB
    ensures MulTransposedEntry(A, B, i, j, k) == MulEntry(A, Transpose(B, rowsB, columnsB), i, j, k)
  {
    if k > 0 {
      MulTransposedEntryIsProduct(A, B, rowsB, columnsB, i, j, k - 1);
    }
  }

  /** Σ_q A[q][i]·B[q][j] is entry (i, j) of Aᵀ·B */
  lemma {:induction false} TransposedMulEntryIsProduct(A: Matrix, rowsA: nat, columnsA: nat, B: Matrix, i: nat, j: nat, k: nat)
    requires IsMatrix(A, rowsA, columnsA) && i < columnsA
    requires k <= rowsA && k <= |B| && forall q :: 0 <= q < k ==> j < |B[q]|
    ensures TransposedMulEntry(A, B, i, j, k) == MulEntry(Transpose(A, rowsA, columnsA), B, i, j, k)
  {
    if k > 0 {
      TransposedMulEntryIsProduct(A, rowsA, columnsA, B, i, j, k - 1);
    }
  }

  method MatrixTranspose(A: Matrix, rows: nat, columns: nat) returns (R: Matrix)
    requires IsMatrix(A, rows, columns)
    ensures IsMatrix(R, columns, rows)
    ensures forall i, j :: 0 <= i < columns && 0 <= j < rows ==> R[i][j] == A[j][i]
    ensures R == Transpose(A, rows, columns)
  {
    R := [];
    var i := 0;
    while i < columns
      invariant 0 <= i <= columns
      invariant IsMatrix(R, i, rows)
      invariant forall p, q :: 0 <= p < i && 0 <= q < rows ==> R[p][q] == A[q][p]
    {
      var row := [];
      var j := 0;
      while j < rows
        invariant 0 <= j <= rows
        invariant |row| == j
        invariant forall q :: 0 <= q < j ==> row[q] == A[q][i]
      {
        row := row + [A[j][i]];
        j := j + 1;
      }
      R := R + [row];
      i := i + 1;
    }
    MatrixExtensionality(R, Transpose(A, rows, columns), columns, rows);
  }

  /** Two matrices of one shape with equal entries are equal */
  lemma MatrixExtensionality(A: Matrix, B: Matrix, rows: nat, columns: nat)
    requires IsMatrix(A, rows, columns) && IsMatrix(B, rows, columns)
    requires forall i, j :: 0 <= i < rows && 0 <= j < columns ==> A[i][j] == B[i][j]
    ensures A == B
  {
    forall i | 0 <= i < rows
      ensures A[i] == B[i]
    {
    }
  }

  /** Transposing twice gives back the original matrix */
  lemma TransposeTwice(A: Matrix, rows: nat, columns: nat)
    requires IsMatrix(A, rows, columns)
    ensures Transpose(Transpose(A, rows, columns), columns, rows) == A
  {
    MatrixExtensionality(Transpose(Transpose(A, rows, columns), columns, rows), A, rows, columns);
  }

  /** matrixSubmatrix: A without row i and column j; fails unless rows > 1 and columns > 1 */
  method MatrixSubmatrix(A: Matrix, rows: nat, columns: nat, i: int, j: int) returns (r: Result<Matrix>)
    requires IsMatrix(A, rows, columns)
    ensures r.Success? <==> rows > 1 && columns > 1
    ensures r.Failure? ==> r.error == NoSubmatrix
    ensures r.Success? ==> IsMatrix(r.value, rows - 1, columns - 1)
    ensures r.Success? ==> forall p, q :: 0 <= p < rows - 1 && 0 <= q < columns - 1 ==>
              r.value[p][q] == A[if p < i then p else p + 1][if q < j then q else q + 1]
    ensures r.Success? ==> r.value == Submatrix(A, rows, columns, i, j)
  {
    if rows > 1 && columns > 1 {
      var R: Matrix := [];
      var rowNo := 0;
      while rowNo < rows - 1
        invariant 0 <= rowNo <= rows - 1
        invariant IsMatrix(R, rowNo, columns - 1)
        invariant forall p, q :: 0 <= p < rowNo && 0 <= q < columns - 1 ==>
                    R[p][q] == A[if p < i then p else p + 1][if q < j then q else q + 1]
      {
        var row := SubmatrixRow(A, rows, columns, i, j, rowNo);
        R := R + [row];
        rowNo := rowNo + 1;
      }
      MatrixExtensionality(R, Submatrix(A, rows, columns, i, j), rows - 1, columns - 1);
      r := Success(R);
    } else {
      r := Failure(NoSubmatrix);
    }
  }

  /** The inner loop of matrixSubmatrix: row rowNo of the result, skipping column j */
  method SubmatrixRow(A: Matrix, rows: nat, columns: nat, i: int, j: int, rowNo: nat) returns (row: Vector)
    requires IsMatrix(A, rows, columns) && columns >= 1 && rowNo < rows - 1
    ensures |row| == columns - 1
    ensures forall q :: 0 <= q < columns - 1 ==> row[q] == A[if rowNo < i then rowNo else rowNo + 1][if q < j then q else q + 1]
  {
    row := [];
    var columnNo := 0;
    while columnNo < columns - 1
      invariant 0 <= columnNo <= columns - 1
      invariant |row| == columnNo
      invariant forall q :: 0 <= q < columnNo ==>
                  row[q] == A[if rowNo < i then rowNo else rowNo + 1][if q < j then q else q + 1]
    {
      var rowIndex := if rowNo < i then rowNo else rowNo + 1;
      var columnIndex := if columnNo < j then columnNo else columnNo + 1;
      row := row + [A[rowIndex][columnIndex]];
      columnNo := columnNo + 1;
    }
  }

  /** matrixDeterminantLaplaceExpansion: recursive first-row expansion; fails on a non-square matrix */
  method MatrixDeterminantLaplaceExpansion(A: Matrix, rows: nat, columns: nat) returns (r: Result<real>)
    requires IsMatrix(A, rows, columns)
    ensures r.Success? <==> rows == columns
    ensures r.Failure? ==> r.error == NotSquare
    ensures r.Success? ==> r.value == Det(A, rows)
    decreases rows, 2
  {
    if rows == columns {
      if rows == 1 && columns == 1 {
        r := Success(A[0][0]);
      } else {
        var determinant := 0.0;
        var index := 0;
        while index < columns
          invariant 0 <= index <= columns
          invariant determinant == DetSum(A, rows, index)
        {
          var term := LaplaceTerm(A, rows, index);
          DetSumNext(A, rows, index);
          determinant := determinant + term;
          index := index + 1;
        }
        r := Success(determinant);
      }
    } else {
      r := Failure(NotSquare);
    }
  }

  /** One turn of the Laplace loop: A[0][index] times its sign factor times the minor found by recursion */
  method LaplaceTerm(A: Matrix, rows: nat, index: nat) returns (term: real)
    requires IsMatrix(A, rows, rows) && rows > 1 && index < rows
    ensures term == ExpansionTerm(A, rows, index)
    decreases rows, 1
  {
    var signFactor: int := if (0 + index) % 2 == 0 then 1 else -1;
    var minor := LaplaceMinor(A, rows, index);
    assert signFactor == SignFactor(index);
    term := A[0][index] * (signFactor as real) * minor;
  }

  /** The minor of A[0][index], from the sub-matrix and the recursive expansion */
  method LaplaceMinor(A: Matrix, rows: nat, index: nat) returns (minor: real)
    requires IsMatrix(A, rows, rows) && rows > 1 && index < rows
    ensures minor == Det(Submatrix(A, rows, rows, 0, index), rows - 1)
    decreases rows, 0
  {
    var sub := MatrixSubmatrix(A, rows, rows, 0, index);
    var r := MatrixDeterminantLaplaceExpansion(sub.value, rows - 1, rows - 1);
    minor := r.value;
  }

  /** matrixDeterminant delegates to the Laplace expansion */
  method MatrixDeterminant(A: Matrix, rows: nat, columns: nat) returns (r: Result<real>)
    requires IsMatrix(A, rows, columns)
    ensures r.Success? <==> rows == columns
    ensures r.Failure? ==> r.error == NotSquare
    ensures r.Success? ==> r.value == Det(A, rows)
  {
    r := MatrixDeterminantLaplaceExpansion(A, rows, columns);
  }

  /** matrixMinor: the determinant of the sub-matrix; fails on a non-square matrix and, through matrixSubmatrix, on one of size 0 or 1 */
  method MatrixMinor(A: Matrix, rows: nat, columns: nat, i: int, j: int) returns (r: Result<real>)
    requires IsMatrix(A, rows, columns)
    ensures r.Success? <==> rows == columns && rows > 1
    ensures rows != columns ==> r == Failure(NotSquare)
    ensures rows == columns && rows <= 1 ==> r == Failure(NoSubmatrix)
    ensures r.Success? ==> r.value == Minor(A, rows, i, j)
  {
    if rows == columns {
      var sub := MatrixSubmatrix(A, rows, columns, i, j);
      if sub.Failure? {
        return Failure(sub.error);
      }
      var minor := MatrixDeterminant(sub.value, rows - 1, columns - 1);
      r := Success(minor.value);
    } else {
      r := Failure(NotSquare);
    }
  }

  /** matrixCofactor: the minor with sign + exactly when i + j is even */
  method MatrixCofactor(A: Matrix, rows: nat, columns: nat, i: int, j: int) returns (r: Result<real>)
    requires IsMatrix(A, rows, columns)
    ensures r.Success? <==> rows == columns && rows > 1
    ensures rows != columns ==> r == Failure(NotSquare)
    ensures rows == columns && rows <= 1 ==> r == Failure(NoSubmatrix)
    ensures r.Success? ==> r.value == Cofactor(A, rows, i, j)
    ensures r.Success? && (i + j) % 2 == 0 ==> r.value == Minor(A, rows, i, j)
    ensures r.Success? && (i + j) % 2 != 0 ==> r.value == -Minor(A, rows, i, j)
  {
    if rows == columns {
      var signFactor: int := if (i + j) % 2 == 0 then 1 else -1;
      var minor := MatrixMinor(A, rows, columns, i, j);
      if minor.Failure? {
        return Failure(minor.error);
      }
      r := Success((signFactor as real) * minor.value);
    } else {
      r := Failure(NotSquare);
    }
  }

  /**
    matrixAdjoint: the transpose of the matrix of cofactors. Because every cofactor asks
    for a sub-matrix, a 1 x 1 matrix fails like a non-square one; the 0 x 0 matrix has the
    empty adjoint.
   */
  method MatrixAdjoint(A: Matrix, rows: nat, columns: nat) returns (r: Result<Matrix>)
    requires IsMatrix(A, rows, columns)
    ensures r.Success? <==> rows == columns && rows != 1
    ensures rows != columns ==> r == Failure(NotSquare)
    ensures rows == columns && rows == 1 ==> r == Failure(NoSubmatrix)
    ensures r.Success? ==> IsMatrix(r.value, rows, rows)
    ensures r.Success? && rows > 1 ==> forall i, j :: 0 <= i < rows && 0 <= j < rows ==>
              r.value[i][j] == Cofactor(A, rows, j, i)
  {
    if rows == columns {
      var cofactors: Matrix := [];
      var i := 0;
      while i < rows
        invariant 0 <= i <= rows
        invariant IsMatrix(cofactors, i, columns)
        invariant i > 0 ==> rows > 1
        invariant forall p, q :: 0 <= p < i && 0 <= q < columns ==> rows > 1 && cofactors[p][q] == Cofactor(A, rows, p, q)
      {
        var row := CofactorRow(A, rows, i);
        if row.Failure? {
          return Failure(row.error);
        }
        cofactors := cofactors + [row.value];
        i := i + 1;
      }
      var adj := MatrixTranspose(cofactors, rows, columns);
      r := Success(adj);
    } else {
      r := Failure(NotSquare);
    }
  }

  /** The inner loop of matrixAdjoint: the cofactors of row i, or the failure of the first one that fails */
  method CofactorRow(A: Matrix, n: nat, i: int) returns (r: Result<Vector>)
    requires IsMatrix(A, n, n) && n >= 1
    ensures r.Success? <==> n > 1
    ensures r.Failure? ==> r.error == NoSubmatrix
    ensures r.Success? ==> |r.value| == n && forall q :: 0 <= q < n ==> r.value[q] == Cofactor(A, n, i, q)
  {
    var row := [];
    var j := 0;
    while j < n
      invariant 0 <= j <= n
      invariant |row| == j
      invariant j > 0 ==> n > 1
      invariant forall q :: 0 <= q < j ==> n > 1 && row[q] == Cofactor(A, n, i, q)
    {
      var c := MatrixCofactor(A, n, n, i, j);
      if c.Failure? {
        return Failure(c.error);
      }
      row := row + [c.value];
      j := j + 1;
    }
    r := Success(row);
  }

  /** The expansion grows by one term per column, added at an even column and subtracted at an odd one */
  lemma DetSumNext(A: Matrix, n: nat, k: nat)
    requires IsMatrix(A, n, n) && k < n
    ensures DetSum(A, n, k + 1) == DetSum(A, n, k) + ExpansionTerm(A, n, k)
  {
  }

  lemma {:induction false} DetSumZeroFirstRow(A: Matrix, n: nat, k: nat)
    requires IsMatrix(A, n, n) && k <= n
    requires forall q :: 0 <= q < n ==> A[0][q] == 0.0
    ensures DetSum(A, n, k) == 0.0
  {
    if k > 0 {
      DetSumZeroFirstRow(A, n, k - 1);
      assert ExpansionTerm(A, n, k - 1) == 0.0;
    }
  }

  /** A matrix whose first row is zero has determinant zero */
  lemma DetZeroFirstRow(A: Matrix, n: nat)
    requires IsMatrix(A, n, n) && n >= 1
    requires forall q :: 0 <= q < n ==> A[0][q] == 0.0
    ensures Det(A, n) == 0.0
  {
    if n > 1 {
      DetSumZeroFirstRow(A, n, n);
    }
  }

  /** The expansion of a 2 x 2 matrix is ad - bc */
  lemma DetTwoByTwo(A: Matrix)
    requires IsMatrix(A, 2, 2)
    ensures Det(A, 2) == A[0][0] * A[1][1] - A[0][1] * A[1][0]
  {
    MatrixExtensionality(Submatrix(A, 2, 2, 0, 0), [[A[1][1]]], 1, 1);
    MatrixExtensionality(Submatrix(A, 2, 2, 0, 1), [[A[1][0]]], 1, 1);
    assert ExpansionTerm(A, 2, 0) == A[0][0] * A[1][1];
    assert ExpansionTerm(A, 2, 1) == -(A[0][1] * A[1][0]);
  }

  /* ---------------------------------------------------------------------------
     Conversions
     --------------------------------------------------------------------------- */

  /** convertVectorMatrix: an n-vector as an n x 1 matrix */
  method ConvertVectorMatrix(a: Vector, n: nat) returns (M: Matrix)
    requires |a| == n
    ensures IsMatrix(M, n, 1)
    ensures forall i :: 0 <= i < n ==> M[i][0] == a[i]
    ensures M == ColumnMatrix(a)
  {
    M := [];
    var i := 0;
    while i < n
      invariant 0 <= i <= n
      invariant M == ColumnMatrix(a[..i])
    {
      M := M + [[a[i]]];
      i := i + 1;
    }
    assert a[..n] == a;
  }

  /** convertMatrixVector: the single column of an n x 1 matrix; fails unless columns == 1 */
  method ConvertMatrixVector(A: Matrix, rows: nat, columns: nat) returns (r: Result<Vector>)
    requires IsMatrix(A, rows, columns)
    ensures r.Success? <==> columns == 1
    ensures r.Failure? ==> r.error == DimensionMismatch
    ensures r.Success? ==> |r.value| == rows && forall i :: 0 <= i < rows ==> r.value[i] == A[i][0]
    ensures r.Success? ==> r.value == FirstColumn(A, rows)
  {
    if columns == 1 {
      var v := [];
      var i := 0;
      while i < rows
        invariant 0 <= i <= rows
        invariant |v| == i
        invariant forall k :: 0 <= k < i ==> v[k] == A[k][0]
      {
        v := v + [A[i][0]];
        i := i + 1;
      }
      r := Success(v);
    } else {
      r := Failure(DimensionMismatch);
    }
  }

  /** Converting a vector to a column matrix and back gives the vector */
  lemma ColumnRoundTrip(a: Vector)
    ensures FirstColumn(ColumnMatrix(a), |a|) == a
  {
  }

  /** The length of a flattened rows x columns matrix is rows·columns */
  lemma {:induction false} FlatLength(A: Matrix, rows: nat, columns: nat)
    requires IsMatrix(A, rows, columns)
    ensures |Flat(A)| == rows * columns
  {
    if rows > 0 {
      FlatLength(A[..rows - 1], rows - 1, columns);
      assert (rows - 1) * columns + columns == rows * columns;
    }
  }

  /** Entry (i, j) sits at position i·columns + j of the flattened matrix */
  lemma {:induction false} FlatIndex(A: Matrix, rows: nat, columns: nat, i: nat, j: nat)
    requires IsMatrix(A, rows, columns) && i < rows && j < columns
    ensures |Flat(A)| == rows * columns
    ensures i * columns + j < rows * columns
    ensures Flat(A)[i * columns + j] == A[i][j]
  {
    FlatLength(A, rows, columns);
    RowMajorIndex(i, j, rows, columns);
    var front := A[..rows - 1];
    FlatLength(front, rows - 1, columns);
    if i < rows - 1 {
      FlatIndex(front, rows - 1, columns, i, j);
      RowMajorIndex(i, j, rows - 1, columns);
    } else {
      assert i * columns + j == (rows - 1) * columns + j;
    }
  }

  /** Σ_{q<k} A[i][q]·B[q][j], accumulated in order */
  method AccumulateProduct(A: Matrix, B: Matrix, i: nat, j: nat, k: nat) returns (s: real)
    requires i < |A| && k <= |A[i]| && k <= |B|
    requires forall q :: 0 <= q < k ==> j < |B[q]|
    ensures s == MulEntry(A, B, i, j, k)
  {
    s := 0.0;
    var q := 0;
    while q < k
      invariant 0 <= q <= k
      invariant s == MulEntry(A, B, i, j, q)
    {
      s := s + A[i][q] * B[q][j];
      q := q + 1;
    }
  }

  /** flatten: the row-major vector of a rows x columns matrix (entry (i, j) lands at i·columns + j, see FlatIndex) */
  method Flatten(A: Matrix, rows: nat, columns: nat) returns (a: Vector)
    requires IsMatrix(A, rows, columns)
    ensures |a| == rows * columns
    ensures a == Flat(A)
  {
    a := [];
    var i := 0;
    while i < rows
      invariant 0 <= i <= rows
      invariant a == Flat(A[..i])
    {
      var j := 0;
      while j < columns
        invariant 0 <= j <= columns
        invariant a == Flat(A[..i]) + A[i][..j]
      {
        a := a + [A[i][j]];
        j := j + 1;
      }
      assert A[..i + 1][..i] == A[..i];
      assert A[i][..columns] == A[i];
      i := i + 1;
    }
    assert A[..rows] == A;
    FlatLength(A, rows, columns);
  }

  /** Entry (r, c) of an unflattened vector is v[r·columns + c] */
  lemma UnflattenEntry(v: Vector, rows: nat, columns: nat, r: nat, c: nat)
    requires |v| == rows * columns && r < rows && c < columns
    ensures r * columns + c < |v|
    ensures Unflatten(v, rows, columns)[r][c] == v[r * columns + c]
  {
    RowBounds(r, rows, columns);
  }

  /** Reading a flattened matrix back row by row gives the matrix */
  lemma UnflattenFlat(A: Matrix, rows: nat, columns: nat)
    requires IsMatrix(A, rows, columns)
    ensures |Flat(A)| == rows * columns
    ensures Unflatten(Flat(A), rows, columns) == A
  {
    FlatLength(A, rows, columns);
    var U := Unflatten(Flat(A), rows, columns);
    forall i, j | 0 <= i < rows && 0 <= j < columns
      ensures U[i][j] == A[i][j]
    {
      FlatIndex(A, rows, columns, i, j);
      UnflattenEntry(Flat(A), rows, columns, i, j);
    }
    MatrixExtensionality(U, A, rows, columns);
  }

  /** Flattening an unflattened vector gives the vector */
  lemma FlatUnflatten(v: Vector, rows: nat, columns: nat)
    requires |v| == rows * columns
    ensures Flat(Unflatten(v, rows, columns)) == v
  {
    var U := Unflatten(v, rows, columns);
    FlatLength(U, rows, columns);
    forall k | 0 <= k < |v|
      ensures Flat(U)[k] == v[k]
    {
      var i, j := RowMajorSplit(k, rows, columns);
      FlatIndex(U, rows, columns, i, j);
      UnflattenEntry(v, rows, columns, i, j);
    }
  }

  /** Every position below rows·columns is i·columns + j for one row i and column j */
  lemma RowMajorSplit(k: nat, rows: nat, columns: nat) returns (i: nat, j: nat)
    requires k < rows * columns
    ensures i < rows && j < columns && k == i * columns + j
  {
    i := k / columns;
    j := k % columns;
    if rows <= i {
      MulMonotone(rows, i, columns);
    }
  }

  /**
    The write-back loop that trainANN and trainLogisticRegression both inline:
    `M[r][c] = v[index]; index += 1` for r < rows and c < columns, in row-major order.
   */
  method CopyRowMajor(v: Vector, rows: nat, columns: nat) returns (M: Matrix)
    requires |v| == rows * columns
    ensures M == Unflatten(v, rows, columns)
  {
    M := [];
    var index := 0;
    var r := 0;
    while r < rows
      invariant 0 <= r <= rows
      invariant index == r * columns
      invariant M == Unflatten(v, rows, columns)[..r]
    {
      RowBounds(r, rows, columns);
      var start := index;
      var row := [];
      var c := 0;
      while c < columns
        invariant 0 <= c <= columns
        invariant index == start + c
        invariant row == v[start .. index]
      {
        row := row + [v[index]];
        index := index + 1;
        c := c + 1;
      }
      assert row == Unflatten(v, rows, columns)[r];
      M := M + [row];
      r := r + 1;
      assert index == (r - 1) * columns + columns;
      assert (r - 1) * columns + columns == r * columns;
    }
  }

  /* ---------------------------------------------------------------------------
     Broadcast rows: a matrix whose rows all equal the first, and its flat form
     --------------------------------------------------------------------------- */

  /** Every row equals the first: the shape of a bias row broadcast over the samples */
  predicate RowsIdentical(M: Matrix) {
    forall i :: 0 <= i < |M| ==> M[i] == M[0]
  }

  /** Row-major vectors whose rows are all identical: entry (r, c) equals entry (0, c) */
  predicate BroadcastRows(v: Vector, rows: nat, columns: nat)
    requires |v| == rows * columns
  {
    RowsIdentical(Unflatten(v, rows, columns))
  }

  /** Entry r·columns + c of a vector with identical rows equals entry c */
  lemma BroadcastEntry(v: Vector, rows: nat, columns: nat, r: nat, c: nat)
    requires |v| == rows * columns && BroadcastRows(v, rows, columns) && r < rows && c < columns
    ensures r * columns + c < |v| && c < |v|
    ensures v[r * columns + c] == v[c]
  {
    UnflattenEntry(v, rows, columns, r, c);
    UnflattenEntry(v, rows, columns, 0, c);
    assert Unflatten(v, rows, columns)[r] == Unflatten(v, rows, columns)[0];
  }

  /** The flat form of a matrix with identical rows has identical rows */
  lemma FlatOfIdenticalRows(M: Matrix, rows: nat, columns: nat)
    requires IsMatrix(M, rows, columns) && RowsIdentical(M)
    ensures |Flat(M)| == rows * columns
    ensures BroadcastRows(Flat(M), rows, columns)
  {
    UnflattenFlat(M, rows, columns);
  }

  /** A vector of zeros has identical rows */
  lemma ZeroRowsIdentical(v: Vector, rows: nat, columns: nat)
    requires |v| == rows * columns
    requires forall i :: 0 <= i < |v| ==> v[i] == 0.0
    ensures BroadcastRows(v, rows, columns)
  {
    var M := Unflatten(v, rows, columns);
    forall r | 0 <= r < rows
      ensures M[r] == M[0]
    {
      forall c | 0 <= c < columns
        ensures M[r][c] == 0.0 && M[0][c] == 0.0
      {
        ZeroEntry(v, rows, columns, r, c);
        ZeroEntry(v, rows, columns, 0, c);
      }
    }
  }

  lemma ZeroEntry(v: Vector, rows: nat, columns: nat, r: nat, c: nat)
    requires |v| == rows * columns && r < rows && c < columns
    requires forall i :: 0 <= i < |v| ==> v[i] == 0.0
    ensures Unflatten(v, rows, columns)[r][c] == 0.0
  {
    UnflattenEntry(v, rows, columns, r, c);
  }
}
