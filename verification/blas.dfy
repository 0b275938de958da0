/**
 * The dense-algebra adapter `blas<T>::gemm`, as cuBLAS defines it for
 * column-major matrices: C := alpha * op(A) * op(B) + beta * C, where C is m x n
 * with leading dimension ldc, op(A) is m x k and op(B) is k x n. With beta == 0
 * the old C is not read (overwrite); with beta == 1 the product is added to it
 * (accumulate).
 */
module Blas {
  import opened Layout
  import opened Slices

  /** CUBLAS_OP_N and CUBLAS_OP_T. */
  datatype Op = OpN | OpT

  /** A column-major operand: its values, its leading dimension and whether it is transposed. */
  datatype Matrix = Matrix(data: seq<real>, ld: nat, op: Op)

  /** op(X) is a rows x cols matrix lying inside X's values. */
  predicate Holds(X: Matrix, rows: nat, cols: nat)
  {
    if X.op == OpN then rows <= X.ld && Mul(cols, X.ld) <= |X.data|
    else cols <= X.ld && Mul(rows, X.ld) <= |X.data|
  }

  /** Element (i, j) of op(X): X[i + j * ld], or X[j + i * ld] when transposed. */
  function Elem(X: Matrix, rows: nat, cols: nat, i: nat, j: nat): real
    requires Holds(X, rows, cols) && i < rows && j < cols
  {
    if X.op == OpN then
      BlockBound(X.ld, cols, j, i);
      X.data[i + Mul(j, X.ld)]
    else
      BlockBound(X.ld, rows, i, j);
      X.data[j + Mul(i, X.ld)]
  }

  /** The first len terms of row i of op(A) times column j of op(B). */
  function Dot(A: Matrix, B: Matrix, m: nat, n: nat, k: nat, i: nat, j: nat, len: nat): real
    requires Holds(A, m, k) && Holds(B, k, n) && i < m && j < n && len <= k
    decreases len
  {
    if len == 0 then 0.0
    else Dot(A, B, m, n, k, i, j, len - 1) + Elem(A, m, k, i, len - 1) * Elem(B, k, n, len - 1, j)
  }

  /** beta * c, where beta == 0 means c is not read at all. */
  function Scaled(beta: real, c: real): real
  {
    if beta == 0.0 then 0.0 else beta * c
  }

  /** The argument checks cuBLAS makes, with C the ldc * n values behind the C pointer. */
  predicate GemmArgs(m: nat, n: nat, k: nat, A: Matrix, B: Matrix, sizeC: nat, ldc: nat)
  {
    Holds(A, m, k) && Holds(B, k, n) && 0 < ldc && m <= ldc && sizeC == Mul(n, ldc)
  }

  /** Entry (i, j) of the result: computed for rows 0..m-1, as it was in C for rows m..ldc-1. */
  function Entry(m: nat, n: nat, k: nat, alpha: real, A: Matrix, B: Matrix, beta: real, C: seq<real>, ldc: nat,
                 j: nat, i: nat): real
    requires GemmArgs(m, n, k, A, B, |C|, ldc) && j < n && i < ldc
  {
    BlockBound(ldc, n, j, i);
    if i < m then alpha * Dot(A, B, m, n, k, i, j, k) + Scaled(beta, C[i + Mul(j, ldc)])
    else C[i + Mul(j, ldc)]
  }

  /** Rows 0..rows-1 of column j of the result. */
  function GemmColumn(m: nat, n: nat, k: nat, alpha: real, A: Matrix, B: Matrix, beta: real, C: seq<real>, ldc: nat,
                      j: nat, rows: nat): (col: seq<real>)
    requires GemmArgs(m, n, k, A, B, |C|, ldc) && j < n && rows <= ldc
    ensures |col| == rows
    ensures forall i | 0 <= i < rows :: col[i] == Entry(m, n, k, alpha, A, B, beta, C, ldc, j, i)
    decreases rows
  {
    if rows == 0 then []
    else GemmColumn(m, n, k, alpha, A, B, beta, C, ldc, j, rows - 1) + [Entry(m, n, k, alpha, A, B, beta, C, ldc, j, rows - 1)]
  }

  /** Columns 0..cols-1 of the result, each ldc slots long, one after the other. */
  function GemmColumns(m: nat, n: nat, k: nat, alpha: real, A: Matrix, B: Matrix, beta: real, C: seq<real>, ldc: nat,
                       cols: nat): (r: seq<real>)
    requires GemmArgs(m, n, k, A, B, |C|, ldc) && cols <= n
    ensures |r| == Mul(cols, ldc)
    decreases cols
  {
    if cols == 0 then []
    else GemmColumns(m, n, k, alpha, A, B, beta, C, ldc, cols - 1) + GemmColumn(m, n, k, alpha, A, B, beta, C, ldc, cols - 1, ldc)
  }

  /** The buffer C after `gemm(opA, opB, m, n, k, alpha, A, lda, B, ldb, beta, C, ldc)`. */
  function Gemm(m: nat, n: nat, k: nat, alpha: real, A: Matrix, B: Matrix, beta: real, C: seq<real>, ldc: nat): (r: seq<real>)
    requires GemmArgs(m, n, k, A, B, |C|, ldc)
    ensures |r| == |C|
  {
    GemmColumns(m, n, k, alpha, A, B, beta, C, ldc, n)
  }

  /** Slot i + j * ldc of the first cols columns is row i of column j. */
  lemma {:induction false} ColumnsAt(m: nat, n: nat, k: nat, alpha: real, A: Matrix, B: Matrix, beta: real, C: seq<real>,
                                     ldc: nat, cols: nat, i: nat, j: nat)
    requires GemmArgs(m, n, k, A, B, |C|, ldc) && cols <= n && i < ldc && j < cols
    ensures i + Mul(j, ldc) < Mul(cols, ldc)
    ensures GemmColumns(m, n, k, alpha, A, B, beta, C, ldc, cols)[i + Mul(j, ldc)]
            == Entry(m, n, k, alpha, A, B, beta, C, ldc, j, i)
    decreases cols
  {
    BlockBound(ldc, cols, j, i);
    if j < cols - 1 {
      ColumnsAt(m, n, k, alpha, A, B, beta, C, ldc, cols - 1, i, j);
    }
  }

  /** Slot i + j * ldc of the result is entry (i, j). */
  lemma {:induction false} GemmEntry(m: nat, n: nat, k: nat, alpha: real, A: Matrix, B: Matrix, beta: real, C: seq<real>, ldc: nat, i: nat, j: nat)
    requires GemmArgs(m, n, k, A, B, |C|, ldc) && i < ldc && j < n
    ensures i + Mul(j, ldc) < |C|
    ensures Gemm(m, n, k, alpha, A, B, beta, C, ldc)[i + Mul(j, ldc)] == Entry(m, n, k, alpha, A, B, beta, C, ldc, j, i)
  {
    ColumnsAt(m, n, k, alpha, A, B, beta, C, ldc, n, i, j);
  }

  /**
   * Entry (i, j) of the result is alpha times the dot product of row i of op(A) with
   * column j of op(B), plus beta times the old entry: with beta == 0 the old entry is
   * ignored, with beta == 1 it is accumulated into. Rows m..ldc-1 of C are untouched.
   */
  lemma {:induction false} GemmAt(m: nat, n: nat, k: nat, alpha: real, A: Matrix, B: Matrix, beta: real, C: seq<real>, ldc: nat, i: nat, j: nat)
    requires GemmArgs(m, n, k, A, B, |C|, ldc) && i < ldc && j < n
    ensures i + Mul(j, ldc) < |C|
    ensures i < m ==> Gemm(m, n, k, alpha, A, B, beta, C, ldc)[i + Mul(j, ldc)]
                      == alpha * Dot(A, B, m, n, k, i, j, k) + Scaled(beta, C[i + Mul(j, ldc)])
    ensures i < m && beta == 0.0 ==> Gemm(m, n, k, alpha, A, B, beta, C, ldc)[i + Mul(j, ldc)]
                                     == alpha * Dot(A, B, m, n, k, i, j, k)
    ensures i < m && beta == 1.0 ==> Gemm(m, n, k, alpha, A, B, beta, C, ldc)[i + Mul(j, ldc)]
                                     == C[i + Mul(j, ldc)] + alpha * Dot(A, B, m, n, k, i, j, k)
    ensures m <= i ==> Gemm(m, n, k, alpha, A, B, beta, C, ldc)[i + Mul(j, ldc)] == C[i + Mul(j, ldc)]
  {
    GemmEntry(m, n, k, alpha, A, B, beta, C, ldc, i, j);
  }

  /** With beta == 0 an entry of the result does not depend on the old entry. */
  lemma {:induction false} EntryOverwrite(m: nat, n: nat, k: nat, alpha: real, A: Matrix, B: Matrix,
                                          C1: seq<real>, C2: seq<real>, j: nat, i: nat)
    requires GemmArgs(m, n, k, A, B, |C1|, m) && |C2| == |C1| && j < n && i < m
    ensures Entry(m, n, k, alpha, A, B, 0.0, C1, m, j, i) == Entry(m, n, k, alpha, A, B, 0.0, C2, m, j, i)
  {
  }

  /** With beta == 0 and ldc == m, rows 0..rows-1 of column j do not depend on C's old contents. */
  lemma {:induction false} ColumnOverwrite(m: nat, n: nat, k: nat, alpha: real, A: Matrix, B: Matrix,
                                           C1: seq<real>, C2: seq<real>, j: nat, rows: nat)
    requires GemmArgs(m, n, k, A, B, |C1|, m) && |C2| == |C1| && j < n && rows <= m
    ensures GemmColumn(m, n, k, alpha, A, B, 0.0, C1, m, j, rows) == GemmColumn(m, n, k, alpha, A, B, 0.0, C2, m, j, rows)
    decreases rows
  {
    if rows > 0 {
      var prev := rows - 1;
      ColumnOverwrite(m, n, k, alpha, A, B, C1, C2, j, prev);
      EntryOverwrite(m, n, k, alpha, A, B, C1, C2, j, prev);
    }
  }

  /** The first prev + 1 columns are the first prev columns followed by column prev. */
  lemma {:induction false} ColumnsSnoc(m: nat, n: nat, k: nat, alpha: real, A: Matrix, B: Matrix, beta: real, C: seq<real>,
                                       ldc: nat, prev: nat)
    requires GemmArgs(m, n, k, A, B, |C|, ldc) && prev < n
    ensures GemmColumns(m, n, k, alpha, A, B, beta, C, ldc, prev + 1)
         == GemmColumns(m, n, k, alpha, A, B, beta, C, ldc, prev) + GemmColumn(m, n, k, alpha, A, B, beta, C, ldc, prev, ldc)
  {
  }

  /** With beta == 0 and ldc == m, the first cols columns do not depend on C's old contents. */
  lemma {:induction false} ColumnsOverwrite(m: nat, n: nat, k: nat, alpha: real, A: Matrix, B: Matrix,
                                            C1: seq<real>, C2: seq<real>, cols: nat)
    requires GemmArgs(m, n, k, A, B, |C1|, m) && |C2| == |C1| && cols <= n
    ensures GemmColumns(m, n, k, alpha, A, B, 0.0, C1, m, cols) == GemmColumns(m, n, k, alpha, A, B, 0.0, C2, m, cols)
    decreases cols
  {
    if cols > 0 {
      var prev := cols - 1;
      ColumnsSnoc(m, n, k, alpha, A, B, 0.0, C1, m, prev);
      ColumnsSnoc(m, n, k, alpha, A, B, 0.0, C2, m, prev);
      ColumnsOverwrite(m, n, k, alpha, A, B, C1, C2, prev);
      ColumnOverwrite(m, n, k, alpha, A, B, C1, C2, prev, m);
    }
  }

  /**
   * With beta == 0 and ldc == m the call overwrites all of C: the result does not
   * depend on C's old contents.
   */
  lemma {:induction false} GemmOverwrites(m: nat, n: nat, k: nat, alpha: real, A: Matrix, B: Matrix, C1: seq<real>, C2: seq<real>)
    requires GemmArgs(m, n, k, A, B, |C1|, m) && |C2| == |C1|
    ensures Gemm(m, n, k, alpha, A, B, 0.0, C1, m) == Gemm(m, n, k, alpha, A, B, 0.0, C2, m)
  {
    ColumnsOverwrite(m, n, k, alpha, A, B, C1, C2, n);
  }

  /** Runs the gemm on the ldc * n values at offset cOff of C. */
  method GemmInto(m: nat, n: nat, k: nat, alpha: real, A: Matrix, B: Matrix, beta: real,
                  C: array<real>, cOff: nat, ldc: nat)
    requires GemmArgs(m, n, k, A, B, Mul(n, ldc), ldc) && cOff + Mul(n, ldc) <= C.Length
    modifies C
    ensures C[..] == Splice(old(C[..]), cOff, Gemm(m, n, k, alpha, A, B, beta, old(C[cOff..cOff + Mul(n, ldc)]), ldc))
  {
    var r := Gemm(m, n, k, alpha, A, B, beta, C[cOff..cOff + Mul(n, ldc)], ldc);
    Store(C, cOff, r);
  }
}
