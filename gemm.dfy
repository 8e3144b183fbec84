/** An exact reference for the column-major single-precision GEMM that
    lbtbench calls through cblas_sgemm64_:
      C := alpha * op(A) * op(B) + beta * C
    where op(A) is M x K, op(B) is K x N and C is M x N, every matrix stored
    column by column with its own leading dimension. Arithmetic is over
    `real`, so the reference is what a rounding-free kernel would produce. */
module ReferenceGemm {
  import opened MxcsrGuard

  /** CblasNoTrans / CblasTrans: whether an operand is used as stored or transposed. */
  datatype Transpose = NoTrans | Trans

  /** The scalar arguments of one column-major GEMM call. */
  datatype GemmArgs = GemmArgs(
    transA: Transpose, transB: Transpose,
    m: nat, n: nat, k: nat,
    alpha: real, lda: nat, ldb: nat, beta: real, ldc: nat)

  /** The backend's GEMM entry point (cblas_sgemm64_), which is foreign code:
      a function from a call's arguments and the buffers A, B and C to the
      new contents of C. */
  type Kernel = (GemmArgs, seq<real>, seq<real>, seq<real>) -> seq<real>

  /** The floating-point exceptions the backend's arithmetic raises during a
      call, as MXCSR flag bits, from the same arguments and buffers. */
  type Exceptions = (GemmArgs, seq<real>, seq<real>, seq<real>) -> bv32

  /** A call of the kernel on the calling thread: it overwrites the buffer C
      in place with what it computes, and its arithmetic sets the sticky
      exception flags it raises in that thread's MXCSR. */
  method CallKernel(kernel: Kernel, raises: Exceptions, cpu: Cpu,
                    g: GemmArgs, A: seq<real>, B: seq<real>, C: array<real>)
    requires |kernel(g, A, B, C[..])| == C.Length
    modifies C, cpu
    ensures C[..] == old(kernel(g, A, B, C[..]))
    ensures cpu.mxcsr == Raise(old(cpu.mxcsr), old(raises(g, A, B, C[..])))
  {
    var next := kernel(g, A, B, C[..]);
    cpu.mxcsr := Raise(cpu.mxcsr, raises(g, A, B, C[..]));
    forall k | 0 <= k < C.Length {
      C[k] := next[k];
    }
  }

  /** Where element (row, col) of a column-major matrix with leading dimension `ld` is stored. */
  function ColMajor(row: nat, col: nat, ld: nat): nat {
    row + col * ld
  }

  /** Where element (row, col) of op(X) is stored in X. */
  function OpIndex(t: Transpose, row: nat, col: nat, ld: nat): nat {
    if t == NoTrans then ColMajor(row, col, ld) else ColMajor(col, row, ld)
  }

  /** The number of stored rows of an operand whose op(X) is rows x cols. */
  function StoredRows(t: Transpose, rows: nat, cols: nat): nat {
    if t == NoTrans then rows else cols
  }

  /** The number of stored columns of an operand whose op(X) is rows x cols. */
  function StoredCols(t: Transpose, rows: nat, cols: nat): nat {
    if t == NoTrans then cols else rows
  }

  /** The BLAS demand on a stored operand: its leading dimension is at least
      max(1, rows) and its last column ends inside a buffer of `len` cells. */
  predicate FitsColMajor(rows: nat, cols: nat, ld: nat, len: nat) {
    ld >= 1 && ld >= rows && (rows == 0 || cols == 0 || (cols - 1) * ld + rows <= len)
  }

  predicate ValidA(g: GemmArgs, lenA: nat) {
    FitsColMajor(StoredRows(g.transA, g.m, g.k), StoredCols(g.transA, g.m, g.k), g.lda, lenA)
  }

  predicate ValidB(g: GemmArgs, lenB: nat) {
    FitsColMajor(StoredRows(g.transB, g.k, g.n), StoredCols(g.transB, g.k, g.n), g.ldb, lenB)
  }

  /** The shapes, leading dimensions and buffer lengths of a call agree. */
  predicate ValidCall(g: GemmArgs, lenA: nat, lenB: nat, lenC: nat) {
    ValidA(g, lenA) && ValidB(g, lenB) && FitsColMajor(g.m, g.n, g.ldc, lenC)
  }

  lemma MulMonotone(a: nat, b: nat, c: nat)
    requires a <= b
    ensures a * c <= b * c
  {
  }

  /** Every element of a matrix that fits its buffer is stored inside that buffer. */
  lemma ColMajorInBounds(row: nat, col: nat, rows: nat, cols: nat, ld: nat, len: nat)
    requires FitsColMajor(rows, cols, ld, len)
    requires row < rows && col < cols
    ensures ColMajor(row, col, ld) < len
  {
    MulMonotone(col, cols - 1, ld);
  }

  /** Every element of op(X) is read from inside X's buffer. */
  lemma OpIndexInBounds(t: Transpose, row: nat, col: nat, rows: nat, cols: nat, ld: nat, len: nat)
    requires FitsColMajor(StoredRows(t, rows, cols), StoredCols(t, rows, cols), ld, len)
    requires row < rows && col < cols
    ensures OpIndex(t, row, col, ld) < len
  {
    if t == NoTrans {
      ColMajorInBounds(row, col, rows, cols, ld, len);
    } else {
      ColMajorInBounds(col, row, cols, rows, ld, len);
    }
  }

  /** Column-major positions decode uniquely: the row is the remainder and
      the column the quotient by the leading dimension. */
  lemma ColMajorDecode(row: nat, col: nat, ld: nat)
    requires row < ld
    ensures ColMajor(row, col, ld) % ld == row
    ensures ColMajor(row, col, ld) / ld == col
  {
    var x := ColMajor(row, col, ld);
    var q, r := x / ld, x % ld;
    assert x == q * ld + r;
    if q < col {
      MulMonotone(q + 1, col, ld);
      assert false;
    } else if q > col {
      MulMonotone(col + 1, q, ld);
      assert false;
    }
  }

  /** Every buffer position is the column-major position of its remainder and quotient. */
  lemma ColMajorRecompose(idx: nat, ld: nat)
    requires ld >= 1
    ensures ColMajor(idx % ld, idx / ld, ld) == idx
  {
  }

  /** Two elements of a column-major matrix with different coordinates are stored apart. */
  lemma ColMajorInjective(r1: nat, c1: nat, r2: nat, c2: nat, ld: nat)
    requires r1 < ld && r2 < ld
    requires ColMajor(r1, c1, ld) == ColMajor(r2, c2, ld)
    ensures r1 == r2 && c1 == c2
  {
    ColMajorDecode(r1, c1, ld);
    ColMajorDecode(r2, c2, ld);
  }

  /** Element (i, l) of op(A). */
  function OpA(g: GemmArgs, A: seq<real>, i: nat, l: nat): real
    requires ValidA(g, |A|) && i < g.m && l < g.k
  {
    OpIndexInBounds(g.transA, i, l, g.m, g.k, g.lda, |A|);
    A[OpIndex(g.transA, i, l, g.lda)]
  }

  /** Element (l, j) of op(B). */
  function OpB(g: GemmArgs, B: seq<real>, l: nat, j: nat): real
    requires ValidB(g, |B|) && l < g.k && j < g.n
  {
    OpIndexInBounds(g.transB, l, j, g.k, g.n, g.ldb, |B|);
    B[OpIndex(g.transB, l, j, g.ldb)]
  }

  /** The sum over l < p of op(A)[i, l] * op(B)[l, j]; with p = K it is entry (i, j) of op(A) * op(B). */
  function Dot(g: GemmArgs, A: seq<real>, B: seq<real>, i: nat, j: nat, p: nat): real
    requires ValidA(g, |A|) && ValidB(g, |B|)
    requires i < g.m && j < g.n && p <= g.k
  {
    if p == 0 then 0.0 else Dot(g, A, B, i, j, p - 1) + OpA(g, A, i, p - 1) * OpB(g, B, p - 1, j)
  }

  /** Whether buffer position `idx` of C holds an element of the M x N result. */
  predicate InResult(g: GemmArgs, idx: nat)
    requires g.ldc >= 1
  {
    idx % g.ldc < g.m && idx / g.ldc < g.n
  }

  /** alpha * product + beta * previous. */
  function Scaled(g: GemmArgs, product: real, previous: real): real {
    g.alpha * product + g.beta * previous
  }

  /** The new value of buffer position `idx` of C. */
  function Updated(g: GemmArgs, A: seq<real>, B: seq<real>, C: seq<real>, idx: nat): real
    requires ValidCall(g, |A|, |B|, |C|) && idx < |C|
  {
    if InResult(g, idx)
    then Scaled(g, Dot(g, A, B, idx % g.ldc, idx / g.ldc, g.k), C[idx])
    else C[idx]
  }

  /** The buffer C after the call. */
  function Gemm(g: GemmArgs, A: seq<real>, B: seq<real>, C: seq<real>): (r: seq<real>)
    requires ValidCall(g, |A|, |B|, |C|)
    ensures |r| == |C|
  {
    seq(|C|, idx requires 0 <= idx < |C| => Updated(g, A, B, C, idx))
  }

  /** Entry (i, j) of the result is alpha * (op(A) * op(B))[i, j] + beta * C[i, j]. */
  lemma GemmEntry(g: GemmArgs, A: seq<real>, B: seq<real>, C: seq<real>, i: nat, j: nat)
    requires ValidCall(g, |A|, |B|, |C|)
    requires i < g.m && j < g.n
    ensures ColMajor(i, j, g.ldc) < |C|
    ensures Gemm(g, A, B, C)[ColMajor(i, j, g.ldc)] == Scaled(g, Dot(g, A, B, i, j, g.k), C[ColMajor(i, j, g.ldc)])
  {
    var idx := ColMajor(i, j, g.ldc);
    ColMajorInBounds(i, j, g.m, g.n, g.ldc, |C|);
    ColMajorDecode(i, j, g.ldc);
    assert InResult(g, idx);
    assert Gemm(g, A, B, C)[idx] == Updated(g, A, B, C, idx);
  }

  /** Positions of C outside the M x N result (the gaps a leading dimension
      larger than M leaves, and the tail of the buffer) are left as they were. */
  lemma GemmLeavesRestUntouched(g: GemmArgs, A: seq<real>, B: seq<real>, C: seq<real>, idx: nat)
    requires ValidCall(g, |A|, |B|, |C|) && idx < |C|
    requires forall i: nat, j: nat :: i < g.m && j < g.n ==> ColMajor(i, j, g.ldc) != idx
    ensures Gemm(g, A, B, C)[idx] == C[idx]
  {
    if InResult(g, idx) {
      ColMajorRecompose(idx, g.ldc);
      assert false;
    }
  }

  /** Elementwise sum of two buffers of equal length. */
  function Add(x: seq<real>, y: seq<real>): seq<real>
    requires |x| == |y|
  {
    seq(|x|, t requires 0 <= t < |x| => x[t] + y[t])
  }

  /** A buffer of n zeros. */
  function Zeros(n: nat): seq<real> {
    seq(n, _ => 0.0)
  }

  /** Accumulate-linearity: accumulating into C0 (beta = 1) is the same as
      computing into a zeroed buffer (beta = 0) and adding C0 afterwards. */
  lemma AccumulateLinearity(g: GemmArgs, A: seq<real>, B: seq<real>, C0: seq<real>)
    requires ValidCall(g, |A|, |B|, |C0|) && g.beta == 1.0
    ensures Gemm(g, A, B, C0) == Add(Gemm(g.(beta := 0.0), A, B, Zeros(|C0|)), C0)
  {
    var lhs := Gemm(g, A, B, C0);
    var rhs := Add(Gemm(g.(beta := 0.0), A, B, Zeros(|C0|)), C0);
    forall idx | 0 <= idx < |C0|
      ensures lhs[idx] == rhs[idx]
    {
      UpdatedAccumulates(g, A, B, C0, idx);
    }
  }

  /** One buffer position of accumulate-linearity. */
  lemma UpdatedAccumulates(g: GemmArgs, A: seq<real>, B: seq<real>, C0: seq<real>, idx: nat)
    requires ValidCall(g, |A|, |B|, |C0|) && g.beta == 1.0 && idx < |C0|
    ensures Updated(g, A, B, C0, idx) == Updated(g.(beta := 0.0), A, B, Zeros(|C0|), idx) + C0[idx]
  {
    var g0 := g.(beta := 0.0);
    if InResult(g, idx) {
      var i, j := idx % g.ldc, idx / g.ldc;
      DotIgnoresBeta(g, A, B, i, j, g.k, 0.0);
      assert Scaled(g, Dot(g, A, B, i, j, g.k), C0[idx]) == Scaled(g0, Dot(g, A, B, i, j, g.k), 0.0) + C0[idx];
    }
  }

  /** Dot depends on the shapes and the operands only, not on beta. */
  lemma {:induction false} DotIgnoresBeta(g: GemmArgs, A: seq<real>, B: seq<real>, i: nat, j: nat, p: nat, beta: real)
    requires ValidA(g, |A|) && ValidB(g, |B|)
    requires i < g.m && j < g.n && p <= g.k
    ensures Dot(g, A, B, i, j, p) == Dot(g.(beta := beta), A, B, i, j, p)
  {
    if p > 0 {
      DotIgnoresBeta(g, A, B, i, j, p - 1, beta);
    }
  }
}
