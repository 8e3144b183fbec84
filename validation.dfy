/** The correctness gate of lbtbench (validate_blas): one fixed 2 x 3 by
    3 x 2 multiplication through the backend's GEMM, then each of the four
    result entries is compared with a reference; the first entry off by 0.5
    or more ends the process with exit status 1. */
module Validation {
  import opened ReferenceGemm
  import opened MxcsrGuard

  /** float A[3][2] = {{1, 4}, {2, 5}, {3, 6}} laid out in memory row by row. */
  const ValidationA: seq<real> := [1.0, 4.0, 2.0, 5.0, 3.0, 6.0]

  /** float B[3][2] = {{7, 8}, {9, 10}, {11, 12}} laid out in memory row by row. */
  const ValidationB: seq<real> := [7.0, 8.0, 9.0, 10.0, 11.0, 12.0]

  /** C_ref: the expected 2 x 2 result, column-major. */
  const ReferenceC: seq<real> := [58.0, 139.0, 64.0, 154.0]

  /** The scratch buffer C before the call. */
  const InitialC: seq<real> := [0.0, 0.0, 0.0, 0.0]

  /** ColMajor, NoTrans, Trans, M = 2, N = 2, K = 3, alpha = 1, lda = 2, ldb = 2, beta = 1, ldc = 2. */
  const ValidationCall: GemmArgs := GemmArgs(NoTrans, Trans, 2, 2, 3, 1.0, 2, 2, 1.0, 2)

  const Tolerance: real := 0.5

  /** The exit of the gate: it returns, or it stops the process with exit
      status 1 after finding entry `index` out of tolerance. */
  datatype GateOutcome = Passed | Failed(index: nat)

  /** What the gate reports: its outcome, and whether it printed the warning
      that the backend did not honour the request for a single thread. */
  datatype GateReport = GateReport(threadWarning: bool, outcome: GateOutcome)

  function Abs(x: real): real {
    if x < 0.0 then -x else x
  }

  /** The per-entry test: strictly less than the tolerance away. */
  predicate WithinTolerance(c: real, expected: real) {
    Abs(c - expected) < Tolerance
  }

  /** The gate's acceptance rule on a candidate result. */
  predicate Accepts(C: seq<real>) {
    |C| == 4 && forall i :: 0 <= i < 4 ==> WithinTolerance(C[i], ReferenceC[i])
  }

  /** The comparison loop: walks the four entries in order and stops at the
      first one out of tolerance. */
  method CheckAgainstReference(C: array<real>) returns (outcome: GateOutcome)
    requires C.Length == 4
    ensures outcome == Passed <==> Accepts(C[..])
    ensures outcome.Failed? ==>
              && outcome.index < 4
              && !WithinTolerance(C[outcome.index], ReferenceC[outcome.index])
              && forall j :: 0 <= j < outcome.index ==> WithinTolerance(C[j], ReferenceC[j])
  {
    var i := 0;
    while i != 4
      invariant 0 <= i <= 4
      invariant forall j :: 0 <= j < i ==> WithinTolerance(C[j], ReferenceC[j])
    {
      if Abs(C[i] - ReferenceC[i]) < Tolerance {
        i := i + 1;
        continue;
      }
      return Failed(i);
    }
    return Passed;
  }

  /** The body of validate_blas between the guard's acquisition and the
      process exit or normal return: run the kernel on the fixed inputs into
      a zeroed C (an array the kernel writes in place), note a thread-count
      mismatch (never fatal), and check the result. `threadsAfter` is what
      the backend reports for its thread count after being asked for one. */
  method RunGate(cpu: Cpu, kernel: Kernel, raises: Exceptions, threadsAfter: int) returns (report: GateReport)
    requires |kernel(ValidationCall, ValidationA, ValidationB, InitialC)| == 4
    modifies cpu
    ensures report.threadWarning <==> threadsAfter != 1
    ensures report.outcome == Passed <==> Accepts(kernel(ValidationCall, ValidationA, ValidationB, InitialC))
    ensures report.outcome.Failed? ==>
              && report.outcome.index < 4
              && !WithinTolerance(kernel(ValidationCall, ValidationA, ValidationB, InitialC)[report.outcome.index],
                                  ReferenceC[report.outcome.index])
              && forall j :: 0 <= j < report.outcome.index ==>
                   WithinTolerance(kernel(ValidationCall, ValidationA, ValidationB, InitialC)[j], ReferenceC[j])
    ensures cpu.mxcsr == Raise(old(cpu.mxcsr), raises(ValidationCall, ValidationA, ValidationB, InitialC))
  {
    var C := new real[4](_ => 0.0);
    assert C[..] == InitialC;
    CallKernel(kernel, raises, cpu, ValidationCall, ValidationA, ValidationB, C);
    var threadWarning := threadsAfter != 1;
    var outcome := CheckAgainstReference(C);
    report := GateReport(threadWarning, outcome);
  }

  /** validate_blas: the gate under a DenormGuard. On failure the process
      exits inside the guard's scope, std::exit runs no destructor of a local
      object, so MXCSR keeps the denormal flags set; on success the guard is
      released on return, the denormal flags are as before, and the only
      change left is the exception flags the kernel raised. */
  method ValidateBlas(cpu: Cpu, kernel: Kernel, raises: Exceptions, threadsAfter: int) returns (report: GateReport)
    requires |kernel(ValidationCall, ValidationA, ValidationB, InitialC)| == 4
    modifies cpu
    ensures report.threadWarning <==> threadsAfter != 1
    ensures report.outcome == Passed <==> Accepts(kernel(ValidationCall, ValidationA, ValidationB, InitialC))
    ensures report.outcome.Failed? ==>
              && report.outcome.index < 4
              && !WithinTolerance(kernel(ValidationCall, ValidationA, ValidationB, InitialC)[report.outcome.index],
                                  ReferenceC[report.outcome.index])
              && forall j :: 0 <= j < report.outcome.index ==>
                   WithinTolerance(kernel(ValidationCall, ValidationA, ValidationB, InitialC)[j], ReferenceC[j])
    ensures report.outcome == Passed ==>
              cpu.mxcsr == Raise(old(cpu.mxcsr), raises(ValidationCall, ValidationA, ValidationB, InitialC))
    ensures report.outcome.Failed? ==>
              cpu.mxcsr == Raise(Acquired(old(cpu.mxcsr)), raises(ValidationCall, ValidationA, ValidationB, InitialC))
  {
    ghost var m := cpu.mxcsr;
    var guard := new DenormGuard(cpu);
    report := RunGate(cpu, kernel, raises, threadsAfter);
    if report.outcome == Passed {
      guard.Release();
      ReleaseKeepsStatusFlags(m, raises(ValidationCall, ValidationA, ValidationB, InitialC));
    }
  }

  /** The fixed inputs as literals, which lets the verifier evaluate
      functions of them. */
  lemma ValidationInputsLiteral()
    ensures ValidationCall == GemmArgs(NoTrans, Trans, 2, 2, 3, 1.0, 2, 2, 1.0, 2)
    ensures ValidationA == [1.0, 4.0, 2.0, 5.0, 3.0, 6.0]
    ensures ValidationB == [7.0, 8.0, 9.0, 10.0, 11.0, 12.0]
    ensures ValidCall(ValidationCall, |ValidationA|, |ValidationB|, |InitialC|)
  {
  }

  /** Every access of the validation call stays inside its buffer: A and B
      are read at positions 0 .. 5 of their six floats, and C is written at
      positions 0 .. 3 of its four. */
  lemma ValidationAccessesInBounds(i: nat, j: nat, l: nat)
    requires i < 2 && j < 2 && l < 3
    ensures OpIndex(NoTrans, i, l, 2) <= 5
    ensures OpIndex(Trans, l, j, 2) <= 5
    ensures ColMajor(i, j, 2) <= 3
  {
    ValidationInputsLiteral();
    OpIndexInBounds(NoTrans, i, l, 2, 3, 2, |ValidationA|);
    OpIndexInBounds(Trans, l, j, 3, 2, 2, |ValidationB|);
    ColMajorInBounds(i, j, 2, 2, 2, |InitialC|);
  }

  // op(A) * op(B) = {{1, 2, 3}, {4, 5, 6}} * {{7, 8}, {9, 10}, {11, 12}},
  // one entry at a time, on the fixed inputs written as literals so that
  // the verifier evaluates the sums.

  /** Entry (0, 0): 1 * 7 + 2 * 9 + 3 * 11 = 58. */
  lemma ValidationProduct00()
    ensures ValidA(GemmArgs(NoTrans, Trans, 2, 2, 3, 1.0, 2, 2, 1.0, 2), 6) && ValidB(GemmArgs(NoTrans, Trans, 2, 2, 3, 1.0, 2, 2, 1.0, 2), 6)
    ensures Dot(GemmArgs(NoTrans, Trans, 2, 2, 3, 1.0, 2, 2, 1.0, 2), [1.0, 4.0, 2.0, 5.0, 3.0, 6.0], [7.0, 8.0, 9.0, 10.0, 11.0, 12.0], 0, 0, 3) == 58.0
  {
  }

  /** Entry (1, 0): 4 * 7 + 5 * 9 + 6 * 11 = 139. */
  lemma ValidationProduct10()
    ensures ValidA(GemmArgs(NoTrans, Trans, 2, 2, 3, 1.0, 2, 2, 1.0, 2), 6) && ValidB(GemmArgs(NoTrans, Trans, 2, 2, 3, 1.0, 2, 2, 1.0, 2), 6)
    ensures Dot(GemmArgs(NoTrans, Trans, 2, 2, 3, 1.0, 2, 2, 1.0, 2), [1.0, 4.0, 2.0, 5.0, 3.0, 6.0], [7.0, 8.0, 9.0, 10.0, 11.0, 12.0], 1, 0, 3) == 139.0
  {
  }

  /** Entry (0, 1): 1 * 8 + 2 * 10 + 3 * 12 = 64. */
  lemma ValidationProduct01()
    ensures ValidA(GemmArgs(NoTrans, Trans, 2, 2, 3, 1.0, 2, 2, 1.0, 2), 6) && ValidB(GemmArgs(NoTrans, Trans, 2, 2, 3, 1.0, 2, 2, 1.0, 2), 6)
    ensures Dot(GemmArgs(NoTrans, Trans, 2, 2, 3, 1.0, 2, 2, 1.0, 2), [1.0, 4.0, 2.0, 5.0, 3.0, 6.0], [7.0, 8.0, 9.0, 10.0, 11.0, 12.0], 0, 1, 3) == 64.0
  {
  }

  /** Entry (1, 1): 4 * 8 + 5 * 10 + 6 * 12 = 154. */
  lemma ValidationProduct11()
    ensures ValidA(GemmArgs(NoTrans, Trans, 2, 2, 3, 1.0, 2, 2, 1.0, 2), 6) && ValidB(GemmArgs(NoTrans, Trans, 2, 2, 3, 1.0, 2, 2, 1.0, 2), 6)
    ensures Dot(GemmArgs(NoTrans, Trans, 2, 2, 3, 1.0, 2, 2, 1.0, 2), [1.0, 4.0, 2.0, 5.0, 3.0, 6.0], [7.0, 8.0, 9.0, 10.0, 11.0, 12.0], 1, 1, 3) == 154.0
  {
  }

  /** The exact reference GEMM, given the fixed inputs and a zeroed C, produces C_ref. */
  lemma ReferenceProducesExpected()
    ensures ValidCall(ValidationCall, |ValidationA|, |ValidationB|, |InitialC|)
    ensures Gemm(ValidationCall, ValidationA, ValidationB, InitialC) == ReferenceC
  {
    var g, A, B := ValidationCall, ValidationA, ValidationB;
    ValidationInputsLiteral();
    ValidationProduct00();
    ValidationProduct10();
    ValidationProduct01();
    ValidationProduct11();
    GemmEntry(g, A, B, InitialC, 0, 0);
    GemmEntry(g, A, B, InitialC, 1, 0);
    GemmEntry(g, A, B, InitialC, 0, 1);
    GemmEntry(g, A, B, InitialC, 1, 1);
    var r := Gemm(g, A, B, InitialC);
    assert r[0] == 58.0 && r[1] == 139.0 && r[2] == 64.0 && r[3] == 154.0;
  }

  /** A backend that computes exactly passes the gate. */
  lemma ReferenceKernelPasses()
    ensures Accepts(Gemm(ValidationCall, ValidationA, ValidationB, InitialC))
  {
    ReferenceProducesExpected();
  }

  /** A candidate passes exactly when each of its four entries lies in the
      open interval of width 0.5 around its reference, so one entry at 0.5 or
      more from its reference fails the whole gate. */
  lemma AcceptsExactlyWithinTolerance(C: seq<real>)
    requires |C| == 4
    ensures Accepts(C) <==> forall i :: 0 <= i < 4 ==> ReferenceC[i] - 0.5 < C[i] < ReferenceC[i] + 0.5
    ensures forall i :: 0 <= i < 4 && !WithinTolerance(C[i], ReferenceC[i]) ==> !Accepts(C)
  {
  }

  /** A stub that leaves C all zeros is stopped at the very first entry. */
  lemma ZeroStubFailsAtFirstEntry()
    ensures !Accepts(InitialC)
    ensures !WithinTolerance(InitialC[0], ReferenceC[0])
  {
  }

  /** The order in which the gate prints C: C[0], C[2], C[1], C[3]. */
  function PrintedOrder(C: seq<real>): seq<real>
    requires |C| == 4
  {
    [C[0], C[2], C[1], C[3]]
  }

  /** The printed order lists the 2 x 2 column-major result row by row, and
      for C_ref it is the "expect [58, 64, 139, 154]" of the message. */
  lemma PrintedOrderIsRowMajor(C: seq<real>)
    requires |C| == 4
    ensures forall r: nat, c: nat :: r < 2 && c < 2 ==> PrintedOrder(C)[2 * r + c] == C[ColMajor(r, c, 2)]
    ensures PrintedOrder(ReferenceC) == [58.0, 64.0, 139.0, 154.0]
  {
  }
}
