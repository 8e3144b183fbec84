/** The timed burst of lbtbench (perform_benchmark) and the thread-local
    buffers it works on. Under a DenormGuard a worker calls the kernel on its
    64 x 64 x 64 problem, adds the flop count of one call to a 64-bit
    counter, and reads the clock; it stops after the first call whose clock
    reading is not before the deadline. The clock is an oracle: `clock[t]`
    is what now() returns after call t + 1. */
module Benchmark {
  import opened ReferenceGemm
  import opened MxcsrGuard

  /** Elements of one 64 x 64 matrix. */
  const MatrixSize: nat := 64 * 64

  /** The thread-local random_buffer: A followed by B. */
  const RandomBufferSize: nat := 2 * 64 * 64

  /** The conventional operation count of one 64 x 64 x 64 call: 532480. */
  const FlopsPerCall: nat := 64 * 64 * (2 * 64 + 2)

  /** The range of std::uint64_t, the type of the counter. */
  const U64: nat := 0x1_0000_0000_0000_0000

  /** ColMajor, NoTrans, Trans, M = N = K = 64, alpha = 1, lda = ldb = 64, beta = 1, ldc = 64. */
  const BenchmarkCall: GemmArgs := GemmArgs(NoTrans, Trans, 64, 64, 64, 1.0, 64, 64, 1.0, 64)

  /** Some clock reading reaches the deadline, so the burst ends. */
  predicate Reaches(clock: seq<int>, deadline: int) {
    exists t :: 0 <= t < |clock| && clock[t] >= deadline
  }

  /** The number of kernel calls of one burst: one more than the number of
      readings before the deadline that precede the first one that is not. */
  function CallsMade(clock: seq<int>, deadline: int): (n: nat)
    requires Reaches(clock, deadline)
    ensures 1 <= n <= |clock|
    ensures clock[n - 1] >= deadline
    ensures forall t :: 0 <= t < n - 1 ==> clock[t] < deadline
    decreases |clock|
  {
    if clock[0] >= deadline then 1
    else
      assert Reaches(clock[1..], deadline) by {
        var t :| 0 <= t < |clock| && clock[t] >= deadline;
        assert clock[1..][t - 1] == clock[t];
      }
      1 + CallsMade(clock[1..], deadline)
  }

  /** The buffer C after `calls` kernel calls that accumulate into it. */
  function Repeat(kernel: Kernel, A: seq<real>, B: seq<real>, C: seq<real>, calls: nat): seq<real>
  {
    if calls == 0 then C else kernel(BenchmarkCall, A, B, Repeat(kernel, A, B, C, calls - 1))
  }

  /** Adding to the wrapped counter is adding to the unwrapped count. */
  lemma AddModuloU64(a: nat, b: nat)
    ensures (a % U64 + b) % U64 == (a + b) % U64
  {
  }

  /** One call's worth added to the wrapped counter after `calls` calls is
      the wrapped counter after `calls + 1` calls. */
  lemma CounterStep(calls: nat, flop: nat)
    requires flop == (calls * FlopsPerCall) % U64
    ensures (flop + FlopsPerCall) % U64 == ((calls + 1) * FlopsPerCall) % U64
  {
    AddModuloU64(calls * FlopsPerCall, FlopsPerCall);
    assert calls * FlopsPerCall + FlopsPerCall == (calls + 1) * FlopsPerCall;
  }

  /** Without wrap-around the counter grows by the same amount on every call. */
  lemma FlopCountIncreases(calls: nat)
    requires (calls + 1) * FlopsPerCall < U64
    ensures (calls * FlopsPerCall) % U64 < ((calls + 1) * FlopsPerCall) % U64
    ensures ((calls + 1) * FlopsPerCall) % U64 == (calls * FlopsPerCall) % U64 + FlopsPerCall
  {
  }

  /** The exceptions raised by the first `calls` kernel calls of a burst
      that starts from buffer C. */
  function RaisedOver(kernel: Kernel, raises: Exceptions, A: seq<real>, B: seq<real>,
                      C: seq<real>, calls: nat): bv32
  {
    if calls == 0 then 0
    else RaisedOver(kernel, raises, A, B, C, calls - 1) | raises(BenchmarkCall, A, B, Repeat(kernel, A, B, C, calls - 1))
  }

  /** The do-while loop of perform_benchmark: call the kernel, count the
      call's operations into the 64-bit counter, and go on while the clock
      reading is before the deadline. At least one call is always made. */
  method Burst(cpu: Cpu, kernel: Kernel, raises: Exceptions, deadline: int, clock: seq<int>,
               A: seq<real>, B: seq<real>, C: array<real>) returns (flop: nat)
    requires Reaches(clock, deadline)
    requires forall c: seq<real> :: |kernel(BenchmarkCall, A, B, c)| == |c|
    modifies cpu, C
    ensures flop == (CallsMade(clock, deadline) * FlopsPerCall) % U64
    ensures C[..] == Repeat(kernel, A, B, old(C[..]), CallsMade(clock, deadline))
    ensures cpu.mxcsr == Raise(old(cpu.mxcsr), RaisedOver(kernel, raises, A, B, old(C[..]), CallsMade(clock, deadline)))
  {
    ghost var total := CallsMade(clock, deadline);
    flop := 0;
    var calls: nat := 0;
    var running := true;
    while running
      invariant calls <= total
      invariant running <==> calls < total
      invariant flop == (calls * FlopsPerCall) % U64
      invariant C[..] == Repeat(kernel, A, B, old(C[..]), calls)
      invariant cpu.mxcsr == Raise(old(cpu.mxcsr), RaisedOver(kernel, raises, A, B, old(C[..]), calls))
      decreases total - calls
    {
      RaiseAccumulates(old(cpu.mxcsr), RaisedOver(kernel, raises, A, B, old(C[..]), calls),
                       raises(BenchmarkCall, A, B, C[..]));
      CallKernel(kernel, raises, cpu, BenchmarkCall, A, B, C);
      CounterStep(calls, flop);
      flop := (flop + FlopsPerCall) % U64;
      running := clock[calls] < deadline;
      calls := calls + 1;
    }
  }

  /** perform_benchmark: the burst under a DenormGuard, released on return.
      The denormal flags come back as they were; the exception flags the
      kernel calls raised stay set, since the release rewrites only the two
      denormal flags. */
  method PerformBenchmark(cpu: Cpu, kernel: Kernel, raises: Exceptions, deadline: int, clock: seq<int>,
                          A: seq<real>, B: seq<real>, C: array<real>) returns (flop: nat)
    requires Reaches(clock, deadline)
    requires forall c: seq<real> :: |kernel(BenchmarkCall, A, B, c)| == |c|
    modifies cpu, C
    ensures flop == (CallsMade(clock, deadline) * FlopsPerCall) % U64
    ensures C[..] == Repeat(kernel, A, B, old(C[..]), CallsMade(clock, deadline))
    ensures cpu.mxcsr == Raise(old(cpu.mxcsr), RaisedOver(kernel, raises, A, B, old(C[..]), CallsMade(clock, deadline)))
    ensures cpu.mxcsr & DenormMask == old(cpu.mxcsr) & DenormMask
  {
    ghost var m := cpu.mxcsr;
    ghost var raised := RaisedOver(kernel, raises, A, B, C[..], CallsMade(clock, deadline));
    var guard := new DenormGuard(cpu);
    flop := Burst(cpu, kernel, raises, deadline, clock, A, B, C);
    guard.Release();
    ReleaseKeepsStatusFlags(m, raised);
  }

  /** Below 2^64 operations, which at 532480 per call takes about 3.5 * 10^13
      calls, the counter holds the exact count. */
  lemma CounterExactWithoutWrap(calls: nat)
    requires calls * FlopsPerCall < U64
    ensures (calls * FlopsPerCall) % U64 == calls * FlopsPerCall
  {
  }

  /** The benchmark call's shapes fit the buffers main hands it: A and B of
      64 * 64 floats each and C of 64 * 64 floats. */
  lemma BenchmarkCallFits()
    ensures ValidCall(BenchmarkCall, MatrixSize, MatrixSize, MatrixSize)
  {
  }

  /** Every access of the benchmark call stays in its region of the worker's
      buffers: A reads random_buffer[0 .. 4096), B reads random_buffer[4096 .. 8192),
      so the two never overlap, and C touches C[0 .. 4096). */
  lemma BenchmarkAccessesInBounds(i: nat, j: nat, l: nat)
    requires i < 64 && j < 64 && l < 64
    ensures OpIndex(NoTrans, i, l, 64) < MatrixSize
    ensures MatrixSize <= MatrixSize + OpIndex(Trans, l, j, 64) < RandomBufferSize
    ensures ColMajor(i, j, 64) < MatrixSize
  {
    BenchmarkCallFits();
    OpIndexInBounds(NoTrans, i, l, 64, 64, 64, MatrixSize);
    OpIndexInBounds(Trans, l, j, 64, 64, 64, MatrixSize);
    ColMajorInBounds(i, j, 64, 64, 64, MatrixSize);
  }
}
