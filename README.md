# lbtbench in Dafny

lbtbench is a single-file microbenchmark for single-precision matrix
multiplication (`sgemm`) behind libblastrampoline. It does four things:

- it puts the processor into denormal-flushing mode for the length of a scope;
- it runs a fixed 2 x 2 GEMM through the selected backend as a correctness gate;
- it has each OpenMP worker call a 64 x 64 x 64 GEMM in a timed loop while counting floating-point operations;
- it reports Gflop/s.

This project models the sequential logic of `lbtbench.cpp`:

- `denorm_guard.dfy` (module `MxcsrGuard`) models `DenormGuard`. The register
  MXCSR is the field `mxcsr` of a `Cpu` object. The guard's constructor sets the
  flush-to-zero and denormals-are-zero flags (mask `0x8040`) and records their old
  values in `savedMxcsr`. `Release` stands for the destructor and writes back
  exactly those two bits. The mask formulas are functions, and the lemmas
  about them prove that acquire/release pairs with nothing between them, single
  or nested in LIFO order, give back the register unchanged. The sticky exception flags (bits 0 to 5)
  that arithmetic inside the scope raises are not part of the mask, so they
  survive the release: the register after a guarded scope is the original one
  with those flags added.
- `gemm.dfy` (module `ReferenceGemm`) models the call interface of
  `cblas_sgemm64_`:
  - column-major addressing with leading dimensions and transpose flags;
  - the BLAS shape rules;
  - an exact GEMM over `real`, `C := alpha * op(A) * op(B) + beta * C`.

  The backend itself is a function-typed parameter (`Kernel`), and the
  exception flags its arithmetic raises are a second one (`Exceptions`).
  `CallKernel` writes the result into an `array` in place and sets the raised
  flags in MXCSR.
- `validation.dfy` (module `Validation`) models `validate_blas`:
  - the fixed inputs and the expected result `C_ref`;
  - the comparison loop that stops at the first entry 0.5 or more away from its reference;
  - the thread-count warning, which never ends the process;
  - the guard around all of it.

  On failure the process exits inside the guard's scope. `std::exit` runs no
  destructor of a local object, so the model leaves MXCSR with both flags set
  on that path. It is proved that the exact GEMM of the fixed inputs is `C_ref`,
  which is `[58, 139, 64, 154]` in column-major order (line 44), and that the
  printed order `C[0], C[2], C[1], C[3]` lists it row by row as
  `[58, 64, 139, 154]` (line 66).
- `benchmark.dfy` (module `Benchmark`) models `perform_benchmark`:
  - It is a do-while loop that calls the kernel and adds 532480 = 64 * 64 * (2 * 64 + 2) to a `std::uint64_t` counter.
  - The counter's wrap-around is written out as `% 2^64`.
  - The clock is an oracle, `clock[t]` being the reading after call `t + 1`.
  - The number of calls is `CallsMade(clock, deadline)`, which is at least 1. The returned count is that number times 532480, modulo 2^64.
  - It also models how `main` splits each thread's buffers (A and B in one
    8192-float `random_buffer`, C in a separate 4096-float buffer), and proves
    that every access of the call is in bounds and that A and B do not overlap.

## Model

| member | source | states |
|---|---|---|
| MxcsrGuard.Acquired | lbtbench.cpp:23 | the loaded value has both bits of 0x8040 set and every other bit as before |
| MxcsrGuard.SavedBits | lbtbench.cpp:25 | the recorded value has no bit outside 0x8040 and holds the prior state of the two flags |
| MxcsrGuard.Restored | lbtbench.cpp:32 | the two flags take the recorded value and every other bit keeps its value |
| MxcsrGuard.RestoreKeepsOtherBits | lbtbench.cpp:29-34 | with a recorded value inside the mask, release sets the two flags to exactly that value and changes no other bit |
| MxcsrGuard.AcquireReleaseIdentity | lbtbench.cpp:20-34 | acquire followed directly by release gives back the original register exactly |
| MxcsrGuard.ReleaseAfterScope | lbtbench.cpp:20-34 | whatever the scope does to the register, release restores the original two flags and keeps the scope's other bits |
| MxcsrGuard.RestoreIdempotent | lbtbench.cpp:25-32 | applying the restore formula twice equals applying it once |
| MxcsrGuard.NestedAcquireReleaseIdentity | lbtbench.cpp:20-34 | two nested guards released in LIFO order give back the original register exactly |
| MxcsrGuard.Raise | lbtbench.cpp:89-104 | arithmetic of the kernel call sets the raised status flags (bits 0 to 5) and changes no other bit |
| MxcsrGuard.RaiseAccumulates | lbtbench.cpp:88-106 | flags raised by successive calls accumulate as their union |
| MxcsrGuard.ReleaseKeepsStatusFlags | lbtbench.cpp:29-34 | release after a scope that raised exceptions gives back the original register with those flags added; the denormal flags are as before |
| MxcsrGuard.DenormGuard.constructor | lbtbench.cpp:20-26 | the register becomes the acquired value and saved_mxcsr holds the prior flags, within the mask |
| MxcsrGuard.DenormGuard.Release | lbtbench.cpp:29-34 | the register becomes the restore formula of its current value and saved_mxcsr: the two flags take the recorded value and no other bit changes |
| MxcsrGuard.GuardedScope | lbtbench.cpp:19-38 | an empty scope with one guard (acquire directly followed by release) leaves the register as it found it |
| MxcsrGuard.NestedGuardedScopes | lbtbench.cpp:19-38 | two nested guards with nothing between them, released in LIFO order, leave the register as they found it |
| ReferenceGemm.CallKernel | lbtbench.cpp:47-62 | after the call, C holds the kernel's result for the arguments and C's prior contents, and MXCSR has the raised exception flags added |
| ReferenceGemm.ColMajorInBounds | lbtbench.cpp:47-62 | every element of a matrix whose leading dimension and buffer fit its shape is stored inside the buffer |
| ReferenceGemm.OpIndexInBounds | lbtbench.cpp:47-62 | every element of op(X), transposed or not, is read from inside X's buffer |
| ReferenceGemm.ColMajorDecode | lbtbench.cpp:47-62 | the row of a column-major position is its remainder and the column its quotient by the leading dimension |
| ReferenceGemm.ColMajorRecompose | lbtbench.cpp:47-62 | every buffer position is the column-major position of its remainder and quotient |
| ReferenceGemm.ColMajorInjective | lbtbench.cpp:47-62 | distinct coordinates are stored at distinct positions |
| ReferenceGemm.GemmEntry | lbtbench.cpp:47-62 | entry (i, j) of the result is alpha times the (i, j) entry of op(A) * op(B) plus beta times the old entry |
| ReferenceGemm.GemmLeavesRestUntouched | lbtbench.cpp:47-62 | buffer positions outside the M x N result keep their value |
| ReferenceGemm.AccumulateLinearity | lbtbench.cpp:89-104 | with beta = 1, the call adds the product computed into zeros to the prior C |
| Validation.CheckAgainstReference | lbtbench.cpp:67-73 | passes iff every entry is strictly within 0.5 of C_ref; on failure names the first entry out of tolerance, with all earlier ones within |
| Validation.RunGate | lbtbench.cpp:45-73 | the warning is printed iff the thread count is not 1; the gate passes iff the kernel's result from a zeroed C is accepted, and on failure names the first entry of that result out of tolerance; MXCSR gains the kernel's exception flags |
| Validation.ValidateBlas | lbtbench.cpp:40-75 | as RunGate; on success the register is the original one plus the kernel's exception flags (the denormal flags as before); on the exit path the denormal flags stay set |
| Validation.ValidationInputsLiteral | lbtbench.cpp:42-62 | the fixed arguments and buffers satisfy the BLAS shape rules |
| Validation.ValidationAccessesInBounds | lbtbench.cpp:47-62 | the validation call reads A and B at positions 0 to 5 and writes C at positions 0 to 3 |
| Validation.ValidationProduct00 | lbtbench.cpp:42-62 | entry (0, 0) of op(A) * op(B) is 58 |
| Validation.ValidationProduct10 | lbtbench.cpp:42-62 | entry (1, 0) of op(A) * op(B) is 139 |
| Validation.ValidationProduct01 | lbtbench.cpp:42-62 | entry (0, 1) of op(A) * op(B) is 64 |
| Validation.ValidationProduct11 | lbtbench.cpp:42-62 | entry (1, 1) of op(A) * op(B) is 154 |
| Validation.ReferenceProducesExpected | lbtbench.cpp:42-62 | the exact GEMM of the fixed inputs from a zeroed C is C_ref = [58, 139, 64, 154] |
| Validation.ReferenceKernelPasses | lbtbench.cpp:42-73 | an exact backend passes the gate |
| Validation.AcceptsExactlyWithinTolerance | lbtbench.cpp:67-73 | a candidate passes iff every entry lies strictly within 0.5 of its reference; one entry at 0.5 or more fails the gate |
| Validation.ZeroStubFailsAtFirstEntry | lbtbench.cpp:45-73 | the zero buffer is rejected, and already at entry 0 |
| Validation.PrintedOrderIsRowMajor | lbtbench.cpp:66 | the printed order C[0], C[2], C[1], C[3] is the row-major view; for C_ref it is [58, 64, 139, 154] |
| Benchmark.CallsMade | lbtbench.cpp:88-106 | at least one call; the last call's reading is at or after the deadline and all earlier readings are before it |
| Benchmark.AddModuloU64 | lbtbench.cpp:105 | adding to the wrapped 64-bit counter equals wrapping the unwrapped sum |
| Benchmark.CounterStep | lbtbench.cpp:105 | one call's increment takes the counter for n calls to the counter for n + 1 calls |
| Benchmark.FlopCountIncreases | lbtbench.cpp:105 | below 2^64 the counter strictly increases, by exactly 532480 per call |
| Benchmark.CounterExactWithoutWrap | lbtbench.cpp:87-107 | below 2^64 the returned counter is the exact count |
| Benchmark.Burst | lbtbench.cpp:87-107 | the loop returns CallsMade * 532480 modulo 2^64, C is the kernel applied CallsMade times to its prior contents, and MXCSR gains the exception flags of those calls |
| Benchmark.PerformBenchmark | lbtbench.cpp:85-108 | as Burst; on return the denormal flags are as before and the register is the original one plus the exception flags the calls raised |
| Benchmark.BenchmarkCallFits | lbtbench.cpp:89-104 | the 64 x 64 x 64 call satisfies the BLAS shape rules for buffers of 4096 floats |
| Benchmark.BenchmarkAccessesInBounds | lbtbench.cpp:129-138 | A is read in random_buffer[0, 4096), B in random_buffer[4096, 8192), and C is written in C[0, 4096) |

## Left out

- The BLAS backend (`cblas_sgemm64_` through libblastrampoline) is foreign code. It is the `Kernel` parameter. Backend listing, `lbt_get_forward` and its null check (lines 113-123) and `lbt_set_num_threads` are not modelled; `lbt_get_num_threads` is the parameter `threadsAfter`.
- IEEE single-precision arithmetic is not modelled. The reference GEMM and the tolerance test are over `real`, so there is no rounding, no infinity and no NaN. In particular, the source's test `std::abs(C[i] - C_ref[i]) < 0.5` (line 68) is false for a NaN entry and so rejects it; the model has no such value.
- The `stmxcsr`/`ldmxcsr` instructions are a read and a write of `Cpu.mxcsr`. The effect of the flush-to-zero and denormals-are-zero flags on how the processor computes is not modelled. The effect of the computation on the register is modelled only as the exception flags a kernel call raises, which are given by the `Exceptions` parameter.
- The OpenMP parallel region, the barriers, `omp single` and the relaxed atomic `flop` accumulator in `main` (lines 126-147) are concurrency and are not modelled.
- `high_resolution_clock`, the 10-second deadline arithmetic and the Gflop/s division (lines 135-143) are wall-clock time and floating point. The clock is the `clock` oracle of `PerformBenchmark`, which is required to reach the deadline eventually.
- `generate_random_numbers` (lines 77-83) is a nondeterministic normal distribution and is not modelled. The buffer contents are parameters.
- Output to `std::cout` is not modelled. The gate's printed order is captured by `PrintedOrder`. `std::exit(1)` is the `Failed` outcome, with the guard not released.
- The infinite `for (;;)` loop of `main` is not modelled.
- `CblasColMajor` is fixed. The row-major order of the CBLAS interface is never used by the program.
- PerformBenchmark: requires the clock to reach the deadline. A clock that never does keeps the source's loop running forever, and the model does not capture that run.
