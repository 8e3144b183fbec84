/** The denormal-handling scope guard of lbtbench (struct DenormGuard).
    On acquisition it sets the flush-to-zero (bit 15) and denormals-are-zero
    (bit 6) flags of the SSE control/status register MXCSR and remembers what
    those two bits were; on release it puts exactly those two bits back.
    The stmxcsr/ldmxcsr instructions become a read and a write of the field
    `mxcsr` of a `Cpu` object. */
module MxcsrGuard {

  /** Flush-to-zero (bit 15) and denormals-are-zero (bit 6), Intel 64 and
      IA-32 Software Developer's Manual Vol. 1, section 10.2.3. */
  const DenormMask: bv32 := 0x8040

  /** True when `bits` has no bit outside the two denormal flags. */
  predicate WithinMask(bits: bv32) {
    bits & !DenormMask == 0
  }

  /** The register value the guard loads on acquisition. */
  function Acquired(m: bv32): (r: bv32)
    ensures r & DenormMask == DenormMask
    ensures r & !DenormMask == m & !DenormMask
  {
    m | DenormMask
  }

  /** What the guard records on acquisition: the prior state of the two flags. */
  function SavedBits(m: bv32): (s: bv32)
    ensures WithinMask(s)
    ensures s & DenormMask == m & DenormMask
  {
    m & DenormMask
  }

  /** The register value the guard loads on release, given the current
      register `m` and the recorded flags `saved`. */
  function Restored(m: bv32, saved: bv32): (r: bv32)
    ensures r & DenormMask == saved & DenormMask
    ensures r & !DenormMask == (m | saved) & !DenormMask
  {
    (m & !DenormMask) | saved
  }

  /** With a recorded value within the mask, release changes only the two flags. */
  lemma RestoreKeepsOtherBits(m: bv32, saved: bv32)
    requires WithinMask(saved)
    ensures Restored(m, saved) & DenormMask == saved
    ensures Restored(m, saved) & !DenormMask == m & !DenormMask
  {
  }

  /** Acquisition directly followed by release gives back the original register. */
  lemma AcquireReleaseIdentity(m: bv32)
    ensures Restored(Acquired(m), SavedBits(m)) == m
  {
  }

  /** Whatever happens to the register inside the scope, release gives back
      the original flags and keeps every other bit as the scope left it. */
  lemma ReleaseAfterScope(m: bv32, inside: bv32)
    ensures Restored(inside, SavedBits(m)) & DenormMask == m & DenormMask
    ensures Restored(inside, SavedBits(m)) & !DenormMask == inside & !DenormMask
  {
  }

  /** The restore formula is idempotent for any recorded value within the mask. */
  lemma RestoreIdempotent(m: bv32, saved: bv32)
    requires WithinMask(saved)
    ensures Restored(Restored(m, saved), saved) == Restored(m, saved)
  {
  }

  /** Two guards acquired one inside the other and released in LIFO order
      leave the register exactly as it was before the outer acquisition. */
  lemma NestedAcquireReleaseIdentity(m: bv32)
    ensures Restored(Restored(Acquired(Acquired(m)), SavedBits(Acquired(m))), SavedBits(m)) == m
  {
  }

  /** The six sticky exception flags of MXCSR, bits 0 to 5 (invalid
      operation, denormal, divide-by-zero, overflow, underflow, precision):
      floating-point arithmetic sets them and never clears them. */
  const StatusMask: bv32 := 0x3F

  /** The register after arithmetic that raises the exceptions `raised`: the
      raised status flags are set, and every other bit is as before. */
  function Raise(m: bv32, raised: bv32): (r: bv32)
    ensures r & StatusMask == (m | raised) & StatusMask
    ensures r & !StatusMask == m & !StatusMask
  {
    m | (raised & StatusMask)
  }

  /** Raising exceptions in two steps raises their union. */
  lemma RaiseAccumulates(m: bv32, first: bv32, second: bv32)
    ensures Raise(Raise(m, first), second) == Raise(m, first | second)
  {
  }

  /** Status flags raised inside a guard's scope survive its release: the two
      denormal flags come back as they were, and the register is the original
      one with the raised flags added. */
  lemma ReleaseKeepsStatusFlags(m: bv32, raised: bv32)
    ensures Restored(Raise(Acquired(m), raised), SavedBits(m)) == Raise(m, raised)
    ensures Raise(m, raised) & DenormMask == m & DenormMask
  {
  }

  /** The SSE control/status register of the executing thread. */
  class Cpu {
    var mxcsr: bv32

    constructor (initial: bv32)
      ensures mxcsr == initial
    {
      mxcsr := initial;
    }
  }

  /** A live DenormGuard: the register it acts on and the flags it recorded. */
  class DenormGuard {
    const cpu: Cpu
    var savedMxcsr: bv32

    /** The recorded value only ever holds bits of the mask. */
    predicate Valid()
      reads this
    {
      WithinMask(savedMxcsr)
    }

    /** The constructor: read MXCSR, load it with both flags set, record the old flags. */
    constructor (cpu: Cpu)
      modifies cpu
      ensures this.cpu == cpu && Valid()
      ensures cpu.mxcsr == Acquired(old(cpu.mxcsr))
      ensures savedMxcsr == SavedBits(old(cpu.mxcsr))
    {
      this.cpu := cpu;
      var current := cpu.mxcsr;
      cpu.mxcsr := Acquired(current);
      savedMxcsr := SavedBits(current);
    }

    /** The destructor: read MXCSR and put the recorded flags back, nothing else. */
    method Release()
      requires Valid()
      modifies cpu
      ensures cpu.mxcsr == Restored(old(cpu.mxcsr), savedMxcsr)
      ensures cpu.mxcsr & DenormMask == savedMxcsr
      ensures cpu.mxcsr & !DenormMask == old(cpu.mxcsr) & !DenormMask
    {
      var current := cpu.mxcsr;
      cpu.mxcsr := Restored(current, savedMxcsr);
      RestoreKeepsOtherBits(current, savedMxcsr);
    }
  }

  /** An empty scope holding one guard (acquire directly followed by
      release): the register comes back unchanged. A scope that does
      arithmetic keeps the exception flags it raised (ReleaseKeepsStatusFlags). */
  method GuardedScope(cpu: Cpu)
    modifies cpu
    ensures cpu.mxcsr == old(cpu.mxcsr)
  {
    var guard := new DenormGuard(cpu);
    guard.Release();
  }

  /** Two nested guards on one register with nothing between them, released
      in LIFO order (as C++ destroys scoped objects): the register comes back
      unchanged. */
  method NestedGuardedScopes(cpu: Cpu)
    modifies cpu
    ensures cpu.mxcsr == old(cpu.mxcsr)
  {
    var outer := new DenormGuard(cpu);
    var inner := new DenormGuard(cpu);
    inner.Release();
    outer.Release();
  }
}
