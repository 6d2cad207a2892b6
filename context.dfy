/**
 * Compile-time choice of an execution-context backend and the stack-pointer
 * normalisation done by `cps_context_new` (include/copse/context.h).
 *
 * The header is a preprocessor case table: platform macros select a binary
 * format and calling convention, the architecture macros select one of four
 * register layouts, and any other combination stops the build.
 */
module Context {
  import opened Wrappers

  /** The predefined macros the header tests: `__linux__`, `__APPLE__`,
      `CORK_CONFIG_ARCH_X64` and `CORK_CONFIG_ARCH_X86`. */
  datatype Target = Target(linux: bool, apple: bool, archX64: bool, archX86: bool)

  /** The macros the platform-detection block defines:
      `CPS_CONFIG_BINARY_ELF`, `CPS_CONFIG_BINARY_MACHO`, `CPS_CONFIG_ABI_SYSV`. */
  datatype Config = Config(binaryElf: bool, binaryMachO: bool, abiSysV: bool)

  datatype BinaryFormat = Elf | MachO
  datatype Arch = X64 | X86

  /** One backend: the assembly file that implements it (`CPS_HAVE_CONTEXT`),
      whether the stack grows down (`CPS_STACK_GROWS_DOWN`) and the layout of
      `struct cps_context`: `genRegs` general-register slots of `wordBits`
      bits, a stack descriptor of two words (`sp`, `size`) and `fpRegs`
      floating-point slots of 32 bits. */
  datatype Backend = Backend(
    format: BinaryFormat,
    arch: Arch,
    source: string,
    growsDown: bool,
    genRegs: nat,
    wordBits: nat,
    fpRegs: nat,
    fpRegBits: nat)

  /** The `#error` diagnostic of an unsupported platform. */
  const Unsupported: string := "Don't know how to implement contexts on this platform"

  /** Platform detection: Linux is ELF with the System V ABI, Apple is Mach-O
      with the System V ABI, and any other platform defines neither. */
  function Detect(t: Target): (cfg: Config)
    ensures cfg.binaryElf <==> t.linux
    ensures cfg.binaryMachO <==> !t.linux && t.apple
    ensures cfg.abiSysV <==> t.linux || t.apple
  {
    if t.linux then Config(true, false, true)
    else if t.apple then Config(false, true, true)
    else Config(false, false, false)
  }

  const X64SysVElf: Backend := Backend(Elf, X64, "x86_64_sysv_elf_gas.S", true, 8, 64, 2, 32)
  const I386SysVElf: Backend := Backend(Elf, X86, "i386_sysv_elf_gas.S", true, 6, 32, 2, 32)
  const X64SysVMachO: Backend := Backend(MachO, X64, "x86_64_sysv_macho_gas.S", true, 8, 64, 2, 32)
  const I386SysVMachO: Backend := Backend(MachO, X86, "i386_sysv_macho_gas.S", true, 6, 32, 2, 32)

  /** The context-implementation case table; `Err(Unsupported)` is the build
      failure. An architecture is tested as x64 first, then x86. */
  function Select(t: Target): (r: Result<Backend, string>)
    ensures r.Ok? <==> (t.linux || t.apple) && (t.archX64 || t.archX86)
    ensures r.Ok? ==> r.value in {X64SysVElf, I386SysVElf, X64SysVMachO, I386SysVMachO}
    ensures r.Ok? ==> (r.value.arch == X64 <==> t.archX64)
    ensures r.Ok? ==> (r.value.format == Elf <==> t.linux)
    ensures r.Err? ==> r.error == Unsupported
  {
    var cfg := Detect(t);
    if cfg.abiSysV then
      if cfg.binaryElf then
        if t.archX64 then Ok(X64SysVElf)
        else if t.archX86 then Ok(I386SysVElf)
        else Err(Unsupported)
      else if cfg.binaryMachO then
        if t.archX64 then Ok(X64SysVMachO)
        else if t.archX86 then Ok(I386SysVMachO)
        else Err(Unsupported)
      else Err(Unsupported)
    else Err(Unsupported)
  }

  // The two functions below are the flat (format x architecture) reading of
  // the nested `#if`/`#elif` table, against which `Select` is checked.

  /** The binary format a target is built for, when it has one. */
  function FormatOf(t: Target): Option<BinaryFormat> {
    if t.linux then Some(Elf) else if t.apple then Some(MachO) else None
  }

  /** The architecture a target is built for, when it has one. */
  function ArchOf(t: Target): Option<Arch> {
    if t.archX64 then Some(X64) else if t.archX86 then Some(X86) else None
  }

  /** The arguments `cps_context_new` passes to `cps_context_new_from_sp`. */
  datatype NewFromSp<F> = NewFromSp(sp: nat, size: nat, func: F)

  /** The `cps_context_new(sp, size, func)` macro for a backend: callers pass
      the start of the stack buffer, and a downward-growing stack starts at
      its end. */
  function NewWith<F>(b: Backend, sp: nat, size: nat, func: F): (r: NewFromSp<F>)
    ensures r.size == size && r.func == func
    ensures Region(b, r) == (sp, sp + size)
  {
    if b.growsDown then NewFromSp(sp + size, size, func)
    else NewFromSp(sp, size, func)
  }

  /** The buffer `[lo, hi)` that a context's stack descriptor covers, read
      back from the normalised pointer according to the growth direction. */
  function Region<F>(b: Backend, call: NewFromSp<F>): (int, int) {
    if b.growsDown then (call.sp - call.size, call.sp)
    else (call.sp, call.sp + call.size)
  }

  /** `cps_context_new` on a target: it exists only where a backend does. */
  function New<F>(t: Target, sp: nat, size: nat, func: F): (r: Result<NewFromSp<F>, string>)
    ensures r.Err? <==> Select(t).Err?
    ensures r.Err? ==> r.error == Unsupported
    ensures r.Ok? ==> r.value.size == size && r.value.func == func
    ensures r.Ok? ==> Region(Select(t).value, r.value) == (sp, sp + size)
  {
    match Select(t)
    case Err(e) => Err(e)
    case Ok(b) => Ok(NewWith(b, sp, size, func))
  }

  /** Normalising the pointer and reading the region back gives the caller's
      buffer, whichever way the stack grows; size and entry pass through. */
  lemma NewWithRegion<F>(b: Backend, sp: nat, size: nat, func: F)
    ensures NewWith(b, sp, size, func).size == size
    ensures NewWith(b, sp, size, func).func == func
    ensures Region(b, NewWith(b, sp, size, func)) == (sp, sp + size)
    ensures b.growsDown ==> NewWith(b, sp, size, func).sp == sp + size
    ensures !b.growsDown ==> NewWith(b, sp, size, func).sp == sp
  {
  }

  /** Detection never sets both binary formats, and sets the System V ABI
      exactly when it sets a format. */
  lemma DetectConsistent(t: Target)
    ensures !(Detect(t).binaryElf && Detect(t).binaryMachO)
    ensures Detect(t).abiSysV <==> Detect(t).binaryElf || Detect(t).binaryMachO
    ensures Detect(t).binaryElf <==> FormatOf(t) == Some(Elf)
    ensures Detect(t).binaryMachO <==> FormatOf(t) == Some(MachO)
  {
  }

  /** A backend is selected exactly for a known format and a known
      architecture, and it is the one built for that format and architecture. */
  lemma SelectExactlyFour(t: Target)
    ensures Select(t).Ok? <==> FormatOf(t).Some? && ArchOf(t).Some?
    ensures Select(t).Ok? ==>
      Select(t).value.format == FormatOf(t).value && Select(t).value.arch == ArchOf(t).value
    ensures Select(t).Err? ==> Select(t).error == Unsupported
  {
  }

  /** The four backends are distinct: two targets get the same backend only
      when they agree on format and architecture. */
  lemma SelectDistinct(t1: Target, t2: Target)
    requires Select(t1).Ok? && Select(t2).Ok?
    ensures Select(t1) == Select(t2) <==> FormatOf(t1) == FormatOf(t2) && ArchOf(t1) == ArchOf(t2)
  {
    SelectExactlyFour(t1);
    SelectExactlyFour(t2);
  }

  /** Every supported backend grows its stack down, so every supported
      target starts the stack at the end of the buffer. */
  lemma SupportedGrowsDown<F>(t: Target, sp: nat, size: nat, func: F)
    requires Select(t).Ok?
    ensures Select(t).value.growsDown
    ensures New(t, sp, size, func) == Ok(NewFromSp(sp + size, size, func))
  {
  }

  /** Register layouts: 64-bit backends have 8 general-register slots and
      32-bit backends 6, each word as wide as the architecture; every backend
      has two 32-bit floating-point slots. */
  lemma BackendLayout(t: Target)
    requires Select(t).Ok?
    ensures var b := Select(t).value;
      (b.arch == X64 ==> b.wordBits == 64 && b.genRegs == 8) &&
      (b.arch == X86 ==> b.wordBits == 32 && b.genRegs == 6) &&
      b.fpRegs == 2 && b.fpRegBits == 32
  {
  }

  /** Byte offset of the stack descriptor within `struct cps_context`. */
  function StackOffset(b: Backend): nat {
    b.genRegs * (b.wordBits / 8)
  }

  /** Byte offset of the floating-point save area: after `sp` and `size`,
      which are each one word. */
  function FpOffset(b: Backend): nat {
    StackOffset(b) + 2 * (b.wordBits / 8)
  }

  /** `sizeof(struct cps_context)`: the fields are word-aligned and the
      floating-point area fills whole words, so there is no padding. */
  function ContextSize(b: Backend): nat {
    FpOffset(b) + b.fpRegs * (b.fpRegBits / 8)
  }

  /** The field offsets of `struct cps_context` and its size, for the two
      register layouts the header declares. */
  lemma ContextOffsets(t: Target)
    requires Select(t).Ok?
    ensures var b := Select(t).value;
      (b.arch == X64 ==> StackOffset(b) == 64 && FpOffset(b) == 80 && ContextSize(b) == 88) &&
      (b.arch == X86 ==> StackOffset(b) == 24 && FpOffset(b) == 32 && ContextSize(b) == 40)
  {
  }
}
