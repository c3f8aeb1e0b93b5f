/**
 * The objects the library hands out: compiler records (one per back end,
 * each living at the head of a single allocation that also holds its
 * strings) and bytecode containers, together with the two helpers that
 * work on any container.
 */
module Objects {
  import opened Wrappers
  import opened Gpucc
  import opened Loader
  import opened Internal
  import D3DCompilerApi
  import DxcCompilerApi
  import PtxCompilerApi

  // Sizes of the records laid out in a compiler's arena. They depend on the
  // target's ABI and on headers this model does not include.
  const PTR_SIZE: nat
  const FXC_COMPILER_SIZE: nat
  const D3D_SHADER_MACRO_SIZE: nat
  const DXC_COMPILER_SIZE: nat
  const DXC_DEFINE_SIZE: nat
  const PTX_COMPILER_SIZE: nat

  // Capacities of the fixed argument arrays (GPUCC_COMPILER_*_WIN32_MAX_ARGS).
  const DXC_MAX_ARGS: nat
  const PTX_MAX_ARGS: nat

  /** The first `cap` elements of `xs`: what a fixed array of `cap` slots keeps of a list of appends. */
  function Capped<T>(xs: seq<T>, cap: nat): (kept: seq<T>)
    ensures |kept| <= cap && kept <= xs
    ensures |xs| <= cap ==> kept == xs
  {
    if |xs| <= cap then xs else xs[..cap]
  }

  /** An argument passed only when a condition holds. */
  function When<T>(cond: bool, arg: T): (args: seq<T>)
    ensures arg in args <==> cond
    ensures |args| <= 1
  {
    if cond then [arg] else []
  }

  /** Appending to a full array drops the argument; capping after each append is capping once at the end. */
  lemma {:induction false} CappedAppend<T>(xs: seq<T>, x: T, cap: nat)
    ensures Capped(Capped(xs, cap) + [x], cap) == Capped(xs + [x], cap)
  {
    if |xs| < cap {
      assert Capped(xs, cap) == xs;
    } else {
      assert (xs + [x])[..cap] == xs[..cap];
    }
  }

  // ---------------------------------------------------------------------
  // The strings of a compiler configuration
  // ---------------------------------------------------------------------

  /** The symbol and value strings of the first n defines, in order. */
  function DefineStrings(config: CompilerInit, n: nat): (strs: seq<Option<CStr>>)
    requires config.DefinesReadable() && n <= config.DefineCount
    ensures |strs| == 2 * n
  {
    if n == 0 then [] else DefineStrings(config, n - 1) + [Some(config.Symbol(n - 1)), config.Value(n - 1)]
  }

  /** The strings a compiler interns in its block, in order: the profile, then each symbol followed by its value. */
  function ConfigStrings(config: CompilerInit): (strs: seq<Option<CStr>>)
    requires config.DefinesReadable()
    ensures |strs| == 1 + 2 * config.DefineCount && strs[0] == config.TargetProfile
  {
    [config.TargetProfile] + DefineStrings(config, config.DefineCount)
  }

  /** Among the first n defines' strings, define k's symbol and value sit at 2k and 2k+1. */
  lemma {:induction false} DefineStringsAt(config: CompilerInit, n: nat, k: nat)
    requires config.DefinesReadable() && k < n <= config.DefineCount
    ensures DefineStrings(config, n)[2 * k] == Some(config.Symbol(k))
    ensures DefineStrings(config, n)[2 * k + 1] == config.Value(k)
    decreases n
  {
    if k < n - 1 {
      DefineStringsAt(config, n - 1, k);
    }
  }

  /** Define k is interned as strings 1+2k (its symbol) and 2+2k (its value). */
  lemma {:induction false} ConfigStringsAt(config: CompilerInit, k: nat)
    requires config.DefinesReadable() && k < config.DefineCount
    ensures ConfigStrings(config)[1 + 2 * k] == Some(config.Symbol(k))
    ensures ConfigStrings(config)[2 + 2 * k] == config.Value(k)
  {
    DefineStringsAt(config, config.DefineCount, k);
  }

  /** Every define value is a string (each is measured and copied). */
  predicate ValuesPresent(config: CompilerInit)
    requires config.DefinesReadable()
  {
    forall k | 0 <= k < config.DefineCount :: config.Value(k).Some?
  }

  /** A buffer a container owns: a native blob it must Release, or a heap block it must free. */
  datatype Buffer = Com(object: Native) | Heap(bytes: seq<Byte>)

  /** The bytes a buffer exposes through GetBufferPointer/GetBufferSize (or directly, for heap memory). */
  function BufferBytes(b: Buffer): seq<Byte>
  {
    match b
    case Com(Blob(contents)) => contents
    case Com(Instance(_)) => []
    case Heap(bytes) => bytes
  }

  /** A COM pointer the container takes over, if any. */
  function Owned(blob: Option<Native>): (b: Option<Buffer>)
    ensures b.Some? <==> blob.Some?
    ensures b.Some? ==> b.value == Com(blob.value)
  {
    if blob.Some? then Some(Com(blob.value)) else None
  }

  /** A `char *` into a heap block: the block and the offset it points at. */
  datatype CharPtr = CharPtr(block: array<Byte>, offset: nat)

  /** Something a delete function gives back, in the order it does so: a buffer it owned, or a heap block it frees. */
  datatype Disposal = Dispose(buffer: Buffer) | Free(block: array<Byte>)

  /** D3D_SHADER_MACRO: offsets (into the compiler's arena) of the name and the definition; null for the terminator. */
  datatype Macro = Macro(Name: Option<nat>, Definition: Option<nat>)

  /** DxcDefine: offsets of the UTF-16 name and value. */
  datatype DxcDefine = DxcDefine(Name: nat, Value: nat)

  /** An NVRTC argument: a string literal of the library, or a string interned in the compiler's arena. */
  datatype PtxArg = Literal(text: string) | InBlock(offset: nat)

  /** GPUCC_COMPILER_FXC_WIN32, at the head of `Block`. */
  class CompilerFxc {
    const Block: array<Byte>
    const DispatchTable: D3DCompilerApi.D3DCompilerDispatch
    const CompilerType: int
    const BytecodeType: int
    const ShaderModel: nat
    const DefineArray: seq<Macro>
    const DefineCount: nat
    const TargetRuntime: int

    constructor (block: array<Byte>, dispatch: D3DCompilerApi.D3DCompilerDispatch, shaderModel: nat,
                 defines: seq<Macro>, defineCount: nat, targetRuntime: int)
      ensures Block == block && DispatchTable == dispatch && ShaderModel == shaderModel
      ensures DefineArray == defines && DefineCount == defineCount && TargetRuntime == targetRuntime
      ensures CompilerType == COMPILER_TYPE_FXC && BytecodeType == BYTECODE_TYPE_DXBC
    {
      Block, DispatchTable, ShaderModel := block, dispatch, shaderModel;
      DefineArray, DefineCount, TargetRuntime := defines, defineCount, targetRuntime;
      CompilerType, BytecodeType := COMPILER_TYPE_FXC, BYTECODE_TYPE_DXBC;
    }
  }

  /** The DxcArg_* wide-string literals a DXC argument array points at. */
  datatype DxcArg =
    | ArgEnableDebugInfo
    | ArgDisableOptimizations
    | ArgOptimizerLevel4
    | ArgWarningsAsErrors
    | ArgPackRowMajor
    | ArgPackColumnMajor
    | ArgEnable16BitTypes
    | ArgAvoidFlowControl
    | ArgForceIeeeStrictness
    | ArgGenerateSpirv
    | ArgVulkanUseGlLayout
    | ArgTargetVulkan1_0
    | ArgTargetVulkan1_1
    | ArgVulkanInvertY

  /** The command-line text of each literal. */
  function DxcArgText(arg: DxcArg): string
  {
    match arg
    case ArgEnableDebugInfo => "-Zi"
    case ArgDisableOptimizations => "-Od"
    case ArgOptimizerLevel4 => "-O4"
    case ArgWarningsAsErrors => "-WX"
    case ArgPackRowMajor => "-Zpr"
    case ArgPackColumnMajor => "-Zpc"
    case ArgEnable16BitTypes => "-enable-16bit-types"
    case ArgAvoidFlowControl => "-Gfa"
    case ArgForceIeeeStrictness => "-Gis"
    case ArgGenerateSpirv => "-spirv"
    case ArgVulkanUseGlLayout => "-fvk-use-gl-layout"
    case ArgTargetVulkan1_0 => "-fspv-target-env=vulkan1.0"
    case ArgTargetVulkan1_1 => "-fspv-target-env=vulkan1.1"
    case ArgVulkanInvertY => "-fvk-invert-y"
  }

  /** GPUCC_COMPILER_DXC_WIN32, at the head of `Block`; the argument array is carved from the same block. */
  class CompilerDxc {
    const Block: array<Byte>
    const DispatchTable: DxcCompilerApi.DxcCompilerDispatch
    const ShaderModel: nat
    const DefineArray: seq<DxcDefine>
    const DefineCount: nat
    const TargetRuntime: int
    const ClArguments: array<DxcArg>
    var ArgumentCount: nat
    var CompilerType: int
    var BytecodeType: int
    var DxcLibrary: Option<Native>
    var DxcCompiler: Option<Native>

    constructor (block: array<Byte>, dispatch: DxcCompilerApi.DxcCompilerDispatch, shaderModel: nat,
                 defines: seq<DxcDefine>, defineCount: nat, targetRuntime: int, arguments: array<DxcArg>)
      requires arguments.Length == DXC_MAX_ARGS
      ensures Block == block && DispatchTable == dispatch && ShaderModel == shaderModel
      ensures DefineArray == defines && DefineCount == defineCount && TargetRuntime == targetRuntime
      ensures ClArguments == arguments && ArgumentCount == 0 && Valid() && Args() == []
      ensures CompilerType == COMPILER_TYPE_UNKNOWN && BytecodeType == BYTECODE_TYPE_UNKNOWN
      ensures DxcLibrary == None && DxcCompiler == None
    {
      Block, DispatchTable, ShaderModel := block, dispatch, shaderModel;
      DefineArray, DefineCount, TargetRuntime := defines, defineCount, targetRuntime;
      ClArguments, ArgumentCount := arguments, 0;
      CompilerType, BytecodeType := COMPILER_TYPE_UNKNOWN, BYTECODE_TYPE_UNKNOWN;
      DxcLibrary, DxcCompiler := None, None;
    }

    /** The argument array has its fixed capacity and the count stays within it. */
    predicate Valid()
      reads this
    {
      ClArguments.Length == DXC_MAX_ARGS && ArgumentCount <= DXC_MAX_ARGS
    }

    /** The arguments stored so far. */
    function Args(): seq<DxcArg>
      requires Valid()
      reads this, ClArguments
    {
      ClArguments[..ArgumentCount]
    }

    /**
     * gpuccDxcStoreArg: write at index ArgumentCount and count it while there
     * is room; a full array is left as it is.
     */
    method StoreArg(arg: DxcArg)
      requires Valid()
      modifies this`ArgumentCount, ClArguments
      ensures Valid()
      ensures Args() == Capped(old(Args()) + [arg], DXC_MAX_ARGS)
      ensures old(ArgumentCount) < DXC_MAX_ARGS ==> ArgumentCount == old(ArgumentCount) + 1
      ensures old(ArgumentCount) >= DXC_MAX_ARGS ==> ArgumentCount == old(ArgumentCount) && ClArguments[..] == old(ClArguments[..])
    {
      if ArgumentCount < DXC_MAX_ARGS {
        ClArguments[ArgumentCount] := arg;
        ArgumentCount := ArgumentCount + 1;
        assert Args() == old(Args()) + [arg];
      }
    }
  }

  /** GPUCC_COMPILER_PTX_WIN32, at the head of `Block`; the define and argument arrays are carved from the same block. */
  class CompilerPtx {
    const Block: array<Byte>
    const DispatchTable: PtxCompilerApi.PtxCompilerDispatch
    const GpuArchitecture: nat
    const DefineArray: seq<nat>
    const DefineCount: nat
    const TargetRuntime: int
    const ClArguments: array<PtxArg>
    var ArgumentCount: nat
    var CompilerType: int
    var BytecodeType: int

    constructor (block: array<Byte>, dispatch: PtxCompilerApi.PtxCompilerDispatch, gpuArchitecture: nat,
                 defines: seq<nat>, defineCount: nat, targetRuntime: int, arguments: array<PtxArg>)
      requires arguments.Length == PTX_MAX_ARGS
      ensures Block == block && DispatchTable == dispatch && GpuArchitecture == gpuArchitecture
      ensures DefineArray == defines && DefineCount == defineCount && TargetRuntime == targetRuntime
      ensures ClArguments == arguments && ArgumentCount == 0 && Valid() && Args() == []
      ensures CompilerType == COMPILER_TYPE_UNKNOWN && BytecodeType == BYTECODE_TYPE_UNKNOWN
    {
      Block, DispatchTable, GpuArchitecture := block, dispatch, gpuArchitecture;
      DefineArray, DefineCount, TargetRuntime := defines, defineCount, targetRuntime;
      ClArguments, ArgumentCount := arguments, 0;
      CompilerType, BytecodeType := COMPILER_TYPE_UNKNOWN, BYTECODE_TYPE_UNKNOWN;
    }

    predicate Valid()
      reads this
    {
      ClArguments.Length == PTX_MAX_ARGS && ArgumentCount <= PTX_MAX_ARGS
    }

    function Args(): seq<PtxArg>
      requires Valid()
      reads this, ClArguments
    {
      ClArguments[..ArgumentCount]
    }

    /** gpuccPtxStoreArg: the same bounded append as the DXC one, over NVRTC's argument array. */
    method StoreArg(arg: PtxArg)
      requires Valid()
      modifies this`ArgumentCount, ClArguments
      ensures Valid()
      ensures Args() == Capped(old(Args()) + [arg], PTX_MAX_ARGS)
      ensures old(ArgumentCount) < PTX_MAX_ARGS ==> ArgumentCount == old(ArgumentCount) + 1
      ensures old(ArgumentCount) >= PTX_MAX_ARGS ==> ArgumentCount == old(ArgumentCount) && ClArguments[..] == old(ClArguments[..])
    {
      if ArgumentCount < PTX_MAX_ARGS {
        ClArguments[ArgumentCount] := arg;
        ArgumentCount := ArgumentCount + 1;
        assert Args() == old(Args()) + [arg];
      }
    }
  }

  /** GPUCC_PROGRAM_COMPILER: a pointer to one of the back-end records. */
  datatype CompilerRef = Fxc(fxc: CompilerFxc) | Dxc(dxc: CompilerDxc) | Ptx(ptx: CompilerPtx)

  /**
   * GPUCC_PROGRAM_BYTECODE_BASE and the back-end fields that follow it.
   * EntryPoint points at the start of the single allocation that also holds
   * the source path. CodeBuffer and ErrorLog are what the
   * back end owns (blobs for FXC and DXC, heap copies for PTX, where
   * ErrorLog is the LogBuffer field); BytecodeBuffer and LogBuffer are the
   * bytes the common fields point at.
   */
  class BytecodeContainer {
    const Compiler: CompilerRef
    var CompileResult: GpuccResult
    var EntryPoint: Option<CharPtr>
    var SourcePath: Option<CharPtr>
    var LogBuffer: Option<seq<Byte>>
    var LogBufferSize: nat
    var BytecodeSize: nat
    var BytecodeBuffer: Option<seq<Byte>>
    var CodeBuffer: Option<Buffer>
    var ErrorLog: Option<Buffer>

    /** The common part of gpuccCreateProgramBytecode{Fxc,Dxc,Ptx}: owner set, everything else zero, marked empty. */
    constructor (compiler: CompilerRef)
      ensures Compiler == compiler
      ensures CompileResult == MakeResult(RESULT_CODE_EMPTY_BYTECODE_CONTAINER)
      ensures Cleared()
    {
      Compiler := compiler;
      CompileResult := MakeResult(RESULT_CODE_EMPTY_BYTECODE_CONTAINER);
      EntryPoint, SourcePath := None, None;
      LogBuffer, LogBufferSize := None, 0;
      BytecodeSize, BytecodeBuffer := 0, None;
      CodeBuffer, ErrorLog := None, None;
    }

    /** Every pointer null and every size zero, as after creation and after delete. */
    predicate Cleared()
      reads this
    {
      EntryPoint == None && SourcePath == None
      && LogBuffer == None && LogBufferSize == 0
      && BytecodeBuffer == None && BytecodeSize == 0
      && CodeBuffer == None && ErrorLog == None
    }

    /** Both the bytecode and the log fields describe the owned buffers they point into. */
    predicate OutputsMatch()
      reads this
    {
      (CodeBuffer.None? ==> BytecodeBuffer == None && BytecodeSize == 0)
      && (CodeBuffer.Some? ==> BytecodeBuffer == Some(BufferBytes(CodeBuffer.value)) && BytecodeSize == |BufferBytes(CodeBuffer.value)|)
      && (ErrorLog.None? ==> LogBuffer == None && LogBufferSize == 0)
      && (ErrorLog.Some? ==> LogBuffer == Some(BufferBytes(ErrorLog.value)) && LogBufferSize == |BufferBytes(ErrorLog.value)|)
    }
  }

  /** OutputsMatch, and a source path only alongside the entry-point block it lives in. */
  predicate Consistent(c: BytecodeContainer)
    reads c
  {
    c.OutputsMatch() && (c.EntryPoint.None? ==> c.SourcePath.None?)
  }

  /**
   * The allocation common to gpuccCreateProgramBytecode{Fxc,Dxc,Ptx}: a
   * failed malloc records OUT_OF_HOST_MEMORY and gives null; otherwise the
   * container belongs to `compiler`, holds nothing and is marked empty.
   */
  method AllocateContainer(compiler: CompilerRef, tctx: ThreadContext, allocOk: bool) returns (c: BytecodeContainer?)
    modifies tctx
    ensures !allocOk ==> c == null && tctx.LastResult == MakeResult(RESULT_CODE_OUT_OF_HOST_MEMORY)
    ensures allocOk ==> c != null && fresh(c) && tctx.LastResult == old(tctx.LastResult)
    ensures allocOk ==> c.Compiler == compiler && c.Cleared() && Consistent(c)
    ensures allocOk ==> c.CompileResult == MakeResult(RESULT_CODE_EMPTY_BYTECODE_CONTAINER) && BytecodeContainerIsEmpty(c)
  {
    if !allocOk {
      var _ := tctx.SetLastResult(MakeResult(RESULT_CODE_OUT_OF_HOST_MEMORY));
      return null;
    }
    c := new BytecodeContainer(compiler);
  }

  /** Give back the error log: clear the log fields if (and only if) a log is owned. */
  method ReleaseErrorLog(c: BytecodeContainer) returns (disposed: seq<Disposal>)
    modifies c`ErrorLog, c`LogBuffer, c`LogBufferSize
    ensures old(c.ErrorLog).Some? ==> disposed == [Dispose(old(c.ErrorLog).value)] && c.LogBuffer == None && c.LogBufferSize == 0
    ensures old(c.ErrorLog).None? ==> disposed == [] && c.LogBuffer == old(c.LogBuffer) && c.LogBufferSize == old(c.LogBufferSize)
    ensures c.ErrorLog == None
  {
    disposed := [];
    if c.ErrorLog.Some? {
      var log := c.ErrorLog.value;
      c.LogBufferSize, c.LogBuffer, c.ErrorLog := 0, None, None;
      disposed := [Dispose(log)];
    }
  }

  /** Give back the code buffer: clear the bytecode fields if (and only if) a buffer is owned. */
  method ReleaseCodeBuffer(c: BytecodeContainer) returns (disposed: seq<Disposal>)
    modifies c`CodeBuffer, c`BytecodeBuffer, c`BytecodeSize
    ensures old(c.CodeBuffer).Some? ==> disposed == [Dispose(old(c.CodeBuffer).value)] && c.BytecodeBuffer == None && c.BytecodeSize == 0
    ensures old(c.CodeBuffer).None? ==> disposed == [] && c.BytecodeBuffer == old(c.BytecodeBuffer) && c.BytecodeSize == old(c.BytecodeSize)
    ensures c.CodeBuffer == None
  {
    disposed := [];
    if c.CodeBuffer.Some? {
      var buf := c.CodeBuffer.value;
      c.BytecodeBuffer, c.BytecodeSize, c.CodeBuffer := None, 0, None;
      disposed := [Dispose(buf)];
    }
  }

  /** free(EntryPoint), which also holds the source path; both pointers are then null. */
  method FreeEntryPoint(c: BytecodeContainer) returns (disposed: seq<Disposal>)
    modifies c`EntryPoint, c`SourcePath
    ensures old(c.EntryPoint).Some? ==> disposed == [Free(old(c.EntryPoint).value.block)] && c.EntryPoint == None && c.SourcePath == None
    ensures old(c.EntryPoint).None? ==> disposed == [] && c.EntryPoint == None && c.SourcePath == old(c.SourcePath)
  {
    disposed := [];
    if c.EntryPoint.Some? {
      disposed := [Free(c.EntryPoint.value.block)];
      c.EntryPoint, c.SourcePath := None, None;
    }
  }

  /**
   * gpuccBytecodeContainerIsEmpty: a container is empty while its compile
   * result still carries the EMPTY_BYTECODE_CONTAINER code; a null container
   * is reported as not empty.
   */
  function BytecodeContainerIsEmpty(c: BytecodeContainer?): (empty: bool)
    reads c
    ensures c == null ==> !empty
    ensures c != null ==> (empty <==> c.CompileResult.LibraryResult == RESULT_CODE_EMPTY_BYTECODE_CONTAINER)
  {
    c != null && c.CompileResult.LibraryResult == RESULT_CODE_EMPTY_BYTECODE_CONTAINER
  }

  /**
   * gpuccSetProgramEntryPoint: copy the entry point and then the source path
   * (each "" when null) into one fresh allocation of exactly their sizes.
   * When the allocation fails the container is left as it was and
   * OUT_OF_HOST_MEMORY (with errno) is both returned and recorded.
   */
  method SetProgramEntryPoint(c: BytecodeContainer, tctx: ThreadContext, entryPoint: Option<CStr>,
                              sourcePath: Option<CStr>, allocOk: bool, errno: int) returns (result: GpuccResult)
    modifies c`EntryPoint, c`SourcePath, tctx
    ensures !allocOk ==> result == MakeResultErrno(RESULT_CODE_OUT_OF_HOST_MEMORY, errno)
    ensures !allocOk ==> tctx.LastResult == result
    ensures !allocOk ==> c.EntryPoint == old(c.EntryPoint) && c.SourcePath == old(c.SourcePath)
    ensures allocOk ==> result == MakeResult(RESULT_CODE_SUCCESS) && tctx.LastResult == old(tctx.LastResult)
    ensures allocOk ==> c.EntryPoint.Some? && c.SourcePath.Some?
    ensures allocOk ==> var block := c.EntryPoint.value.block;
      && fresh(block)
      && block.Length == Utf8Size(entryPoint) + Utf8Size(sourcePath)
      && block[..] == Utf8Image(entryPoint) + Utf8Image(sourcePath)
      && c.EntryPoint.value.offset == 0
      && c.SourcePath.value == CharPtr(block, Utf8Size(entryPoint))
  {
    var nbentry := Utf8Size(entryPoint);
    var nbpath := Utf8Size(sourcePath);
    var nbneed := nbentry + nbpath;
    if !allocOk {
      result := MakeResultErrno(RESULT_CODE_OUT_OF_HOST_MEMORY, errno);
      var _ := tctx.SetLastResult(result);
      return;
    }
    result := MakeResult(RESULT_CODE_SUCCESS);
    var buffer, entry, path := InternNames(entryPoint, sourcePath);
    c.EntryPoint, c.SourcePath := Some(CharPtr(buffer, entry)), Some(CharPtr(buffer, path));
  }

  /** The allocation and the two gpuccPutStringUtf8 calls of gpuccSetProgramEntryPoint. */
  method InternNames(entryPoint: Option<CStr>, sourcePath: Option<CStr>) returns (buffer: array<Byte>, entry: nat, path: nat)
    ensures fresh(buffer)
    ensures buffer[..] == Utf8Image(entryPoint) + Utf8Image(sourcePath)
    ensures entry == 0 && path == Utf8Size(entryPoint)
  {
    buffer := new Byte[Utf8Size(entryPoint) + Utf8Size(sourcePath)];
    ghost var blank, a, b := buffer[..], Utf8Image(entryPoint), Utf8Image(sourcePath);
    var ptr := 0;
    entry, ptr := PutStringUtf8(buffer, ptr, entryPoint);
    path, ptr := PutStringUtf8(buffer, ptr, sourcePath);
    SpliceAdjacent(blank, 0, a, b);
    SpliceWhole(blank, a + b);
  }

  /** The two halves of a concatenation. */
  lemma {:induction false} HalvesOfConcat(a: seq<Byte>, b: seq<Byte>)
    ensures (a + b)[0..|a|] == a && (a + b)[|a|..|a + b|] == b
  {
  }

  /** The copies gpuccSetProgramEntryPoint makes read back as the entry point and the source path. */
  lemma {:induction false} ProgramNamesReadBack(names: seq<Byte>, entryPoint: Option<CStr>, sourcePath: Option<CStr>)
    requires names == Utf8Image(entryPoint) + Utf8Image(sourcePath)
    ensures CStrAt(names, 0) == Str(entryPoint)
    ensures CStrAt(names, Utf8Size(entryPoint)) == Str(sourcePath)
  {
    var a, b := Utf8Image(entryPoint), Utf8Image(sourcePath);
    assert names[0..|a|] == a && names[|a|..|names|] == b by {
      HalvesOfConcat(a, b);
    }
    ImageReadsBack(names, 0, |a|, entryPoint);
    ImageReadsBack(names, |a|, |names|, sourcePath);
  }
}
