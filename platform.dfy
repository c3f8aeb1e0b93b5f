/**
 * The public entry points of the Windows platform layer: start-up and
 * shut-down of the process context, the last-result query, and the
 * creation, deletion and use of compilers and bytecode containers, each
 * dispatched to the FXC, DXC or NVRTC back end.
 */
module Platform {
  import opened Wrappers
  import opened Gpucc
  import opened Loader
  import opened Internal
  import opened Objects
  import opened D3DCompilerApi
  import opened DxcCompilerApi
  import opened PtxCompilerApi
  import opened FxcBackend
  import opened DxcBackend
  import opened PtxBackend

  // ---------------------------------------------------------------------
  // The process context
  // ---------------------------------------------------------------------

  /** The support mask gpuccStartup builds: one bit per compiler library that loaded. */
  function SupportMask(fxc: bool, dxc: bool, nvrtc: bool): bv32
  {
    (if fxc then COMPILER_SUPPORT_FXC else COMPILER_SUPPORT_NONE)
    | (if dxc then COMPILER_SUPPORT_DXC else COMPILER_SUPPORT_NONE)
    | (if nvrtc then COMPILER_SUPPORT_NVRTC else COMPILER_SUPPORT_NONE)
  }

  /** Each support bit is set exactly when its library loaded, and no shaderc support is ever claimed. */
  lemma {:induction false} SupportMaskBits(fxc: bool, dxc: bool, nvrtc: bool)
    ensures (SupportMask(fxc, dxc, nvrtc) & COMPILER_SUPPORT_FXC != 0) <==> fxc
    ensures (SupportMask(fxc, dxc, nvrtc) & COMPILER_SUPPORT_DXC != 0) <==> dxc
    ensures (SupportMask(fxc, dxc, nvrtc) & COMPILER_SUPPORT_NVRTC != 0) <==> nvrtc
    ensures SupportMask(fxc, dxc, nvrtc) & COMPILER_SUPPORT_SHADERC == 0
  {
  }

  /**
   * GPUCC_PROCESS_CONTEXT_WIN32: whether gpuccStartup has run, which
   * compilers the host supports, and one dispatch table per compiler
   * library.
   */
  class ProcessContext {
    var StartupFlag: bool
    var CompilerSupport: bv32
    const FxcDispatch: D3DCompilerDispatch
    const DxcDispatch: DxcCompilerDispatch
    const PtxDispatch: PtxCompilerDispatch

    /** The zero-initialised context of a freshly loaded library. */
    constructor ()
      ensures !StartupFlag && CompilerSupport == COMPILER_SUPPORT_NONE
      ensures fresh(FxcDispatch) && fresh(DxcDispatch) && fresh(PtxDispatch)
      ensures FxcDispatch.Api.AllNull() && PtxDispatch.Api.AllNull()
      ensures DxcDispatch.DxcCreateInstance == Null && DxcDispatch.DxcCreateInstance2 == Null
      ensures Valid()
    {
      StartupFlag := false;
      CompilerSupport := COMPILER_SUPPORT_NONE;
      FxcDispatch := new D3DCompilerDispatch();
      DxcDispatch := new DxcCompilerDispatch();
      PtxDispatch := new PtxCompilerDispatch();
    }

    /** Once started, every dispatch table can be called through. */
    predicate Valid()
      reads this, FxcDispatch, DxcDispatch, PtxDispatch
    {
      StartupFlag ==> FxcDispatch.Api.Bound() && DxcDispatch.Bound() && PtxDispatch.Api.Bound()
    }

    /**
     * gpuccStartup: refuse a usage mode other than OFFLINE or RUNTIME, and
     * a second start-up; otherwise populate the three dispatch tables (the
     * FXC development entries only in OFFLINE mode), set one support bit per
     * library that loaded, and mark the context started. The last result
     * is not touched.
     */
    method Startup(usageMode: int, host: Host) returns (result: GpuccResult)
      requires Valid()
      modifies this, FxcDispatch, DxcDispatch, PtxDispatch
      ensures Valid()
      ensures usageMode != USAGE_MODE_OFFLINE && usageMode != USAGE_MODE_RUNTIME ==>
                result == MakeResult(RESULT_CODE_INVALID_USAGE_MODE)
                && unchanged(this) && unchanged(FxcDispatch) && unchanged(DxcDispatch) && unchanged(PtxDispatch)
      ensures (usageMode == USAGE_MODE_OFFLINE || usageMode == USAGE_MODE_RUNTIME) && old(StartupFlag) ==>
                result == MakeResult(RESULT_CODE_ALREADY_INITIALIZED)
                && unchanged(this) && unchanged(FxcDispatch) && unchanged(DxcDispatch) && unchanged(PtxDispatch)
      ensures (usageMode == USAGE_MODE_OFFLINE || usageMode == USAGE_MODE_RUNTIME) && !old(StartupFlag) ==>
                && result == MakeResult(RESULT_CODE_SUCCESS) && StartupFlag
                && FxcDispatch.Populated(host, if usageMode == USAGE_MODE_OFFLINE then D3DCompilerApi.LOADER_FLAG_DEVELOPMENT else 0)
                && DxcDispatch.Populated(host)
                && PtxDispatch.Populated(host)
                && CompilerSupport == SupportMask(FxcDispatch.QuerySupport(), DxcDispatch.QuerySupport(), PtxDispatch.QuerySupport())
    {
      if usageMode != USAGE_MODE_OFFLINE && usageMode != USAGE_MODE_RUNTIME {
        return MakeResult(RESULT_CODE_INVALID_USAGE_MODE);
      }
      if StartupFlag {
        return MakeResult(RESULT_CODE_ALREADY_INITIALIZED);
      }
      result := MakeResult(RESULT_CODE_SUCCESS);
      var fxcFlags: bv32 := 0;
      if usageMode == USAGE_MODE_OFFLINE {
        fxcFlags := fxcFlags | D3DCompilerApi.LOADER_FLAG_DEVELOPMENT;
      }
      CompilerSupport := COMPILER_SUPPORT_NONE;
      var fxc := FxcDispatch.Populate(host, fxcFlags);
      if fxc {
        CompilerSupport := CompilerSupport | COMPILER_SUPPORT_FXC;
      }
      var dxc := DxcDispatch.Populate(host, 0);
      if dxc {
        CompilerSupport := CompilerSupport | COMPILER_SUPPORT_DXC;
      }
      var nvrtc := PtxDispatch.Populate(host, 0);
      if nvrtc {
        CompilerSupport := CompilerSupport | COMPILER_SUPPORT_NVRTC;
      }
      StartupFlag := true;
    }

    /** gpuccShutdown: every table back to its stubs and its libraries released, no support, not started. */
    method Shutdown()
      modifies this, FxcDispatch, DxcDispatch, PtxDispatch
      ensures !StartupFlag && CompilerSupport == COMPILER_SUPPORT_NONE && Valid()
      ensures FxcDispatch.Api.AllStubs() && FxcDispatch.ModuleHandle == None
      ensures DxcDispatch.DxcCreateInstance == Stub && DxcDispatch.DxcCreateInstance2 == Stub
      ensures DxcDispatch.ModuleHandleDxCompiler == None && DxcDispatch.ModuleHandleDxil == None
      ensures PtxDispatch.Api.AllStubs() && PtxDispatch.ModuleHandle == None
    {
      PtxDispatch.Invalidate();
      DxcDispatch.Invalidate();
      FxcDispatch.Invalidate();
      CompilerSupport := COMPILER_SUPPORT_NONE;
      StartupFlag := false;
    }
  }

  /** gpuccGetLastResult: the calling thread's last recorded result. */
  function GetLastResult(tctx: ThreadContext): (r: GpuccResult)
    reads tctx
    ensures r == tctx.LastResult
  {
    tctx.LastResult
  }

  // ---------------------------------------------------------------------
  // gpuccCreateCompiler and gpuccDeleteCompiler
  // ---------------------------------------------------------------------

  /** The compiler gpuccCreateCompiler picks for a bytecode type: DXC for DXIL and SPIR-V, FXC for DXBC, NVRTC for PTX. */
  function CompilerTypeFor(bytecodeType: int): (t: int)
  {
    if bytecodeType == BYTECODE_TYPE_DXIL then COMPILER_TYPE_DXC
    else if bytecodeType == BYTECODE_TYPE_DXBC then COMPILER_TYPE_FXC
    else if bytecodeType == BYTECODE_TYPE_SPIRV then COMPILER_TYPE_DXC
    else if bytecodeType == BYTECODE_TYPE_PTX then COMPILER_TYPE_NVRTC
    else COMPILER_TYPE_UNKNOWN
  }

  /** The support bit a compiler type needs. */
  function SupportFor(compilerType: int): bv32
  {
    if compilerType == COMPILER_TYPE_DXC then COMPILER_SUPPORT_DXC
    else if compilerType == COMPILER_TYPE_FXC then COMPILER_SUPPORT_FXC
    else if compilerType == COMPILER_TYPE_NVRTC then COMPILER_SUPPORT_NVRTC
    else COMPILER_SUPPORT_NONE
  }

  /** The bytecode types each compiler produces. */
  function Produces(compilerType: int): set<int>
  {
    if compilerType == COMPILER_TYPE_DXC then {BYTECODE_TYPE_DXIL, BYTECODE_TYPE_SPIRV}
    else if compilerType == COMPILER_TYPE_FXC then {BYTECODE_TYPE_DXBC}
    else if compilerType == COMPILER_TYPE_NVRTC then {BYTECODE_TYPE_PTX}
    else {}
  }

  /**
   * A bytecode type is refused exactly when no compiler produces it, and
   * the compiler picked for it produces it.
   */
  lemma {:induction false} CompilerTypeForProduces(bytecodeType: int)
    ensures CompilerTypeFor(bytecodeType) == COMPILER_TYPE_UNKNOWN <==>
            bytecodeType !in Produces(COMPILER_TYPE_DXC) + Produces(COMPILER_TYPE_FXC) + Produces(COMPILER_TYPE_NVRTC)
    ensures CompilerTypeFor(bytecodeType) != COMPILER_TYPE_UNKNOWN ==> bytecodeType in Produces(CompilerTypeFor(bytecodeType))
  {
  }

  /** A known compiler type needs the bit that start-up sets when that compiler's library loads. */
  lemma {:induction false} SupportForStartup(bytecodeType: int, fxc: bool, dxc: bool, nvrtc: bool)
    requires CompilerTypeFor(bytecodeType) != COMPILER_TYPE_UNKNOWN
    ensures var t := CompilerTypeFor(bytecodeType);
            (SupportMask(fxc, dxc, nvrtc) & SupportFor(t) != 0)
            <==> (if t == COMPILER_TYPE_FXC then fxc else if t == COMPILER_TYPE_DXC then dxc else nvrtc)
  {
    SupportMaskBits(fxc, dxc, nvrtc);
  }

  /** The define arrays a configuration passes in hold DefineCount entries each (C cannot check this). */
  predicate ArraysLongEnough(config: CompilerInit)
  {
    (config.DefineSymbols.Some? ==> |config.DefineSymbols.value| >= config.DefineCount)
    && (config.DefineValues.Some? ==> |config.DefineValues.value| >= config.DefineCount)
  }

  /** The compiler type of a compiler record. */
  function CompilerTypeOf(compiler: CompilerRef): int
    reads if compiler.Dxc? then {compiler.dxc} else {}, if compiler.Ptx? then {compiler.ptx} else {}
  {
    match compiler
    case Fxc(f) => f.CompilerType
    case Dxc(d) => d.CompilerType
    case Ptx(p) => p.CompilerType
  }

  /** The bytecode type of a compiler record. */
  function BytecodeTypeOf(compiler: CompilerRef): int
    reads if compiler.Dxc? then {compiler.dxc} else {}, if compiler.Ptx? then {compiler.ptx} else {}
  {
    match compiler
    case Fxc(f) => f.BytecodeType
    case Dxc(d) => d.BytecodeType
    case Ptx(p) => p.BytecodeType
  }

  /** What the DXC back end needs from outside: UTF-16 conversion, the thread's last error, and the two instance creations. */
  datatype DxcCreation = DxcCreation(utf16: CStr -> Option<WStr>, lastError: Dword, library: CreateOutcome, compiler: CreateOutcome)
  {
    /** A successful instance creation hands back an instance. */
    predicate Sound()
    {
      (!Failed(library.hr) ==> library.instance.Some?) && (!Failed(compiler.hr) ==> compiler.instance.Some?)
    }
  }

  /**
   * gpuccCreateCompiler: refuse before start-up (NOT_INITIALIZED), a null
   * configuration or define arrays missing for a non-zero count
   * (INVALID_ARGUMENT), a bytecode type no compiler produces
   * (INVALID_BYTECODE_TYPE) and a compiler the host lacks
   * (COMPILER_NOT_SUPPORTED); then hand DXBC to FXC and DXIL and SPIR-V to
   * DXC. PTX gets no compiler and no error is recorded.
   */
  method CreateCompiler(pctx: ProcessContext, config: Option<CompilerInit>, tctx: ThreadContext, allocOk: bool, dxcNative: DxcCreation)
    returns (compiler: Option<CompilerRef>, disposed: seq<Disposal>)
    requires pctx.Valid() && dxcNative.Sound()
    requires config.Some? ==> ArraysLongEnough(config.value)
    requires pctx.StartupFlag && config.Some? && config.value.DefinesReadable()
             && CompilerTypeFor(config.value.BytecodeType) in {COMPILER_TYPE_FXC, COMPILER_TYPE_DXC}
             && pctx.CompilerSupport & SupportFor(CompilerTypeFor(config.value.BytecodeType)) != 0
             ==> ValuesPresent(config.value)
    modifies tctx
    ensures !pctx.StartupFlag ==> compiler.None? && disposed == [] && tctx.LastResult == MakeResult(RESULT_CODE_NOT_INITIALIZED)
    ensures pctx.StartupFlag && config.None? ==>
              compiler.None? && disposed == [] && tctx.LastResult == MakeResult(RESULT_CODE_INVALID_ARGUMENT)
    ensures pctx.StartupFlag && config.Some? && !config.value.DefinesReadable() ==>
              compiler.None? && disposed == [] && tctx.LastResult == MakeResult(RESULT_CODE_INVALID_ARGUMENT)
    ensures pctx.StartupFlag && config.Some? && config.value.DefinesReadable() ==>
              var t := CompilerTypeFor(config.value.BytecodeType);
              && (t == COMPILER_TYPE_UNKNOWN ==>
                    compiler.None? && disposed == [] && tctx.LastResult == MakeResult(RESULT_CODE_INVALID_BYTECODE_TYPE))
              && (t != COMPILER_TYPE_UNKNOWN && pctx.CompilerSupport & SupportFor(t) == 0 ==>
                    compiler.None? && disposed == [] && tctx.LastResult == MakeResult(RESULT_CODE_COMPILER_NOT_SUPPORTED))
              && (t == COMPILER_TYPE_NVRTC && pctx.CompilerSupport & SupportFor(t) != 0 ==>
                    compiler.None? && disposed == [] && tctx.LastResult == old(tctx.LastResult))
    ensures compiler.None? && tctx.LastResult != old(tctx.LastResult) ==> Failure(tctx.LastResult)
    ensures compiler.Some? ==>
              && config.Some? && config.value.DefinesReadable() && disposed == []
              && CompilerTypeOf(compiler.value) == CompilerTypeFor(config.value.BytecodeType)
              && BytecodeTypeOf(compiler.value) == config.value.BytecodeType
              && tctx.LastResult == old(tctx.LastResult)
    ensures compiler.Some? && compiler.value.Fxc? ==>
              fresh(compiler.value.fxc) && compiler.value.fxc.DispatchTable == pctx.FxcDispatch
              && FxcLayout(compiler.value.fxc.Block[..], config.value, compiler.value.fxc.ShaderModel, compiler.value.fxc.DefineArray)
    ensures compiler.Some? && compiler.value.Dxc? ==>
              fresh(compiler.value.dxc) && compiler.value.dxc.DispatchTable == pctx.DxcDispatch && compiler.value.dxc.Valid()
              && config.value.TargetProfile.Some?
              && compiler.value.dxc.Args() == Capped(DxcArguments(DxcTargetOf(config.value)), DXC_MAX_ARGS)
    ensures compiler.Some? ==> !compiler.value.Ptx?
  {
    compiler, disposed := None, [];
    if !pctx.StartupFlag {
      var _ := tctx.SetLastResult(MakeResult(RESULT_CODE_NOT_INITIALIZED));
      return;
    }
    if config.None? {
      var _ := tctx.SetLastResult(MakeResult(RESULT_CODE_INVALID_ARGUMENT));
      return;
    }
    var init := config.value;
    if init.DefineCount > 0 && (init.DefineSymbols.None? || init.DefineValues.None?) {
      var _ := tctx.SetLastResult(MakeResult(RESULT_CODE_INVALID_ARGUMENT));
      return;
    }
    var compilerType := CompilerTypeFor(init.BytecodeType);
    var needSupport := SupportFor(compilerType);
    if compilerType == COMPILER_TYPE_UNKNOWN {
      var _ := tctx.SetLastResult(MakeResult(RESULT_CODE_INVALID_BYTECODE_TYPE));
      return;
    }
    if pctx.CompilerSupport & needSupport == 0 {
      var _ := tctx.SetLastResult(MakeResult(RESULT_CODE_COMPILER_NOT_SUPPORTED));
      return;
    }
    if compilerType == COMPILER_TYPE_DXC {
      compiler, disposed := CreateDxc(pctx, init, tctx, allocOk, dxcNative);
    } else if compilerType == COMPILER_TYPE_FXC {
      compiler := CreateFxc(pctx, init, tctx, allocOk);
    }
  }

  /** The FXC branch of gpuccCreateCompiler. */
  method CreateFxc(pctx: ProcessContext, config: CompilerInit, tctx: ThreadContext, allocOk: bool) returns (compiler: Option<CompilerRef>)
    requires config.DefinesReadable() && ValuesPresent(config) && config.BytecodeType == BYTECODE_TYPE_DXBC
    modifies tctx
    ensures compiler.None? ==> Failure(tctx.LastResult)
    ensures compiler.Some? ==>
              && compiler.value.Fxc? && fresh(compiler.value.fxc) && compiler.value.fxc.DispatchTable == pctx.FxcDispatch
              && FxcLayout(compiler.value.fxc.Block[..], config, compiler.value.fxc.ShaderModel, compiler.value.fxc.DefineArray)
              && CompilerTypeOf(compiler.value) == COMPILER_TYPE_FXC && BytecodeTypeOf(compiler.value) == BYTECODE_TYPE_DXBC
              && tctx.LastResult == old(tctx.LastResult)
  {
    var fxc := CreateCompilerFxc(config, pctx.FxcDispatch, tctx, allocOk);
    compiler := if fxc == null then None else Some(Fxc(fxc));
  }

  /** The DXC branch of gpuccCreateCompiler. */
  method CreateDxc(pctx: ProcessContext, config: CompilerInit, tctx: ThreadContext, allocOk: bool, dxcNative: DxcCreation)
    returns (compiler: Option<CompilerRef>, disposed: seq<Disposal>)
    requires config.DefinesReadable() && ValuesPresent(config) && pctx.DxcDispatch.Bound() && dxcNative.Sound()
    modifies tctx
    ensures compiler.None? ==> Failure(tctx.LastResult)
    ensures compiler.Some? ==>
              && compiler.value.Dxc? && fresh(compiler.value.dxc) && compiler.value.dxc.DispatchTable == pctx.DxcDispatch
              && compiler.value.dxc.Valid() && config.TargetProfile.Some?
              && compiler.value.dxc.Args() == Capped(DxcArguments(DxcTargetOf(config)), DXC_MAX_ARGS)
              && CompilerTypeOf(compiler.value) == COMPILER_TYPE_DXC && BytecodeTypeOf(compiler.value) == config.BytecodeType
              && tctx.LastResult == old(tctx.LastResult) && disposed == []
  {
    var dxc;
    dxc, disposed := CreateCompilerDxc(config, pctx.DxcDispatch, tctx, dxcNative.utf16, dxcNative.lastError, allocOk,
                                       dxcNative.library, dxcNative.compiler);
    compiler := if dxc == null then None else Some(Dxc(dxc));
  }

  /** The block a compiler record heads. */
  function BlockOf(compiler: CompilerRef): array<Byte>
  {
    match compiler
    case Fxc(f) => f.Block
    case Dxc(d) => d.Block
    case Ptx(p) => p.Block
  }

  /**
   * gpuccDeleteCompiler: free the compiler's block (nothing for null). The
   * back end's cleanup is not called, so a DXC compiler's library and
   * compiler instances are never released.
   */
  method DeleteCompiler(compiler: Option<CompilerRef>) returns (disposed: seq<Disposal>)
    ensures compiler.None? ==> disposed == []
    ensures compiler.Some? ==> disposed == [Free(BlockOf(compiler.value))]
    ensures forall d | d in disposed :: d.Free?
  {
    disposed := [];
    if compiler.Some? {
      disposed := [Free(BlockOf(compiler.value))];
    }
  }

  // ---------------------------------------------------------------------
  // Bytecode containers
  // ---------------------------------------------------------------------

  /** gpuccCreateBytecodeContainer: INVALID_ARGUMENT for a null compiler, otherwise the back end's container. */
  method CreateBytecodeContainer(compiler: Option<CompilerRef>, tctx: ThreadContext, allocOk: bool) returns (c: BytecodeContainer?)
    modifies tctx
    ensures compiler.None? ==> c == null && tctx.LastResult == MakeResult(RESULT_CODE_INVALID_ARGUMENT)
    ensures compiler.Some? && !allocOk ==> c == null && tctx.LastResult == MakeResult(RESULT_CODE_OUT_OF_HOST_MEMORY)
    ensures compiler.Some? && allocOk ==>
              c != null && fresh(c) && c.Compiler == compiler.value && c.Cleared() && BytecodeContainerIsEmpty(c)
              && tctx.LastResult == old(tctx.LastResult)
  {
    if compiler.None? {
      var _ := tctx.SetLastResult(MakeResult(RESULT_CODE_INVALID_ARGUMENT));
      return null;
    }
    match compiler.value
    case Fxc(f) =>
      c := CreateProgramBytecodeFxc(f, tctx, allocOk);
    case Dxc(d) =>
      c := CreateProgramBytecodeDxc(d, tctx, allocOk);
    case Ptx(p) =>
      c := CreateProgramBytecodePtx(p, tctx, allocOk);
  }

  /** What a delete gives back, in order: two owned buffers (each if present), then the entry-point block. */
  function Releases(first: Option<Buffer>, second: Option<Buffer>, names: Option<CharPtr>): seq<Disposal>
  {
    (if first.Some? then [Dispose(first.value)] else [])
    + (if second.Some? then [Dispose(second.value)] else [])
    + (if names.Some? then [Free(names.value.block)] else [])
  }

  /** gpuccDeleteBytecodeContainer: nothing for null, otherwise the back end's delete. */
  method DeleteBytecodeContainer(c: BytecodeContainer?) returns (disposed: seq<Disposal>)
    modifies c
    ensures c == null ==> disposed == []
    ensures c != null && c.Compiler.Dxc? ==> disposed == Releases(old(c.CodeBuffer), old(c.ErrorLog), old(c.EntryPoint))
    ensures c != null && !c.Compiler.Dxc? ==> disposed == Releases(old(c.ErrorLog), old(c.CodeBuffer), old(c.EntryPoint))
    ensures c != null && old(Consistent(c)) ==> c.Cleared()
    ensures c != null ==> c.CompileResult == old(c.CompileResult)
  {
    if c == null {
      return [];
    }
    match c.Compiler
    case Fxc(_) =>
      disposed := DeleteProgramBytecodeFxc(c);
    case Dxc(_) =>
      disposed := DeleteProgramBytecodeDxc(c);
    case Ptx(_) =>
      disposed := DeleteProgramBytecodePtx(c);
  }

  // ---------------------------------------------------------------------
  // gpuccCompileProgramBytecode
  // ---------------------------------------------------------------------

  /** The native compilers a compile may reach, one per back end, the UTF-16 conversion DXC uses and the last result it records when a string does not convert. */
  datatype Natives = Natives(
    d3dCompile: D3DCompileRequest -> CompileOutcome,
    utf16: CStr -> Option<WStr>,
    utf16Failure: CStr -> GpuccResult,
    pin: seq<Byte> -> int,
    dxcCompile: DxcCompileRequest -> DxcCompileOutcome,
    nvrtc: PtxCompileRequest -> ProgramCalls)

  /** What a compiler record must hold for its back end to be called. */
  predicate Ready(compiler: CompilerRef)
    reads CompilerObjects(compiler)
  {
    match compiler
    case Fxc(f) => f.DispatchTable.Api.D3DCompile != Null
    case Dxc(d) => d.Valid()
    case Ptx(p) => p.Valid() && p.DispatchTable.Api.Bound()
  }

  /** The objects a compile reads through a compiler record. */
  function CompilerObjects(compiler: CompilerRef): set<object>
  {
    match compiler
    case Fxc(f) => {f.DispatchTable}
    case Dxc(d) => {d, d.ClArguments}
    case Ptx(p) => {p, p.ClArguments, p.Block, p.DispatchTable}
  }

  /** What D3DCompile answers for the compile of `source` with the names interned into `names`. */
  function FxcOutcome(f: CompilerFxc, source: seq<Byte>, entryPoint: Option<CStr>, names: array<Byte>, natives: Natives): CompileOutcome
    requires f.DispatchTable.Api.D3DCompile != Null
    reads f.DispatchTable
  {
    var request := FxcRequest(f, source, Some(CharPtr(names, Utf8Size(entryPoint))), Some(CharPtr(names, 0)));
    CallD3DCompile(f.DispatchTable.Api.D3DCompile, natives.d3dCompile(request))
  }

  /** What IDxcCompiler::Compile answers, or no operation when a conversion or the pin failed first. */
  function DxcOutcome(d: CompilerDxc, source: seq<Byte>, sourcePath: Option<CStr>, entryPoint: Option<CStr>, natives: Natives): DxcCompileOutcome
    requires d.Valid()
    reads d, d.ClArguments
  {
    var widePath := natives.utf16(Str(sourcePath));
    var wideEntry := natives.utf16(Str(entryPoint));
    var pinHr := natives.pin(Pinned(source));
    if widePath.Some? && wideEntry.Some? && !Failed(pinHr)
    then natives.dxcCompile(DxcRequest(d, source, widePath.value, wideEntry.value))
    else DxcCompileOutcome(0, None)
  }

  /** The answers of the nvrtc calls, as seen through the process table. */
  function PtxSeen(p: CompilerPtx, source: seq<Byte>, sourcePath: Option<CStr>, natives: Natives): ProgramCalls
    requires p.Valid() && p.DispatchTable.Api.Bound()
    reads p, p.ClArguments, p.Block, p.DispatchTable
  {
    ThroughTable(p.DispatchTable.Api, natives.nvrtc(PtxRequest(p, source, Some(Str(sourcePath)))))
  }

  /**
   * The result the back end returns for a compile of `source`, once the
   * entry point and the source path were interned into `names` (entry
   * point first): FXC fails exactly when D3DCompile fails, DXC as
   * DxcCompileFails says, NVRTC as PtxCompileResult says.
   */
  function BackendResult(compiler: CompilerRef, source: seq<Byte>, sourcePath: Option<CStr>, entryPoint: Option<CStr>,
                         names: array<Byte>, natives: Natives, logAllocOk: bool, codeAllocOk: bool, errno: int): GpuccResult
    requires Ready(compiler)
    reads CompilerObjects(compiler)
  {
    match compiler
    case Fxc(f) =>
      if Failed(FxcOutcome(f, source, entryPoint, names, natives).hr) then MakeResult(RESULT_CODE_COMPILE_FAILED)
      else MakeResult(RESULT_CODE_SUCCESS)
    case Dxc(d) =>
      var widePath := natives.utf16(Str(sourcePath));
      var wideEntry := natives.utf16(Str(entryPoint));
      var pinHr := natives.pin(Pinned(source));
      if DxcCompileFails(widePath, wideEntry, pinHr, DxcOutcome(d, source, sourcePath, entryPoint, natives))
      then MakeResult(RESULT_CODE_COMPILE_FAILED) else MakeResult(RESULT_CODE_SUCCESS)
    case Ptx(p) =>
      PtxCompileResult(PtxSeen(p, source, sourcePath, natives), logAllocOk, codeAllocOk, errno)
  }

  /**
   * The code and log buffers the back end leaves the container owning, or
   * None when it leaves the container as it was: FXC always keeps
   * D3DCompile's two blobs, DXC keeps DxcCode and DxcLog once it has an
   * operation result, NVRTC keeps heap copies once they are delivered.
   */
  function BackendOutputs(compiler: CompilerRef, source: seq<Byte>, sourcePath: Option<CStr>, entryPoint: Option<CStr>,
                          names: array<Byte>, natives: Natives, logAllocOk: bool, codeAllocOk: bool): (outputs: Option<(Option<Buffer>, Option<Buffer>)>)
    requires Ready(compiler)
    reads CompilerObjects(compiler)
    ensures compiler.Fxc? ==> outputs.Some?
    ensures compiler.Dxc? ==> (outputs.Some? <==> DxcOutcome(compiler.dxc, source, sourcePath, entryPoint, natives).operation.Some?)
    ensures compiler.Ptx? ==>
              (outputs.Some? <==> Delivers(PtxSeen(compiler.ptx, source, sourcePath, natives), logAllocOk, codeAllocOk))
  {
    match compiler
    case Fxc(f) =>
      var out := FxcOutcome(f, source, entryPoint, names, natives);
      Some((Owned(out.code), Owned(out.errors)))
    case Dxc(d) =>
      var out := DxcOutcome(d, source, sourcePath, entryPoint, natives);
      if out.operation.Some? then Some((Owned(DxcCode(out.operation.value)), Owned(DxcLog(out.operation.value)))) else None
    case Ptx(p) =>
      var seen := PtxSeen(p, source, sourcePath, natives);
      if Delivers(seen, logAllocOk, codeAllocOk) then Some((HeapCopy(seen.ptxSize, seen.ptx), HeapCopy(seen.logSize, seen.log))) else None
  }

  /** The container owns exactly the given code and log buffers, and its pointer and size fields describe them. */
  predicate HoldsOutputs(c: BytecodeContainer, outputs: (Option<Buffer>, Option<Buffer>))
    reads c
  {
    c.CodeBuffer == outputs.0 && c.ErrorLog == outputs.1 && c.OutputsMatch()
  }

  /** Every nvrtc answer reports sizes that match the bytes it hands back. */
  ghost predicate NvrtcConsistent(natives: Natives)
  {
    forall request :: natives.nvrtc(request).Consistent()
  }

  /** The container's names were interned into one block: the entry point at its start, the source path right after it. */
  predicate NamesInterned(c: BytecodeContainer, entryPoint: Option<CStr>)
    reads c
  {
    c.EntryPoint.Some? && c.EntryPoint.value == CharPtr(c.EntryPoint.value.block, 0)
    && c.SourcePath == Some(CharPtr(c.EntryPoint.value.block, Utf8Size(entryPoint)))
  }

  /** The back-end call of gpuccCompileProgramBytecode, made with the container's interned names; the last result is then reset. */
  method CompileInBackend(c: BytecodeContainer, source: seq<Byte>, sourcePath: Option<CStr>, entryPoint: Option<CStr>,
                          tctx: ThreadContext, natives: Natives, logAllocOk: bool, codeAllocOk: bool, errno: int)
    returns (result: GpuccResult)
    requires Ready(c.Compiler) && NvrtcConsistent(natives)
    requires NamesInterned(c, entryPoint)
    modifies c`LogBuffer, c`LogBufferSize, c`BytecodeSize, c`BytecodeBuffer, c`CodeBuffer, c`ErrorLog, tctx
    ensures result == BackendResult(c.Compiler, source, sourcePath, entryPoint, c.EntryPoint.value.block, natives, logAllocOk, codeAllocOk, errno)
    ensures tctx.LastResult == MakeResult(RESULT_CODE_SUCCESS)
    ensures var outputs := BackendOutputs(c.Compiler, source, sourcePath, entryPoint, c.EntryPoint.value.block, natives, logAllocOk, codeAllocOk);
            && (outputs.None? ==> unchanged(c))
            && (outputs.Some? ==> HoldsOutputs(c, outputs.value))
  {
    match c.Compiler {
      case Fxc(_) =>
        result := CompileInFxc(c, source, sourcePath, entryPoint, tctx, natives, logAllocOk, codeAllocOk, errno);
      case Dxc(_) =>
        result := CompileInDxc(c, source, sourcePath, entryPoint, tctx, natives, logAllocOk, codeAllocOk, errno);
      case Ptx(_) =>
        result := CompileInPtx(c, source, sourcePath, entryPoint, tctx, natives, logAllocOk, codeAllocOk, errno);
    }
  }

  /** The FXC case of CompileInBackend. */
  method CompileInFxc(c: BytecodeContainer, source: seq<Byte>, sourcePath: Option<CStr>, entryPoint: Option<CStr>,
                      tctx: ThreadContext, natives: Natives, logAllocOk: bool, codeAllocOk: bool, errno: int)
    returns (result: GpuccResult)
    requires c.Compiler.Fxc? && Ready(c.Compiler) && NamesInterned(c, entryPoint)
    modifies c`LogBuffer, c`LogBufferSize, c`BytecodeSize, c`BytecodeBuffer, c`CodeBuffer, c`ErrorLog, tctx
    ensures tctx.LastResult == MakeResult(RESULT_CODE_SUCCESS)
    ensures result == BackendResult(c.Compiler, source, sourcePath, entryPoint, c.EntryPoint.value.block, natives, logAllocOk, codeAllocOk, errno)
    ensures var outputs := BackendOutputs(c.Compiler, source, sourcePath, entryPoint, c.EntryPoint.value.block, natives, logAllocOk, codeAllocOk);
            outputs.Some? && HoldsOutputs(c, outputs.value)
  {
    result := CompileBytecodeFxc(c, source, c.SourcePath, c.EntryPoint, natives.d3dCompile);
    var _ := tctx.SetLastResult(MakeResult(RESULT_CODE_SUCCESS));
  }

  /** The DXC case of CompileInBackend. */
  method CompileInDxc(c: BytecodeContainer, source: seq<Byte>, sourcePath: Option<CStr>, entryPoint: Option<CStr>,
                      tctx: ThreadContext, natives: Natives, logAllocOk: bool, codeAllocOk: bool, errno: int)
    returns (result: GpuccResult)
    requires c.Compiler.Dxc? && Ready(c.Compiler) && NamesInterned(c, entryPoint)
    modifies c`LogBuffer, c`LogBufferSize, c`BytecodeSize, c`BytecodeBuffer, c`CodeBuffer, c`ErrorLog, tctx
    ensures tctx.LastResult == MakeResult(RESULT_CODE_SUCCESS)
    ensures result == BackendResult(c.Compiler, source, sourcePath, entryPoint, c.EntryPoint.value.block, natives, logAllocOk, codeAllocOk, errno)
    ensures var outputs := BackendOutputs(c.Compiler, source, sourcePath, entryPoint, c.EntryPoint.value.block, natives, logAllocOk, codeAllocOk);
            && (outputs.None? ==> unchanged(c))
            && (outputs.Some? ==> HoldsOutputs(c, outputs.value))
  {
    result := CompileBytecodeDxc(c, source, tctx, natives.utf16(Str(sourcePath)), natives.utf16(Str(entryPoint)),
                                 natives.utf16Failure(Str(sourcePath)), natives.utf16Failure(Str(entryPoint)),
                                 natives.pin, natives.dxcCompile);
    var _ := tctx.SetLastResult(MakeResult(RESULT_CODE_SUCCESS));
  }

  /** The NVRTC case of CompileInBackend. */
  method CompileInPtx(c: BytecodeContainer, source: seq<Byte>, sourcePath: Option<CStr>, entryPoint: Option<CStr>,
                      tctx: ThreadContext, natives: Natives, logAllocOk: bool, codeAllocOk: bool, errno: int)
    returns (result: GpuccResult)
    requires c.Compiler.Ptx? && Ready(c.Compiler) && NamesInterned(c, entryPoint) && NvrtcConsistent(natives)
    modifies c`LogBuffer, c`LogBufferSize, c`BytecodeSize, c`BytecodeBuffer, c`CodeBuffer, c`ErrorLog, tctx
    ensures tctx.LastResult == MakeResult(RESULT_CODE_SUCCESS)
    ensures result == BackendResult(c.Compiler, source, sourcePath, entryPoint, c.EntryPoint.value.block, natives, logAllocOk, codeAllocOk, errno)
    ensures var outputs := BackendOutputs(c.Compiler, source, sourcePath, entryPoint, c.EntryPoint.value.block, natives, logAllocOk, codeAllocOk);
            && (outputs.None? ==> unchanged(c))
            && (outputs.Some? ==> HoldsOutputs(c, outputs.value))
  {
    result := CompileBytecodePtx(c, source, Some(Str(sourcePath)), tctx, natives.nvrtc, logAllocOk, codeAllocOk, errno);
    var _ := tctx.SetLastResult(MakeResult(RESULT_CODE_SUCCESS));
  }

  /**
   * gpuccCompileProgramBytecode: INVALID_ARGUMENT for a null container or
   * an absent or empty source, INVALID_BYTECODE_CONTAINER for a container
   * that is not empty (each recorded and returned); then the entry point
   * and source path are copied into the container (a failed allocation
   * returns the OUT_OF_HOST_MEMORY it recorded) and the back end compiles.
   * Its result is returned while the last result is reset to SUCCESS.
   */
  method CompileProgramBytecode(c: BytecodeContainer?, source: Option<seq<Byte>>, sourcePath: Option<CStr>, entryPoint: Option<CStr>,
                                tctx: ThreadContext, natives: Natives, namesAllocOk: bool, logAllocOk: bool, codeAllocOk: bool, errno: int)
    returns (result: GpuccResult)
    requires c != null ==> Ready(c.Compiler)
    requires NvrtcConsistent(natives)
    modifies c, tctx
    ensures c == null ==> result == MakeResult(RESULT_CODE_INVALID_ARGUMENT) && tctx.LastResult == result
    ensures c != null && (source.None? || |source.value| == 0) ==>
              result == MakeResult(RESULT_CODE_INVALID_ARGUMENT) && tctx.LastResult == result && unchanged(c)
    ensures c != null && source.Some? && |source.value| != 0 && !old(BytecodeContainerIsEmpty(c)) ==>
              result == MakeResult(RESULT_CODE_INVALID_BYTECODE_CONTAINER) && tctx.LastResult == result && unchanged(c)
    ensures c != null && source.Some? && |source.value| != 0 && old(BytecodeContainerIsEmpty(c)) && !namesAllocOk ==>
              result == MakeResultErrno(RESULT_CODE_OUT_OF_HOST_MEMORY, errno) && tctx.LastResult == result && unchanged(c)
    ensures c != null && source.Some? && |source.value| != 0 && old(BytecodeContainerIsEmpty(c)) && namesAllocOk ==>
              && tctx.LastResult == MakeResult(RESULT_CODE_SUCCESS)
              && c.EntryPoint.Some? && fresh(c.EntryPoint.value.block)
              && c.EntryPoint.value.block[..] == Utf8Image(entryPoint) + Utf8Image(sourcePath)
              && c.EntryPoint.value.offset == 0
              && c.SourcePath == Some(CharPtr(c.EntryPoint.value.block, Utf8Size(entryPoint)))
              && result == BackendResult(c.Compiler, source.value, sourcePath, entryPoint, c.EntryPoint.value.block,
                                         natives, logAllocOk, codeAllocOk, errno)
              && c.CompileResult == old(c.CompileResult)
              && var outputs := BackendOutputs(c.Compiler, source.value, sourcePath, entryPoint, c.EntryPoint.value.block,
                                               natives, logAllocOk, codeAllocOk);
                 && (outputs.None? ==> unchanged(c`LogBuffer, c`LogBufferSize, c`BytecodeSize, c`BytecodeBuffer, c`CodeBuffer, c`ErrorLog))
                 && (outputs.Some? ==> HoldsOutputs(c, outputs.value))
  {
    if c == null {
      result := MakeResult(RESULT_CODE_INVALID_ARGUMENT);
      var _ := tctx.SetLastResult(result);
      return;
    }
    if source.None? || |source.value| == 0 {
      result := MakeResult(RESULT_CODE_INVALID_ARGUMENT);
      var _ := tctx.SetLastResult(result);
      return;
    }
    if !BytecodeContainerIsEmpty(c) {
      result := MakeResult(RESULT_CODE_INVALID_BYTECODE_CONTAINER);
      var _ := tctx.SetLastResult(result);
      return;
    }
    result := InternAndCompile(c, source.value, sourcePath, entryPoint, tctx, natives, namesAllocOk, logAllocOk, codeAllocOk, errno);
  }

  /** The part of gpuccCompileProgramBytecode after validation: copy the names, compile, reset the last result. */
  method InternAndCompile(c: BytecodeContainer, source: seq<Byte>, sourcePath: Option<CStr>, entryPoint: Option<CStr>,
                          tctx: ThreadContext, natives: Natives, namesAllocOk: bool, logAllocOk: bool, codeAllocOk: bool, errno: int)
    returns (result: GpuccResult)
    requires Ready(c.Compiler) && NvrtcConsistent(natives)
    modifies c`EntryPoint, c`SourcePath, c`LogBuffer, c`LogBufferSize, c`BytecodeSize, c`BytecodeBuffer, c`CodeBuffer, c`ErrorLog, tctx
    ensures !namesAllocOk ==>
              result == MakeResultErrno(RESULT_CODE_OUT_OF_HOST_MEMORY, errno) && tctx.LastResult == result && unchanged(c)
    ensures namesAllocOk ==>
              && tctx.LastResult == MakeResult(RESULT_CODE_SUCCESS)
              && c.EntryPoint.Some? && fresh(c.EntryPoint.value.block)
              && c.EntryPoint.value.block[..] == Utf8Image(entryPoint) + Utf8Image(sourcePath)
              && c.EntryPoint.value.offset == 0
              && c.SourcePath == Some(CharPtr(c.EntryPoint.value.block, Utf8Size(entryPoint)))
              && result == BackendResult(c.Compiler, source, sourcePath, entryPoint, c.EntryPoint.value.block,
                                         natives, logAllocOk, codeAllocOk, errno)
              && var outputs := BackendOutputs(c.Compiler, source, sourcePath, entryPoint, c.EntryPoint.value.block,
                                               natives, logAllocOk, codeAllocOk);
                 && (outputs.None? ==> unchanged(c`LogBuffer, c`LogBufferSize, c`BytecodeSize, c`BytecodeBuffer, c`CodeBuffer, c`ErrorLog))
                 && (outputs.Some? ==> HoldsOutputs(c, outputs.value))
  {
    result := SetProgramEntryPoint(c, tctx, entryPoint, sourcePath, namesAllocOk, errno);
    if Failure(result) {
      return;
    }
    result := CompileInBackend(c, source, sourcePath, entryPoint, tctx, natives, logAllocOk, codeAllocOk, errno);
  }

  /**
   * A PTX compile that nvrtc rejected but whose log and code were copied
   * is reported as a success by the back end, with the copies kept; since
   * CompileInBackend then sets SUCCESS as the last result, the rejection
   * is visible neither in the result nor in the last result.
   */
  lemma {:induction false} ReachedBackendHidesCompileFailure(compiler: CompilerRef, source: seq<Byte>, sourcePath: Option<CStr>,
                                                             entryPoint: Option<CStr>, names: array<Byte>, natives: Natives,
                                                             logAllocOk: bool, codeAllocOk: bool, errno: int)
    requires compiler.Ptx? && Ready(compiler)
    requires var seen := PtxSeen(compiler.ptx, source, sourcePath, natives);
             Delivers(seen, logAllocOk, codeAllocOk) && seen.compileResult != NVRTC_SUCCESS
    ensures Success(BackendResult(compiler, source, sourcePath, entryPoint, names, natives, logAllocOk, codeAllocOk, errno))
    ensures var seen := PtxSeen(compiler.ptx, source, sourcePath, natives);
            BackendOutputs(compiler, source, sourcePath, entryPoint, names, natives, logAllocOk, codeAllocOk)
            == Some((HeapCopy(seen.ptxSize, seen.ptx), HeapCopy(seen.logSize, seen.log)))
  {
    var seen := PtxSeen(compiler.ptx, source, sourcePath, natives);
    CompileFailureReportedOnlyAsLastResult(seen, logAllocOk, codeAllocOk, errno, MakeResult(RESULT_CODE_SUCCESS));
  }
}
