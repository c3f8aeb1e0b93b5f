/**
 * The FXC (d3dcompiler) back end: DXBC bytecode containers, compilation
 * through the D3DCompile entry of the dispatch table, and creation of an
 * FXC compiler record with its define strings interned in one block.
 */
module FxcBackend {
  import opened Wrappers
  import opened Gpucc
  import opened Loader
  import opened Internal
  import opened Objects
  import opened D3DCompilerApi

  /** D3DCOMPILE_DEBUG and D3DCOMPILE_WARNINGS_ARE_ERRORS from d3dcompiler.h. */
  const D3DCOMPILE_DEBUG: bv32 := 0x1
  const D3DCOMPILE_WARNINGS_ARE_ERRORS: bv32 := 0x4_0000

  /** gpuccCreateProgramBytecodeFxc */
  method CreateProgramBytecodeFxc(compiler: CompilerFxc, tctx: ThreadContext, allocOk: bool) returns (c: BytecodeContainer?)
    modifies tctx
    ensures !allocOk ==> c == null && tctx.LastResult == MakeResult(RESULT_CODE_OUT_OF_HOST_MEMORY)
    ensures allocOk ==> c != null && fresh(c) && tctx.LastResult == old(tctx.LastResult)
    ensures allocOk ==> c.Compiler == Fxc(compiler) && c.Cleared() && BytecodeContainerIsEmpty(c)
  {
    c := AllocateContainer(Fxc(compiler), tctx, allocOk);
  }

  /**
   * gpuccDeleteProgramBytecodeFxc: release the error log, then the code
   * blob, then free the entry-point block; each step clears its fields and
   * is skipped when there is nothing to give back. The container itself is
   * not freed.
   */
  method DeleteProgramBytecodeFxc(c: BytecodeContainer) returns (disposed: seq<Disposal>)
    modifies c`ErrorLog, c`LogBuffer, c`LogBufferSize, c`CodeBuffer, c`BytecodeBuffer, c`BytecodeSize, c`EntryPoint, c`SourcePath
    ensures disposed ==
      (if old(c.ErrorLog).Some? then [Dispose(old(c.ErrorLog).value)] else [])
      + (if old(c.CodeBuffer).Some? then [Dispose(old(c.CodeBuffer).value)] else [])
      + (if old(c.EntryPoint).Some? then [Free(old(c.EntryPoint).value.block)] else [])
    ensures old(Consistent(c)) ==> c.Cleared()
    ensures old(c.Cleared()) ==> disposed == [] && c.Cleared()
  {
    var log := ReleaseErrorLog(c);
    var code := ReleaseCodeBuffer(c);
    var names := FreeEntryPoint(c);
    disposed := log + code + names;
  }

  /** The arguments of one D3DCompile call; strings are passed as pointers. */
  datatype D3DCompileRequest = D3DCompileRequest(
    source: seq<Byte>,
    sourcePath: Option<CharPtr>,
    defines: seq<Macro>,
    entryPoint: Option<CharPtr>,
    target: CharPtr,
    flags1: bv32,
    flags2: bv32)

  /** What gpuccCompileBytecodeFxc passes to D3DCompile: the fixed flags, the compiler's defines and shader model. */
  function FxcRequest(compiler: CompilerFxc, source: seq<Byte>, sourcePath: Option<CharPtr>, entryPoint: Option<CharPtr>): (request: D3DCompileRequest)
    ensures request.flags1 == D3DCOMPILE_DEBUG | D3DCOMPILE_WARNINGS_ARE_ERRORS && request.flags2 == 0
    ensures request.target == CharPtr(compiler.Block, compiler.ShaderModel) && request.defines == compiler.DefineArray
    ensures request.source == source && request.sourcePath == sourcePath && request.entryPoint == entryPoint
  {
    D3DCompileRequest(source, sourcePath, compiler.DefineArray, entryPoint,
                      CharPtr(compiler.Block, compiler.ShaderModel),
                      D3DCOMPILE_DEBUG | D3DCOMPILE_WARNINGS_ARE_ERRORS, 0)
  }

  /**
   * gpuccCompileBytecodeFxc: call D3DCompile (the native compiler, or its
   * stub) and keep whatever code and log blobs it produced, whatever its
   * status. The result is COMPILE_FAILED exactly when the HRESULT failed.
   * The compile result, entry point and source path are not touched.
   */
  method CompileBytecodeFxc(c: BytecodeContainer, source: seq<Byte>, sourcePath: Option<CharPtr>, entryPoint: Option<CharPtr>,
                            d3dCompile: D3DCompileRequest -> CompileOutcome) returns (result: GpuccResult)
    requires c.Compiler.Fxc? && c.Compiler.fxc.DispatchTable.Api.D3DCompile != Null
    modifies c`LogBuffer, c`LogBufferSize, c`BytecodeSize, c`BytecodeBuffer, c`CodeBuffer, c`ErrorLog
    ensures var compiler := c.Compiler.fxc;
            var out := CallD3DCompile(compiler.DispatchTable.Api.D3DCompile, d3dCompile(FxcRequest(compiler, source, sourcePath, entryPoint)));
            && result == (if Failed(out.hr) then MakeResult(RESULT_CODE_COMPILE_FAILED) else MakeResult(RESULT_CODE_SUCCESS))
            && c.CodeBuffer == Owned(out.code) && c.ErrorLog == Owned(out.errors)
    ensures c.OutputsMatch()
  {
    var compiler := c.Compiler.fxc;
    var dispatch := compiler.DispatchTable;
    result := MakeResult(RESULT_CODE_SUCCESS);
    var out := CallD3DCompile(dispatch.Api.D3DCompile, d3dCompile(FxcRequest(compiler, source, sourcePath, entryPoint)));
    if Failed(out.hr) {
      result := MakeResult(RESULT_CODE_COMPILE_FAILED);
    }
    if out.code.Some? {
      var bytes := BufferBytes(Com(out.code.value));
      c.BytecodeSize, c.BytecodeBuffer := |bytes|, Some(bytes);
    } else {
      c.BytecodeSize, c.BytecodeBuffer := 0, None;
    }
    c.CodeBuffer := Owned(out.code);
    if out.errors.Some? {
      var bytes := BufferBytes(Com(out.errors.value));
      c.LogBufferSize, c.LogBuffer := |bytes|, Some(bytes);
    } else {
      c.LogBufferSize, c.LogBuffer := 0, None;
    }
    c.ErrorLog := Owned(out.errors);
  }

  /** A stub D3DCompile (library or export missing) makes every FXC compile fail with no output. */
  lemma {:induction false} StubbedCompileFails(compiler: CompilerFxc, request: D3DCompileRequest, native: CompileOutcome)
    requires compiler.DispatchTable.Api.D3DCompile == Stub
    ensures var out := CallD3DCompile(compiler.DispatchTable.Api.D3DCompile, native);
            Failed(out.hr) && out.code == None && out.errors == None
  {
  }

  // ---------------------------------------------------------------------
  // gpuccCreateCompilerFxc
  // ---------------------------------------------------------------------

  /** The shader stages FXC accepts: cs, vs, ps, gs in any letter case. */
  predicate FxcStage(stage: string)
    requires |stage| == 3 && stage[2] == NUL
  {
    StageIs(stage, "cs") || StageIs(stage, "vs") || StageIs(stage, "ps") || StageIs(stage, "gs")
  }

  /** The target-profile checks of gpuccCreateCompilerFxc, in order: present, parses, known stage, shader model 4 or 5. */
  predicate FxcProfileAccepted(profile: Option<CStr>)
  {
    profile.Some?
    && var sm := ExtractDirect3DShaderModel(profile.value);
    sm.Status == 0 && FxcStage(sm.Stage) && 4 <= sm.Major <= 5
  }

  /** Where the strings start: after the compiler record and DefineCount+1 macro slots. */
  function FxcStringsStart(defineCount: nat): nat
  {
    FXC_COMPILER_SIZE + D3D_SHADER_MACRO_SIZE * (defineCount + 1)
  }

  /** nbneed: the record, the macro array with its terminator, and strlen+1 of every string. */
  function FxcSize(config: CompilerInit): nat
    requires config.DefinesReadable()
  {
    FxcStringsStart(config.DefineCount) + Utf8Sizes(ConfigStrings(config))
  }

  /** The size computation reserves exactly the bytes the interned strings occupy, so the carve fills the block. */
  lemma {:induction false} FxcSizeIsLayout(config: CompilerInit)
    requires config.DefinesReadable()
    ensures FxcSize(config) == FxcStringsStart(config.DefineCount) + |Concat(Utf8Images(ConfigStrings(config)))|
  {
    Utf8SizesAreImages(ConfigStrings(config));
  }

  /** Reserving define i adds strlen+1 of its symbol and of its value. */
  lemma {:induction false} FxcSizesStep(config: CompilerInit, i: nat)
    requires config.DefinesReadable() && ValuesPresent(config) && i < config.DefineCount
    ensures var strs := ConfigStrings(config);
            Utf8Sizes(strs[..3 + 2 * i]) == Utf8Sizes(strs[..1 + 2 * i]) + (|config.Symbol(i)| + 1) + (|config.Value(i).value| + 1)
  {
    var strs := ConfigStrings(config);
    ConfigStringsAt(config, i);
    Utf8SizesStep(strs, 1 + 2 * i);
    Utf8SizesStep(strs, 2 + 2 * i);
  }

  /** Reserving the profile alone takes strlen+1 bytes. */
  lemma {:induction false} FxcSizesFirst(config: CompilerInit)
    requires config.DefinesReadable() && config.TargetProfile.Some?
    ensures Utf8Sizes(ConfigStrings(config)[..1]) == |config.TargetProfile.value| + 1
  {
    var strs := ConfigStrings(config);
    Utf8SizesStep(strs, 0);
    assert strs[..0] == [];
  }

  /** Reserving all 1+2n strings is FxcSize. */
  lemma {:induction false} FxcSizesAll(config: CompilerInit)
    requires config.DefinesReadable()
    ensures FxcSize(config) == FxcStringsStart(config.DefineCount) + Utf8Sizes(ConfigStrings(config)[..1 + 2 * config.DefineCount])
  {
    assert ConfigStrings(config)[..1 + 2 * config.DefineCount] == ConfigStrings(config);
  }

  /** The size loop of gpuccCreateCompilerFxc. */
  method FxcBytesNeeded(config: CompilerInit) returns (nbneed: nat)
    requires config.DefinesReadable() && ValuesPresent(config) && config.TargetProfile.Some?
    ensures nbneed == FxcSize(config)
  {
    var n := config.DefineCount;
    nbneed := 0;
    nbneed := nbneed + FXC_COMPILER_SIZE;
    nbneed := nbneed + D3D_SHADER_MACRO_SIZE * (n + 1);
    nbneed := nbneed + |config.TargetProfile.value| + 1;
    FxcSizesFirst(config);
    var i := 0;
    while i < n
      invariant 0 <= i <= n
      invariant nbneed == FxcStringsStart(n) + Utf8Sizes(ConfigStrings(config)[..1 + 2 * i])
    {
      FxcSizesStep(config, i);
      nbneed := nbneed + |config.Symbol(i)| + 1;
      nbneed := nbneed + |config.Value(i).value| + 1;
      i := i + 1;
    }
    FxcSizesAll(config);
  }

  /** The macro for define k: pointers to parts 1+2k (symbol) and 2+2k (value) of the arena at `start`. */
  function MacroFor(start: nat, parts: seq<seq<Byte>>, k: nat): Macro
    requires 2 + 2 * k < |parts|
  {
    Macro(Some(start + Offset(parts, 1 + 2 * k)), Some(start + Offset(parts, 2 + 2 * k)))
  }

  /** The macros of the first n defines. */
  function MacroList(start: nat, parts: seq<seq<Byte>>, n: nat): (macros: seq<Macro>)
    requires 2 * n < |parts|
    ensures |macros| == n
  {
    if n == 0 then [] else MacroList(start, parts, n - 1) + [MacroFor(start, parts, n - 1)]
  }

  /** The macro array: one entry per define, then a null pair ends it. */
  predicate MacrosPointInto(macros: seq<Macro>, start: nat, parts: seq<seq<Byte>>, n: nat)
  {
    |parts| == 1 + 2 * n && macros == MacroList(start, parts, n) + [Macro(None, None)]
  }

  /** The layout gpuccCreateCompilerFxc leaves in its block. */
  predicate FxcLayout(block: seq<Byte>, config: CompilerInit, shaderModel: nat, macros: seq<Macro>)
    requires config.DefinesReadable()
  {
    var start := FxcStringsStart(config.DefineCount);
    && Interned(block, start, ConfigStrings(config))
    && shaderModel == start
    && MacrosPointInto(macros, start, Utf8Images(ConfigStrings(config)), config.DefineCount)
  }

  /** Entry k of the first n macros is define k's. */
  lemma {:induction false} MacroListAt(start: nat, parts: seq<seq<Byte>>, n: nat, k: nat)
    requires 2 * n < |parts| && k < n
    ensures MacroList(start, parts, n)[k] == MacroFor(start, parts, k)
    decreases n
  {
    if k < n - 1 {
      MacroListAt(start, parts, n - 1, k);
    }
  }

  /** Entry k of the macro array is define k's. */
  lemma {:induction false} MacroEntry(start: nat, parts: seq<seq<Byte>>, n: nat, macros: seq<Macro>, k: nat)
    requires MacrosPointInto(macros, start, parts, n) && k < n
    ensures macros[k].Name == Some(start + Offset(parts, 1 + 2 * k))
    ensures macros[k].Definition == Some(start + Offset(parts, 2 + 2 * k))
  {
    MacroListAt(start, parts, n, k);
    assert macros[k] == MacroList(start, parts, n)[k];
  }

  /** Reading an arena through a macro array gives back the strings it points at. */
  lemma {:induction false} MacroReadsBack(block: seq<Byte>, start: nat, xs: seq<Option<CStr>>, n: nat, macros: seq<Macro>, k: nat)
    requires Interned(block, start, xs) && MacrosPointInto(macros, start, Utf8Images(xs), n) && k < n
    ensures macros[k].Name.Some? && CStrAt(block, macros[k].Name.value) == Str(xs[1 + 2 * k])
    ensures macros[k].Definition.Some? && CStrAt(block, macros[k].Definition.value) == Str(xs[2 + 2 * k])
  {
    MacroEntry(start, Utf8Images(xs), n, macros, k);
    InternedStringAt(block, start, xs, 1 + 2 * k, macros[k].Name.value);
    InternedStringAt(block, start, xs, 2 + 2 * k, macros[k].Definition.value);
  }


  /** Reading the block through the shader-model pointer gives back the target profile. */
  lemma {:induction false} FxcProfileReadsBack(block: seq<Byte>, config: CompilerInit, shaderModel: nat, macros: seq<Macro>)
    requires config.DefinesReadable() && FxcLayout(block, config, shaderModel, macros)
    ensures CStrAt(block, shaderModel) == Str(config.TargetProfile)
  {
    var strs := ConfigStrings(config);
    InternedStringAt(block, shaderModel, strs, 0, shaderModel);
  }

  /** Reading the block through macro k gives back define k's symbol and value. */
  lemma {:induction false} FxcMacroReadsBack(block: seq<Byte>, config: CompilerInit, shaderModel: nat, macros: seq<Macro>, k: nat)
    requires config.DefinesReadable() && FxcLayout(block, config, shaderModel, macros) && k < config.DefineCount
    ensures macros[k].Name.Some? && CStrAt(block, macros[k].Name.value) == config.Symbol(k)
    ensures macros[k].Definition.Some? && CStrAt(block, macros[k].Definition.value) == Str(config.Value(k))
  {
    ConfigStringsAt(config, k);
    MacroReadsBack(block, FxcStringsStart(config.DefineCount), ConfigStrings(config), config.DefineCount, macros, k);
  }

  /** One iteration of the interning loop: define i's symbol, then its value, and the macro pointing at both. */
  method InternDefine(block: array<Byte>, start: nat, ptr: nat, xs: seq<Option<CStr>>, i: nat, ghost parts: seq<seq<Byte>>)
    returns (m: Macro, next: nat)
    requires 2 + 2 * i < |xs| == |parts|
    requires parts[1 + 2 * i] == Utf8Image(xs[1 + 2 * i]) && parts[2 + 2 * i] == Utf8Image(xs[2 + 2 * i])
    requires Carved(block[..], start, ptr, parts, 1 + 2 * i)
    modifies block
    ensures m == MacroFor(start, parts, i) && Carved(block[..], start, next, parts, 1 + 2 * (i + 1))
  {
    var name, definition, p;
    var symbolAt, valueAt := 1 + 2 * i, 2 + 2 * i;
    ghost var afterPair := 1 + 2 * (i + 1);
    name, p := InternNext(block, start, ptr, xs, symbolAt, valueAt, parts);
    definition, next := InternNext(block, start, p, xs, valueAt, afterPair, parts);
    m := Macro(Some(name), Some(definition));
  }

  /** The images of define i's symbol and value, as the interning loop needs them. */
  lemma {:induction false} PairImagesAt(xs: seq<Option<CStr>>, parts: seq<seq<Byte>>, i: nat)
    requires 2 + 2 * i < |xs| && parts == Utf8Images(xs)
    ensures parts[1 + 2 * i] == Utf8Image(xs[1 + 2 * i]) && parts[2 + 2 * i] == Utf8Image(xs[2 + 2 * i])
  {
    Utf8ImagesAt(xs, 1 + 2 * i);
    Utf8ImagesAt(xs, 2 + 2 * i);
  }

  /** The interning loop over n symbol/value pairs that follow the profile at `start`. */
  method InternPairs(block: array<Byte>, start: nat, ptr0: nat, xs: seq<Option<CStr>>, n: nat, ghost parts: seq<seq<Byte>>)
    returns (macros: seq<Macro>, ptr: nat)
    requires |xs| == 1 + 2 * n && parts == Utf8Images(xs)
    requires Carved(block[..], start, ptr0, parts, 1)
    modifies block
    ensures Carved(block[..], start, ptr, parts, 1 + 2 * n) && macros == MacroList(start, parts, n)
  {
    ptr := ptr0;
    macros := [];
    var i := 0;
    while i < n
      invariant 0 <= i <= n && macros == MacroList(start, parts, i)
      invariant Carved(block[..], start, ptr, parts, 1 + 2 * i)
    {
      var m;
      m, ptr := InternPair(block, start, ptr, xs, i, parts, macros);
      macros := macros + [m];
      i := i + 1;
    }
  }

  /** Define i of the whole list: its images are the parts the loop expects, and its macro extends the list. */
  method InternPair(block: array<Byte>, start: nat, ptr: nat, xs: seq<Option<CStr>>, i: nat, ghost parts: seq<seq<Byte>>,
                    ghost before: seq<Macro>)
    returns (m: Macro, next: nat)
    requires 2 + 2 * i < |xs| && parts == Utf8Images(xs)
    requires Carved(block[..], start, ptr, parts, 1 + 2 * i) && before == MacroList(start, parts, i)
    modifies block
    ensures Carved(block[..], start, next, parts, 1 + 2 * (i + 1))
    ensures before + [m] == MacroList(start, parts, i + 1)
  {
    PairImagesAt(xs, parts, i);
    m, next := InternDefine(block, start, ptr, xs, i, parts);
  }

  /** Intern a profile followed by n symbol/value pairs at `start`, and build the macro array over them. */
  method InternMacros(block: array<Byte>, start: nat, xs: seq<Option<CStr>>, n: nat) returns (first: nat, macros: seq<Macro>)
    requires |xs| == 1 + 2 * n && start + |Concat(Utf8Images(xs))| <= block.Length
    modifies block
    ensures first == start && Interned(block[..], start, xs) && MacrosPointInto(macros, start, Utf8Images(xs), n)
  {
    ghost var parts := Utf8Images(xs);
    Utf8ImagesAt(xs, 0);
    var ptr;
    first, ptr := InternNext(block, start, start, xs, 0, 1, parts);
    macros, ptr := InternPairs(block, start, ptr, xs, n, parts);
    macros := macros + [Macro(None, None)];
    InternedAll(block[..], start, ptr, xs);
  }

  /** The interning step of gpuccCreateCompilerFxc, writing into a block of nbneed bytes. */
  method InternConfigStrings(block: array<Byte>, config: CompilerInit) returns (shaderModel: nat, macros: seq<Macro>)
    requires config.DefinesReadable() && block.Length == FxcSize(config)
    modifies block
    ensures FxcLayout(block[..], config, shaderModel, macros)
  {
    FxcSizeIsLayout(config);
    shaderModel, macros := InternMacros(block, FxcStringsStart(config.DefineCount), ConfigStrings(config), config.DefineCount);
  }

  /**
   * gpuccCreateCompilerFxc. The profile is checked first (null, does not
   * parse, stage not cs/vs/ps/gs, shader model below 4 or above 5: each
   * records INVALID_TARGET_PROFILE and gives null before anything is
   * allocated); then one block of nbneed bytes is allocated (a failure
   * records OUT_OF_HOST_MEMORY); then the profile and the defines are
   * interned and the record is filled in.
   */
  method CreateCompilerFxc(config: CompilerInit, dispatch: D3DCompilerDispatch, tctx: ThreadContext, allocOk: bool)
    returns (fxc: CompilerFxc?)
    requires config.DefinesReadable() && ValuesPresent(config)
    modifies tctx
    ensures !FxcProfileAccepted(config.TargetProfile) ==>
              fxc == null && tctx.LastResult == MakeResult(RESULT_CODE_INVALID_TARGET_PROFILE)
    ensures FxcProfileAccepted(config.TargetProfile) && !allocOk ==>
              fxc == null && tctx.LastResult == MakeResult(RESULT_CODE_OUT_OF_HOST_MEMORY)
    ensures FxcProfileAccepted(config.TargetProfile) && allocOk ==>
              fxc != null && fresh(fxc) && fresh(fxc.Block) && tctx.LastResult == old(tctx.LastResult)
    ensures fxc != null ==>
              && fxc.Block.Length == FxcSize(config)
              && FxcLayout(fxc.Block[..], config, fxc.ShaderModel, fxc.DefineArray)
              && fxc.CompilerType == COMPILER_TYPE_FXC && fxc.BytecodeType == BYTECODE_TYPE_DXBC
              && fxc.DispatchTable == dispatch && fxc.DefineCount == config.DefineCount
              && fxc.TargetRuntime == config.TargetRuntime
  {
    if config.TargetProfile.None? {
      var _ := tctx.SetLastResult(MakeResult(RESULT_CODE_INVALID_TARGET_PROFILE));
      return null;
    }
    var sm := ExtractDirect3DShaderModel(config.TargetProfile.value);
    if sm.Status != 0 || !FxcStage(sm.Stage) || sm.Major < 4 || sm.Major > 5 {
      var _ := tctx.SetLastResult(MakeResult(RESULT_CODE_INVALID_TARGET_PROFILE));
      return null;
    }
    var nbneed := FxcBytesNeeded(config);
    if !allocOk {
      var _ := tctx.SetLastResult(MakeResult(RESULT_CODE_OUT_OF_HOST_MEMORY));
      return null;
    }
    var base := new Byte[nbneed];
    var shaderModel, macros := InternConfigStrings(base, config);
    fxc := new CompilerFxc(base, dispatch, shaderModel, macros, config.DefineCount, config.TargetRuntime);
  }
}
