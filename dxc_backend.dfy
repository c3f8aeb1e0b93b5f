/**
 * The DXC back end: DXIL and SPIR-V bytecode containers, compilation
 * through the IDxcLibrary and IDxcCompiler instances a compiler record
 * holds, and creation of a DXC compiler record: its strings converted to
 * UTF-16 and interned in one block, followed by a fixed argument array that
 * the compiler flags fill.
 */
module DxcBackend {
  import opened Wrappers
  import opened Gpucc
  import opened Loader
  import opened Internal
  import opened Objects
  import opened DxcCompilerApi

  // ---------------------------------------------------------------------
  // Bytecode containers
  // ---------------------------------------------------------------------

  /** gpuccCreateProgramBytecodeDxc */
  method CreateProgramBytecodeDxc(compiler: CompilerDxc, tctx: ThreadContext, allocOk: bool) returns (c: BytecodeContainer?)
    modifies tctx
    ensures !allocOk ==> c == null && tctx.LastResult == MakeResult(RESULT_CODE_OUT_OF_HOST_MEMORY)
    ensures allocOk ==> c != null && fresh(c) && tctx.LastResult == old(tctx.LastResult)
    ensures allocOk ==> c.Compiler == Dxc(compiler) && c.Cleared() && BytecodeContainerIsEmpty(c)
  {
    c := AllocateContainer(Dxc(compiler), tctx, allocOk);
  }

  /**
   * gpuccDeleteProgramBytecodeDxc: release the code blob, then the log
   * blob, then free the entry-point block; each step clears its fields and
   * is skipped when there is nothing to give back. The container itself is
   * not freed.
   */
  method DeleteProgramBytecodeDxc(c: BytecodeContainer) returns (disposed: seq<Disposal>)
    modifies c`ErrorLog, c`LogBuffer, c`LogBufferSize, c`CodeBuffer, c`BytecodeBuffer, c`BytecodeSize, c`EntryPoint, c`SourcePath
    ensures disposed ==
      (if old(c.CodeBuffer).Some? then [Dispose(old(c.CodeBuffer).value)] else [])
      + (if old(c.ErrorLog).Some? then [Dispose(old(c.ErrorLog).value)] else [])
      + (if old(c.EntryPoint).Some? then [Free(old(c.EntryPoint).value.block)] else [])
    ensures old(Consistent(c)) ==> c.Cleared()
    ensures old(c.Cleared()) ==> disposed == [] && c.Cleared()
  {
    var code := ReleaseCodeBuffer(c);
    var log := ReleaseErrorLog(c);
    var names := FreeEntryPoint(c);
    disposed := code + log + names;
  }

  // ---------------------------------------------------------------------
  // gpuccCompileBytecodeDxc
  // ---------------------------------------------------------------------

  /** 2^32: the source size is passed to CreateBlobWithEncodingFromPinned as a UINT32. */
  const UINT32_LIMIT: nat := 0x1_0000_0000

  /** The bytes the pinned source blob covers: the size is truncated to 32 bits. */
  function Pinned(source: seq<Byte>): (pinned: seq<Byte>)
    ensures |pinned| == |source| % UINT32_LIMIT && pinned <= source
    ensures |source| < UINT32_LIMIT ==> pinned == source
  {
    source[..|source| % UINT32_LIMIT]
  }

  /** The arguments of one IDxcCompiler::Compile call. */
  datatype DxcCompileRequest = DxcCompileRequest(
    source: seq<Byte>,
    sourcePath: WStr,
    entryPoint: WStr,
    target: CharPtr,
    arguments: seq<DxcArg>,
    defines: seq<DxcDefine>)

  /**
   * What the calls on a non-null IDxcOperationResult report: GetErrorBuffer's
   * HRESULT, then GetBlobAsUtf8's HRESULT and the log blob it left; GetStatus's
   * HRESULT and the status it wrote; GetResult's HRESULT and the code blob it left.
   */
  datatype DxcOperation = DxcOperation(
    errorBufferHr: int,
    utf8Hr: int,
    utf8Log: Option<Native>,
    statusHr: int,
    status: int,
    resultHr: int,
    code: Option<Native>)

  /** What IDxcCompiler::Compile returns: its HRESULT and the operation result it wrote, if any. */
  datatype DxcCompileOutcome = DxcCompileOutcome(hr: int, operation: Option<DxcOperation>)

  /** The log blob the container keeps: GetBlobAsUtf8 is only reached when GetErrorBuffer succeeded. */
  function DxcLog(op: DxcOperation): (log: Option<Native>)
    ensures Failed(op.errorBufferHr) ==> log == None
    ensures !Failed(op.errorBufferHr) ==> log == op.utf8Log
  {
    if Failed(op.errorBufferHr) then None else op.utf8Log
  }

  /** The compiler reported that it ran and rejected the program. */
  predicate DxcRejected(op: DxcOperation)
  {
    !Failed(op.statusHr) && Failed(op.status)
  }

  /** The code blob the container keeps: GetResult is only reached when the status says the compile succeeded. */
  function DxcCode(op: DxcOperation): (code: Option<Native>)
    ensures code.Some? ==> !Failed(op.statusHr) && !Failed(op.status) && code == op.code
    ensures !Failed(op.statusHr) && !Failed(op.status) ==> code == op.code
  {
    if !Failed(op.statusHr) && !Failed(op.status) then op.code else None
  }

  /**
   * When gpuccCompileBytecodeDxc gives COMPILE_FAILED: a UTF-16 conversion
   * failed, the source blob could not be created, or the compiler ran and
   * reported failure. A missing operation result, or a status that could
   * not be read, is not a failure.
   */
  predicate DxcCompileFails(widePath: Option<WStr>, wideEntry: Option<WStr>, pinHr: int, out: DxcCompileOutcome)
  {
    widePath.None? || wideEntry.None? || Failed(pinHr)
    || (out.operation.Some? && DxcRejected(out.operation.value))
  }

  /** The last result the operation-result branch leaves: the last failed call's HRESULT, if any. */
  function DxcOperationLastResult(op: DxcOperation, before: GpuccResult): (r: GpuccResult)
    ensures Failed(op.statusHr) ==> r == MakeResultHResult(op.statusHr)
    ensures !Failed(op.statusHr) && !Failed(op.status) && Failed(op.resultHr) ==> r == MakeResultHResult(op.resultHr)
    ensures !Failed(op.statusHr) && (Failed(op.status) || !Failed(op.resultHr)) && Failed(op.errorBufferHr)
            ==> r == MakeResultHResult(op.errorBufferHr)
    ensures !Failed(op.statusHr) && (Failed(op.status) || !Failed(op.resultHr)) && !Failed(op.errorBufferHr) && Failed(op.utf8Hr)
            ==> r == MakeResultHResult(op.utf8Hr)
    ensures !Failed(op.errorBufferHr) && !Failed(op.utf8Hr) && !Failed(op.statusHr) && (Failed(op.status) || !Failed(op.resultHr))
            ==> r == before
  {
    if Failed(op.statusHr) then MakeResultHResult(op.statusHr)
    else if !Failed(op.status) && Failed(op.resultHr) then MakeResultHResult(op.resultHr)
    else if Failed(op.errorBufferHr) then MakeResultHResult(op.errorBufferHr)
    else if Failed(op.utf8Hr) then MakeResultHResult(op.utf8Hr)
    else before
  }

  /** A null operation result is reported as SUCCESS once the inputs were converted and pinned. */
  lemma {:induction false} NullOperationSucceeds(widePath: Option<WStr>, wideEntry: Option<WStr>, pinHr: int, out: DxcCompileOutcome)
    requires widePath.Some? && wideEntry.Some? && !Failed(pinHr) && out.operation.None?
    ensures !DxcCompileFails(widePath, wideEntry, pinHr, out)
  {
  }

  /** A status that cannot be read does not fail the compile either, and no code is kept. */
  lemma {:induction false} UnreadableStatusSucceeds(widePath: Option<WStr>, wideEntry: Option<WStr>, pinHr: int, out: DxcCompileOutcome)
    requires widePath.Some? && wideEntry.Some? && !Failed(pinHr)
    requires out.operation.Some? && Failed(out.operation.value.statusHr)
    ensures !DxcCompileFails(widePath, wideEntry, pinHr, out) && DxcCode(out.operation.value) == None
  {
  }

  /** The request gpuccCompileBytecodeDxc makes: the pinned source, the converted names, the compiler's profile, arguments and defines. */
  function DxcRequest(compiler: CompilerDxc, source: seq<Byte>, sourcePath: WStr, entryPoint: WStr): (request: DxcCompileRequest)
    requires compiler.Valid()
    reads compiler, compiler.ClArguments
    ensures request.source == Pinned(source) && request.sourcePath == sourcePath && request.entryPoint == entryPoint
    ensures request.target == CharPtr(compiler.Block, compiler.ShaderModel)
    ensures request.arguments == compiler.Args() && request.defines == compiler.DefineArray
  {
    DxcCompileRequest(Pinned(source), sourcePath, entryPoint, CharPtr(compiler.Block, compiler.ShaderModel),
                      compiler.Args(), compiler.DefineArray)
  }

  /**
   * gpuccCompileBytecodeDxc. The container's source path and entry point are
   * converted to UTF-16 (widePath, wideEntry: what the conversion gave, None
   * for a failure; pathFailure, entryFailure: the last result the converter
   * records when it fails on that string), the source is pinned in a blob (pin gives the HRESULT),
   * and the compiler runs. Only a non-null operation result touches the
   * container: the code blob and the UTF-8 log blob it yields are kept,
   * whatever the status. Each failed COM call records its HRESULT as the
   * last result.
   */
  method CompileBytecodeDxc(c: BytecodeContainer, source: seq<Byte>, tctx: ThreadContext,
                            widePath: Option<WStr>, wideEntry: Option<WStr>, pathFailure: GpuccResult, entryFailure: GpuccResult,
                            pin: seq<Byte> -> int,
                            dxcCompile: DxcCompileRequest -> DxcCompileOutcome) returns (result: GpuccResult)
    requires c.Compiler.Dxc? && c.Compiler.dxc.Valid()
    modifies c`LogBuffer, c`LogBufferSize, c`BytecodeSize, c`BytecodeBuffer, c`CodeBuffer, c`ErrorLog, tctx
    ensures var pinHr := pin(Pinned(source));
            var out := if widePath.Some? && wideEntry.Some? && !Failed(pinHr)
                       then dxcCompile(DxcRequest(c.Compiler.dxc, source, widePath.value, wideEntry.value))
                       else DxcCompileOutcome(0, None);
            && result == (if DxcCompileFails(widePath, wideEntry, pinHr, out) then MakeResult(RESULT_CODE_COMPILE_FAILED) else MakeResult(RESULT_CODE_SUCCESS))
            && (widePath.None? ==> tctx.LastResult == pathFailure)
            && (widePath.Some? && wideEntry.None? ==> tctx.LastResult == entryFailure)
            && (widePath.Some? && wideEntry.Some? && Failed(pinHr) ==> tctx.LastResult == MakeResultHResult(pinHr))
            && (widePath.Some? && wideEntry.Some? && !Failed(pinHr) && out.operation.None? ==> tctx.LastResult == MakeResultHResult(out.hr))
            && (out.operation.None? ==> unchanged(c))
            && (out.operation.Some? ==>
                  && tctx.LastResult == DxcOperationLastResult(out.operation.value, old(tctx.LastResult))
                  && c.CodeBuffer == Owned(DxcCode(out.operation.value))
                  && c.ErrorLog == Owned(DxcLog(out.operation.value))
                  && c.OutputsMatch())
  {
    if widePath.None? {
      var _ := tctx.SetLastResult(pathFailure);
      return MakeResult(RESULT_CODE_COMPILE_FAILED);
    }
    if wideEntry.None? {
      var _ := tctx.SetLastResult(entryFailure);
      return MakeResult(RESULT_CODE_COMPILE_FAILED);
    }
    var pinHr := pin(Pinned(source));
    if Failed(pinHr) {
      var _ := tctx.SetLastResult(MakeResultHResult(pinHr));
      return MakeResult(RESULT_CODE_COMPILE_FAILED);
    }
    result := MakeResult(RESULT_CODE_SUCCESS);
    var out := dxcCompile(DxcRequest(c.Compiler.dxc, source, widePath.value, wideEntry.value));
    if out.operation.None? {
      var _ := tctx.SetLastResult(MakeResultHResult(out.hr));
      return;
    }
    var op := out.operation.value;
    var log: Option<Native> := None;
    if !Failed(op.errorBufferHr) {
      log := op.utf8Log;
      if Failed(op.utf8Hr) {
        var _ := tctx.SetLastResult(MakeResultHResult(op.utf8Hr));
      }
    } else {
      var _ := tctx.SetLastResult(MakeResultHResult(op.errorBufferHr));
    }
    var code: Option<Native> := None;
    if !Failed(op.statusHr) {
      if !Failed(op.status) {
        result := MakeResult(RESULT_CODE_SUCCESS);
        code := op.code;
        if Failed(op.resultHr) {
          var _ := tctx.SetLastResult(MakeResultHResult(op.resultHr));
        }
      } else {
        result := MakeResult(RESULT_CODE_COMPILE_FAILED);
      }
    } else {
      var _ := tctx.SetLastResult(MakeResultHResult(op.statusHr));
    }
    KeepOutputs(c, code, log);
  }

  /** The tail of the operation-result branch: point the common fields at the blobs and take them over. */
  method KeepOutputs(c: BytecodeContainer, code: Option<Native>, log: Option<Native>)
    modifies c`LogBuffer, c`LogBufferSize, c`BytecodeSize, c`BytecodeBuffer, c`CodeBuffer, c`ErrorLog
    ensures c.CodeBuffer == Owned(code) && c.ErrorLog == Owned(log) && c.OutputsMatch()
  {
    if code.Some? {
      var bytes := BufferBytes(Com(code.value));
      c.BytecodeSize, c.BytecodeBuffer := |bytes|, Some(bytes);
    } else {
      c.BytecodeSize, c.BytecodeBuffer := 0, None;
    }
    c.CodeBuffer := Owned(code);
    if log.Some? {
      var bytes := BufferBytes(Com(log.value));
      c.LogBufferSize, c.LogBuffer := |bytes|, Some(bytes);
    } else {
      c.LogBufferSize, c.LogBuffer := 0, None;
    }
    c.ErrorLog := Owned(log);
  }

  /** gpuccCleanupCompilerDxc: release the compiler instance, then the library instance, nulling each. */
  method CleanupCompilerDxc(dxc: CompilerDxc) returns (disposed: seq<Disposal>)
    modifies dxc`DxcCompiler, dxc`DxcLibrary
    ensures disposed ==
      (if old(dxc.DxcCompiler).Some? then [Dispose(Com(old(dxc.DxcCompiler).value))] else [])
      + (if old(dxc.DxcLibrary).Some? then [Dispose(Com(old(dxc.DxcLibrary).value))] else [])
    ensures dxc.DxcCompiler == None && dxc.DxcLibrary == None
  {
    disposed := [];
    if dxc.DxcCompiler.Some? {
      var cc := dxc.DxcCompiler.value;
      dxc.DxcCompiler := None;
      disposed := disposed + [Dispose(Com(cc))];
    }
    if dxc.DxcLibrary.Some? {
      var lib := dxc.DxcLibrary.value;
      dxc.DxcLibrary := None;
      disposed := disposed + [Dispose(Com(lib))];
    }
  }

  // ---------------------------------------------------------------------
  // gpuccCreateCompilerDxc: the target profile and the UTF-16 strings
  // ---------------------------------------------------------------------

  /** The shader stages DXC accepts: cs, vs, ps, gs, ds, hs in any letter case. */
  predicate DxcStage(stage: string)
    requires |stage| == 3 && stage[2] == NUL
  {
    StageIs(stage, "cs") || StageIs(stage, "vs") || StageIs(stage, "ps")
    || StageIs(stage, "gs") || StageIs(stage, "ds") || StageIs(stage, "hs")
  }

  /** The target-profile checks of gpuccCreateCompilerDxc, in order: present, parses, known stage, shader model 4 or later. */
  predicate DxcProfileAccepted(profile: Option<CStr>)
  {
    profile.Some?
    && var sm := ExtractDirect3DShaderModel(profile.value);
    sm.Status == 0 && DxcStage(sm.Stage) && sm.Major >= 4
  }

  /**
   * The UTF-16 forms of narrow strings under a conversion (None where the
   * string is missing or does not convert).
   */
  function WideStrings(xs: seq<Option<CStr>>, utf16: CStr -> Option<WStr>): (ws: seq<Option<WStr>>)
    ensures |ws| == |xs|
  {
    seq(|xs|, i requires 0 <= i < |xs| => if xs[i].Some? then utf16(xs[i].value) else None)
  }

  /** Wide string k is the conversion of narrow string k. */
  lemma {:induction false} WideStringsAt(xs: seq<Option<CStr>>, utf16: CStr -> Option<WStr>, k: nat)
    requires k < |xs| && xs[k].Some?
    ensures WideStrings(xs, utf16)[k] == utf16(xs[k].value)
  {
  }

  /** A string that is present and converts to UTF-16. */
  predicate Converts(x: Option<CStr>, utf16: CStr -> Option<WStr>)
  {
    x.Some? && utf16(x.value).Some?
  }

  /** Every string of the list converts. */
  predicate AllConvert(xs: seq<Option<CStr>>, utf16: CStr -> Option<WStr>)
  {
    forall k | 0 <= k < |xs| :: Converts(xs[k], utf16)
  }

  /** Where the strings start: after the compiler record and DefineCount DxcDefine slots. */
  function DxcStringsStart(defineCount: nat): nat
  {
    DXC_COMPILER_SIZE + DXC_DEFINE_SIZE * defineCount
  }

  /** The images gpuccInternUtf8ToUtf16 writes for the profile and every define, in order. */
  function DxcImages(config: CompilerInit, utf16: CStr -> Option<WStr>): (parts: seq<seq<Byte>>)
    requires config.DefinesReadable()
    ensures |parts| == 1 + 2 * config.DefineCount
  {
    Utf16Images(WideStrings(ConfigStrings(config), utf16))
  }

  /** nbneed: the record, the define array, the argument array and the UTF-16 byte count of every string. */
  function DxcSize(config: CompilerInit, utf16: CStr -> Option<WStr>): nat
    requires config.DefinesReadable()
  {
    DxcStringsStart(config.DefineCount) + PTR_SIZE * DXC_MAX_ARGS + |Concat(DxcImages(config, utf16))|
  }

  /** What the size pass of gpuccCreateCompilerDxc ends with. */
  datatype Sizing = Sized(nbneed: nat) | ProfileUnconvertible | DefineUnconvertible

  /** The image of string k of the configuration, under the conversion. */
  lemma {:induction false} DxcImageAt(config: CompilerInit, utf16: CStr -> Option<WStr>, k: nat)
    requires config.DefinesReadable() && k < 1 + 2 * config.DefineCount
    requires ConfigStrings(config)[k].Some?
    ensures DxcImages(config, utf16)[k] == Utf16Image(utf16(ConfigStrings(config)[k].value))
  {
    var strs := ConfigStrings(config);
    WideStringsAt(strs, utf16, k);
    Utf16ImagesAt(WideStrings(strs, utf16), k);
  }

  /** Reserving every string reaches DxcSize. */
  lemma {:induction false} DxcSizeIsOffset(config: CompilerInit, utf16: CStr -> Option<WStr>)
    requires config.DefinesReadable()
    ensures DxcSize(config, utf16) == DxcStringsStart(config.DefineCount) + PTR_SIZE * DXC_MAX_ARGS + Offset(DxcImages(config, utf16), 1 + 2 * config.DefineCount)
  {
    var parts := DxcImages(config, utf16);
    OffsetIsLength(parts, |parts|);
  }

  /** Reserving define i adds the byte counts of its symbol and of its value. */
  lemma {:induction false} DxcSizesStep(config: CompilerInit, utf16: CStr -> Option<WStr>, i: nat, at: nat, after: nat)
    requires config.DefinesReadable() && ValuesPresent(config) && i < config.DefineCount
    requires at == 1 + 2 * i && after == at + 2
    ensures Offset(DxcImages(config, utf16), after) ==
              Offset(DxcImages(config, utf16), at)
              + |Utf16Image(utf16(config.Symbol(i)))| + |Utf16Image(utf16(config.Value(i).value))|
  {
    ConfigStringsAt(config, i);
    DxcImageAt(config, utf16, at);
    DxcImageAt(config, utf16, at + 1);
    OffsetStep2(DxcImages(config, utf16), at, after);
  }

  /** Reserving the profile alone takes its byte count. */
  lemma {:induction false} DxcSizesFirst(config: CompilerInit, utf16: CStr -> Option<WStr>)
    requires config.DefinesReadable() && config.TargetProfile.Some?
    ensures Offset(DxcImages(config, utf16), 1) == |Utf16Image(utf16(config.TargetProfile.value))|
  {
    DxcImageAt(config, utf16, 0);
  }

  /** A symbol or value of define i that does not convert means not every string converts. */
  lemma {:induction false} DefineFailsConversion(config: CompilerInit, utf16: CStr -> Option<WStr>, i: nat, k: nat)
    requires config.DefinesReadable() && ValuesPresent(config) && i < config.DefineCount
    requires (k == 1 + 2 * i && utf16(config.Symbol(i)).None?) || (k == 2 + 2 * i && utf16(config.Value(i).value).None?)
    ensures !AllConvert(ConfigStrings(config), utf16)
  {
    ConfigStringsAt(config, i);
    NotAllConvert(ConfigStrings(config), utf16, k);
  }

  /** A conversion that fails for string k means not every string converts. */
  lemma {:induction false} NotAllConvert(xs: seq<Option<CStr>>, utf16: CStr -> Option<WStr>, k: nat)
    requires k < |xs| && xs[k].Some? && utf16(xs[k].value).None?
    ensures !AllConvert(xs, utf16)
  {
    assert !Converts(xs[k], utf16);
  }

  /** The profile alone converts once its conversion succeeds. */
  lemma {:induction false} ConvertsFirst(config: CompilerInit, utf16: CStr -> Option<WStr>)
    requires config.DefinesReadable() && config.TargetProfile.Some? && utf16(config.TargetProfile.value).Some?
    ensures AllConvert(ConfigStrings(config)[..1], utf16)
  {
    var strs := ConfigStrings(config);
    assert strs[..1][0] == strs[0];
  }

  /** Converting define i's symbol and value extends the converted prefix by two. */
  lemma {:induction false} ConvertsThrough(config: CompilerInit, utf16: CStr -> Option<WStr>, i: nat, at: nat, after: nat)
    requires config.DefinesReadable() && ValuesPresent(config) && i < config.DefineCount
    requires at == 1 + 2 * i && after == at + 2
    requires AllConvert(ConfigStrings(config)[..at], utf16)
    requires utf16(config.Symbol(i)).Some? && utf16(config.Value(i).value).Some?
    ensures AllConvert(ConfigStrings(config)[..after], utf16)
  {
    var strs := ConfigStrings(config);
    ConfigStringsAt(config, i);
    forall k | 0 <= k < after
      ensures Converts(strs[..after][k], utf16)
    {
      if k < at {
        assert strs[..after][k] == strs[..at][k];
      }
    }
  }

  /**
   * The size pass of gpuccCreateCompilerDxc: the fixed parts, then the
   * UTF-16 byte count of the profile and of each symbol and value in turn,
   * stopping at the first string that does not convert.
   */
  method DxcBytesNeeded(config: CompilerInit, utf16: CStr -> Option<WStr>) returns (sizing: Sizing)
    requires config.DefinesReadable() && ValuesPresent(config) && config.TargetProfile.Some?
    ensures sizing == ProfileUnconvertible <==> utf16(config.TargetProfile.value).None?
    ensures sizing.Sized? <==> AllConvert(ConfigStrings(config), utf16)
    ensures sizing.Sized? ==> sizing.nbneed == DxcSize(config, utf16)
  {
    var n := config.DefineCount;
    ghost var strs := ConfigStrings(config);
    ghost var parts := DxcImages(config, utf16);
    var nbneed := 0;
    nbneed := nbneed + DXC_COMPILER_SIZE;
    nbneed := nbneed + DXC_DEFINE_SIZE * n;
    nbneed := nbneed + PTR_SIZE * DXC_MAX_ARGS;
    var profile := utf16(config.TargetProfile.value);
    if profile.None? {
      NotAllConvert(strs, utf16, 0);
      return ProfileUnconvertible;
    }
    nbneed := nbneed + 2 * |profile.value| + 2;
    DxcSizesFirst(config, utf16);
    ConvertsFirst(config, utf16);
    var i := 0;
    while i < n
      invariant 0 <= i <= n
      invariant nbneed == DxcStringsStart(n) + PTR_SIZE * DXC_MAX_ARGS + Offset(parts, 1 + 2 * i)
      invariant AllConvert(strs[..1 + 2 * i], utf16)
    {
      var at, after := 1 + 2 * i, 3 + 2 * i;
      var symbol := utf16(config.Symbol(i));
      if symbol.None? {
        DefineFailsConversion(config, utf16, i, at);
        return DefineUnconvertible;
      }
      nbneed := nbneed + 2 * |symbol.value| + 2;
      var value := utf16(config.Value(i).value);
      if value.None? {
        DefineFailsConversion(config, utf16, i, at + 1);
        return DefineUnconvertible;
      }
      nbneed := nbneed + 2 * |value.value| + 2;
      DxcSizesStep(config, utf16, i, at, after);
      ConvertsThrough(config, utf16, i, at, after);
      i := i + 1;
    }
    assert strs[..1 + 2 * n] == strs;
    DxcSizeIsOffset(config, utf16);
    sizing := Sized(nbneed);
  }

  // ---------------------------------------------------------------------
  // gpuccCreateCompilerDxc: interning and the define array
  // ---------------------------------------------------------------------

  /** The DxcDefine for define k: offsets of parts 1+2k (name) and 2+2k (value) of the arena at `start`. */
  function DxcDefineFor(start: nat, parts: seq<seq<Byte>>, k: nat): DxcDefine
    requires 2 + 2 * k < |parts|
  {
    DxcDefine(start + Offset(parts, 1 + 2 * k), start + Offset(parts, 2 + 2 * k))
  }

  /** The DxcDefines of the first n defines. */
  function DxcDefineList(start: nat, parts: seq<seq<Byte>>, n: nat): (defines: seq<DxcDefine>)
    requires 2 * n < |parts|
    ensures |defines| == n
  {
    if n == 0 then [] else DxcDefineList(start, parts, n - 1) + [DxcDefineFor(start, parts, n - 1)]
  }

  /** Entry k of the first n DxcDefines is define k's. */
  lemma {:induction false} DxcDefineListAt(start: nat, parts: seq<seq<Byte>>, n: nat, k: nat)
    requires 2 * n < |parts| && k < n
    ensures DxcDefineList(start, parts, n)[k] == DxcDefineFor(start, parts, k)
    decreases n
  {
    if k < n - 1 {
      DxcDefineListAt(start, parts, n - 1, k);
    }
  }

  /** The layout gpuccCreateCompilerDxc leaves in its block: strings, then room for the argument array. */
  predicate DxcLayout(block: seq<Byte>, config: CompilerInit, utf16: CStr -> Option<WStr>, shaderModel: nat, defines: seq<DxcDefine>)
    requires config.DefinesReadable()
  {
    var start := DxcStringsStart(config.DefineCount);
    var parts := DxcImages(config, utf16);
    && LaidOut(block, start, parts)
    && shaderModel == start
    && defines == DxcDefineList(start, parts, config.DefineCount)
    && start + |Concat(parts)| + PTR_SIZE * DXC_MAX_ARGS == |block|
  }

  /** The images of define i's symbol and value, as the interning loop needs them. */
  lemma {:induction false} WidePairImagesAt(ws: seq<Option<WStr>>, parts: seq<seq<Byte>>, i: nat)
    requires 2 + 2 * i < |ws| && parts == Utf16Images(ws)
    ensures parts[1 + 2 * i] == Utf16Image(ws[1 + 2 * i]) && parts[2 + 2 * i] == Utf16Image(ws[2 + 2 * i])
  {
    Utf16ImagesAt(ws, 1 + 2 * i);
    Utf16ImagesAt(ws, 2 + 2 * i);
  }

  /** One iteration of the interning loop: define i's name, then its value, and the DxcDefine pointing at both. */
  method InternWideDefine(block: array<Byte>, start: nat, ptr: nat, ws: seq<Option<WStr>>, i: nat, ghost parts: seq<seq<Byte>>)
    returns (d: DxcDefine, next: nat)
    requires 2 + 2 * i < |ws| == |parts|
    requires parts[1 + 2 * i] == Utf16Image(ws[1 + 2 * i]) && parts[2 + 2 * i] == Utf16Image(ws[2 + 2 * i])
    requires Carved(block[..], start, ptr, parts, 1 + 2 * i)
    modifies block
    ensures d == DxcDefineFor(start, parts, i) && Carved(block[..], start, next, parts, 1 + 2 * (i + 1))
  {
    var name, value, p;
    var symbolAt, valueAt := 1 + 2 * i, 2 + 2 * i;
    ghost var afterPair := 1 + 2 * (i + 1);
    name, p := InternNextWide(block, start, ptr, ws, symbolAt, valueAt, parts);
    value, next := InternNextWide(block, start, p, ws, valueAt, afterPair, parts);
    d := DxcDefine(name, value);
  }

  /** Define i of the whole list: its images are the parts the loop expects. */
  method InternWidePair(block: array<Byte>, start: nat, ptr: nat, ws: seq<Option<WStr>>, i: nat, ghost parts: seq<seq<Byte>>,
                        ghost before: seq<DxcDefine>)
    returns (d: DxcDefine, next: nat)
    requires 2 + 2 * i < |ws| && parts == Utf16Images(ws)
    requires Carved(block[..], start, ptr, parts, 1 + 2 * i) && before == DxcDefineList(start, parts, i)
    modifies block
    ensures d == DxcDefineFor(start, parts, i) && Carved(block[..], start, next, parts, 1 + 2 * (i + 1))
    ensures before + [d] == DxcDefineList(start, parts, i + 1)
  {
    WidePairImagesAt(ws, parts, i);
    d, next := InternWideDefine(block, start, ptr, ws, i, parts);
  }

  /** The interning loop over n symbol/value pairs that follow the profile at `start`. */
  method InternWidePairs(block: array<Byte>, start: nat, ptr0: nat, ws: seq<Option<WStr>>, n: nat, ghost parts: seq<seq<Byte>>)
    returns (defines: seq<DxcDefine>, ptr: nat)
    requires |ws| == 1 + 2 * n && parts == Utf16Images(ws)
    requires Carved(block[..], start, ptr0, parts, 1)
    modifies block
    ensures Carved(block[..], start, ptr, parts, 1 + 2 * n) && defines == DxcDefineList(start, parts, n)
  {
    ptr := ptr0;
    defines := [];
    var i := 0;
    while i < n
      invariant 0 <= i <= n && defines == DxcDefineList(start, parts, i)
      invariant Carved(block[..], start, ptr, parts, 1 + 2 * i)
    {
      var d;
      d, ptr := InternWidePair(block, start, ptr, ws, i, parts, defines);
      defines := defines + [d];
      i := i + 1;
    }
  }

  /** Intern a profile followed by n symbol/value pairs at `start`, as UTF-16, and build the define array over them. */
  method InternWide(block: array<Byte>, start: nat, ws: seq<Option<WStr>>, n: nat) returns (first: nat, defines: seq<DxcDefine>, end: nat)
    requires |ws| == 1 + 2 * n && start + |Concat(Utf16Images(ws))| <= block.Length
    modifies block
    ensures first == start && LaidOut(block[..], start, Utf16Images(ws)) && end == start + |Concat(Utf16Images(ws))|
    ensures defines == DxcDefineList(start, Utf16Images(ws), n)
  {
    ghost var parts := Utf16Images(ws);
    Utf16ImagesAt(ws, 0);
    var ptr;
    first, ptr := InternNextWide(block, start, start, ws, 0, 1, parts);
    defines, end := InternWidePairs(block, start, ptr, ws, n, parts);
    LaidOutAll(block[..], start, end, parts);
  }

  /** The interning step of gpuccCreateCompilerDxc, writing into a block of nbneed bytes. */
  method InternDxcStrings(block: array<Byte>, config: CompilerInit, utf16: CStr -> Option<WStr>) returns (shaderModel: nat, defines: seq<DxcDefine>)
    requires config.DefinesReadable() && block.Length == DxcSize(config, utf16)
    modifies block
    ensures DxcLayout(block[..], config, utf16, shaderModel, defines)
  {
    var ws := WideStrings(ConfigStrings(config), utf16);
    var end;
    shaderModel, defines, end := InternWide(block, DxcStringsStart(config.DefineCount), ws, config.DefineCount);
  }

  /** Part k of parts laid out from `start` sits at its offset. */
  lemma {:induction false} ImageWindow(block: seq<Byte>, start: nat, parts: seq<seq<Byte>>, k: nat, p: nat)
    requires LaidOut(block, start, parts) && k < |parts| && p == start + Offset(parts, k)
    ensures p + |parts[k]| <= |block| && block[p..p + |parts[k]|] == parts[k]
  {
    PartWindow(block, start, parts, k);
  }

  /** Entry k of a define array over parts laid out from `start` points at parts 1+2k and 2+2k. */
  lemma {:induction false} PairWindows(block: seq<Byte>, start: nat, parts: seq<seq<Byte>>, n: nat, defines: seq<DxcDefine>, k: nat)
    requires LaidOut(block, start, parts) && 2 * n < |parts| && defines == DxcDefineList(start, parts, n) && k < n
    ensures defines[k].Name + |parts[1 + 2 * k]| <= |block| && block[defines[k].Name..defines[k].Name + |parts[1 + 2 * k]|] == parts[1 + 2 * k]
    ensures defines[k].Value + |parts[2 + 2 * k]| <= |block| && block[defines[k].Value..defines[k].Value + |parts[2 + 2 * k]|] == parts[2 + 2 * k]
  {
    DxcDefineListAt(start, parts, n, k);
    ImageWindow(block, start, parts, 1 + 2 * k, defines[k].Name);
    ImageWindow(block, start, parts, 2 + 2 * k, defines[k].Value);
  }

  /** The bytes at the shader-model offset are the profile's UTF-16 form and a two-byte nul. */
  lemma {:induction false} DxcProfileReadsBack(block: seq<Byte>, config: CompilerInit, utf16: CStr -> Option<WStr>, shaderModel: nat, defines: seq<DxcDefine>)
    requires config.DefinesReadable() && config.TargetProfile.Some?
    requires DxcLayout(block, config, utf16, shaderModel, defines)
    ensures var image := Utf16Image(utf16(config.TargetProfile.value));
            shaderModel + |image| <= |block| && block[shaderModel..shaderModel + |image|] == image
  {
    ImageWindow(block, shaderModel, DxcImages(config, utf16), 0, shaderModel);
    DxcImageAt(config, utf16, 0);
  }

  /** Entry k of the define array points at define k's UTF-16 name and value, each followed by a two-byte nul. */
  lemma {:induction false} DxcDefineReadsBack(block: seq<Byte>, config: CompilerInit, utf16: CStr -> Option<WStr>, shaderModel: nat, defines: seq<DxcDefine>, k: nat)
    requires config.DefinesReadable() && ValuesPresent(config) && k < config.DefineCount
    requires DxcLayout(block, config, utf16, shaderModel, defines)
    ensures var name := Utf16Image(utf16(config.Symbol(k)));
            defines[k].Name + |name| <= |block| && block[defines[k].Name..defines[k].Name + |name|] == name
    ensures var value := Utf16Image(utf16(config.Value(k).value));
            defines[k].Value + |value| <= |block| && block[defines[k].Value..defines[k].Value + |value|] == value
  {
    var name, value := 1 + 2 * k, 2 + 2 * k;
    PairWindows(block, DxcStringsStart(config.DefineCount), DxcImages(config, utf16), config.DefineCount, defines, k);
    ConfigStringsAt(config, k);
    DxcImageAt(config, utf16, name);
    DxcImageAt(config, utf16, value);
  }

  // ---------------------------------------------------------------------
  // gpuccCreateCompilerDxc: the argument list
  // ---------------------------------------------------------------------

  /** The target runtime is one of the two Vulkan versions. */
  predicate Vulkan(targetRuntime: int)
  {
    targetRuntime == TARGET_RUNTIME_VULKAN_1_0 || targetRuntime == TARGET_RUNTIME_VULKAN_1_1
  }

  /** The stages whose Y axis is flipped for Vulkan: vertex, geometry and domain. */
  predicate InvertsY(stage: string)
  {
    |stage| == 3 && stage[2] == NUL && (StageIs(stage, "vs") || StageIs(stage, "gs") || StageIs(stage, "ds"))
  }

  /** Native 16-bit types are requested only when the shader model is not below 6.2 by the test the source makes. */
  predicate Allows16BitTypes(major: int, minor: int)
  {
    !(major <= 6 && minor < 2)
  }

  /** The values of a configuration the argument list depends on, with the parsed profile. */
  datatype DxcTarget = DxcTarget(flags: set<CompilerFlag>, bytecodeType: int, targetRuntime: int, stage: string, major: int, minor: int)

  /** The number of literals gpuccCreateCompilerDxc may store. */
  const DXC_ARGUMENT_KINDS: nat := 14

  /** The position of a literal in the order gpuccCreateCompilerDxc considers them. */
  function Rank(arg: DxcArg): (k: nat)
    ensures k < DXC_ARGUMENT_KINDS
  {
    match arg
    case ArgEnableDebugInfo => 0
    case ArgDisableOptimizations => 1
    case ArgOptimizerLevel4 => 2
    case ArgWarningsAsErrors => 3
    case ArgPackRowMajor => 4
    case ArgPackColumnMajor => 5
    case ArgEnable16BitTypes => 6
    case ArgAvoidFlowControl => 7
    case ArgForceIeeeStrictness => 8
    case ArgGenerateSpirv => 9
    case ArgVulkanUseGlLayout => 10
    case ArgTargetVulkan1_0 => 11
    case ArgTargetVulkan1_1 => 12
    case ArgVulkanInvertY => 13
  }

  /** The literal at position k of that order. */
  function ArgAt(k: nat): (arg: DxcArg)
    requires k < DXC_ARGUMENT_KINDS
    ensures Rank(arg) == k
  {
    if k == 0 then ArgEnableDebugInfo
    else if k == 1 then ArgDisableOptimizations
    else if k == 2 then ArgOptimizerLevel4
    else if k == 3 then ArgWarningsAsErrors
    else if k == 4 then ArgPackRowMajor
    else if k == 5 then ArgPackColumnMajor
    else if k == 6 then ArgEnable16BitTypes
    else if k == 7 then ArgAvoidFlowControl
    else if k == 8 then ArgForceIeeeStrictness
    else if k == 9 then ArgGenerateSpirv
    else if k == 10 then ArgVulkanUseGlLayout
    else if k == 11 then ArgTargetVulkan1_0
    else if k == 12 then ArgTargetVulkan1_1
    else ArgVulkanInvertY
  }

  /** Every literal has a position, so positions and literals are in one-to-one correspondence. */
  lemma {:induction false} ArgAtRank(arg: DxcArg)
    ensures ArgAt(Rank(arg)) == arg
  {
  }

  /** Whether gpuccCreateCompilerDxc stores `arg` for the target: the flag table of the source. */
  predicate DxcSelects(t: DxcTarget, arg: DxcArg)
  {
    match arg
    case ArgEnableDebugInfo => Debug in t.flags
    case ArgDisableOptimizations => DisableOptimizations in t.flags
    case ArgOptimizerLevel4 => DisableOptimizations !in t.flags
    case ArgWarningsAsErrors => WarningsAsErrors in t.flags
    case ArgPackRowMajor => RowMajorMatrices in t.flags
    case ArgPackColumnMajor => RowMajorMatrices !in t.flags
    case ArgEnable16BitTypes => Enable16BitTypes in t.flags && Allows16BitTypes(t.major, t.minor)
    case ArgAvoidFlowControl => AvoidFlowControl in t.flags
    case ArgForceIeeeStrictness => EnableIeeeStrictness in t.flags
    case ArgGenerateSpirv => t.bytecodeType == BYTECODE_TYPE_SPIRV
    case ArgVulkanUseGlLayout => t.bytecodeType == BYTECODE_TYPE_SPIRV
    case ArgTargetVulkan1_0 => t.targetRuntime == TARGET_RUNTIME_VULKAN_1_0
    case ArgTargetVulkan1_1 => t.targetRuntime == TARGET_RUNTIME_VULKAN_1_1
    case ArgVulkanInvertY => Vulkan(t.targetRuntime) && InvertsY(t.stage)
  }

  /** The literals among the first n of the order that the target selects, in order. */
  function Select(n: nat, t: DxcTarget): (args: seq<DxcArg>)
    requires n <= DXC_ARGUMENT_KINDS
    ensures |args| <= n
  {
    if n == 0 then [] else Select(n - 1, t) + When(DxcSelects(t, ArgAt(n - 1)), ArgAt(n - 1))
  }

  /** A literal is selected from the first n exactly when its position is below n and the target selects it. */
  lemma {:induction false} SelectMembers(n: nat, t: DxcTarget, arg: DxcArg)
    requires n <= DXC_ARGUMENT_KINDS
    ensures arg in Select(n, t) <==> Rank(arg) < n && DxcSelects(t, arg)
  {
    if n > 0 {
      SelectMembers(n - 1, t, arg);
      ArgAtRank(arg);
      assert arg in When(DxcSelects(t, ArgAt(n - 1)), ArgAt(n - 1)) <==> Rank(arg) == n - 1 && DxcSelects(t, arg);
    }
  }

  /** The argument list of gpuccCreateCompilerDxc: every literal the target selects, in the source's order. */
  function DxcArguments(t: DxcTarget): (args: seq<DxcArg>)
    ensures |args| <= DXC_ARGUMENT_KINDS
  {
    Select(DXC_ARGUMENT_KINDS, t)
  }

  /** A literal is in the argument list exactly when the flag table selects it. */
  lemma {:induction false} DxcArgumentsSelected(t: DxcTarget, arg: DxcArg)
    ensures arg in DxcArguments(t) <==> DxcSelects(t, arg)
  {
    SelectMembers(DXC_ARGUMENT_KINDS, t, arg);
  }

  /** Exactly one optimisation level and exactly one matrix packing are always passed. */
  lemma {:induction false} DxcArgumentsAlwaysPack(t: DxcTarget)
    ensures ArgDisableOptimizations in DxcArguments(t) <==> ArgOptimizerLevel4 !in DxcArguments(t)
    ensures ArgPackRowMajor in DxcArguments(t) <==> ArgPackColumnMajor !in DxcArguments(t)
  {
    DxcArgumentsSelected(t, ArgDisableOptimizations);
    DxcArgumentsSelected(t, ArgOptimizerLevel4);
    DxcArgumentsSelected(t, ArgPackRowMajor);
    DxcArgumentsSelected(t, ArgPackColumnMajor);
  }

  /** `if (cond) gpuccDxcStoreArg(dxc, arg)`, where arg is the literal at position k and cond the source's test for it. */
  method StoreArgAt(dxc: CompilerDxc, cond: bool, arg: DxcArg, k: nat, ghost t: DxcTarget)
    requires Rank(arg) == k && cond == DxcSelects(t, arg)
    requires dxc.Valid() && dxc.Args() == Capped(Select(k, t), DXC_MAX_ARGS)
    modifies dxc`ArgumentCount, dxc.ClArguments
    ensures dxc.Valid() && dxc.Args() == Capped(Select(k + 1, t), DXC_MAX_ARGS)
  {
    ArgAtRank(arg);
    if cond {
      dxc.StoreArg(arg);
      CappedAppend(Select(k, t), arg, DXC_MAX_ARGS);
    }
  }

  /** The debug, optimisation and warning arguments of gpuccCreateCompilerDxc, on an empty argument array. */
  method StoreCodegenArguments(dxc: CompilerDxc, flags: set<CompilerFlag>, ghost t: DxcTarget)
    requires t.flags == flags
    requires dxc.Valid() && dxc.ArgumentCount == 0
    modifies dxc`ArgumentCount, dxc.ClArguments
    ensures dxc.Valid() && dxc.Args() == Capped(Select(4, t), DXC_MAX_ARGS)
  {
    StoreArgAt(dxc, Debug in flags, ArgEnableDebugInfo, 0, t);
    // -Od, or else -O4.
    StoreArgAt(dxc, DisableOptimizations in flags, ArgDisableOptimizations, 1, t);
    StoreArgAt(dxc, DisableOptimizations !in flags, ArgOptimizerLevel4, 2, t);
    StoreArgAt(dxc, WarningsAsErrors in flags, ArgWarningsAsErrors, 3, t);
  }

  /** The packing and language arguments of gpuccCreateCompilerDxc, after the first four. */
  method StoreLanguageArguments(dxc: CompilerDxc, flags: set<CompilerFlag>, major: int, minor: int, ghost t: DxcTarget)
    requires t.flags == flags && t.major == major && t.minor == minor
    requires dxc.Valid() && dxc.Args() == Capped(Select(4, t), DXC_MAX_ARGS)
    modifies dxc`ArgumentCount, dxc.ClArguments
    ensures dxc.Valid() && dxc.Args() == Capped(Select(9, t), DXC_MAX_ARGS)
  {
    // -Zpr, or else -Zpc.
    StoreArgAt(dxc, RowMajorMatrices in flags, ArgPackRowMajor, 4, t);
    StoreArgAt(dxc, RowMajorMatrices !in flags, ArgPackColumnMajor, 5, t);
    // Below shader model 6.2 (by the source's test) the 16-bit flag is dropped.
    StoreArgAt(dxc, Enable16BitTypes in flags && Allows16BitTypes(major, minor), ArgEnable16BitTypes, 6, t);
    StoreArgAt(dxc, AvoidFlowControl in flags, ArgAvoidFlowControl, 7, t);
    StoreArgAt(dxc, EnableIeeeStrictness in flags, ArgForceIeeeStrictness, 8, t);
  }

  /** The SPIR-V arguments of gpuccCreateCompilerDxc, after the common ones. */
  method StoreSpirvArguments(dxc: CompilerDxc, bytecodeType: int, ghost t: DxcTarget)
    requires t.bytecodeType == bytecodeType
    requires dxc.Valid() && dxc.Args() == Capped(Select(9, t), DXC_MAX_ARGS)
    modifies dxc`ArgumentCount, dxc.ClArguments
    ensures dxc.Valid() && dxc.Args() == Capped(Select(11, t), DXC_MAX_ARGS)
  {
    var spirv := bytecodeType == BYTECODE_TYPE_SPIRV;
    StoreArgAt(dxc, spirv, ArgGenerateSpirv, 9, t);
    StoreArgAt(dxc, spirv, ArgVulkanUseGlLayout, 10, t);
  }

  /** The Vulkan arguments of gpuccCreateCompilerDxc, which end the list. */
  method StoreVulkanArguments(dxc: CompilerDxc, targetRuntime: int, stage: string, ghost t: DxcTarget)
    requires t.targetRuntime == targetRuntime && t.stage == stage
    requires |stage| == 3 && stage[2] == NUL
    requires dxc.Valid() && dxc.Args() == Capped(Select(11, t), DXC_MAX_ARGS)
    modifies dxc`ArgumentCount, dxc.ClArguments
    ensures dxc.Valid() && dxc.Args() == Capped(DxcArguments(t), DXC_MAX_ARGS)
  {
    StoreArgAt(dxc, targetRuntime == TARGET_RUNTIME_VULKAN_1_0, ArgTargetVulkan1_0, 11, t);
    StoreArgAt(dxc, targetRuntime == TARGET_RUNTIME_VULKAN_1_1, ArgTargetVulkan1_1, 12, t);
    // Vertex, geometry and domain stages have their Y axis flipped for Vulkan.
    StoreArgAt(dxc, Vulkan(targetRuntime) && InvertsY(stage), ArgVulkanInvertY, 13, t);
  }

  // ---------------------------------------------------------------------
  // gpuccCreateCompilerDxc
  // ---------------------------------------------------------------------

  /** The argument-list inputs of a configuration whose profile is present. */
  function DxcTargetOf(config: CompilerInit): (t: DxcTarget)
    requires config.TargetProfile.Some?
    ensures t.flags == config.CompilerFlags && t.bytecodeType == config.BytecodeType && t.targetRuntime == config.TargetRuntime
  {
    var sm := ExtractDirect3DShaderModel(config.TargetProfile.value);
    DxcTarget(config.CompilerFlags, config.BytecodeType, config.TargetRuntime, sm.Stage, sm.Major, sm.Minor)
  }

  /** The argument list of a fresh compiler, stored literal by literal in the source's order. */
  method StoreDxcArguments(dxc: CompilerDxc, config: CompilerInit)
    requires config.TargetProfile.Some?
    requires var sm := ExtractDirect3DShaderModel(config.TargetProfile.value); sm.Status == 0
    requires dxc.Valid() && dxc.ArgumentCount == 0
    modifies dxc`ArgumentCount, dxc.ClArguments
    ensures dxc.Valid() && dxc.Args() == Capped(DxcArguments(DxcTargetOf(config)), DXC_MAX_ARGS)
  {
    var sm := ExtractDirect3DShaderModel(config.TargetProfile.value);
    ghost var t := DxcTargetOf(config);
    StoreCodegenArguments(dxc, config.CompilerFlags, t);
    StoreLanguageArguments(dxc, config.CompilerFlags, sm.Major, sm.Minor, t);
    StoreSpirvArguments(dxc, config.BytecodeType, t);
    StoreVulkanArguments(dxc, config.TargetRuntime, sm.Stage, t);
  }

  /**
   * The part of gpuccCreateCompilerDxc after the block is allocated: intern
   * the strings, build the argument list, then create the IDxcLibrary and
   * the IDxcCompiler instances. A failed library instance frees the block; a
   * failed compiler instance releases the library and frees the block.
   */
  method BuildCompilerDxc(config: CompilerInit, dispatch: DxcCompilerDispatch, tctx: ThreadContext, utf16: CStr -> Option<WStr>,
                          base: array<Byte>, nativeLibrary: CreateOutcome, nativeCompiler: CreateOutcome)
    returns (dxc: CompilerDxc?, disposed: seq<Disposal>)
    requires config.DefinesReadable() && config.TargetProfile.Some?
    requires ExtractDirect3DShaderModel(config.TargetProfile.value).Status == 0
    requires dispatch.Bound() && base.Length == DxcSize(config, utf16)
    requires !Failed(nativeLibrary.hr) ==> nativeLibrary.instance.Some?
    requires !Failed(nativeCompiler.hr) ==> nativeCompiler.instance.Some?
    modifies base, tctx
    ensures var lib := CallDxcCreateInstance(dispatch.DxcCreateInstance, nativeLibrary);
            Failed(lib.hr) ==>
              dxc == null && disposed == [Free(base)] && tctx.LastResult == MakeResultHResult(lib.hr)
    ensures var lib := CallDxcCreateInstance(dispatch.DxcCreateInstance, nativeLibrary);
            var cc := CallDxcCreateInstance(dispatch.DxcCreateInstance, nativeCompiler);
            !Failed(lib.hr) && Failed(cc.hr) ==>
              dxc == null && disposed == [Dispose(Com(lib.instance.value)), Free(base)]
              && tctx.LastResult == MakeResultHResult(cc.hr)
    ensures var lib := CallDxcCreateInstance(dispatch.DxcCreateInstance, nativeLibrary);
            var cc := CallDxcCreateInstance(dispatch.DxcCreateInstance, nativeCompiler);
            !Failed(lib.hr) && !Failed(cc.hr) ==>
              && dxc != null && fresh(dxc) && fresh(dxc.ClArguments) && disposed == []
              && tctx.LastResult == old(tctx.LastResult)
              && dxc.Block == base && dxc.Valid()
              && DxcLayout(base[..], config, utf16, dxc.ShaderModel, dxc.DefineArray)
              && dxc.Args() == Capped(DxcArguments(DxcTargetOf(config)), DXC_MAX_ARGS)
              && dxc.CompilerType == COMPILER_TYPE_DXC && dxc.BytecodeType == config.BytecodeType
              && dxc.DispatchTable == dispatch && dxc.DefineCount == config.DefineCount
              && dxc.TargetRuntime == config.TargetRuntime
              && dxc.DxcLibrary == lib.instance && dxc.DxcCompiler == cc.instance
  {
    var shaderModel, defines := InternDxcStrings(base, config, utf16);
    var arguments := new DxcArg[DXC_MAX_ARGS];
    dxc := new CompilerDxc(base, dispatch, shaderModel, defines, config.DefineCount, config.TargetRuntime, arguments);
    StoreDxcArguments(dxc, config);
    var lib := CallDxcCreateInstance(dispatch.DxcCreateInstance, nativeLibrary);
    if Failed(lib.hr) {
      var _ := tctx.SetLastResult(MakeResultHResult(lib.hr));
      return null, [Free(base)];
    }
    var cc := CallDxcCreateInstance(dispatch.DxcCreateInstance, nativeCompiler);
    if Failed(cc.hr) {
      var _ := tctx.SetLastResult(MakeResultHResult(cc.hr));
      return null, [Dispose(Com(lib.instance.value)), Free(base)];
    }
    dxc.CompilerType := COMPILER_TYPE_DXC;
    dxc.BytecodeType := config.BytecodeType;
    dxc.DxcLibrary := lib.instance;
    dxc.DxcCompiler := cc.instance;
    disposed := [];
  }

  /**
   * gpuccCreateCompilerDxc. The profile is checked first (null, does not
   * parse, stage not cs/vs/ps/gs/ds/hs, shader model below 4: each records
   * INVALID_TARGET_PROFILE); then nbneed is computed, converting every
   * string to UTF-16 (the profile failing records INVALID_TARGET_PROFILE
   * with the thread's last error, a define failing INVALID_ARGUMENT with
   * it); then one block is allocated (a failure records
   * OUT_OF_HOST_MEMORY) and the rest is BuildCompilerDxc.
   */
  method CreateCompilerDxc(config: CompilerInit, dispatch: DxcCompilerDispatch, tctx: ThreadContext, utf16: CStr -> Option<WStr>,
                           lastError: Dword, allocOk: bool, nativeLibrary: CreateOutcome, nativeCompiler: CreateOutcome)
    returns (dxc: CompilerDxc?, disposed: seq<Disposal>)
    requires config.DefinesReadable() && ValuesPresent(config) && dispatch.Bound()
    requires !Failed(nativeLibrary.hr) ==> nativeLibrary.instance.Some?
    requires !Failed(nativeCompiler.hr) ==> nativeCompiler.instance.Some?
    modifies tctx
    ensures !DxcProfileAccepted(config.TargetProfile) ==>
              dxc == null && disposed == [] && tctx.LastResult == MakeResult(RESULT_CODE_INVALID_TARGET_PROFILE)
    ensures DxcProfileAccepted(config.TargetProfile) && utf16(config.TargetProfile.value).None? ==>
              dxc == null && disposed == [] && tctx.LastResult == MakeResultWin32(RESULT_CODE_INVALID_TARGET_PROFILE, lastError)
    ensures DxcProfileAccepted(config.TargetProfile) && utf16(config.TargetProfile.value).Some?
            && !AllConvert(ConfigStrings(config), utf16) ==>
              dxc == null && disposed == [] && tctx.LastResult == MakeResultWin32(RESULT_CODE_INVALID_ARGUMENT, lastError)
    ensures DxcProfileAccepted(config.TargetProfile) && AllConvert(ConfigStrings(config), utf16) && !allocOk ==>
              dxc == null && disposed == [] && tctx.LastResult == MakeResult(RESULT_CODE_OUT_OF_HOST_MEMORY)
    ensures DxcProfileAccepted(config.TargetProfile) && AllConvert(ConfigStrings(config), utf16) && allocOk ==>
              var lib := CallDxcCreateInstance(dispatch.DxcCreateInstance, nativeLibrary);
              var cc := CallDxcCreateInstance(dispatch.DxcCreateInstance, nativeCompiler);
              && (Failed(lib.hr) ==>
                    dxc == null && |disposed| == 1 && disposed[0].Free? && fresh(disposed[0].block)
                    && tctx.LastResult == MakeResultHResult(lib.hr))
              && (!Failed(lib.hr) && Failed(cc.hr) ==>
                    dxc == null && |disposed| == 2 && disposed[0] == Dispose(Com(lib.instance.value))
                    && disposed[1].Free? && fresh(disposed[1].block)
                    && tctx.LastResult == MakeResultHResult(cc.hr))
              && (!Failed(lib.hr) && !Failed(cc.hr) ==> dxc != null && disposed == [])
    ensures dxc != null ==>
              && fresh(dxc) && fresh(dxc.Block) && fresh(dxc.ClArguments)
              && tctx.LastResult == old(tctx.LastResult)
              && dxc.Block.Length == DxcSize(config, utf16) && dxc.Valid()
              && DxcLayout(dxc.Block[..], config, utf16, dxc.ShaderModel, dxc.DefineArray)
              && dxc.Args() == Capped(DxcArguments(DxcTargetOf(config)), DXC_MAX_ARGS)
              && dxc.CompilerType == COMPILER_TYPE_DXC && dxc.BytecodeType == config.BytecodeType
              && dxc.DispatchTable == dispatch && dxc.DefineCount == config.DefineCount
              && dxc.TargetRuntime == config.TargetRuntime
              && dxc.DxcLibrary == CallDxcCreateInstance(dispatch.DxcCreateInstance, nativeLibrary).instance
              && dxc.DxcCompiler == CallDxcCreateInstance(dispatch.DxcCreateInstance, nativeCompiler).instance
  {
    if config.TargetProfile.None? {
      var _ := tctx.SetLastResult(MakeResult(RESULT_CODE_INVALID_TARGET_PROFILE));
      return null, [];
    }
    var sm := ExtractDirect3DShaderModel(config.TargetProfile.value);
    if sm.Status != 0 || !DxcStage(sm.Stage) || sm.Major < 4 {
      var _ := tctx.SetLastResult(MakeResult(RESULT_CODE_INVALID_TARGET_PROFILE));
      return null, [];
    }
    var sizing := DxcBytesNeeded(config, utf16);
    if sizing == ProfileUnconvertible {
      var _ := tctx.SetLastResult(MakeResultWin32(RESULT_CODE_INVALID_TARGET_PROFILE, lastError));
      return null, [];
    }
    if sizing == DefineUnconvertible {
      var _ := tctx.SetLastResult(MakeResultWin32(RESULT_CODE_INVALID_ARGUMENT, lastError));
      return null, [];
    }
    if !allocOk {
      var _ := tctx.SetLastResult(MakeResult(RESULT_CODE_OUT_OF_HOST_MEMORY));
      return null, [];
    }
    var base := new Byte[sizing.nbneed];
    dxc, disposed := BuildCompilerDxc(config, dispatch, tctx, utf16, base, nativeLibrary, nativeCompiler);
  }
}
