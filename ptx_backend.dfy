/**
 * The NVRTC back end: PTX bytecode containers, compilation through the
 * nvrtc entries of the dispatch table, and creation of an NVRTC compiler
 * record: the profile and one formatted "-D" argument per define interned
 * in one block, followed by a fixed argument array the compiler flags fill.
 */
module PtxBackend {
  import opened Wrappers
  import opened Gpucc
  import opened Internal
  import opened Objects
  import opened PtxCompilerApi

  // ---------------------------------------------------------------------
  // gpuccMakeResult_nvrtc
  // ---------------------------------------------------------------------

  /**
   * gpuccMakeResult_nvrtc: NVRTC_SUCCESS is SUCCESS, any other code is a
   * PLATFORM_ERROR; the platform part is the nvrtc code either way.
   */
  function MakeResultNvrtc(res: int): (r: GpuccResult)
    ensures r.PlatformResult == res
    ensures Success(r) <==> res == NVRTC_SUCCESS
    ensures r.LibraryResult == RESULT_CODE_SUCCESS || r.LibraryResult == RESULT_CODE_PLATFORM_ERROR
  {
    if res != NVRTC_SUCCESS then GpuccResult(RESULT_CODE_PLATFORM_ERROR, res)
    else GpuccResult(RESULT_CODE_SUCCESS, NVRTC_SUCCESS)
  }

  /** Distinct nvrtc codes give distinct results, so the code can be read back from the result. */
  lemma {:induction false} MakeResultNvrtcInjective(a: int, b: int)
    requires MakeResultNvrtc(a) == MakeResultNvrtc(b)
    ensures a == b
  {
    assert MakeResultNvrtc(a).PlatformResult == a;
  }

  // ---------------------------------------------------------------------
  // Bytecode containers
  // ---------------------------------------------------------------------

  /** gpuccCreateProgramBytecodePtx */
  method CreateProgramBytecodePtx(compiler: CompilerPtx, tctx: ThreadContext, allocOk: bool) returns (c: BytecodeContainer?)
    modifies tctx
    ensures !allocOk ==> c == null && tctx.LastResult == MakeResult(RESULT_CODE_OUT_OF_HOST_MEMORY)
    ensures allocOk ==> c != null && fresh(c) && tctx.LastResult == old(tctx.LastResult)
    ensures allocOk ==> c.Compiler == Ptx(compiler) && c.Cleared() && BytecodeContainerIsEmpty(c)
  {
    c := AllocateContainer(Ptx(compiler), tctx, allocOk);
  }

  /**
   * gpuccDeleteProgramBytecodePtx: free the log copy, then the code copy,
   * then the entry-point block; each step clears its fields and is skipped
   * when there is nothing to give back. The container itself is not freed.
   */
  method DeleteProgramBytecodePtx(c: BytecodeContainer) returns (disposed: seq<Disposal>)
    modifies c`ErrorLog, c`LogBuffer, c`LogBufferSize, c`CodeBuffer, c`BytecodeBuffer, c`BytecodeSize, c`EntryPoint, c`SourcePath
    ensures disposed ==
      (if old(c.ErrorLog).Some? then [Dispose(old(c.ErrorLog).value)] else [])
      + (if old(c.CodeBuffer).Some? then [Dispose(old(c.CodeBuffer).value)] else [])
      + (if old(c.EntryPoint).Some? then [Free(old(c.EntryPoint).value.block)] else [])
    ensures old(Consistent(c)) ==> c.Cleared()
    ensures old(c.Cleared()) ==> disposed == [] && c.Cleared()
  {
    var log := ReleaseErrorLog(c);
    var code := ReleaseCodeBuffer(c);
    var names := FreeEntryPoint(c);
    disposed := log + code + names;
  }

  // ---------------------------------------------------------------------
  // gpuccCompileBytecodePtx
  // ---------------------------------------------------------------------

  /**
   * What nvrtcCreateProgram and nvrtcCompileProgram are given: the source
   * text (read up to its first nul; the size is not passed), the source
   * path, the compiler's argument list and the block its interned
   * arguments point into.
   */
  datatype PtxCompileRequest = PtxCompileRequest(
    source: seq<Byte>,
    sourcePath: Option<CStr>,
    arguments: seq<PtxArg>,
    arena: seq<Byte>)

  /** The request a compile through `compiler` makes. */
  function PtxRequest(compiler: CompilerPtx, source: seq<Byte>, sourcePath: Option<CStr>): (request: PtxCompileRequest)
    requires compiler.Valid()
    reads compiler, compiler.ClArguments, compiler.Block
    ensures request.arguments == compiler.Args() && request.arena == compiler.Block[..]
    ensures request.source == source && request.sourcePath == sourcePath
  {
    PtxCompileRequest(source, sourcePath, compiler.Args(), compiler.Block[..])
  }

  /** Neither copy-out buffer failed to allocate: a zero size allocates nothing. */
  predicate Allocates(seen: ProgramCalls, logAllocOk: bool, codeAllocOk: bool)
  {
    (seen.logSize == 0 || logAllocOk) && (seen.ptxSize == 0 || codeAllocOk)
  }

  /** nvrtcGetPTX and nvrtcGetProgramLog succeeded wherever they were called (only for a non-zero size). */
  predicate Retrieves(seen: ProgramCalls)
  {
    (seen.ptxSize == 0 || seen.getPtxResult == NVRTC_SUCCESS) && (seen.logSize == 0 || seen.getLogResult == NVRTC_SUCCESS)
  }

  /** The compile got as far as handing its copies to the container. */
  predicate Delivers(seen: ProgramCalls, logAllocOk: bool, codeAllocOk: bool)
  {
    seen.createResult == NVRTC_SUCCESS && Allocates(seen, logAllocOk, codeAllocOk) && Retrieves(seen)
  }

  /**
   * The value gpuccCompileBytecodePtx returns: COMPILE_FAILED with the
   * nvrtc code when the program cannot be created, COMPILE_FAILED with
   * errno when a copy cannot be allocated, plain COMPILE_FAILED when a copy
   * cannot be retrieved, and SUCCESS otherwise. nvrtcCompileProgram's own
   * result plays no part.
   */
  function PtxCompileResult(seen: ProgramCalls, logAllocOk: bool, codeAllocOk: bool, errno: int): (r: GpuccResult)
    ensures Delivers(seen, logAllocOk, codeAllocOk) ==> r == MakeResult(RESULT_CODE_SUCCESS)
    ensures !Delivers(seen, logAllocOk, codeAllocOk) ==> r.LibraryResult == RESULT_CODE_COMPILE_FAILED
    ensures seen.createResult != NVRTC_SUCCESS ==> r.PlatformResult == seen.createResult
    ensures seen.createResult == NVRTC_SUCCESS && !Allocates(seen, logAllocOk, codeAllocOk) ==> r.PlatformResult == errno
    ensures seen.createResult == NVRTC_SUCCESS && Allocates(seen, logAllocOk, codeAllocOk) && !Retrieves(seen) ==> r.PlatformResult == 0
  {
    if seen.createResult != NVRTC_SUCCESS then GpuccResult(RESULT_CODE_COMPILE_FAILED, seen.createResult)
    else if !Allocates(seen, logAllocOk, codeAllocOk) then GpuccResult(RESULT_CODE_COMPILE_FAILED, errno)
    else if !Retrieves(seen) then MakeResult(RESULT_CODE_COMPILE_FAILED)
    else MakeResult(RESULT_CODE_SUCCESS)
  }

  /**
   * The last result a PTX compile leaves: each failing nvrtc call records
   * its code (the last one recorded wins), a failed allocation records
   * OUT_OF_HOST_MEMORY with errno.
   */
  function PtxCompileLastResult(seen: ProgramCalls, logAllocOk: bool, codeAllocOk: bool, errno: int, before: GpuccResult): (r: GpuccResult)
    ensures seen.createResult != NVRTC_SUCCESS ==> r == MakeResultNvrtc(seen.createResult)
    ensures seen.createResult == NVRTC_SUCCESS && !Allocates(seen, logAllocOk, codeAllocOk) ==>
              r == MakeResultErrno(RESULT_CODE_OUT_OF_HOST_MEMORY, errno)
    ensures (seen.createResult == NVRTC_SUCCESS && Allocates(seen, logAllocOk, codeAllocOk)
             && seen.ptxSize != 0 && seen.getPtxResult != NVRTC_SUCCESS) ==> r == MakeResultNvrtc(seen.getPtxResult)
    ensures (seen.createResult == NVRTC_SUCCESS && Allocates(seen, logAllocOk, codeAllocOk)
             && (seen.ptxSize == 0 || seen.getPtxResult == NVRTC_SUCCESS)
             && seen.logSize != 0 && seen.getLogResult != NVRTC_SUCCESS) ==> r == MakeResultNvrtc(seen.getLogResult)
    ensures Delivers(seen, logAllocOk, codeAllocOk) ==>
              r == (if seen.compileResult != NVRTC_SUCCESS then MakeResultNvrtc(seen.compileResult) else before)
  {
    var compiled := if seen.compileResult != NVRTC_SUCCESS then MakeResultNvrtc(seen.compileResult) else before;
    if seen.createResult != NVRTC_SUCCESS then MakeResultNvrtc(seen.createResult)
    else if !Allocates(seen, logAllocOk, codeAllocOk) then MakeResultErrno(RESULT_CODE_OUT_OF_HOST_MEMORY, errno)
    else if seen.ptxSize != 0 && seen.getPtxResult != NVRTC_SUCCESS then MakeResultNvrtc(seen.getPtxResult)
    else if seen.logSize != 0 && seen.getLogResult != NVRTC_SUCCESS then MakeResultNvrtc(seen.getLogResult)
    else compiled
  }

  /**
   * A program NVRTC fails to compile still yields SUCCESS when its PTX and
   * log can be copied out; the failure shows only in the last result.
   */
  lemma {:induction false} CompileFailureReportedOnlyAsLastResult(seen: ProgramCalls, logAllocOk: bool, codeAllocOk: bool, errno: int, before: GpuccResult)
    requires Delivers(seen, logAllocOk, codeAllocOk) && seen.compileResult != NVRTC_SUCCESS
    ensures Success(PtxCompileResult(seen, logAllocOk, codeAllocOk, errno))
    ensures Failure(PtxCompileLastResult(seen, logAllocOk, codeAllocOk, errno, before))
    ensures PtxCompileLastResult(seen, logAllocOk, codeAllocOk, errno, before).PlatformResult == seen.compileResult
  {
    assert MakeResult(RESULT_CODE_SUCCESS).LibraryResult == RESULT_CODE_SUCCESS;
  }

  /** The copy of a size-`size` output the container keeps: none for a zero size. */
  function HeapCopy(size: nat, bytes: seq<Byte>): (b: Option<Buffer>)
    ensures b.Some? <==> size != 0
    ensures b.Some? ==> b.value == Heap(bytes)
  {
    if size != 0 then Some(Heap(bytes)) else None
  }

  /** The container fields set at the end of a successful PTX compile. */
  method KeepCopies(c: BytecodeContainer, code: Option<seq<Byte>>, log: Option<seq<Byte>>)
    modifies c`LogBuffer, c`LogBufferSize, c`BytecodeSize, c`BytecodeBuffer, c`CodeBuffer, c`ErrorLog
    ensures c.CodeBuffer == (if code.Some? then Some(Heap(code.value)) else None)
    ensures c.ErrorLog == (if log.Some? then Some(Heap(log.value)) else None)
    ensures c.OutputsMatch()
  {
    if code.Some? {
      c.BytecodeSize, c.BytecodeBuffer := |code.value|, Some(code.value);
      c.CodeBuffer := Some(Heap(code.value));
    } else {
      c.BytecodeSize, c.BytecodeBuffer := 0, None;
      c.CodeBuffer := None;
    }
    if log.Some? {
      c.LogBufferSize, c.LogBuffer := |log.value|, Some(log.value);
      c.ErrorLog := Some(Heap(log.value));
    } else {
      c.LogBufferSize, c.LogBuffer := 0, None;
      c.ErrorLog := None;
    }
  }

  /**
   * gpuccCompileBytecodePtx. The nvrtc calls go through the compiler's
   * dispatch table (`nvrtc` answers for the library); the two copy-out
   * allocations are the oracles `logAllocOk` and `codeAllocOk`, and errno
   * is a parameter. The entry point and the source size are not used.
   */
  method CompileBytecodePtx(c: BytecodeContainer, source: seq<Byte>, sourcePath: Option<CStr>, tctx: ThreadContext,
                            nvrtc: PtxCompileRequest -> ProgramCalls, logAllocOk: bool, codeAllocOk: bool, errno: int)
    returns (result: GpuccResult)
    requires c.Compiler.Ptx? && c.Compiler.ptx.Valid() && c.Compiler.ptx.DispatchTable.Api.Bound()
    requires nvrtc(PtxRequest(c.Compiler.ptx, source, sourcePath)).Consistent()
    modifies c`LogBuffer, c`LogBufferSize, c`BytecodeSize, c`BytecodeBuffer, c`CodeBuffer, c`ErrorLog, tctx
    ensures var seen := ThroughTable(c.Compiler.ptx.DispatchTable.Api, nvrtc(PtxRequest(c.Compiler.ptx, source, sourcePath)));
            && result == PtxCompileResult(seen, logAllocOk, codeAllocOk, errno)
            && tctx.LastResult == PtxCompileLastResult(seen, logAllocOk, codeAllocOk, errno, old(tctx.LastResult))
            && (!Delivers(seen, logAllocOk, codeAllocOk) ==> unchanged(c))
            && (Delivers(seen, logAllocOk, codeAllocOk) ==>
                  && c.CodeBuffer == HeapCopy(seen.ptxSize, seen.ptx)
                  && c.ErrorLog == HeapCopy(seen.logSize, seen.log)
                  && c.OutputsMatch())
  {
    var compiler := c.Compiler.ptx;
    var seen := ThroughTable(compiler.DispatchTable.Api, nvrtc(PtxRequest(compiler, source, sourcePath)));
    result := CompileSeen(c, seen, tctx, logAllocOk, codeAllocOk, errno);
  }

  /** gpuccCompileBytecodePtx once the answers of the nvrtc calls are known. */
  method CompileSeen(c: BytecodeContainer, seen: ProgramCalls, tctx: ThreadContext, logAllocOk: bool, codeAllocOk: bool, errno: int)
    returns (result: GpuccResult)
    modifies c`LogBuffer, c`LogBufferSize, c`BytecodeSize, c`BytecodeBuffer, c`CodeBuffer, c`ErrorLog, tctx
    ensures result == PtxCompileResult(seen, logAllocOk, codeAllocOk, errno)
    ensures tctx.LastResult == PtxCompileLastResult(seen, logAllocOk, codeAllocOk, errno, old(tctx.LastResult))
    ensures !Delivers(seen, logAllocOk, codeAllocOk) ==> unchanged(c)
    ensures Delivers(seen, logAllocOk, codeAllocOk) ==>
              && c.CodeBuffer == HeapCopy(seen.ptxSize, seen.ptx)
              && c.ErrorLog == HeapCopy(seen.logSize, seen.log)
              && c.OutputsMatch()
  {
    var failed := MakeResult(RESULT_CODE_COMPILE_FAILED);
    if seen.createResult != NVRTC_SUCCESS {
      failed := failed.(PlatformResult := seen.createResult);
      var _ := tctx.SetLastResult(MakeResultNvrtc(seen.createResult));
      return failed;
    }
    if seen.compileResult != NVRTC_SUCCESS {
      // Recorded, but the compile goes on to retrieve the PTX and the log.
      failed := failed.(PlatformResult := seen.compileResult);
      var _ := tctx.SetLastResult(MakeResultNvrtc(seen.compileResult));
    }
    // A failing nvrtcGetPTXSize or nvrtcGetProgramLogSize is only reported to the debugger.
    if seen.logSize != 0 && !logAllocOk {
      var _ := tctx.SetLastResult(MakeResultErrno(RESULT_CODE_OUT_OF_HOST_MEMORY, errno));
      failed := failed.(PlatformResult := errno);
      return failed;
    }
    if seen.ptxSize != 0 && !codeAllocOk {
      var _ := tctx.SetLastResult(MakeResultErrno(RESULT_CODE_OUT_OF_HOST_MEMORY, errno));
      failed := failed.(PlatformResult := errno);
      return failed;
    }
    result := RetrieveCopies(c, seen, tctx);
  }

  /**
   * The end of gpuccCompileBytecodePtx, once both copy buffers are in
   * hand: a failing nvrtcGetPTX or nvrtcGetProgramLog records its code and
   * fails the compile; otherwise the program is destroyed and the copies
   * handed to the container.
   */
  method RetrieveCopies(c: BytecodeContainer, seen: ProgramCalls, tctx: ThreadContext) returns (result: GpuccResult)
    modifies c`LogBuffer, c`LogBufferSize, c`BytecodeSize, c`BytecodeBuffer, c`CodeBuffer, c`ErrorLog, tctx
    ensures Retrieves(seen) ==> result == MakeResult(RESULT_CODE_SUCCESS) && tctx.LastResult == old(tctx.LastResult)
    ensures Retrieves(seen) ==>
              c.CodeBuffer == HeapCopy(seen.ptxSize, seen.ptx) && c.ErrorLog == HeapCopy(seen.logSize, seen.log) && c.OutputsMatch()
    ensures !Retrieves(seen) ==> result == MakeResult(RESULT_CODE_COMPILE_FAILED) && unchanged(c)
    ensures seen.ptxSize != 0 && seen.getPtxResult != NVRTC_SUCCESS ==> tctx.LastResult == MakeResultNvrtc(seen.getPtxResult)
    ensures ((seen.ptxSize == 0 || seen.getPtxResult == NVRTC_SUCCESS) && seen.logSize != 0 && seen.getLogResult != NVRTC_SUCCESS)
              ==> tctx.LastResult == MakeResultNvrtc(seen.getLogResult)
  {
    if seen.ptxSize != 0 && seen.getPtxResult != NVRTC_SUCCESS {
      var _ := tctx.SetLastResult(MakeResultNvrtc(seen.getPtxResult));
      return MakeResult(RESULT_CODE_COMPILE_FAILED);
    }
    if seen.logSize != 0 && seen.getLogResult != NVRTC_SUCCESS {
      var _ := tctx.SetLastResult(MakeResultNvrtc(seen.getLogResult));
      return MakeResult(RESULT_CODE_COMPILE_FAILED);
    }
    var code := if seen.ptxSize != 0 then Some(seen.ptx) else None;
    var log := if seen.logSize != 0 then Some(seen.log) else None;
    KeepCopies(c, code, log);
    result := MakeResult(RESULT_CODE_SUCCESS);
  }

  /** gpuccCleanupCompilerPtx: an NVRTC compiler holds nothing to release. */
  method CleanupCompilerPtx(ptx: CompilerPtx) returns (disposed: seq<Disposal>)
    ensures disposed == []
  {
    disposed := [];
  }

  // ---------------------------------------------------------------------
  // gpuccCreateCompilerPtx: the define arguments and the block
  // ---------------------------------------------------------------------

  /** The size of the buffer each define argument is formatted into. */
  const ARGBUF_SIZE: nat := 256

  /** A define value is written out when it is present and not empty. */
  predicate HasValue(value: Option<CStr>)
  {
    value.Some? && |value.value| != 0
  }

  /** Two strings without nul bytes joined are a string without nul bytes. */
  function Join(a: CStr, b: CStr): (s: CStr)
    ensures |s| == |a| + |b| && s[..|a|] == a && s[|a|..] == b
  {
    assert forall i | 0 <= i < |a + b| :: IsCChar((a + b)[i]) by {
      forall i | 0 <= i < |a + b|
        ensures IsCChar((a + b)[i])
      {
        if i < |a| { assert (a + b)[i] == a[i]; } else { assert (a + b)[i] == b[i - |a|]; }
      }
    }
    a + b
  }

  /** "-D %s=%s" for a define with a value, "-D %s" for one without. */
  function FormatDefine(symbol: CStr, value: Option<CStr>): (arg: CStr)
    ensures |arg| >= 3 + |symbol| && arg[..3] == "-D " && arg[3..3 + |symbol|] == symbol
    ensures HasValue(value) ==> arg[3 + |symbol|..] == "=" + value.value
    ensures !HasValue(value) ==> |arg| == 3 + |symbol|
  {
    var head := Join("-D ", symbol);
    assert head[..3] == "-D " && head[3..] == symbol;
    if HasValue(value) then
      var arg := Join(head, Join("=", value.value));
      assert arg[..|head|] == head;
      assert arg[..3] == head[..3];
      assert arg[3..3 + |symbol|] == head[3..];
      arg
    else head
  }

  /** What the size loop reserves for define i: "-D ", the symbol, "=" and the value when there is one, and a nul. */
  function DefineSize(symbol: CStr, value: Option<CStr>): nat
  {
    3 + |symbol| + (if value.Some? && |value.value| != 0 then 1 + |value.value| else 0) + 1
  }

  /** The reserved size is exactly the formatted argument and its nul. */
  lemma {:induction false} DefineSizeIsFormatted(symbol: CStr, value: Option<CStr>)
    ensures DefineSize(symbol, value) == |FormatDefine(symbol, value)| + 1
    ensures DefineSize(symbol, value) == Utf8Size(Some(FormatDefine(symbol, value)))
  {
    var arg := FormatDefine(symbol, value);
    if HasValue(value) {
      assert |arg[3 + |symbol|..]| == 1 + |value.value|;
    }
  }

  /** Define i of a configuration, formatted. */
  function DefineArgument(config: CompilerInit, i: nat): CStr
    requires config.DefinesReadable() && i < config.DefineCount
  {
    FormatDefine(config.Symbol(i), config.Value(i))
  }

  /** Every formatted define fits the argument buffer with its nul, as _snprintf_s demands. */
  predicate DefinesFit(config: CompilerInit)
    requires config.DefinesReadable()
  {
    forall i | 0 <= i < config.DefineCount :: |DefineArgument(config, i)| < ARGBUF_SIZE
  }

  /** The strings an NVRTC compiler interns, in order: the profile, then each formatted define. */
  function PtxStrings(config: CompilerInit): (strs: seq<Option<CStr>>)
    requires config.DefinesReadable()
    ensures |strs| == 1 + config.DefineCount && strs[0] == config.TargetProfile
  {
    [config.TargetProfile] + FormattedDefines(config, config.DefineCount)
  }

  /** The first n defines, formatted. */
  function FormattedDefines(config: CompilerInit, n: nat): (args: seq<Option<CStr>>)
    requires config.DefinesReadable() && n <= config.DefineCount
    ensures |args| == n
  {
    if n == 0 then [] else FormattedDefines(config, n - 1) + [Some(DefineArgument(config, n - 1))]
  }

  /** Entry i of the first n formatted defines is define i. */
  lemma {:induction false} FormattedDefinesAt(config: CompilerInit, n: nat, i: nat)
    requires config.DefinesReadable() && i < n <= config.DefineCount
    ensures FormattedDefines(config, n)[i] == Some(DefineArgument(config, i))
    decreases n
  {
    if i < n - 1 {
      FormattedDefinesAt(config, n - 1, i);
    }
  }

  /** After the profile, string 1+i of an NVRTC compiler is define i formatted as an argument. */
  lemma {:induction false} PtxStringsAt(config: CompilerInit, i: nat)
    requires config.DefinesReadable() && i < config.DefineCount
    ensures PtxStrings(config)[1 + i] == Some(DefineArgument(config, i))
  {
    FormattedDefinesAt(config, config.DefineCount, i);
  }

  /** Where the strings start: after the compiler record, the define pointers and the argument pointers. */
  function PtxStringsStart(defineCount: nat): nat
  {
    PTX_COMPILER_SIZE + PTR_SIZE * defineCount + PTR_SIZE * PTX_MAX_ARGS
  }

  /** nbneed: the record, both pointer arrays, strlen+1 of the profile and the reserved size of every define. */
  function PtxSize(config: CompilerInit): nat
    requires config.DefinesReadable()
  {
    PtxStringsStart(config.DefineCount) + Utf8Sizes(PtxStrings(config))
  }

  /** Reserving define i adds its DefineSize. */
  lemma {:induction false} PtxSizesStep(config: CompilerInit, i: nat)
    requires config.DefinesReadable() && i < config.DefineCount
    ensures Utf8Sizes(PtxStrings(config)[..2 + i])
            == Utf8Sizes(PtxStrings(config)[..1 + i]) + DefineSize(config.Symbol(i), config.Value(i))
  {
    PtxStringsAt(config, i);
    Utf8SizesStep(PtxStrings(config), 1 + i);
    DefineSizeIsFormatted(config.Symbol(i), config.Value(i));
  }

  /** Reserving the profile alone takes strlen+1 bytes. */
  lemma {:induction false} PtxSizesFirst(config: CompilerInit)
    requires config.DefinesReadable() && config.TargetProfile.Some?
    ensures Utf8Sizes(PtxStrings(config)[..1]) == |config.TargetProfile.value| + 1
  {
    Utf8SizesStep(PtxStrings(config), 0);
    assert PtxStrings(config)[..0] == [];
  }

  /** Reserving every string is PtxSize's sum. */
  lemma {:induction false} PtxSizesAll(config: CompilerInit)
    requires config.DefinesReadable()
    ensures Utf8Sizes(PtxStrings(config)[..1 + config.DefineCount]) == Utf8Sizes(PtxStrings(config))
  {
    assert PtxStrings(config)[..1 + config.DefineCount] == PtxStrings(config);
  }

  /** One round of the size loop: "-D ", the symbol, "=" and the value when it is present and not empty, and the nul. */
  method DefineBytes(symbol: CStr, value: Option<CStr>) returns (nbneed: nat)
    ensures nbneed == DefineSize(symbol, value)
  {
    nbneed := 3;
    nbneed := nbneed + |symbol|;
    if value.Some? {
      var vlen := |value.value|;
      if vlen != 0 {
        nbneed := nbneed + 1;
        nbneed := nbneed + vlen;
      }
    }
    nbneed := nbneed + 1;
  }

  /** The size loop of gpuccCreateCompilerPtx. */
  method PtxBytesNeeded(config: CompilerInit) returns (nbneed: nat)
    requires config.DefinesReadable() && config.TargetProfile.Some?
    ensures nbneed == PtxSize(config)
  {
    var n := config.DefineCount;
    nbneed := 0;
    nbneed := nbneed + PTX_COMPILER_SIZE;
    nbneed := nbneed + PTR_SIZE * n;
    nbneed := nbneed + PTR_SIZE * PTX_MAX_ARGS;
    nbneed := nbneed + |config.TargetProfile.value| + 1;
    PtxSizesFirst(config);
    var i := 0;
    while i < n
      invariant 0 <= i <= n
      invariant nbneed == PtxStringsStart(n) + Utf8Sizes(PtxStrings(config)[..1 + i])
    {
      PtxSizesStep(config, i);
      var size := DefineBytes(config.Symbol(i), config.Value(i));
      nbneed := nbneed + size;
      i := i + 1;
    }
    PtxSizesAll(config);
  }

  /** The layout gpuccCreateCompilerPtx leaves in its block: the strings interned, the profile first, define i at part 1+i. */
  predicate PtxLayout(block: seq<Byte>, config: CompilerInit, gpuArchitecture: nat, defines: seq<nat>)
    requires config.DefinesReadable()
  {
    var start := PtxStringsStart(config.DefineCount);
    var parts := Utf8Images(PtxStrings(config));
    && Interned(block, start, PtxStrings(config))
    && gpuArchitecture == start
    && defines == DefineOffsets(start, parts, config.DefineCount)
  }

  /** The offsets of the first n defines, which follow the profile. */
  function DefineOffsets(start: nat, parts: seq<seq<Byte>>, n: nat): (defines: seq<nat>)
    requires n < |parts|
    ensures |defines| == n
  {
    if n == 0 then [] else DefineOffsets(start, parts, n - 1) + [start + Offset(parts, n)]
  }

  /** Entry k of the first n define offsets is define k's string. */
  lemma {:induction false} DefineOffsetsAt(start: nat, parts: seq<seq<Byte>>, n: nat, k: nat)
    requires n < |parts| && k < n
    ensures DefineOffsets(start, parts, n)[k] == start + Offset(parts, 1 + k)
    decreases n
  {
    if k < n - 1 {
      DefineOffsetsAt(start, parts, n - 1, k);
    }
  }

  /** The interning loop over the formatted defines: each is put at the cursor and its offset recorded. */
  method InternDefineArguments(block: array<Byte>, start: nat, ptr0: nat, xs: seq<Option<CStr>>, ghost parts: seq<seq<Byte>>)
    returns (defines: seq<nat>, ptr: nat)
    requires 1 <= |xs| && parts == Utf8Images(xs)
    requires Carved(block[..], start, ptr0, parts, 1)
    modifies block
    ensures Carved(block[..], start, ptr, parts, |xs|)
    ensures defines == DefineOffsets(start, parts, |xs| - 1)
  {
    ptr := ptr0;
    defines := [];
    var i := 0;
    while i < |xs| - 1
      invariant 0 <= i <= |xs| - 1 && defines == DefineOffsets(start, parts, i)
      invariant Carved(block[..], start, ptr, parts, 1 + i)
    {
      var at;
      at, ptr := InternDefineArgument(block, start, ptr, xs, i, parts, defines);
      defines := defines + [at];
      i := i + 1;
    }
  }

  /** One iteration of that loop: define i is put at the cursor and the cursor is recorded as its offset. */
  method InternDefineArgument(block: array<Byte>, start: nat, ptr: nat, xs: seq<Option<CStr>>, i: nat, ghost parts: seq<seq<Byte>>,
                              ghost before: seq<nat>)
    returns (at: nat, next: nat)
    requires 1 + i < |xs| && parts == Utf8Images(xs)
    requires Carved(block[..], start, ptr, parts, 1 + i) && before == DefineOffsets(start, parts, i)
    modifies block
    ensures Carved(block[..], start, next, parts, 2 + i)
    ensures before + [at] == DefineOffsets(start, parts, i + 1)
  {
    Utf8ImagesAt(xs, 1 + i);
    at, next := InternNext(block, start, ptr, xs, 1 + i, 2 + i, parts);
  }

  /** The interning step of gpuccCreateCompilerPtx, writing into a block of nbneed bytes. */
  method InternPtxStrings(block: array<Byte>, config: CompilerInit) returns (gpuArchitecture: nat, defines: seq<nat>)
    requires config.DefinesReadable() && DefinesFit(config) && block.Length == PtxSize(config)
    modifies block
    ensures PtxLayout(block[..], config, gpuArchitecture, defines)
  {
    var strs := PtxStrings(config);
    ghost var parts := Utf8Images(strs);
    var start := PtxStringsStart(config.DefineCount);
    Utf8SizesAreImages(strs);
    Utf8ImagesAt(strs, 0);
    var ptr;
    gpuArchitecture, ptr := InternNext(block, start, start, strs, 0, 1, parts);
    defines, ptr := InternDefineArguments(block, start, ptr, strs, parts);
    InternedAll(block[..], start, ptr, strs);
  }

  /** The profile reads back from the block at the GpuArchitecture offset. */
  lemma {:induction false} PtxProfileReadsBack(block: seq<Byte>, config: CompilerInit, gpuArchitecture: nat, defines: seq<nat>)
    requires config.DefinesReadable() && config.TargetProfile.Some?
    requires PtxLayout(block, config, gpuArchitecture, defines)
    ensures CStrAt(block, gpuArchitecture) == config.TargetProfile.value
  {
    InternedStringAt(block, PtxStringsStart(config.DefineCount), PtxStrings(config), 0, gpuArchitecture);
  }

  /** Entry k of the define array points at define k's formatted argument. */
  lemma {:induction false} PtxDefineReadsBack(block: seq<Byte>, config: CompilerInit, gpuArchitecture: nat, defines: seq<nat>, k: nat)
    requires config.DefinesReadable() && k < config.DefineCount
    requires PtxLayout(block, config, gpuArchitecture, defines)
    ensures CStrAt(block, defines[k]) == FormatDefine(config.Symbol(k), config.Value(k))
  {
    PtxStringsAt(config, k);
    DefineOffsetsAt(PtxStringsStart(config.DefineCount), Utf8Images(PtxStrings(config)), config.DefineCount, k);
    InternedStringAt(block, PtxStringsStart(config.DefineCount), PtxStrings(config), 1 + k, defines[k]);
  }

  // ---------------------------------------------------------------------
  // gpuccCreateCompilerPtx: the argument list
  // ---------------------------------------------------------------------

  const ARG_GPU_ARCHITECTURE: string := "--gpu-architecture"
  const ARG_ENABLE_DEBUG_INFO: string := "--device-debug"
  const ARG_GENERATE_LINE_INFO: string := "--generate-line-info"
  const ARG_ENABLE_FAST_MATH: string := "--use-fast-math"
  const ARG_DISABLE_FTZ: string := "--ftz=false"
  const ARG_PRECISION_SQRT: string := "--prec-sqrt=true"
  const ARG_PRECISION_DIVISION: string := "--prec-div=true"
  const ARG_DISABLE_FMAD: string := "--fmad=false"

  /** The arguments GPUCC_COMPILER_FLAG_DEBUG adds. */
  function DebugArguments(flags: set<CompilerFlag>): seq<PtxArg>
  {
    if Debug in flags then [Literal(ARG_ENABLE_DEBUG_INFO), Literal(ARG_GENERATE_LINE_INFO)] else []
  }

  /** Disabling optimisations turns off flush-to-zero, fast square root and division, and fused multiply-add; otherwise fast math is on. */
  function OptimizationArguments(flags: set<CompilerFlag>): seq<PtxArg>
  {
    if DisableOptimizations in flags
    then [Literal(ARG_DISABLE_FTZ), Literal(ARG_PRECISION_SQRT), Literal(ARG_PRECISION_DIVISION), Literal(ARG_DISABLE_FMAD)]
    else [Literal(ARG_ENABLE_FAST_MATH)]
  }

  /** The arguments GPUCC_COMPILER_FLAG_ENABLE_IEEE_STRICT adds. */
  function StrictnessArguments(flags: set<CompilerFlag>): seq<PtxArg>
  {
    if EnableIeeeStrictness in flags
    then [Literal(ARG_DISABLE_FTZ), Literal(ARG_PRECISION_SQRT), Literal(ARG_PRECISION_DIVISION)]
    else []
  }

  /** The arguments the compiler flags add: debug information, then optimisation, then IEEE strictness. */
  function PtxFlagArguments(flags: set<CompilerFlag>): seq<PtxArg>
  {
    DebugArguments(flags) + OptimizationArguments(flags) + StrictnessArguments(flags)
  }

  /** One argument per define, pointing at its formatted string. */
  function DefineArguments(defines: seq<nat>): (args: seq<PtxArg>)
    ensures |args| == |defines|
  {
    seq(|defines|, i requires 0 <= i < |defines| => InBlock(defines[i]))
  }

  /** The argument list of gpuccCreateCompilerPtx: the architecture pair, the flag arguments, then every define. */
  function PtxArguments(flags: set<CompilerFlag>, gpuArchitecture: nat, defines: seq<nat>): seq<PtxArg>
  {
    [Literal(ARG_GPU_ARCHITECTURE), InBlock(gpuArchitecture)] + PtxFlagArguments(flags) + DefineArguments(defines)
  }

  /** The argument list, grouped as gpuccCreateCompilerPtx stores it. */
  lemma {:induction false} PtxArgumentsSplit(flags: set<CompilerFlag>, gpuArchitecture: nat, defines: seq<nat>)
    ensures PtxArguments(flags, gpuArchitecture, defines)
            == [Literal(ARG_GPU_ARCHITECTURE), InBlock(gpuArchitecture)] + DebugArguments(flags)
               + OptimizationArguments(flags) + StrictnessArguments(flags) + DefineArguments(defines)
  {
    var pair := [Literal(ARG_GPU_ARCHITECTURE), InBlock(gpuArchitecture)];
    var d, o, t, r := DebugArguments(flags), OptimizationArguments(flags), StrictnessArguments(flags), DefineArguments(defines);
    calc {
      PtxArguments(flags, gpuArchitecture, defines);
      pair + (d + o + t) + r;
      { assert pair + (d + o + t) == pair + d + o + t; }
      pair + d + o + t + r;
    }
  }

  /** The list opens with the architecture pair and ends with the defines, in order. */
  lemma {:induction false} PtxArgumentsShape(flags: set<CompilerFlag>, gpuArchitecture: nat, defines: seq<nat>)
    ensures var args := PtxArguments(flags, gpuArchitecture, defines);
            && |args| == 2 + |PtxFlagArguments(flags)| + |defines|
            && args[0] == Literal(ARG_GPU_ARCHITECTURE) && args[1] == InBlock(gpuArchitecture)
            && forall k | 0 <= k < |defines| :: args[2 + |PtxFlagArguments(flags)| + k] == InBlock(defines[k])
  {
  }

  /** How many arguments the flags add: 2 for debug, 4 or else 1 for optimisation, 3 for IEEE strictness. */
  lemma {:induction false} PtxFlagArgumentCount(flags: set<CompilerFlag>)
    ensures |PtxFlagArguments(flags)|
            == (if Debug in flags then 2 else 0) + (if DisableOptimizations in flags then 4 else 1)
               + (if EnableIeeeStrictness in flags then 3 else 0)
  {
  }

  /** Warnings-as-errors, row-major matrices, 16-bit types and flow-control avoidance add no argument. */
  lemma {:induction false} PtxIgnoresOtherFlags(flags: set<CompilerFlag>, f: CompilerFlag)
    requires f != Debug && f != DisableOptimizations && f != EnableIeeeStrictness
    ensures PtxFlagArguments(flags + {f}) == PtxFlagArguments(flags - {f})
  {
    assert (Debug in flags + {f}) == (Debug in flags - {f});
    assert (DisableOptimizations in flags + {f}) == (DisableOptimizations in flags - {f});
    assert (EnableIeeeStrictness in flags + {f}) == (EnableIeeeStrictness in flags - {f});
  }

  /** With optimisations disabled and IEEE strictness on, "--ftz=false" is passed twice. */
  lemma {:induction false} StrictUnoptimizedRepeatsFtz(flags: set<CompilerFlag>)
    requires DisableOptimizations in flags && EnableIeeeStrictness in flags
    ensures multiset(PtxFlagArguments(flags))[Literal(ARG_DISABLE_FTZ)] == 2
  {
    var debug, opt, ieee := DebugArguments(flags), OptimizationArguments(flags), StrictnessArguments(flags);
    assert multiset(debug)[Literal(ARG_DISABLE_FTZ)] == 0;
    assert multiset(opt)[Literal(ARG_DISABLE_FTZ)] == 1;
    assert multiset(ieee)[Literal(ARG_DISABLE_FTZ)] == 1;
  }

  /** gpuccPtxStoreArg on the list built so far: the capped list grows by `arg`. */
  method StorePtxArg(ptx: CompilerPtx, arg: PtxArg, ghost want: seq<PtxArg>) returns (ghost wanted: seq<PtxArg>)
    requires ptx.Valid() && ptx.Args() == Capped(want, PTX_MAX_ARGS)
    modifies ptx`ArgumentCount, ptx.ClArguments
    ensures wanted == want + [arg]
    ensures ptx.Valid() && ptx.Args() == Capped(wanted, PTX_MAX_ARGS)
  {
    ptx.StoreArg(arg);
    CappedAppend(want, arg, PTX_MAX_ARGS);
    wanted := want + [arg];
  }

  /** The architecture pair and the debug arguments, on an empty argument array. */
  method StoreArchitectureArguments(ptx: CompilerPtx, flags: set<CompilerFlag>)
    requires ptx.Valid() && ptx.ArgumentCount == 0
    modifies ptx`ArgumentCount, ptx.ClArguments
    ensures ptx.Valid()
    ensures ptx.Args() == Capped([Literal(ARG_GPU_ARCHITECTURE), InBlock(ptx.GpuArchitecture)] + DebugArguments(flags), PTX_MAX_ARGS)
  {
    ghost var want: seq<PtxArg> := [];
    want := StorePtxArg(ptx, Literal(ARG_GPU_ARCHITECTURE), want);
    want := StorePtxArg(ptx, InBlock(ptx.GpuArchitecture), want);
    if Debug in flags {
      want := StorePtxArg(ptx, Literal(ARG_ENABLE_DEBUG_INFO), want);
      want := StorePtxArg(ptx, Literal(ARG_GENERATE_LINE_INFO), want);
    }
  }

  /** The optimisation arguments, after the debug ones. */
  method StoreOptimizationArguments(ptx: CompilerPtx, flags: set<CompilerFlag>, ghost want: seq<PtxArg>) returns (ghost wanted: seq<PtxArg>)
    requires ptx.Valid() && ptx.Args() == Capped(want, PTX_MAX_ARGS)
    modifies ptx`ArgumentCount, ptx.ClArguments
    ensures wanted == want + OptimizationArguments(flags)
    ensures ptx.Valid() && ptx.Args() == Capped(wanted, PTX_MAX_ARGS)
  {
    wanted := want;
    if DisableOptimizations in flags {
      wanted := StorePtxArg(ptx, Literal(ARG_DISABLE_FTZ), wanted);
      wanted := StorePtxArg(ptx, Literal(ARG_PRECISION_SQRT), wanted);
      wanted := StorePtxArg(ptx, Literal(ARG_PRECISION_DIVISION), wanted);
      wanted := StorePtxArg(ptx, Literal(ARG_DISABLE_FMAD), wanted);
    } else {
      wanted := StorePtxArg(ptx, Literal(ARG_ENABLE_FAST_MATH), wanted);
    }
  }

  /**
   * The IEEE-strictness arguments, after the optimisation ones. Warnings
   * as errors, row-major matrices, 16-bit types and flow-control avoidance
   * are checked in between but only reported to the debugger.
   */
  method StoreStrictnessArguments(ptx: CompilerPtx, flags: set<CompilerFlag>, ghost want: seq<PtxArg>) returns (ghost wanted: seq<PtxArg>)
    requires ptx.Valid() && ptx.Args() == Capped(want, PTX_MAX_ARGS)
    modifies ptx`ArgumentCount, ptx.ClArguments
    ensures wanted == want + StrictnessArguments(flags)
    ensures ptx.Valid() && ptx.Args() == Capped(wanted, PTX_MAX_ARGS)
  {
    wanted := want;
    if EnableIeeeStrictness in flags {
      wanted := StorePtxArg(ptx, Literal(ARG_DISABLE_FTZ), wanted);
      wanted := StorePtxArg(ptx, Literal(ARG_PRECISION_SQRT), wanted);
      wanted := StorePtxArg(ptx, Literal(ARG_PRECISION_DIVISION), wanted);
    }
  }

  /** Appending one more define argument extends the define arguments of the prefix. */
  lemma {:induction false} DefineArgumentsStep(defines: seq<nat>, i: nat)
    requires i < |defines|
    ensures DefineArguments(defines[..i + 1]) == DefineArguments(defines[..i]) + [InBlock(defines[i])]
  {
  }

  /** The define loop of the argument list. */
  method StoreDefineArguments(ptx: CompilerPtx, ghost want: seq<PtxArg>) returns (ghost wanted: seq<PtxArg>)
    requires ptx.Valid() && ptx.Args() == Capped(want, PTX_MAX_ARGS)
    modifies ptx`ArgumentCount, ptx.ClArguments
    ensures wanted == want + DefineArguments(ptx.DefineArray)
    ensures ptx.Valid() && ptx.Args() == Capped(wanted, PTX_MAX_ARGS)
  {
    var defines := ptx.DefineArray;
    var n := |defines|;
    wanted := want;
    assert defines[..0] == [];
    var i := 0;
    while i < n
      invariant 0 <= i <= n
      invariant wanted == want + DefineArguments(defines[..i])
      invariant ptx.Valid() && ptx.Args() == Capped(wanted, PTX_MAX_ARGS)
    {
      DefineArgumentsStep(defines, i);
      wanted := StorePtxArg(ptx, InBlock(defines[i]), wanted);
      i := i + 1;
    }
    assert defines[..n] == defines;
  }

  /** The argument list of a fresh compiler, stored argument by argument in the source's order. */
  method StorePtxArguments(ptx: CompilerPtx, flags: set<CompilerFlag>)
    requires ptx.Valid() && ptx.ArgumentCount == 0
    modifies ptx`ArgumentCount, ptx.ClArguments
    ensures ptx.Valid() && ptx.Args() == Capped(PtxArguments(flags, ptx.GpuArchitecture, ptx.DefineArray), PTX_MAX_ARGS)
  {
    StoreArchitectureArguments(ptx, flags);
    ghost var want := [Literal(ARG_GPU_ARCHITECTURE), InBlock(ptx.GpuArchitecture)] + DebugArguments(flags);
    want := StoreOptimizationArguments(ptx, flags, want);
    want := StoreStrictnessArguments(ptx, flags, want);
    want := StoreDefineArguments(ptx, want);
    PtxArgumentsSplit(flags, ptx.GpuArchitecture, ptx.DefineArray);
  }

  // ---------------------------------------------------------------------
  // gpuccCreateCompilerPtx
  // ---------------------------------------------------------------------

  /**
   * gpuccCreateCompilerPtx. Only a null profile is refused (recording
   * INVALID_TARGET_PROFILE); the profile is not parsed. Then nbneed is
   * computed, one block is allocated (a failure records
   * OUT_OF_HOST_MEMORY), the profile and the formatted defines are
   * interned, and the argument list is built.
   */
  method CreateCompilerPtx(config: CompilerInit, dispatch: PtxCompilerDispatch, tctx: ThreadContext, allocOk: bool)
    returns (ptx: CompilerPtx?)
    requires config.DefinesReadable() && DefinesFit(config)
    modifies tctx
    ensures config.TargetProfile.None? ==>
              ptx == null && tctx.LastResult == MakeResult(RESULT_CODE_INVALID_TARGET_PROFILE)
    ensures config.TargetProfile.Some? && !allocOk ==>
              ptx == null && tctx.LastResult == MakeResult(RESULT_CODE_OUT_OF_HOST_MEMORY)
    ensures config.TargetProfile.Some? && allocOk ==>
              ptx != null && fresh(ptx) && fresh(ptx.Block) && fresh(ptx.ClArguments) && tctx.LastResult == old(tctx.LastResult)
    ensures ptx != null ==>
              && ptx.Block.Length == PtxSize(config) && ptx.Valid()
              && PtxLayout(ptx.Block[..], config, ptx.GpuArchitecture, ptx.DefineArray)
              && ptx.Args() == Capped(PtxArguments(config.CompilerFlags, ptx.GpuArchitecture, ptx.DefineArray), PTX_MAX_ARGS)
              && ptx.CompilerType == COMPILER_TYPE_NVRTC && ptx.BytecodeType == BYTECODE_TYPE_PTX
              && ptx.DispatchTable == dispatch && ptx.DefineCount == config.DefineCount
              && ptx.TargetRuntime == config.TargetRuntime
  {
    if config.TargetProfile.None? {
      var _ := tctx.SetLastResult(MakeResult(RESULT_CODE_INVALID_TARGET_PROFILE));
      return null;
    }
    var nbneed := PtxBytesNeeded(config);
    if !allocOk {
      var _ := tctx.SetLastResult(MakeResult(RESULT_CODE_OUT_OF_HOST_MEMORY));
      return null;
    }
    var base := new Byte[nbneed];
    var gpuArchitecture, defines := InternPtxStrings(base, config);
    var arguments := new PtxArg[PTX_MAX_ARGS];
    ptx := new CompilerPtx(base, dispatch, gpuArchitecture, defines, config.DefineCount, config.TargetRuntime, arguments);
    StorePtxArguments(ptx, config.CompilerFlags);
    ptx.CompilerType := COMPILER_TYPE_NVRTC;
    ptx.BytecodeType := BYTECODE_TYPE_PTX;
  }
}
