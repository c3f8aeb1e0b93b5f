/**
 * The runtime loader for the NVRTC library: its dispatch table of eleven
 * entry points, the stubs (including the error-string table) and populate,
 * query and invalidate. The PTX backend compiles through this table.
 */
module PtxCompilerApi {
  import opened Wrappers
  import opened Gpucc
  import opened Loader

  const NVRTC_DLL: string := "nvrtc64_101_0.dll"

  // nvrtcResult, as numbered by the NVRTC 10.1 headers.
  const NVRTC_SUCCESS: int := 0
  const NVRTC_ERROR_OUT_OF_MEMORY: int := 1
  const NVRTC_ERROR_PROGRAM_CREATION_FAILURE: int := 2
  const NVRTC_ERROR_INVALID_INPUT: int := 3
  const NVRTC_ERROR_INVALID_PROGRAM: int := 4
  const NVRTC_ERROR_INVALID_OPTION: int := 5
  const NVRTC_ERROR_COMPILATION: int := 6
  const NVRTC_ERROR_BUILTIN_OPERATION_FAILURE: int := 7
  const NVRTC_ERROR_NO_NAME_EXPRESSIONS_AFTER_COMPILATION: int := 8
  const NVRTC_ERROR_NO_LOWERED_NAMES_BEFORE_COMPILATION: int := 9
  const NVRTC_ERROR_NAME_EXPRESSION_NOT_VALID: int := 10
  const NVRTC_ERROR_INTERNAL_ERROR: int := 11

  /** The codes nvrtcGetErrorString's stub names. */
  const NamedResults: set<int> := {NVRTC_SUCCESS, NVRTC_ERROR_OUT_OF_MEMORY, NVRTC_ERROR_PROGRAM_CREATION_FAILURE, NVRTC_ERROR_INVALID_INPUT, NVRTC_ERROR_INVALID_PROGRAM, NVRTC_ERROR_INVALID_OPTION, NVRTC_ERROR_COMPILATION, NVRTC_ERROR_BUILTIN_OPERATION_FAILURE, NVRTC_ERROR_NO_NAME_EXPRESSIONS_AFTER_COMPILATION, NVRTC_ERROR_NO_LOWERED_NAMES_BEFORE_COMPILATION, NVRTC_ERROR_NAME_EXPRESSION_NOT_VALID, NVRTC_ERROR_INTERNAL_ERROR}

  const UNKNOWN_RESULT_STRING: string := "nvrtcResult (unknown)"

  /** nvrtcGetErrorString's stub: the enumerator's own name for each of the twelve codes, a fixed text otherwise. */
  function GetErrorStringStub(result: int): (name: string)
    ensures result == NVRTC_SUCCESS ==> name == "NVRTC_SUCCESS"
    ensures result == NVRTC_ERROR_OUT_OF_MEMORY ==> name == "NVRTC_ERROR_OUT_OF_MEMORY"
    ensures result == NVRTC_ERROR_PROGRAM_CREATION_FAILURE ==> name == "NVRTC_ERROR_PROGRAM_CREATION_FAILURE"
    ensures result == NVRTC_ERROR_INVALID_INPUT ==> name == "NVRTC_ERROR_INVALID_INPUT"
    ensures result == NVRTC_ERROR_INVALID_PROGRAM ==> name == "NVRTC_ERROR_INVALID_PROGRAM"
    ensures result == NVRTC_ERROR_INVALID_OPTION ==> name == "NVRTC_ERROR_INVALID_OPTION"
    ensures result == NVRTC_ERROR_COMPILATION ==> name == "NVRTC_ERROR_COMPILATION"
    ensures result == NVRTC_ERROR_BUILTIN_OPERATION_FAILURE ==> name == "NVRTC_ERROR_BUILTIN_OPERATION_FAILURE"
    ensures result == NVRTC_ERROR_NO_NAME_EXPRESSIONS_AFTER_COMPILATION ==> name == "NVRTC_ERROR_NO_NAME_EXPRESSIONS_AFTER_COMPILATION"
    ensures result == NVRTC_ERROR_NO_LOWERED_NAMES_BEFORE_COMPILATION ==> name == "NVRTC_ERROR_NO_LOWERED_NAMES_BEFORE_COMPILATION"
    ensures result == NVRTC_ERROR_NAME_EXPRESSION_NOT_VALID ==> name == "NVRTC_ERROR_NAME_EXPRESSION_NOT_VALID"
    ensures result == NVRTC_ERROR_INTERNAL_ERROR ==> name == "NVRTC_ERROR_INTERNAL_ERROR"
    ensures name == UNKNOWN_RESULT_STRING <==> result !in NamedResults
  {
    if result == NVRTC_SUCCESS then "NVRTC_SUCCESS"
    else if result == NVRTC_ERROR_OUT_OF_MEMORY then "NVRTC_ERROR_OUT_OF_MEMORY"
    else if result == NVRTC_ERROR_PROGRAM_CREATION_FAILURE then "NVRTC_ERROR_PROGRAM_CREATION_FAILURE"
    else if result == NVRTC_ERROR_INVALID_INPUT then "NVRTC_ERROR_INVALID_INPUT"
    else if result == NVRTC_ERROR_INVALID_PROGRAM then "NVRTC_ERROR_INVALID_PROGRAM"
    else if result == NVRTC_ERROR_INVALID_OPTION then "NVRTC_ERROR_INVALID_OPTION"
    else if result == NVRTC_ERROR_COMPILATION then "NVRTC_ERROR_COMPILATION"
    else if result == NVRTC_ERROR_BUILTIN_OPERATION_FAILURE then "NVRTC_ERROR_BUILTIN_OPERATION_FAILURE"
    else if result == NVRTC_ERROR_NO_NAME_EXPRESSIONS_AFTER_COMPILATION then "NVRTC_ERROR_NO_NAME_EXPRESSIONS_AFTER_COMPILATION"
    else if result == NVRTC_ERROR_NO_LOWERED_NAMES_BEFORE_COMPILATION then "NVRTC_ERROR_NO_LOWERED_NAMES_BEFORE_COMPILATION"
    else if result == NVRTC_ERROR_NAME_EXPRESSION_NOT_VALID then "NVRTC_ERROR_NAME_EXPRESSION_NOT_VALID"
    else if result == NVRTC_ERROR_INTERNAL_ERROR then "NVRTC_ERROR_INTERNAL_ERROR"
    else UNKNOWN_RESULT_STRING
  }

  function VersionStub(major: Out<int>, minor: Out<int>): (r: (int, Out<int>, Out<int>))
    ensures r.0 == NVRTC_ERROR_INTERNAL_ERROR
    ensures WroteIfPresent(major, r.1, 0) && WroteIfPresent(minor, r.2, 0)
  {
    (NVRTC_ERROR_INTERNAL_ERROR, Store(major, 0), Store(minor, 0))
  }

  function CreateProgramStub(prog: Out<Option<Native>>): (r: (int, Out<Option<Native>>))
    ensures r.0 == NVRTC_ERROR_PROGRAM_CREATION_FAILURE
    ensures WroteIfPresent(prog, r.1, None)
  {
    (NVRTC_ERROR_PROGRAM_CREATION_FAILURE, Store(prog, None))
  }

  /** The program pointer is left as it was. */
  function DestroyProgramStub(prog: Out<Option<Native>>): (r: (int, Out<Option<Native>>))
    ensures r.0 == NVRTC_ERROR_INVALID_PROGRAM && r.1 == prog
  {
    (NVRTC_ERROR_INVALID_PROGRAM, prog)
  }

  function CompileProgramStub(): (result: int)
    ensures result == NVRTC_ERROR_INVALID_PROGRAM
  {
    NVRTC_ERROR_INVALID_PROGRAM
  }

  function GetPTXSizeStub(ptxSizeRet: Out<nat>): (r: (int, Out<nat>))
    ensures r.0 == NVRTC_ERROR_INVALID_PROGRAM
    ensures WroteIfPresent(ptxSizeRet, r.1, 0)
  {
    (NVRTC_ERROR_INVALID_PROGRAM, Store(ptxSizeRet, 0))
  }

  /** The destination buffer is not written. */
  function GetPTXStub(): (result: int)
    ensures result == NVRTC_ERROR_INVALID_PROGRAM
  {
    NVRTC_ERROR_INVALID_PROGRAM
  }

  function GetProgramLogSizeStub(logSizeRet: Out<nat>): (r: (int, Out<nat>))
    ensures r.0 == NVRTC_ERROR_INVALID_PROGRAM
    ensures WroteIfPresent(logSizeRet, r.1, 0)
  {
    (NVRTC_ERROR_INVALID_PROGRAM, Store(logSizeRet, 0))
  }

  /** The destination buffer is not written. */
  function GetProgramLogStub(): (result: int)
    ensures result == NVRTC_ERROR_INVALID_PROGRAM
  {
    NVRTC_ERROR_INVALID_PROGRAM
  }

  function AddNameExpressionStub(): (result: int)
    ensures result == NVRTC_ERROR_INVALID_PROGRAM
  {
    NVRTC_ERROR_INVALID_PROGRAM
  }

  function GetLoweredNameStub(loweredName: Out<Option<CStr>>): (r: (int, Out<Option<CStr>>))
    ensures r.0 == NVRTC_ERROR_INVALID_PROGRAM
    ensures WroteIfPresent(loweredName, r.1, None)
  {
    (NVRTC_ERROR_INVALID_PROGRAM, Store(loweredName, None))
  }

  /** No stub reports success. */
  lemma {:induction false} StubsNeverSucceed(major: Out<int>, minor: Out<int>, prog: Out<Option<Native>>, size: Out<nat>, name: Out<Option<CStr>>)
    ensures VersionStub(major, minor).0 != NVRTC_SUCCESS
    ensures CreateProgramStub(prog).0 != NVRTC_SUCCESS
    ensures DestroyProgramStub(prog).0 != NVRTC_SUCCESS
    ensures CompileProgramStub() != NVRTC_SUCCESS
    ensures GetPTXSizeStub(size).0 != NVRTC_SUCCESS && GetPTXStub() != NVRTC_SUCCESS
    ensures GetProgramLogSizeStub(size).0 != NVRTC_SUCCESS && GetProgramLogStub() != NVRTC_SUCCESS
    ensures AddNameExpressionStub() != NVRTC_SUCCESS && GetLoweredNameStub(name).0 != NVRTC_SUCCESS
  {
  }

  /** The eleven function-pointer fields of PTXCOMPILERAPI_DISPATCH. */
  datatype Entries = Entries(
    nvrtcGetErrorString: Entry,
    nvrtcVersion: Entry,
    nvrtcCreateProgram: Entry,
    nvrtcDestroyProgram: Entry,
    nvrtcCompileProgram: Entry,
    nvrtcGetPTXSize: Entry,
    nvrtcGetPTX: Entry,
    nvrtcGetProgramLogSize: Entry,
    nvrtcGetProgramLog: Entry,
    nvrtcAddNameExpression: Entry,
    nvrtcGetLoweredName: Entry)
  {
    predicate AllNull()
    {
      nvrtcGetErrorString == Null &&
      nvrtcVersion == Null &&
      nvrtcCreateProgram == Null &&
      nvrtcDestroyProgram == Null &&
      nvrtcCompileProgram == Null &&
      nvrtcGetPTXSize == Null &&
      nvrtcGetPTX == Null &&
      nvrtcGetProgramLogSize == Null &&
      nvrtcGetProgramLog == Null &&
      nvrtcAddNameExpression == Null &&
      nvrtcGetLoweredName == Null
    }

    /** Every field can be called: none is Null. */
    predicate Bound()
    {
      nvrtcGetErrorString != Null &&
      nvrtcVersion != Null &&
      nvrtcCreateProgram != Null &&
      nvrtcDestroyProgram != Null &&
      nvrtcCompileProgram != Null &&
      nvrtcGetPTXSize != Null &&
      nvrtcGetPTX != Null &&
      nvrtcGetProgramLogSize != Null &&
      nvrtcGetProgramLog != Null &&
      nvrtcAddNameExpression != Null &&
      nvrtcGetLoweredName != Null
    }

    predicate AllStubs()
    {
      nvrtcGetErrorString == Stub &&
      nvrtcVersion == Stub &&
      nvrtcCreateProgram == Stub &&
      nvrtcDestroyProgram == Stub &&
      nvrtcCompileProgram == Stub &&
      nvrtcGetPTXSize == Stub &&
      nvrtcGetPTX == Stub &&
      nvrtcGetProgramLogSize == Stub &&
      nvrtcGetProgramLog == Stub &&
      nvrtcAddNameExpression == Stub &&
      nvrtcGetLoweredName == Stub
    }
  }

  /**
   * What the program calls a compile makes answer: each result code, the
   * program handle, the two sizes written, and the bytes nvrtcGetPTX and
   * nvrtcGetProgramLog copy out.
   */
  datatype ProgramCalls = ProgramCalls(
    createResult: int, program: Option<Native>,
    compileResult: int,
    ptxSizeResult: int, ptxSize: nat,
    logSizeResult: int, logSize: nat,
    getPtxResult: int, ptx: seq<Byte>,
    getLogResult: int, log: seq<Byte>)
  {
    /** The copied-out bytes fill the sizes reported. */
    predicate Consistent()
    {
      |ptx| == ptxSize && |log| == logSize
    }
  }

  /**
   * The answers seen through the table: where an entry is a stub, the stub's
   * answer replaces the library's.
   */
  function ThroughTable(api: Entries, native: ProgramCalls): (seen: ProgramCalls)
    requires api.Bound()
    ensures api.nvrtcCreateProgram == Stub ==>
      seen.createResult == NVRTC_ERROR_PROGRAM_CREATION_FAILURE && seen.program == None
    ensures api.nvrtcCreateProgram.Resolved? ==>
      seen.createResult == native.createResult && seen.program == native.program
    ensures seen.compileResult == (if api.nvrtcCompileProgram == Stub then NVRTC_ERROR_INVALID_PROGRAM else native.compileResult)
    ensures api.nvrtcGetPTXSize == Stub ==> seen.ptxSizeResult == NVRTC_ERROR_INVALID_PROGRAM && seen.ptxSize == 0
    ensures api.nvrtcGetPTXSize.Resolved? ==> seen.ptxSizeResult == native.ptxSizeResult && seen.ptxSize == native.ptxSize
    ensures api.nvrtcGetProgramLogSize == Stub ==> seen.logSizeResult == NVRTC_ERROR_INVALID_PROGRAM && seen.logSize == 0
    ensures api.nvrtcGetProgramLogSize.Resolved? ==> seen.logSizeResult == native.logSizeResult && seen.logSize == native.logSize
    ensures seen.getPtxResult == (if api.nvrtcGetPTX == Stub then NVRTC_ERROR_INVALID_PROGRAM else native.getPtxResult)
    ensures seen.getLogResult == (if api.nvrtcGetProgramLog == Stub then NVRTC_ERROR_INVALID_PROGRAM else native.getLogResult)
    ensures native.Consistent() && seen.ptxSize != 0 ==> |seen.ptx| == seen.ptxSize
    ensures native.Consistent() && seen.logSize != 0 ==> |seen.log| == seen.logSize
  {
    var created := if api.nvrtcCreateProgram == Stub then CreateProgramStub(Ptr(None)) else (native.createResult, Ptr(native.program));
    var ptxSize := if api.nvrtcGetPTXSize == Stub then GetPTXSizeStub(Ptr(0)) else (native.ptxSizeResult, Ptr(native.ptxSize));
    var logSize := if api.nvrtcGetProgramLogSize == Stub then GetProgramLogSizeStub(Ptr(0)) else (native.logSizeResult, Ptr(native.logSize));
    ProgramCalls(
      created.0, created.1.slot,
      if api.nvrtcCompileProgram == Stub then CompileProgramStub() else native.compileResult,
      ptxSize.0, ptxSize.1.slot,
      logSize.0, logSize.1.slot,
      if api.nvrtcGetPTX == Stub then GetPTXStub() else native.getPtxResult, native.ptx,
      if api.nvrtcGetProgramLog == Stub then GetProgramLogStub() else native.getLogResult, native.log)
  }

  /** PTXCOMPILERAPI_DISPATCH */
  class PtxCompilerDispatch {
    var Api: Entries
    var ModuleHandle: Option<Library>

    /** The zero-initialised table of a freshly loaded process. */
    constructor ()
      ensures Api.AllNull() && ModuleHandle == None
    {
      Api := Entries(Null, Null, Null, Null, Null, Null, Null, Null, Null, Null, Null);
      ModuleHandle := None;
    }

    /**
     * What PtxCompilerApiPopulateDispatch leaves: nvrtc's handle, and each
     * of the eleven entries resolved from it or stubbed.
     */
    predicate Populated(host: Host)
      reads this
    {
      ModuleHandle == LoadLibrary(host, NVRTC_DLL)
      && Api.Bound()
      && (ModuleHandle.None? ==> Api.AllStubs())
      && Api.nvrtcGetErrorString == RuntimeFunctionResolve(ModuleHandle, "nvrtcGetErrorString")
      && Api.nvrtcVersion == RuntimeFunctionResolve(ModuleHandle, "nvrtcVersion")
      && Api.nvrtcCreateProgram == RuntimeFunctionResolve(ModuleHandle, "nvrtcCreateProgram")
      && Api.nvrtcDestroyProgram == RuntimeFunctionResolve(ModuleHandle, "nvrtcDestroyProgram")
      && Api.nvrtcCompileProgram == RuntimeFunctionResolve(ModuleHandle, "nvrtcCompileProgram")
      && Api.nvrtcGetPTXSize == RuntimeFunctionResolve(ModuleHandle, "nvrtcGetPTXSize")
      && Api.nvrtcGetPTX == RuntimeFunctionResolve(ModuleHandle, "nvrtcGetPTX")
      && Api.nvrtcGetProgramLogSize == RuntimeFunctionResolve(ModuleHandle, "nvrtcGetProgramLogSize")
      && Api.nvrtcGetProgramLog == RuntimeFunctionResolve(ModuleHandle, "nvrtcGetProgramLog")
      && Api.nvrtcAddNameExpression == RuntimeFunctionResolve(ModuleHandle, "nvrtcAddNameExpression")
      && Api.nvrtcGetLoweredName == RuntimeFunctionResolve(ModuleHandle, "nvrtcGetLoweredName")
    }

    /**
     * PtxCompilerApiPopulateDispatch: load the library, bind all eleven
     * entries to the export or the stub, keep the handle and report whether
     * the library loaded. The loader flags are ignored.
     */
    method Populate(host: Host, loaderFlags: bv32) returns (loaded: bool)
      modifies this
      ensures Populated(host)
      ensures loaded <==> ModuleHandle.Some?
    {
      var dll := LoadLibrary(host, NVRTC_DLL);
      var api := Api;
      api := api.(nvrtcGetErrorString := RuntimeFunctionResolve(dll, "nvrtcGetErrorString"));
      api := api.(nvrtcVersion := RuntimeFunctionResolve(dll, "nvrtcVersion"));
      api := api.(nvrtcCreateProgram := RuntimeFunctionResolve(dll, "nvrtcCreateProgram"));
      api := api.(nvrtcDestroyProgram := RuntimeFunctionResolve(dll, "nvrtcDestroyProgram"));
      api := api.(nvrtcCompileProgram := RuntimeFunctionResolve(dll, "nvrtcCompileProgram"));
      api := api.(nvrtcGetPTXSize := RuntimeFunctionResolve(dll, "nvrtcGetPTXSize"));
      api := api.(nvrtcGetPTX := RuntimeFunctionResolve(dll, "nvrtcGetPTX"));
      api := api.(nvrtcGetProgramLogSize := RuntimeFunctionResolve(dll, "nvrtcGetProgramLogSize"));
      api := api.(nvrtcGetProgramLog := RuntimeFunctionResolve(dll, "nvrtcGetProgramLog"));
      api := api.(nvrtcAddNameExpression := RuntimeFunctionResolve(dll, "nvrtcAddNameExpression"));
      api := api.(nvrtcGetLoweredName := RuntimeFunctionResolve(dll, "nvrtcGetLoweredName"));
      Api := api;
      ModuleHandle := dll;
      loaded := dll.Some?;
    }

    /** PtxCompilerApiQuerySupport: whether the library is loaded. */
    function QuerySupport(): (supported: bool)
      reads this
      ensures supported <==> ModuleHandle.Some?
    {
      ModuleHandle.Some?
    }

    /** PtxCompilerApiInvalidateDispatch: every entry back to its stub, the library released and the handle nulled. */
    method Invalidate()
      modifies this
      ensures Api.AllStubs() && Api.Bound()
      ensures ModuleHandle == None
    {
      var api := Api;
      api := api.(nvrtcGetErrorString := Stub);
      api := api.(nvrtcVersion := Stub);
      api := api.(nvrtcCreateProgram := Stub);
      api := api.(nvrtcDestroyProgram := Stub);
      api := api.(nvrtcCompileProgram := Stub);
      api := api.(nvrtcGetPTXSize := Stub);
      api := api.(nvrtcGetPTX := Stub);
      api := api.(nvrtcGetProgramLogSize := Stub);
      api := api.(nvrtcGetProgramLog := Stub);
      api := api.(nvrtcAddNameExpression := Stub);
      api := api.(nvrtcGetLoweredName := Stub);
      Api := api;
      if ModuleHandle.Some? {
        ModuleHandle := None;
      }
    }
  }
}
