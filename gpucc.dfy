/**
 * Public types of the GpuCC API and its platform-independent entry points:
 * the version query, the success/failure predicates over GPUCC_RESULT and the
 * result-code-to-string table.
 */
module Gpucc {
  import opened Wrappers

  // Version of the API.
  const VERSION_MAJOR: int := 1
  const VERSION_MINOR: int := 0
  const VERSION_PATCH: int := 0

  // GPUCC_USAGE_MODE
  const USAGE_MODE_OFFLINE: int := 0
  const USAGE_MODE_RUNTIME: int := 1

  // GPUCC_BYTECODE_TYPE
  const BYTECODE_TYPE_UNKNOWN: int := 0
  const BYTECODE_TYPE_DXIL: int := 1
  const BYTECODE_TYPE_DXBC: int := 2
  const BYTECODE_TYPE_SPIRV: int := 3
  const BYTECODE_TYPE_PTX: int := 4

  // GPUCC_TARGET_RUNTIME
  const TARGET_RUNTIME_UNKNOWN: int := 0
  const TARGET_RUNTIME_DIRECT3D: int := 1
  const TARGET_RUNTIME_DIRECT3D12: int := 2
  const TARGET_RUNTIME_VULKAN1: int := 3
  const TARGET_RUNTIME_OPENGL: int := 4
  const TARGET_RUNTIME_CUDA: int := 5
  /** Vulkan 1.0 and 1.1 runtimes tested by the DXC backend; no header gives their values. */
  const TARGET_RUNTIME_VULKAN_1_0: int
  const TARGET_RUNTIME_VULKAN_1_1: int

  // GPUCC_RESULT_CODE
  const RESULT_CODE_SUCCESS: int := 0
  const RESULT_CODE_ALREADY_INITIALIZED: int := 1
  const RESULT_CODE_NOT_INITIALIZED: int := -1
  const RESULT_CODE_PLATFORM_ERROR: int := -2
  const RESULT_CODE_INVALID_USAGE_MODE: int := -3
  const RESULT_CODE_COMPILER_NOT_SUPPORTED: int := -4
  const RESULT_CODE_OUT_OF_HOST_MEMORY: int := -5
  const RESULT_CODE_INVALID_TARGET_PROFILE: int := -6
  const RESULT_CODE_INVALID_TARGET_RUNTIME: int := -7
  const RESULT_CODE_INVALID_BYTECODE_TYPE: int := -8
  const RESULT_CODE_INVALID_ARGUMENT: int := -9
  /** Codes the backends use that no header defines: their values (and signs) are left open. */
  const RESULT_CODE_COMPILE_FAILED: int
  const RESULT_CODE_EMPTY_BYTECODE_CONTAINER: int
  const RESULT_CODE_INVALID_BYTECODE_CONTAINER: int

  // GPUCC_COMPILER_TYPE
  const COMPILER_TYPE_UNKNOWN: int := 0
  const COMPILER_TYPE_DXC: int := 1
  const COMPILER_TYPE_FXC: int := 2
  const COMPILER_TYPE_SHADERC: int := 3
  const COMPILER_TYPE_NVRTC: int := 4

  // GPUCC_COMPILER_SUPPORT, one bit per compiler type.
  const COMPILER_SUPPORT_NONE: bv32 := 0
  const COMPILER_SUPPORT_DXC: bv32 := 1
  const COMPILER_SUPPORT_FXC: bv32 := 2
  const COMPILER_SUPPORT_SHADERC: bv32 := 4
  const COMPILER_SUPPORT_NVRTC: bv32 := 8

  /** The GPUCC_COMPILER_FLAG_* bits the backends test; a flag word is the set of bits it has. */
  datatype CompilerFlag =
    | Debug
    | DisableOptimizations
    | WarningsAsErrors
    | RowMajorMatrices
    | Enable16BitTypes
    | AvoidFlowControl
    | EnableIeeeStrictness

  /** One byte of host memory. */
  type Byte = b: int | 0 <= b < 256

  /** A character that can appear inside a nul-terminated narrow string. */
  predicate IsCChar(c: char)
  {
    0 < c as int < 256
  }

  /** The contents of a nul-terminated narrow string (the terminator not included). */
  type CStr = s: string | forall i | 0 <= i < |s| :: IsCChar(s[i])

  /** GPUCC_RESULT: the library's own code and the platform's code. */
  datatype GpuccResult = GpuccResult(LibraryResult: int, PlatformResult: int)

  /**
   * GPUCC_PROGRAM_COMPILER_INIT. A null array is None; a present array holds
   * its strings. A null value string is None. CompilerFlags is the set of
   * GPUCC_COMPILER_FLAG_* bits the backends read from the configuration.
   */
  datatype CompilerInit = CompilerInit(
    DefineSymbols: Option<seq<CStr>>,
    DefineValues: Option<seq<Option<CStr>>>,
    TargetProfile: Option<CStr>,
    TargetRuntime: int,
    BytecodeType: int,
    DefineCount: nat,
    CompilerFlags: set<CompilerFlag>)
  {
    /**
     * The define arrays can be read at every index below DefineCount: both are
     * present when DefineCount is non-zero, and hold at least that many entries.
     */
    predicate DefinesReadable()
    {
      DefineCount > 0 ==>
        DefineSymbols.Some? && DefineValues.Some?
        && |DefineSymbols.value| >= DefineCount && |DefineValues.value| >= DefineCount
    }

    /** DefineSymbols[i] */
    function Symbol(i: nat): CStr
      requires DefinesReadable() && i < DefineCount
    {
      DefineSymbols.value[i]
    }

    /** DefineValues[i] (None for a null entry) */
    function Value(i: nat): Option<CStr>
      requires DefinesReadable() && i < DefineCount
    {
      DefineValues.value[i]
    }
  }

  /** gpuccFailure */
  predicate Failure(result: GpuccResult)
  {
    result.LibraryResult < 0
  }

  /** gpuccSuccess */
  predicate Success(result: GpuccResult)
  {
    result.LibraryResult >= 0
  }

  /** Every result is classified exactly one way. */
  lemma {:induction false} SuccessIsNotFailure(result: GpuccResult)
    ensures Success(result) <==> !Failure(result)
  {
  }

  /** The classification looks only at the library code. */
  lemma {:induction false} ClassificationIgnoresPlatform(result: GpuccResult, platform: int)
    ensures Failure(result.(PlatformResult := platform)) == Failure(result)
    ensures Success(result.(PlatformResult := platform)) == Success(result)
  {
  }

  /** ALREADY_INITIALIZED is reported as a success; every negative named code is a failure. */
  lemma {:induction false} NamedCodesClassified(platform: int)
    ensures Success(GpuccResult(RESULT_CODE_SUCCESS, platform))
    ensures Success(GpuccResult(RESULT_CODE_ALREADY_INITIALIZED, platform))
    ensures forall code | code in {RESULT_CODE_NOT_INITIALIZED, RESULT_CODE_PLATFORM_ERROR,
                                   RESULT_CODE_INVALID_USAGE_MODE, RESULT_CODE_COMPILER_NOT_SUPPORTED,
                                   RESULT_CODE_OUT_OF_HOST_MEMORY, RESULT_CODE_INVALID_TARGET_PROFILE,
                                   RESULT_CODE_INVALID_TARGET_RUNTIME, RESULT_CODE_INVALID_BYTECODE_TYPE,
                                   RESULT_CODE_INVALID_ARGUMENT}
        :: Failure(GpuccResult(code, platform))
  {
  }

  /** The four codes gpuccErrorString names. */
  const NamedErrorCodes: set<int> :=
    {RESULT_CODE_SUCCESS, RESULT_CODE_NOT_INITIALIZED, RESULT_CODE_ALREADY_INITIALIZED, RESULT_CODE_PLATFORM_ERROR}

  const UNKNOWN_ERROR_STRING: string := "GPUCC_RESULT_CODE (unknown)"

  /** gpuccErrorString: the enumerator's own name for four codes, a fixed text otherwise. */
  function ErrorString(code: int): (name: string)
    ensures code == RESULT_CODE_SUCCESS ==> name == "GPUCC_RESULT_CODE_SUCCESS"
    ensures code == RESULT_CODE_NOT_INITIALIZED ==> name == "GPUCC_RESULT_CODE_NOT_INITIALIZED"
    ensures code == RESULT_CODE_ALREADY_INITIALIZED ==> name == "GPUCC_RESULT_CODE_ALREADY_INITIALIZED"
    ensures code == RESULT_CODE_PLATFORM_ERROR ==> name == "GPUCC_RESULT_CODE_PLATFORM_ERROR"
    ensures name == UNKNOWN_ERROR_STRING <==> code !in NamedErrorCodes
  {
    if code == RESULT_CODE_SUCCESS then "GPUCC_RESULT_CODE_SUCCESS"
    else if code == RESULT_CODE_NOT_INITIALIZED then "GPUCC_RESULT_CODE_NOT_INITIALIZED"
    else if code == RESULT_CODE_ALREADY_INITIALIZED then "GPUCC_RESULT_CODE_ALREADY_INITIALIZED"
    else if code == RESULT_CODE_PLATFORM_ERROR then "GPUCC_RESULT_CODE_PLATFORM_ERROR"
    else UNKNOWN_ERROR_STRING
  }

  /** A named code can be recovered from its string: no two codes share a string unless both are unnamed. */
  lemma {:induction false} ErrorStringIdentifiesNamedCodes(a: int, b: int)
    requires a in NamedErrorCodes
    ensures ErrorString(a) == ErrorString(b) <==> a == b
  {
  }

  /**
   * gpuccVersion: each non-null out-pointer receives its version component,
   * and nothing is written through a null one.
   */
  function Version(major: Out<int>, minor: Out<int>, patch: Out<int>): (r: (Out<int>, Out<int>, Out<int>))
    ensures WroteIfPresent(major, r.0, VERSION_MAJOR)
    ensures WroteIfPresent(minor, r.1, VERSION_MINOR)
    ensures WroteIfPresent(patch, r.2, VERSION_PATCH)
  {
    (Store(major, VERSION_MAJOR), Store(minor, VERSION_MINOR), Store(patch, VERSION_PATCH))
  }
}
