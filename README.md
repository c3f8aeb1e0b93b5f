# gpucc, modelled in Dafny

gpucc is a thin C API over three native GPU program compilers. FXC (d3dcompiler_47.dll) produces DXBC. DXC (dxcompiler.dll) produces DXIL and SPIR-V. NVRTC (nvrtc64_101_0.dll) produces PTX. This project models the glue around those compilers and proves what that glue promises:

- **Results.** A `GPUCC_RESULT` pairs a library code with a platform code. Success and failure are decided by the sign of the library code alone. Helper constructors map HRESULT, Win32, errno and nvrtc codes into this pair.
- **Dispatch tables.** There is one table per native library. Each entry is `Null`, `Resolved(symbol)` or `Stub`, and a library is absent or present with its set of exported symbols. Populate, invalidate and query-support are modelled as field updates on a class per table. Each stub is a pure function from its out-parameters to an error code plus zeroed outputs.
- **The process registry.** `ProcessContext` holds the startup flag, the compiler-support bitmask and the three tables. It models the startup, shutdown, create-compiler, container and compile entry points. The per-thread last-result slot is one field of `ThreadContext`.
- **Compiler objects, per back end:**
  - the target-profile parser and per-back-end validation;
  - the size computation (`nbneed`) for the single-block arena;
  - interning strings into that block by advancing a byte cursor;
  - the define tables (D3D_SHADER_MACRO, DxcDefine, and `-D sym=val` strings);
  - flag-to-argument translation into a fixed-capacity argument array.
- **Bytecode containers.** A container is created empty. Its entry point and source path are interned into one allocation. The back-end compile fills its code and log from a native oracle. Delete releases the buffers in each back end's own order.

Modules follow the source files:

| Module | File | Source |
|---|---|---|
| `Wrappers` | wrappers.dfy | `Option` |
| `Gpucc` | gpucc.dfy | include/gpucc.h, src/gpucc.cc |
| `Loader` | loader.dfy | library loading and symbol resolution shared by the three dispatch files |
| `Internal` | internal.dfy | src/win32/gpucc_internal_win32.cc |
| `Objects` | objects.dfy | the structures of include/gpucc_internal.h and the container helpers |
| `D3DCompilerApi` | d3dcompiler_api.dfy | src/win32/d3dcompilerapi_win32.cc |
| `DxcCompilerApi` | dxccompiler_api.dfy | src/win32/dxccompilerapi_win32.cc |
| `PtxCompilerApi` | ptxcompiler_api.dfy | src/win32/ptxcompilerapi_win32.cc |
| `FxcBackend` | fxc_backend.dfy | src/win32/gpucc_compiler_fxc_win32.cc |
| `DxcBackend` | dxc_backend.dfy | src/win32/gpucc_compiler_dxc_win32.cc |
| `PtxBackend` | ptx_backend.dfy | src/win32/gpucc_compiler_ptx_win32.cc |
| `Platform` | platform.dfy | src/win32/gpucc_platform_win32.cc |

**Constants.** Several names the code uses are defined in no header:
- `COMPILE_FAILED`, `EMPTY_BYTECODE_CONTAINER` and `INVALID_BYTECODE_CONTAINER`;
- `VULKAN_1_0` and `VULKAN_1_1`;
- the two `*_MAX_ARGS` constants;
- every `sizeof`.

These are declared as constants with no value. Nothing is assumed about their sign.

**Compiler flags.** The `GPUCC_COMPILER_FLAG_*` bits are a set of an enumeration.

**Native calls become oracles.** D3DCompile, the IDxcLibrary/IDxcCompiler methods, the nvrtc program calls, UTF-8 to UTF-16 conversion and malloc success are all parameters of the operations that use them:
- a native call is a function from the request the code builds to its outcome;
- `malloc` success is a boolean;
- `GetLastError`/`errno` is an integer.

**Where the header comments and the code disagree, the model follows the code:**
- Populate returns non-zero when the library loaded (the header says zero on success).
- No compile path writes `CompileResult`, so a container stays "empty" after a compile.
- The NVRTC branch of `gpuccCreateCompiler` returns null without creating a compiler and without recording a last result.
- A failed `nvrtcCompileProgram` is reported only through the last-result slot. The compile itself still returns SUCCESS.
- A DXC compile whose `op_result` is null returns SUCCESS.
- `gpuccDeleteCompiler` only frees the block.
- The registry has three separate tables, as gpucc_platform_win32.cc uses it. The single-table struct in include/win32/gpucc_internal_win32.h is not used.

## Model

| member | source | states |
|---|---|---|
| Gpucc.SuccessIsNotFailure | src/gpucc.cc:19-35 | every result is exactly one of success (library code >= 0) and failure (< 0) |
| Gpucc.ClassificationIgnoresPlatform | src/gpucc.cc:25-34 | changing the platform code never changes success or failure |
| Gpucc.NamedCodesClassified | src/gpucc.cc:34 | SUCCESS and ALREADY_INITIALIZED (1) count as success; every negative named code counts as failure |
| Gpucc.ErrorString | src/gpucc.cc:37-50 | the four named codes map to their own enumerator name; the fixed "(unknown)" text is returned exactly for every other code |
| Gpucc.ErrorStringIdentifiesNamedCodes | src/gpucc.cc:43-49 | a named code is recovered from its string: the string of a named code equals another code's string only for that same code |
| Gpucc.Version | src/gpucc.cc:6-17 | each present out-pointer receives 1, 0, 0 respectively; an absent one is left absent |
| Loader.LoadLibrary | src/win32/d3dcompilerapi_win32.cc:415 | the module handle is present exactly when the host has the DLL, and then exports that DLL's symbols |
| Loader.RuntimeModuleResolve | src/win32/d3dcompilerapi_win32.cc:33-45 | an address is found exactly when the module is loaded and exports the symbol |
| Loader.RuntimeFunctionResolve | src/win32/d3dcompilerapi_win32.cc:23-31 | the entry is never Null: it is the resolved symbol exactly when the library exports it, and the stub otherwise |
| Loader.AbsentLibraryGivesStubs | src/win32/d3dcompilerapi_win32.cc:40-44 | resolving against a library that failed to load always yields the stub |
| Internal.PutStringUtf8 | src/win32/gpucc_internal_win32.cc:37-53 | returns the old cursor and advances it by strlen+1 (1 for null); the block becomes the old block with exactly the string's bytes and a nul spliced in at the cursor |
| Internal.PutStringUtf16 | src/win32/gpucc_internal_win32.cc:55-71 | returns the old cursor and advances it by 2·wcslen+2 (2 for null); the block becomes the old block with the string's code units and a two-byte nul spliced in at the cursor |
| Internal.Utf16BytesDecode | src/win32/gpucc_internal_win32.cc:64-65 | the copied bytes of a wide string read back, little-endian, as its code units |
| Internal.PutWideNul | src/win32/gpucc_internal_win32.cc:68-69 | writes two zero bytes at the cursor and advances it by 2, nothing else changes |
| Internal.Utf8SizesAreImages | src/win32/gpucc_compiler_fxc_win32.cc:179-209 | the sum of strlen+1 over a string list equals the number of bytes interning that list occupies |
| Internal.ArenaStep | src/win32/gpucc_compiler_fxc_win32.cc:204-209 | after k strings are carved, carving string k keeps the earlier k in place and moves the cursor by exactly that string's image |
| Internal.InternNext | src/win32/gpucc_compiler_fxc_win32.cc:205-208 | one put during interning returns the old cursor and extends the carved prefix by the next string |
| Internal.InternedAll | src/win32/gpucc_compiler_fxc_win32.cc:205-209 | once every string is carved, the block holds the whole list back to back from the start |
| Internal.InternedStringAt | src/win32/gpucc_compiler_fxc_win32.cc:205-209 | string k of an interned list reads back, as a nul-terminated string at its offset, to exactly that string ("" for null) |
| Internal.ImageReadsBack | src/win32/gpucc_internal_win32.cc:44-52 | the bytes a put writes read back as the original string |
| Internal.LaidOutAll | src/win32/gpucc_compiler_dxc_win32.cc:375-380 | once every wide string is carved, the block holds them back to back and the cursor is at their total size |
| Internal.InternNextWide | src/win32/gpucc_compiler_dxc_win32.cc:376-379 | one wide put during interning returns the old cursor and extends the carved prefix by the next wide string |
| Internal.Utf8SizesCarve | src/win32/gpucc_compiler_fxc_win32.cc:181-185 | the running nbneed over the first j strings equals the length of their carved images |
| Internal.DigitRun | src/win32/gpucc_internal_win32.cc:88 | `%u` consumes a maximal run of ASCII digits: it stays inside the string and stops at a non-digit or the end |
| Internal.ExtractDirect3DShaderModel | src/win32/gpucc_internal_win32.cc:74-103 | either status 0 with stage = the first two chars plus nul and non-negative major/minor, or status -1 with every output zeroed |
| Internal.ExtractFormatRoundTrip | src/win32/gpucc_internal_win32.cc:88-94 | formatting two chars, `_`, M, `_`, m (plus any trailing text not starting with a digit) and parsing it gives status 0, that stage and exactly M and m |
| Internal.ExtractAcceptsOnlyPattern | src/win32/gpucc_internal_win32.cc:88-102 | every accepted profile is two chars, `_`, a non-empty digit run, `_`, a non-empty digit run and a rest, and major/minor are those runs' values |
| Internal.NatToDigits | src/win32/gpucc_internal_win32.cc:88 | the decimal spelling of a number is a non-empty digit string |
| Internal.DigitsRoundTrip | src/win32/gpucc_internal_win32.cc:88 | reading back the decimal spelling of n gives n |
| Internal.Int32OfDword | src/win32/gpucc_internal_win32.cc:130 | the `(int32_t)` cast of a DWORD agrees with it modulo 2^32 and keeps values below 2^31 |
| Internal.MakeResult | src/win32/gpucc_internal_win32.cc:105-112 | the library code is kept, the platform code is always 0, and it is a failure exactly when the code is negative |
| Internal.MakeResultErrno | src/win32/gpucc_internal_win32.cc:114-121 | the library code is kept and the platform code is errno |
| Internal.MakeResultWin32 | src/win32/gpucc_internal_win32.cc:123-131 | the library code is kept; the platform code is the DWORD reinterpreted as a signed 32-bit value |
| Internal.MakeResultHResult | src/win32/gpucc_internal_win32.cc:133-147 | a negative HRESULT gives PLATFORM_ERROR, any other gives SUCCESS, and the platform code is the HRESULT in both cases |
| Internal.MakeResultHResultInjective | src/win32/gpucc_internal_win32.cc:139-146 | two HRESULTs give the same result exactly when they are equal |
| Internal.ThreadContext.constructor | src/win32/dllmain.cc:118-122 | a new thread context starts with last result (0, 0) |
| Internal.ThreadContext.SetLastResult | src/win32/gpucc_internal_win32.cc:149-159 | returns the previous slot value and leaves the new one in the slot |
| Objects.Capped | src/win32/gpucc_compiler_dxc_win32.cc:51-57 | the kept arguments are a prefix of at most MAX_ARGS of the wanted ones, all of them when they fit |
| Objects.CappedAppend | src/win32/gpucc_compiler_dxc_win32.cc:51-57 | storing into a capped list gives the same list as capping after the append |
| Objects.DefineStrings | src/win32/gpucc_compiler_fxc_win32.cc:182-185 | the define strings of the first n defines are 2n strings, symbol then value |
| Objects.ConfigStrings | src/win32/gpucc_compiler_fxc_win32.cc:205-209 | the interned strings are the profile first, then a symbol and a value per define |
| Objects.Owned | src/win32/gpucc_compiler_fxc_win32.cc:104-118 | the container keeps a blob exactly when the native call returned one, and keeps that very blob |
| Objects.CompilerFxc.constructor | src/win32/gpucc_compiler_fxc_win32.cc:214-222 | an FXC compiler has type FXC and bytecode DXBC whatever the config says, and the fields given |
| Objects.CompilerDxc.constructor | src/win32/gpucc_compiler_dxc_win32.cc:385-386 | a DXC compiler starts with an empty argument list over its MAX_ARGS slots and no COM instances |
| Objects.CompilerDxc.StoreArg | src/win32/gpucc_compiler_dxc_win32.cc:44-58 | below MAX_ARGS the argument is written at ArgumentCount and the count grows by one; at MAX_ARGS nothing changes |
| Objects.CompilerPtx.constructor | src/win32/gpucc_compiler_ptx_win32.cc:315-316 | a PTX compiler starts with an empty argument list over its MAX_ARGS slots |
| Objects.CompilerPtx.StoreArg | src/win32/gpucc_compiler_ptx_win32.cc:43-57 | below MAX_ARGS the argument is written at ArgumentCount and the count grows by one; at MAX_ARGS nothing changes |
| Objects.BytecodeContainer.constructor | src/win32/gpucc_compiler_fxc_win32.cc:18-31 | a new container has its owner, CompileResult EMPTY_BYTECODE_CONTAINER, no pointers and zero sizes |
| Objects.AllocateContainer | src/win32/gpucc_compiler_fxc_win32.cc:13-32 | malloc failure gives null and last result OUT_OF_HOST_MEMORY; otherwise a fresh, cleared, empty container owned by the compiler, last result untouched |
| Objects.ReleaseErrorLog | src/win32/gpucc_compiler_fxc_win32.cc:43-49 | a held log is released once, with its size zeroed and pointer nulled; no log means nothing is released |
| Objects.ReleaseCodeBuffer | src/win32/gpucc_compiler_fxc_win32.cc:50-56 | a held code buffer is released once, with its size zeroed and pointer nulled; no buffer means nothing is released |
| Objects.FreeEntryPoint | src/win32/gpucc_compiler_fxc_win32.cc:57-61 | the names block is freed once and both entry point and source path are nulled; without one nothing is freed |
| Objects.BytecodeContainerIsEmpty | src/win32/gpucc_internal_win32.cc:196-209 | a null container is not empty; otherwise empty exactly when CompileResult's library code is EMPTY_BYTECODE_CONTAINER |
| Objects.SetProgramEntryPoint | src/win32/gpucc_internal_win32.cc:161-194 | on malloc failure: OUT_OF_HOST_MEMORY with errno, recorded as last result, names untouched; otherwise SUCCESS and a fresh block of exactly (strlen+1 or 1) + (strlen+1 or 1) bytes holding entry then path |
| Objects.InternNames | src/win32/gpucc_internal_win32.cc:177-192 | the names block holds the entry point image then the source path image, the path starting right after the entry |
| Objects.ProgramNamesReadBack | src/win32/gpucc_internal_win32.cc:191-192 | the entry point and source path read back from the names block as the strings given ("" for null) |
| D3DCompilerApi.D3DCompileStub | src/win32/d3dcompilerapi_win32.cc:48-75 | returns E_NOTIMPL (a failure) and nulls both present out-pointers |
| D3DCompilerApi.D3DCompile2Stub | src/win32/d3dcompilerapi_win32.cc:78-111 | returns E_NOTIMPL and nulls both present out-pointers |
| D3DCompilerApi.D3DCompileFromFileStub | src/win32/d3dcompilerapi_win32.cc:114-137 | returns E_NOTIMPL and nulls both present out-pointers |
| D3DCompilerApi.D3DCompressShadersStub | src/win32/d3dcompilerapi_win32.cc:140-153 | returns E_NOTIMPL and nulls a present out-pointer |
| D3DCompilerApi.D3DCreateBlobStub | src/win32/d3dcompilerapi_win32.cc:156-165 | returns E_NOTIMPL and nulls a present out-pointer |
| D3DCompilerApi.D3DDecompressShadersStub | src/win32/d3dcompilerapi_win32.cc:168-189 | returns E_NOTIMPL, nulls the shaders and zeroes the count when present |
| D3DCompilerApi.D3DDisassembleStub | src/win32/d3dcompilerapi_win32.cc:192-207 | returns E_NOTIMPL and nulls a present out-pointer |
| D3DCompilerApi.D3DDisassembleRegionStub | src/win32/d3dcompilerapi_win32.cc:210-230 | returns E_NOTIMPL, sets a present finish offset to the start offset and nulls a present disassembly |
| D3DCompilerApi.D3DGetBlobPartStub | src/win32/d3dcompilerapi_win32.cc:233-248 | returns E_NOTIMPL and nulls a present out-pointer |
| D3DCompilerApi.D3DGetDebugInfoStub | src/win32/d3dcompilerapi_win32.cc:251-262 | returns E_NOTIMPL and nulls a present out-pointer |
| D3DCompilerApi.D3DGetTraceInstructionOffsetsStub | src/win32/d3dcompilerapi_win32.cc:265-284 | returns E_NOTIMPL and zeroes both present outputs |
| D3DCompilerApi.D3DPreprocessStub | src/win32/d3dcompilerapi_win32.cc:287-306 | returns E_NOTIMPL and nulls both present out-pointers |
| D3DCompilerApi.D3DReadFileToBlobStub | src/win32/d3dcompilerapi_win32.cc:309-318 | returns E_NOTIMPL and nulls a present out-pointer |
| D3DCompilerApi.D3DReflectStub | src/win32/d3dcompilerapi_win32.cc:321-334 | returns E_NOTIMPL and nulls a present out-pointer |
| D3DCompilerApi.D3DReflectLibraryStub | src/win32/d3dcompilerapi_win32.cc:337-350 | returns E_NOTIMPL and nulls a present out-pointer |
| D3DCompilerApi.D3DSetBlobPartStub | src/win32/d3dcompilerapi_win32.cc:353-372 | returns E_NOTIMPL and nulls a present out-pointer |
| D3DCompilerApi.D3DStripShaderStub | src/win32/d3dcompilerapi_win32.cc:375-388 | returns E_NOTIMPL and nulls a present out-pointer |
| D3DCompilerApi.D3DWriteBlobToFileStub | src/win32/d3dcompilerapi_win32.cc:391-402 | returns E_NOTIMPL |
| D3DCompilerApi.CallD3DCompile | src/win32/gpucc_compiler_fxc_win32.cc:86-99 | a call through a stub entry fails with E_NOTIMPL and no blobs; through a resolved entry it is the native outcome |
| D3DCompilerApi.D3DCompilerDispatch.constructor | src/win32/dllmain.cc:13-17 | a zero-initialised table: every entry null, no module |
| D3DCompilerApi.D3DCompilerDispatch.Populate | src/win32/d3dcompilerapi_win32.cc:404-445 | handle = the loaded d3dcompiler_47.dll, return non-zero exactly when it loaded, no entry Null, all stubs when absent, the six development entries resolved only with the DEVELOPMENT flag and stubs without it, the other twelve resolved-or-stub |
| D3DCompilerApi.D3DCompilerDispatch.PopulatedBindsD3DCompile | src/win32/d3dcompilerapi_win32.cc:431 | after population D3DCompile reaches the DLL exactly when the host has d3dcompiler_47.dll exporting D3DCompile, and the stub otherwise |
| D3DCompilerApi.D3DCompilerDispatch.QuerySupport | src/win32/d3dcompilerapi_win32.cc:447-454 | supported exactly when the module handle is non-null |
| D3DCompilerApi.D3DCompilerDispatch.Invalidate | src/win32/d3dcompilerapi_win32.cc:456-484 | all eighteen entries become stubs and the handle is null |
| DxcCompilerApi.DxcCreateInstanceStub | src/win32/dxccompilerapi_win32.cc:48-59 | returns E_NOTIMPL and nulls a present `*ppv` |
| DxcCompilerApi.DxcCreateInstance2Stub | src/win32/dxccompilerapi_win32.cc:62-75 | returns E_NOTIMPL and nulls a present `*ppv` |
| DxcCompilerApi.CallDxcCreateInstance | src/win32/gpucc_compiler_dxc_win32.cc:443-457 | through a stub: E_NOTIMPL and no instance; through a resolved entry: the native outcome |
| DxcCompilerApi.DxcCompilerDispatch.constructor | src/win32/dllmain.cc:13-17 | a zero-initialised table: both entries null, both handles null |
| DxcCompilerApi.DxcCompilerDispatch.Populate | src/win32/dxccompilerapi_win32.cc:77-97 | dxcompiler.dll and dxil.dll are loaded independently, both entries resolved-or-stub from dxcompiler.dll, and the return is non-zero exactly when dxcompiler.dll loaded |
| DxcCompilerApi.DxcCompilerDispatch.QuerySupport | src/win32/dxccompilerapi_win32.cc:99-106 | supported exactly when the dxcompiler handle is non-null |
| DxcCompilerApi.DxcCompilerDispatch.QuerySigningSupport | src/win32/dxccompilerapi_win32.cc:108-115 | signing supported exactly when the dxil handle is non-null |
| DxcCompilerApi.DxcCompilerDispatch.Invalidate | src/win32/dxccompilerapi_win32.cc:117-133 | both entries become stubs and both handles null |
| PtxCompilerApi.GetErrorStringStub | src/win32/ptxcompilerapi_win32.cc:48-68 | each of the twelve nvrtc codes maps to its own name; the "(unknown)" text is returned exactly for every other value |
| PtxCompilerApi.VersionStub | src/win32/ptxcompilerapi_win32.cc:71-80 | returns INTERNAL_ERROR and zeroes both present outputs |
| PtxCompilerApi.CreateProgramStub | src/win32/ptxcompilerapi_win32.cc:83-100 | returns PROGRAM_CREATION_FAILURE and nulls a present `*prog` |
| PtxCompilerApi.DestroyProgramStub | src/win32/ptxcompilerapi_win32.cc:103-110 | returns INVALID_PROGRAM and leaves `*prog` as it was |
| PtxCompilerApi.CompileProgramStub | src/win32/ptxcompilerapi_win32.cc:113-124 | returns INVALID_PROGRAM |
| PtxCompilerApi.GetPTXSizeStub | src/win32/ptxcompilerapi_win32.cc:127-136 | returns INVALID_PROGRAM and writes 0 to a present size |
| PtxCompilerApi.GetPTXStub | src/win32/ptxcompilerapi_win32.cc:139-148 | returns INVALID_PROGRAM |
| PtxCompilerApi.GetProgramLogSizeStub | src/win32/ptxcompilerapi_win32.cc:151-160 | returns INVALID_PROGRAM and writes 0 to a present size |
| PtxCompilerApi.GetProgramLogStub | src/win32/ptxcompilerapi_win32.cc:163-172 | returns INVALID_PROGRAM |
| PtxCompilerApi.AddNameExpressionStub | src/win32/ptxcompilerapi_win32.cc:175-184 | returns INVALID_PROGRAM |
| PtxCompilerApi.GetLoweredNameStub | src/win32/ptxcompilerapi_win32.cc:187-198 | returns INVALID_PROGRAM and nulls a present name |
| PtxCompilerApi.StubsNeverSucceed | src/win32/ptxcompilerapi_win32.cc:71-198 | no nvrtc stub ever returns NVRTC_SUCCESS |
| PtxCompilerApi.ThroughTable | src/win32/gpucc_compiler_ptx_win32.cc:144-195 | each nvrtc call made through the table is the stub's answer when the entry is a stub and the native answer when resolved; retrieved buffers have the reported sizes |
| PtxCompilerApi.PtxCompilerDispatch.constructor | src/win32/dllmain.cc:13-17 | a zero-initialised table: every entry null, no module |
| PtxCompilerApi.PtxCompilerDispatch.Populate | src/win32/ptxcompilerapi_win32.cc:200-226 | handle = the loaded nvrtc DLL whatever the loader flags, all eleven entries resolved-or-stub (all stubs when absent), return non-zero exactly when it loaded |
| PtxCompilerApi.PtxCompilerDispatch.QuerySupport | src/win32/ptxcompilerapi_win32.cc:228-235 | supported exactly when the nvrtc handle is non-null |
| PtxCompilerApi.PtxCompilerDispatch.Invalidate | src/win32/ptxcompilerapi_win32.cc:237-258 | all eleven entries become stubs and the handle is null |
| FxcBackend.CreateProgramBytecodeFxc | src/win32/gpucc_compiler_fxc_win32.cc:5-33 | OUT_OF_HOST_MEMORY and null on malloc failure; otherwise a fresh, cleared, empty container owned by this FXC compiler |
| FxcBackend.DeleteProgramBytecodeFxc | src/win32/gpucc_compiler_fxc_win32.cc:35-63 | releases the log, then the code, then frees the names block, each only if held; a consistent container ends cleared; an empty one is a no-op |
| FxcBackend.FxcRequest | src/win32/gpucc_compiler_fxc_win32.cc:82-99 | D3DCompile receives flags1 = DEBUG \| WARNINGS_ARE_ERRORS, flags2 = 0, the interned profile, the macro array, and the caller's source, path and entry point |
| FxcBackend.CompileBytecodeFxc | src/win32/gpucc_compiler_fxc_win32.cc:65-121 | COMPILE_FAILED exactly when the HRESULT is negative, else SUCCESS; whatever the status, the container holds the returned code and log blobs (none if absent) with matching sizes and pointers |
| FxcBackend.StubbedCompileFails | src/win32/d3dcompilerapi_win32.cc:48-75 | compiling through a stubbed D3DCompile fails and yields neither code nor log |
| FxcBackend.FxcSizeIsLayout | src/win32/gpucc_compiler_fxc_win32.cc:178-209 | nbneed is exactly the record, DefineCount+1 macro slots, and the bytes the interned strings occupy |
| FxcBackend.FxcSizesStep | src/win32/gpucc_compiler_fxc_win32.cc:182-185 | each define adds strlen(symbol)+1 + strlen(value)+1 to nbneed |
| FxcBackend.FxcSizesFirst | src/win32/gpucc_compiler_fxc_win32.cc:181 | the profile contributes strlen+1 |
| FxcBackend.FxcSizesAll | src/win32/gpucc_compiler_fxc_win32.cc:179-185 | the loop's final sum is the full size |
| FxcBackend.FxcBytesNeeded | src/win32/gpucc_compiler_fxc_win32.cc:178-185 | the computed nbneed equals the layout size |
| FxcBackend.MacroList | src/win32/gpucc_compiler_fxc_win32.cc:206-209 | the macro table has one entry per define |
| FxcBackend.MacroReadsBack | src/win32/gpucc_compiler_fxc_win32.cc:207-208 | each macro's Name and Definition point at copies of that define's symbol and value |
| FxcBackend.FxcProfileReadsBack | src/win32/gpucc_compiler_fxc_win32.cc:205 | ShaderModel reads back as the target profile |
| FxcBackend.FxcMacroReadsBack | src/win32/gpucc_compiler_fxc_win32.cc:206-211 | macro i reads back as symbol i and value i of the config |
| FxcBackend.InternDefine | src/win32/gpucc_compiler_fxc_win32.cc:207-208 | one loop step interns symbol then value and yields the macro pointing at them |
| FxcBackend.InternPairs | src/win32/gpucc_compiler_fxc_win32.cc:206-209 | the loop interns every define pair and yields the macro list |
| FxcBackend.InternMacros | src/win32/gpucc_compiler_fxc_win32.cc:205-211 | all strings are interned and the macro array is the per-define entries followed by the {null, null} terminator |
| FxcBackend.InternConfigStrings | src/win32/gpucc_compiler_fxc_win32.cc:194-211 | the block ends in the FXC layout: profile at the start of the strings, defines after, macros pointing at them |
| FxcBackend.CreateCompilerFxc | src/win32/gpucc_compiler_fxc_win32.cc:123-224 | INVALID_TARGET_PROFILE before any allocation unless the profile is present, parses, has stage cs/vs/ps/gs in any case and major 4..5; OUT_OF_HOST_MEMORY on malloc failure; otherwise a block of exactly nbneed bytes in the FXC layout, type FXC, bytecode DXBC, the process table, DefineCount and TargetRuntime |
| DxcBackend.CreateProgramBytecodeDxc | src/win32/gpucc_compiler_dxc_win32.cc:60-88 | OUT_OF_HOST_MEMORY and null on malloc failure; otherwise a fresh, cleared, empty container owned by this DXC compiler |
| DxcBackend.DeleteProgramBytecodeDxc | src/win32/gpucc_compiler_dxc_win32.cc:90-118 | releases the code, then the log, then frees the names block, each only if held; a consistent container ends cleared; an empty one is a no-op |
| DxcBackend.Pinned | src/win32/gpucc_compiler_dxc_win32.cc:158 | the `(UINT32) source_size` cast: the source seen by DXC is its first size mod 2^32 bytes, the whole source when it fits |
| DxcBackend.DxcLog | src/win32/gpucc_compiler_dxc_win32.cc:182-195 | the log is kept only when GetErrorBuffer succeeded, and is then the UTF-8 blob |
| DxcBackend.DxcCode | src/win32/gpucc_compiler_dxc_win32.cc:198-209 | code is kept exactly when both the status query and the status succeeded, and is then the result blob |
| DxcBackend.DxcOperationLastResult | src/win32/gpucc_compiler_dxc_win32.cc:181-214 | the last result after a compile with an operation is the HRESULT of the last failing call among GetErrorBuffer, GetBlobAsUtf8, GetStatus and GetResult, in the code's order, and is unchanged when none failed |
| DxcBackend.NullOperationSucceeds | src/win32/gpucc_compiler_dxc_win32.cc:140-241 | a compile whose `op_result` is null is not reported as failed |
| DxcBackend.UnreadableStatusSucceeds | src/win32/gpucc_compiler_dxc_win32.cc:210-214 | a failed GetStatus is not reported as a failed compile, and no code is kept |
| DxcBackend.DxcRequest | src/win32/gpucc_compiler_dxc_win32.cc:167-179 | IDxcCompiler::Compile receives the pinned source, the wide path and entry, the interned profile, the stored arguments and the define array |
| DxcBackend.CompileBytecodeDxc | src/win32/gpucc_compiler_dxc_win32.cc:120-249 | COMPILE_FAILED with the container untouched when a UTF-16 conversion or the pin fails, the slot then holding the converter's recorded result or the pin's HRESULT; a null operation leaves the container untouched and records the HRESULT; otherwise COMPILE_FAILED exactly when the status failed, with code and log kept as DxcCode/DxcLog say |
| DxcBackend.KeepOutputs | src/win32/gpucc_compiler_dxc_win32.cc:216-230 | the container holds exactly the given code and log blobs with matching sizes and pointers |
| DxcBackend.CleanupCompilerDxc | src/win32/gpucc_compiler_dxc_win32.cc:251-269 | releases the compiler, then the library, each only if held, and nulls both |
| DxcBackend.DxcImages | src/win32/gpucc_compiler_dxc_win32.cc:376-379 | one UTF-16 image per profile, symbol and value |
| DxcBackend.DxcImageAt | src/win32/gpucc_compiler_dxc_win32.cc:376-379 | image k is the converted string k with its two-byte terminator |
| DxcBackend.DxcSizeIsOffset | src/win32/gpucc_compiler_dxc_win32.cc:327-356 | nbneed is the record, DefineCount DxcDefines, MAX_ARGS pointer slots and the UTF-16 byte counts of every string |
| DxcBackend.DxcSizesStep | src/win32/gpucc_compiler_dxc_win32.cc:340-356 | each define adds the UTF-16 byte counts of its symbol and value |
| DxcBackend.DxcSizesFirst | src/win32/gpucc_compiler_dxc_win32.cc:332-338 | the profile contributes its UTF-16 byte count |
| DxcBackend.DefineFailsConversion | src/win32/gpucc_compiler_dxc_win32.cc:341-354 | a symbol or value that does not convert makes the whole config unconvertible |
| DxcBackend.ConvertsFirst | src/win32/gpucc_compiler_dxc_win32.cc:332-338 | a convertible profile passes the first conversion check |
| DxcBackend.ConvertsThrough | src/win32/gpucc_compiler_dxc_win32.cc:340-356 | a define whose symbol and value convert extends the converted prefix |
| DxcBackend.DxcBytesNeeded | src/win32/gpucc_compiler_dxc_win32.cc:327-356 | profile conversion failure is reported as such; a size is produced exactly when every string converts, and it is the layout size |
| DxcBackend.DxcDefineList | src/win32/gpucc_compiler_dxc_win32.cc:377-380 | one DxcDefine per define |
| DxcBackend.InternWideDefine | src/win32/gpucc_compiler_dxc_win32.cc:378-379 | one loop step interns a wide symbol then value and yields the DxcDefine pointing at them |
| DxcBackend.InternWidePair | src/win32/gpucc_compiler_dxc_win32.cc:378-379 | the same step stated over the image list |
| DxcBackend.InternWidePairs | src/win32/gpucc_compiler_dxc_win32.cc:377-380 | the loop interns every define pair and yields the define list |
| DxcBackend.InternWide | src/win32/gpucc_compiler_dxc_win32.cc:376-380 | all wide strings are laid out back to back and the cursor ends after them |
| DxcBackend.InternDxcStrings | src/win32/gpucc_compiler_dxc_win32.cc:365-380 | the block ends in the DXC layout: profile first, define pairs after, DxcDefines pointing at them |
| DxcBackend.DxcProfileReadsBack | src/win32/gpucc_compiler_dxc_win32.cc:376 | ShaderModel points at the converted profile with its terminator |
| DxcBackend.DxcDefineReadsBack | src/win32/gpucc_compiler_dxc_win32.cc:378-379 | define i's Name and Value point at the converted symbol and value |
| DxcBackend.Rank | src/win32/gpucc_compiler_dxc_win32.cc:388-437 | every argument has a position in the code's fixed emission order |
| DxcBackend.ArgAt | src/win32/gpucc_compiler_dxc_win32.cc:388-437 | position k of the emission order is the argument of rank k |
| DxcBackend.ArgAtRank | src/win32/gpucc_compiler_dxc_win32.cc:388-437 | the emission order lists every argument exactly at its rank |
| DxcBackend.Select | src/win32/gpucc_compiler_dxc_win32.cc:388-437 | the arguments among the first n of the order that the target selects |
| DxcBackend.SelectMembers | src/win32/gpucc_compiler_dxc_win32.cc:388-437 | an argument is among the first n selected exactly when its rank is below n and the target selects it |
| DxcBackend.DxcArguments | src/win32/gpucc_compiler_dxc_win32.cc:388-437 | the full argument list is never longer than the number of distinct arguments the code can emit |
| DxcBackend.DxcArgumentsSelected | src/win32/gpucc_compiler_dxc_win32.cc:388-437 | an argument is emitted exactly when its condition holds: -Zi for DEBUG, -Od/-O4, -WX, -Zpr/-Zpc, -enable-16bit-types unless major <= 6 and minor < 2, -Gfa, -Gis, -spirv and -fvk-use-gl-layout for SPIR-V, the Vulkan 1.0/1.1 target env, and -fvk-invert-y for vs/gs/ds under Vulkan |
| DxcBackend.DxcArgumentsAlwaysPack | src/win32/gpucc_compiler_dxc_win32.cc:391-403 | exactly one of -Od/-O4 and exactly one of -Zpr/-Zpc is always emitted |
| DxcBackend.StoreArgAt | src/win32/gpucc_compiler_dxc_win32.cc:388-437 | storing argument k when its condition holds keeps the stored list equal to the capped selection through k |
| DxcBackend.StoreCodegenArguments | src/win32/gpucc_compiler_dxc_win32.cc:388-403 | debug, optimisation, warnings and packing arguments are stored in order |
| DxcBackend.StoreLanguageArguments | src/win32/gpucc_compiler_dxc_win32.cc:404-416 | 16-bit, flow-control and IEEE arguments follow in order |
| DxcBackend.StoreSpirvArguments | src/win32/gpucc_compiler_dxc_win32.cc:417-423 | SPIR-V bytecode appends -spirv then -fvk-use-gl-layout |
| DxcBackend.StoreVulkanArguments | src/win32/gpucc_compiler_dxc_win32.cc:424-437 | the Vulkan target env and the invert-y argument close the list |
| DxcBackend.DxcTargetOf | src/win32/gpucc_compiler_dxc_win32.cc:388-431 | the argument selection reads the config's flags, bytecode type, runtime and parsed stage/version |
| DxcBackend.StoreDxcArguments | src/win32/gpucc_compiler_dxc_win32.cc:385-437 | the stored arguments are the capped full DXC argument list for the config |
| DxcBackend.BuildCompilerDxc | src/win32/gpucc_compiler_dxc_win32.cc:365-472 | a failed library instance frees the block; a failed compiler instance releases the library then frees the block; both recording the HRESULT; success gives the DXC layout, the argument list, type DXC with the config's bytecode type and both instances |
| DxcBackend.CreateCompilerDxc | src/win32/gpucc_compiler_dxc_win32.cc:271-473 | INVALID_TARGET_PROFILE before allocation unless the profile parses with stage cs/vs/ps/gs/ds/hs and major >= 4 (no upper bound); Win32 INVALID_TARGET_PROFILE / INVALID_ARGUMENT for unconvertible profile / define strings; OUT_OF_HOST_MEMORY; then BuildCompilerDxc's outcomes |
| PtxBackend.MakeResultNvrtc | src/win32/gpucc_compiler_ptx_win32.cc:22-36 | NVRTC_SUCCESS gives SUCCESS and any other code PLATFORM_ERROR, the platform code being the nvrtc code |
| PtxBackend.MakeResultNvrtcInjective | src/win32/gpucc_compiler_ptx_win32.cc:29-35 | two nvrtc codes giving the same result are equal |
| PtxBackend.CreateProgramBytecodePtx | src/win32/gpucc_compiler_ptx_win32.cc:59-87 | OUT_OF_HOST_MEMORY and null on malloc failure; otherwise a fresh, cleared, empty container owned by this PTX compiler |
| PtxBackend.DeleteProgramBytecodePtx | src/win32/gpucc_compiler_ptx_win32.cc:89-117 | frees the log copy, then the code copy, then the names block, each only if held; a consistent container ends cleared; an empty one is a no-op |
| PtxBackend.PtxRequest | src/win32/gpucc_compiler_ptx_win32.cc:144-151 | nvrtc receives the source, the source path, the stored argument list and the compiler's block |
| PtxBackend.PtxCompileResult | src/win32/gpucc_compiler_ptx_win32.cc:132-225 | SUCCESS exactly when creation, both allocations and both retrievals succeed, whatever the compile status; otherwise COMPILE_FAILED with the create code, errno or 0 as platform code |
| PtxBackend.PtxCompileLastResult | src/win32/gpucc_compiler_ptx_win32.cc:144-195 | the last result is the create failure, the OOM with errno, the GetPTX or GetProgramLog failure, or on delivery the compile failure (else unchanged) |
| PtxBackend.CompileFailureReportedOnlyAsLastResult | src/win32/gpucc_compiler_ptx_win32.cc:151-216 | a delivered compile whose nvrtcCompileProgram failed returns success while the last result is a failure carrying the compile code |
| PtxBackend.HeapCopy | src/win32/gpucc_compiler_ptx_win32.cc:200-214 | a buffer is kept exactly when its size is non-zero, and is then a heap copy of the retrieved bytes |
| PtxBackend.KeepCopies | src/win32/gpucc_compiler_ptx_win32.cc:200-214 | the container holds exactly the given heap copies with matching sizes and pointers |
| PtxBackend.CompileBytecodePtx | src/win32/gpucc_compiler_ptx_win32.cc:119-225 | returns PtxCompileResult and leaves PtxCompileLastResult in the slot; the container is untouched unless delivered, and then owns copies sized to the PTX and log sizes (none when zero) |
| PtxBackend.CompileSeen | src/win32/gpucc_compiler_ptx_win32.cc:144-216 | the same outcome stated over the observed nvrtc answers |
| PtxBackend.RetrieveCopies | src/win32/gpucc_compiler_ptx_win32.cc:184-224 | both retrievals succeeding gives SUCCESS and the copies; a failed GetPTX or GetProgramLog gives COMPILE_FAILED with the container untouched and records that nvrtc code |
| PtxBackend.CleanupCompilerPtx | src/win32/gpucc_compiler_ptx_win32.cc:227-234 | releases nothing |
| PtxBackend.Join | src/win32/gpucc_compiler_ptx_win32.cc:308 | the concatenation of two strings is a string with both parts in order |
| PtxBackend.FormatDefine | src/win32/gpucc_compiler_ptx_win32.cc:301-311 | the argument is "-D " then the symbol, then "=value" exactly when the value is non-null and non-empty |
| PtxBackend.DefineSizeIsFormatted | src/win32/gpucc_compiler_ptx_win32.cc:264-311 | the reserved 3+\|sym\|+(1+\|val\|)+1 bytes equal the formatted length plus its nul |
| PtxBackend.PtxStrings | src/win32/gpucc_compiler_ptx_win32.cc:300-311 | an NVRTC compiler interns one string per define plus the profile, the profile first |
| PtxBackend.PtxStringsAt | src/win32/gpucc_compiler_ptx_win32.cc:301-311 | string 1+i of those is define i formatted as its `-D` argument |
| PtxBackend.PtxSizesStep | src/win32/gpucc_compiler_ptx_win32.cc:264-274 | each define adds its reserved size |
| PtxBackend.PtxSizesFirst | src/win32/gpucc_compiler_ptx_win32.cc:263 | the profile contributes strlen+1 |
| PtxBackend.PtxSizesAll | src/win32/gpucc_compiler_ptx_win32.cc:259-274 | the loop's final sum covers every string |
| PtxBackend.DefineBytes | src/win32/gpucc_compiler_ptx_win32.cc:265-273 | the byte count the loop adds for one define is DefineSize: 3 for "-D ", strlen(symbol), 1+strlen(value) when the value is non-empty, and 1 for the nul |
| PtxBackend.PtxBytesNeeded | src/win32/gpucc_compiler_ptx_win32.cc:259-274 | the computed nbneed equals the layout size |
| PtxBackend.DefineOffsets | src/win32/gpucc_compiler_ptx_win32.cc:301-312 | one define pointer per define |
| PtxBackend.InternDefineArguments | src/win32/gpucc_compiler_ptx_win32.cc:301-312 | the loop interns every formatted define and records where each starts |
| PtxBackend.InternPtxStrings | src/win32/gpucc_compiler_ptx_win32.cc:283-312 | the block ends in the PTX layout: profile first, formatted defines after, the define array pointing at them |
| PtxBackend.PtxProfileReadsBack | src/win32/gpucc_compiler_ptx_win32.cc:300 | GpuArchitecture reads back as the target profile |
| PtxBackend.PtxDefineReadsBack | src/win32/gpucc_compiler_ptx_win32.cc:301-311 | define i reads back as the formatted `-D sym[=val]` of define i |
| PtxBackend.DefineArguments | src/win32/gpucc_compiler_ptx_win32.cc:350-352 | one argument per define |
| PtxBackend.PtxArgumentsSplit | src/win32/gpucc_compiler_ptx_win32.cc:319-352 | the list is architecture, profile, debug, optimisation, strictness, defines |
| PtxBackend.PtxArgumentsShape | src/win32/gpucc_compiler_ptx_win32.cc:319-352 | "--gpu-architecture" then the profile come first and the defines come last, in order |
| PtxBackend.PtxFlagArgumentCount | src/win32/gpucc_compiler_ptx_win32.cc:321-349 | DEBUG adds 2, DISABLE_OPT adds 4 (otherwise fast-math adds 1), IEEE adds 3 |
| PtxBackend.PtxIgnoresOtherFlags | src/win32/gpucc_compiler_ptx_win32.cc:333-344 | WX, row-major, 16-bit and avoid-flow change no argument |
| PtxBackend.StrictUnoptimizedRepeatsFtz | src/win32/gpucc_compiler_ptx_win32.cc:326-346 | with DISABLE_OPT and IEEE both set, "--ftz=false" is passed twice |
| PtxBackend.StorePtxArg | src/win32/gpucc_compiler_ptx_win32.cc:43-57 | one store keeps the stored list equal to the capped wanted list |
| PtxBackend.StoreArchitectureArguments | src/win32/gpucc_compiler_ptx_win32.cc:319-324 | stores "--gpu-architecture", the profile and the debug arguments |
| PtxBackend.StoreOptimizationArguments | src/win32/gpucc_compiler_ptx_win32.cc:325-332 | stores the four strict-math arguments, or "--use-fast-math" |
| PtxBackend.StoreStrictnessArguments | src/win32/gpucc_compiler_ptx_win32.cc:345-349 | stores the three IEEE arguments when requested |
| PtxBackend.StoreDefineArguments | src/win32/gpucc_compiler_ptx_win32.cc:350-352 | stores every define pointer in order |
| PtxBackend.StorePtxArguments | src/win32/gpucc_compiler_ptx_win32.cc:314-352 | the stored arguments are the capped full PTX argument list |
| PtxBackend.CreateCompilerPtx | src/win32/gpucc_compiler_ptx_win32.cc:236-366 | only a null profile is rejected (INVALID_TARGET_PROFILE); OUT_OF_HOST_MEMORY on malloc failure; otherwise a block of exactly nbneed bytes in the PTX layout, the argument list, type NVRTC, bytecode PTX, the process table, DefineCount and TargetRuntime |
| Platform.SupportMaskBits | src/win32/gpucc_platform_win32.cc:43-52 | each support bit is set exactly when that loader reported its library, and the SHADERC bit never is |
| Platform.ProcessContext.constructor | src/win32/dllmain.cc:13-17 | the registry starts not started, with no support and zeroed tables |
| Platform.ProcessContext.Startup | src/win32/gpucc_platform_win32.cc:17-56 | an unknown mode gives INVALID_USAGE_MODE and a second startup ALREADY_INITIALIZED, both changing nothing; otherwise SUCCESS, the flag set, the bitmask from the three query-supports, and each table exactly as its Populate leaves it (`Populated`): every entry of all three tables resolved from its loaded DLL or stubbed, with all six development FXC entries resolved only in OFFLINE mode and stubbed in RUNTIME mode |
| Platform.ProcessContext.Shutdown | src/win32/gpucc_platform_win32.cc:58-74 | all three tables hold stubs with null handles, the bitmask is NONE and the flag is cleared |
| Platform.GetLastResult | src/win32/gpucc_platform_win32.cc:7-15 | returns the thread's slot |
| Platform.CompilerTypeForProduces | src/win32/gpucc_platform_win32.cc:108-129 | a bytecode type is unknown exactly when no compiler produces it, and otherwise the chosen compiler produces it (DXIL, SPIRV to DXC; DXBC to FXC; PTX to NVRTC) |
| Platform.SupportForStartup | src/win32/gpucc_platform_win32.cc:136 | after startup the support check passes exactly when the chosen compiler's library loaded |
| Platform.CreateCompiler | src/win32/gpucc_platform_win32.cc:76-164 | NOT_INITIALIZED, then INVALID_ARGUMENT for a null config or missing define arrays, then INVALID_BYTECODE_TYPE, then COMPILER_NOT_SUPPORTED, each returning null; the NVRTC branch returns null with the slot untouched; a created compiler has the mapped type and the config's bytecode type; null define values are admitted except where FXC or DXC will read them |
| Platform.CreateFxc | src/win32/gpucc_platform_win32.cc:150-152 | dispatching to FXC gives an FXC compiler over the process table, or null with a failure recorded |
| Platform.CreateDxc | src/win32/gpucc_platform_win32.cc:147-149 | dispatching to DXC gives a DXC compiler over the process table with the config's arguments, or null with a failure recorded |
| Platform.DeleteCompiler | src/win32/gpucc_platform_win32.cc:166-173 | only the compiler's block is freed; no cleanup callback runs |
| Platform.CreateBytecodeContainer | src/win32/gpucc_platform_win32.cc:175-191 | a null compiler gives INVALID_ARGUMENT; otherwise the owning back end's container creation |
| Platform.DeleteBytecodeContainer | src/win32/gpucc_platform_win32.cc:193-204 | a null container is a no-op; DXC releases code then log, FXC and PTX log then code, and then the names block; the container itself is not freed and its CompileResult is untouched |
| Platform.CompileInBackend | src/win32/gpucc_platform_win32.cc:248-251 | the back end's result is returned unchanged and the slot is then overwritten with SUCCESS; the container then owns the code and log that BackendOutputs names, with matching pointers and sizes, or is untouched when the back end keeps nothing |
| Platform.BackendOutputs | src/win32/gpucc_platform_win32.cc:248 | FXC always leaves its two blobs, DXC leaves DxcCode/DxcLog exactly when it got an operation result, NVRTC leaves heap copies exactly when they were delivered |
| Platform.CompileInFxc | src/win32/gpucc_platform_win32.cc:248-249 | on an FXC compiler: the back end's result, the slot SUCCESS, and the container owning D3DCompile's code and log blobs |
| Platform.CompileInDxc | src/win32/gpucc_platform_win32.cc:248-249 | on a DXC compiler: the back end's result, the slot SUCCESS, and the container owning DxcCode/DxcLog when there was an operation result, untouched otherwise |
| Platform.CompileInPtx | src/win32/gpucc_platform_win32.cc:248-249 | on an NVRTC compiler: the back end's result, the slot SUCCESS, and the container owning the heap copies when they were delivered, untouched otherwise |
| Platform.CompileProgramBytecode | src/win32/gpucc_platform_win32.cc:206-252 | INVALID_ARGUMENT for a null container or a null/empty source, INVALID_BYTECODE_CONTAINER for a used one, each recorded and before any back-end call; name-interning OOM is returned; otherwise the names block holds the entry point then the source path, SourcePath points just past the entry point, the container owns the back end's code and log (BackendOutputs), the back end's result is returned with the slot SUCCESS, and CompileResult is never written |
| Platform.InternAndCompile | src/win32/gpucc_platform_win32.cc:239-251 | OOM on the names leaves the container untouched; otherwise a fresh block with the entry point at 0 and SourcePath right after it, the back end's result, the slot SUCCESS and the container owning the back end's outputs or keeping its old ones |
| Platform.ReachedBackendHidesCompileFailure | src/win32/gpucc_platform_win32.cc:248-250 | a PTX compile that nvrtc rejected but whose copies were delivered gives a successful back-end result and leaves the container owning the copies; with CompileInBackend's SUCCESS slot the rejection is reported nowhere |

## Left out

- Debug output (`gpuccDebugPrintf`/`gpuccDebugPrintfW`) writes only to the debugger, so it is not modelled.
- DLL and TLS bootstrap (DllMain, TlsAlloc, lazy thread-context creation) is not modelled. The last-result slot is one field of `ThreadContext`, and the process context is one object.
- The native compilers, COM objects and `Release` are oracles. Their outcomes are parameters, and a released object is recorded in a `Disposal` list.
- Library loading is a map from DLL name to exported symbols, and `FreeLibrary` is recorded only as the handle becoming null.
- UTF-8 to UTF-16 conversion is an oracle that may fail. Its byte count is assumed to be 2·units+2. The last result `gpuccConvertUtf8ToUtf16` records when it fails is a parameter too (`utf16Failure`), since that helper is not part of this model.
- GetLastError and errno are integer parameters.
- Pointer-sized fields, `sizeof` values and struct-prefix casts are uninterpreted constants, and alignment is not modelled.
- The argument arrays are separate Dafny arrays rather than slots carved out of the block. The block's size still reserves `MAX_ARGS` pointer slots for them.
- `%u` is modelled as one or more ASCII digits. Leading whitespace, signs and overflow in `sscanf_s` are not modelled.
- PtxBackend.CreateCompilerPtx requires every formatted define to fit the 256-byte `argbuf` (`DefinesFit`). `_snprintf_s` truncation is not modelled.
- FxcBackend.CreateCompilerFxc requires non-null define values (`ValuesPresent`), because the code calls `strlen` on each.
- DxcBackend.CreateCompilerDxc requires non-null define values (`ValuesPresent`), because the conversion helpers it passes them to (`gpuccStringInfoUtf8ToUtf16`, `gpuccInternUtf8ToUtf16`) are not part of this model, so their handling of a null string is unknown.
- Platform.CreateCompiler carries that requirement only on the branch that dispatches to FXC or DXC. Before start-up, for an unknown or unsupported bytecode type and for PTX, a null define value is accepted.
- `source_size` is the length of the source sequence. nvrtc ignores it (the string is read up to its nul), and DXC truncates it to 32 bits (`Pinned`).
- `--disable-warnings` is declared by the PTX back end but never stored, so it is not modelled.
- PtxBackend.CompileBytecodePtx does not model the temporary buffers or the nvrtcProgram's destroy calls, including the program left undestroyed on an allocation failure.
- The delete functions never free the container struct itself. The model records no disposal for it.
- Platform.DeleteCompiler does not call the cleanup callback (the source has a TODO there), so DXC's COM instances are not released. `CleanupCompilerDxc` is modelled on its own.
- Compiler flags are a set: the model assumes the `GPUCC_COMPILER_FLAG_*` values are distinct single bits.
- The header-only SHADERC compiler type has no back end, and `gpuccCreateCompiler` never reaches it.
- samples/sample_compiler.cc is a driver and is not part of this model.
