/**
 * The runtime loader for d3dcompiler_47.dll: its dispatch table of eighteen
 * entry points, the stub each entry falls back to, and populate, query and
 * invalidate. The FXC backend compiles through this table.
 */
module D3DCompilerApi {
  import opened Wrappers
  import opened Loader

  const D3DCOMPILER_DLL: string := "d3dcompiler_47.dll"

  /** D3DCOMPILERAPI_LOADER_FLAG_DEVELOPMENT: also resolve the development-only entry points. */
  const LOADER_FLAG_DEVELOPMENT: bv32 := 1

  /** An `IUnknown **` or `ID3DBlob **` out-parameter. */
  type ObjectOut = Out<Option<Native>>

  // ---------------------------------------------------------------------
  // Stubs. Each ignores its inputs, nulls or zeroes every non-null
  // out-pointer and returns E_NOTIMPL. Inputs a stub never reads are not
  // parameters here.
  // ---------------------------------------------------------------------

  function D3DCompileStub(ppCode: ObjectOut, ppErrorMsgs: ObjectOut): (r: (int, ObjectOut, ObjectOut))
    ensures r.0 == E_NOTIMPL && Failed(r.0)
    ensures WroteIfPresent(ppCode, r.1, None) && WroteIfPresent(ppErrorMsgs, r.2, None)
  {
    (E_NOTIMPL, Store(ppCode, None), Store(ppErrorMsgs, None))
  }

  function D3DCompile2Stub(ppCode: ObjectOut, ppErrorMsgs: ObjectOut): (r: (int, ObjectOut, ObjectOut))
    ensures r.0 == E_NOTIMPL && Failed(r.0)
    ensures WroteIfPresent(ppCode, r.1, None) && WroteIfPresent(ppErrorMsgs, r.2, None)
  {
    (E_NOTIMPL, Store(ppCode, None), Store(ppErrorMsgs, None))
  }

  function D3DCompileFromFileStub(ppCode: ObjectOut, ppErrorMsgs: ObjectOut): (r: (int, ObjectOut, ObjectOut))
    ensures r.0 == E_NOTIMPL && Failed(r.0)
    ensures WroteIfPresent(ppCode, r.1, None) && WroteIfPresent(ppErrorMsgs, r.2, None)
  {
    (E_NOTIMPL, Store(ppCode, None), Store(ppErrorMsgs, None))
  }

  function D3DCompressShadersStub(ppCompressedData: ObjectOut): (r: (int, ObjectOut))
    ensures r.0 == E_NOTIMPL && Failed(r.0)
    ensures WroteIfPresent(ppCompressedData, r.1, None)
  {
    (E_NOTIMPL, Store(ppCompressedData, None))
  }

  function D3DCreateBlobStub(ppBlob: ObjectOut): (r: (int, ObjectOut))
    ensures r.0 == E_NOTIMPL && Failed(r.0)
    ensures WroteIfPresent(ppBlob, r.1, None)
  {
    (E_NOTIMPL, Store(ppBlob, None))
  }

  /** Only the first element of the `ppShaders` array is written. */
  function D3DDecompressShadersStub(ppShaders: ObjectOut, pTotalShaders: Out<nat>): (r: (int, ObjectOut, Out<nat>))
    ensures r.0 == E_NOTIMPL && Failed(r.0)
    ensures WroteIfPresent(ppShaders, r.1, None) && WroteIfPresent(pTotalShaders, r.2, 0)
  {
    (E_NOTIMPL, Store(ppShaders, None), Store(pTotalShaders, 0))
  }

  function D3DDisassembleStub(ppDisassembly: ObjectOut): (r: (int, ObjectOut))
    ensures r.0 == E_NOTIMPL && Failed(r.0)
    ensures WroteIfPresent(ppDisassembly, r.1, None)
  {
    (E_NOTIMPL, Store(ppDisassembly, None))
  }

  /** The one stub that reads an input: the finish offset is set to the start offset. */
  function D3DDisassembleRegionStub(startByteOffset: nat, pFinishByteOffset: Out<nat>, ppDisassembly: ObjectOut)
    : (r: (int, Out<nat>, ObjectOut))
    ensures r.0 == E_NOTIMPL && Failed(r.0)
    ensures WroteIfPresent(pFinishByteOffset, r.1, startByteOffset)
    ensures WroteIfPresent(ppDisassembly, r.2, None)
  {
    (E_NOTIMPL, Store(pFinishByteOffset, startByteOffset), Store(ppDisassembly, None))
  }

  function D3DGetBlobPartStub(ppPart: ObjectOut): (r: (int, ObjectOut))
    ensures r.0 == E_NOTIMPL && Failed(r.0)
    ensures WroteIfPresent(ppPart, r.1, None)
  {
    (E_NOTIMPL, Store(ppPart, None))
  }

  function D3DGetDebugInfoStub(ppDebugInfo: ObjectOut): (r: (int, ObjectOut))
    ensures r.0 == E_NOTIMPL && Failed(r.0)
    ensures WroteIfPresent(ppDebugInfo, r.1, None)
  {
    (E_NOTIMPL, Store(ppDebugInfo, None))
  }

  /** Only the first element of the `pOffsets` array is written. */
  function D3DGetTraceInstructionOffsetsStub(pOffsets: Out<nat>, pTotalInstructions: Out<nat>): (r: (int, Out<nat>, Out<nat>))
    ensures r.0 == E_NOTIMPL && Failed(r.0)
    ensures WroteIfPresent(pOffsets, r.1, 0) && WroteIfPresent(pTotalInstructions, r.2, 0)
  {
    (E_NOTIMPL, Store(pOffsets, 0), Store(pTotalInstructions, 0))
  }

  function D3DPreprocessStub(ppCodeText: ObjectOut, ppErrorMsgs: ObjectOut): (r: (int, ObjectOut, ObjectOut))
    ensures r.0 == E_NOTIMPL && Failed(r.0)
    ensures WroteIfPresent(ppCodeText, r.1, None) && WroteIfPresent(ppErrorMsgs, r.2, None)
  {
    (E_NOTIMPL, Store(ppCodeText, None), Store(ppErrorMsgs, None))
  }

  function D3DReadFileToBlobStub(ppContents: ObjectOut): (r: (int, ObjectOut))
    ensures r.0 == E_NOTIMPL && Failed(r.0)
    ensures WroteIfPresent(ppContents, r.1, None)
  {
    (E_NOTIMPL, Store(ppContents, None))
  }

  function D3DReflectStub(ppReflector: ObjectOut): (r: (int, ObjectOut))
    ensures r.0 == E_NOTIMPL && Failed(r.0)
    ensures WroteIfPresent(ppReflector, r.1, None)
  {
    (E_NOTIMPL, Store(ppReflector, None))
  }

  function D3DReflectLibraryStub(ppReflector: ObjectOut): (r: (int, ObjectOut))
    ensures r.0 == E_NOTIMPL && Failed(r.0)
    ensures WroteIfPresent(ppReflector, r.1, None)
  {
    (E_NOTIMPL, Store(ppReflector, None))
  }

  function D3DSetBlobPartStub(ppNewShader: ObjectOut): (r: (int, ObjectOut))
    ensures r.0 == E_NOTIMPL && Failed(r.0)
    ensures WroteIfPresent(ppNewShader, r.1, None)
  {
    (E_NOTIMPL, Store(ppNewShader, None))
  }

  function D3DStripShaderStub(ppStrippedBlob: ObjectOut): (r: (int, ObjectOut))
    ensures r.0 == E_NOTIMPL && Failed(r.0)
    ensures WroteIfPresent(ppStrippedBlob, r.1, None)
  {
    (E_NOTIMPL, Store(ppStrippedBlob, None))
  }

  /** No out-parameters: the stub only fails. */
  function D3DWriteBlobToFileStub(): (hr: int)
    ensures hr == E_NOTIMPL && Failed(hr)
  {
    E_NOTIMPL
  }

  /** What one call of D3DCompile leaves behind: its HRESULT and the code and error blobs it handed out. */
  datatype CompileOutcome = CompileOutcome(hr: int, code: Option<Native>, errors: Option<Native>)

  /**
   * A call through the D3DCompile field with both out-pointers supplied and
   * initialised to null: the stub's outcome, or what the native library does.
   */
  function CallD3DCompile(entry: Entry, native: CompileOutcome): (out: CompileOutcome)
    requires entry != Null
    ensures entry == Stub ==> out == CompileOutcome(E_NOTIMPL, None, None)
    ensures entry.Resolved? ==> out == native
  {
    if entry == Stub then
      var r := D3DCompileStub(Ptr(None), Ptr(None));
      CompileOutcome(r.0, r.1.slot, r.2.slot)
    else
      native
  }

  /** The eighteen function-pointer fields of D3DCOMPILERAPI_DISPATCH. */
  datatype Entries = Entries(
    D3DCompile: Entry,
    D3DCompile2: Entry,
    D3DCompileFromFile: Entry,
    D3DCompressShaders: Entry,
    D3DCreateBlob: Entry,
    D3DDecompressShaders: Entry,
    D3DDisassemble: Entry,
    D3DDisassembleRegion: Entry,
    D3DGetBlobPart: Entry,
    D3DGetDebugInfo: Entry,
    D3DGetTraceInstructionOffsets: Entry,
    D3DPreprocess: Entry,
    D3DReadFileToBlob: Entry,
    D3DReflect: Entry,
    D3DReflectLibrary: Entry,
    D3DSetBlobPart: Entry,
    D3DStripShader: Entry,
    D3DWriteBlobToFile: Entry)
  {
    /** Every field is still unassigned. */
    predicate AllNull()
    {
      D3DCompile == Null &&
      D3DCompile2 == Null &&
      D3DCompileFromFile == Null &&
      D3DCompressShaders == Null &&
      D3DCreateBlob == Null &&
      D3DDecompressShaders == Null &&
      D3DDisassemble == Null &&
      D3DDisassembleRegion == Null &&
      D3DGetBlobPart == Null &&
      D3DGetDebugInfo == Null &&
      D3DGetTraceInstructionOffsets == Null &&
      D3DPreprocess == Null &&
      D3DReadFileToBlob == Null &&
      D3DReflect == Null &&
      D3DReflectLibrary == Null &&
      D3DSetBlobPart == Null &&
      D3DStripShader == Null &&
      D3DWriteBlobToFile == Null
    }

    /** Every field can be called: none is Null. */
    predicate Bound()
    {
      D3DCompile != Null &&
      D3DCompile2 != Null &&
      D3DCompileFromFile != Null &&
      D3DCompressShaders != Null &&
      D3DCreateBlob != Null &&
      D3DDecompressShaders != Null &&
      D3DDisassemble != Null &&
      D3DDisassembleRegion != Null &&
      D3DGetBlobPart != Null &&
      D3DGetDebugInfo != Null &&
      D3DGetTraceInstructionOffsets != Null &&
      D3DPreprocess != Null &&
      D3DReadFileToBlob != Null &&
      D3DReflect != Null &&
      D3DReflectLibrary != Null &&
      D3DSetBlobPart != Null &&
      D3DStripShader != Null &&
      D3DWriteBlobToFile != Null
    }

    /** Every field is its stub. */
    predicate AllStubs()
    {
      D3DCompile == Stub &&
      D3DCompile2 == Stub &&
      D3DCompileFromFile == Stub &&
      D3DCompressShaders == Stub &&
      D3DCreateBlob == Stub &&
      D3DDecompressShaders == Stub &&
      D3DDisassemble == Stub &&
      D3DDisassembleRegion == Stub &&
      D3DGetBlobPart == Stub &&
      D3DGetDebugInfo == Stub &&
      D3DGetTraceInstructionOffsets == Stub &&
      D3DPreprocess == Stub &&
      D3DReadFileToBlob == Stub &&
      D3DReflect == Stub &&
      D3DReflectLibrary == Stub &&
      D3DSetBlobPart == Stub &&
      D3DStripShader == Stub &&
      D3DWriteBlobToFile == Stub
    }
  }

  /** D3DCOMPILERAPI_DISPATCH: the entry points and the handle of the loaded library. */
  class D3DCompilerDispatch {
    var Api: Entries
    var ModuleHandle: Option<Library>

    /** The zero-initialised table of a freshly loaded process. */
    constructor ()
      ensures Api.AllNull() && ModuleHandle == None
    {
      Api := Entries(Null, Null, Null, Null, Null, Null, Null, Null, Null, Null, Null, Null, Null, Null, Null, Null, Null, Null);
      ModuleHandle := None;
    }

    /**
     * What D3DCompilerApiPopulateDispatch leaves: the library's handle, the
     * six development-only entries bound only under LOADER_FLAG_DEVELOPMENT
     * (stubs otherwise), the twelve others bound, and all stubs when the
     * library is absent.
     */
    predicate Populated(host: Host, loaderFlags: bv32)
      reads this
    {
      ModuleHandle == LoadLibrary(host, D3DCOMPILER_DLL)
      && Api.Bound()
      && (ModuleHandle.None? ==> Api.AllStubs())
      && (loaderFlags & LOADER_FLAG_DEVELOPMENT != 0 ==>
            Api.D3DCompileFromFile == RuntimeFunctionResolve(ModuleHandle, "D3DCompileFromFile")
            && Api.D3DCompressShaders == RuntimeFunctionResolve(ModuleHandle, "D3DCompressShaders")
            && Api.D3DDecompressShaders == RuntimeFunctionResolve(ModuleHandle, "D3DDecompressShaders")
            && Api.D3DGetDebugInfo == RuntimeFunctionResolve(ModuleHandle, "D3DGetDebugInfo")
            && Api.D3DReadFileToBlob == RuntimeFunctionResolve(ModuleHandle, "D3DReadFileToBlob")
            && Api.D3DWriteBlobToFile == RuntimeFunctionResolve(ModuleHandle, "D3DWriteBlobToFile"))
      && (loaderFlags & LOADER_FLAG_DEVELOPMENT == 0 ==>
            Api.D3DCompileFromFile == Stub
            && Api.D3DCompressShaders == Stub
            && Api.D3DDecompressShaders == Stub
            && Api.D3DGetDebugInfo == Stub
            && Api.D3DReadFileToBlob == Stub
            && Api.D3DWriteBlobToFile == Stub)
      && Api.D3DCompile == RuntimeFunctionResolve(ModuleHandle, "D3DCompile")
      && Api.D3DCompile2 == RuntimeFunctionResolve(ModuleHandle, "D3DCompile2")
      && Api.D3DCreateBlob == RuntimeFunctionResolve(ModuleHandle, "D3DCreateBlob")
      && Api.D3DDisassemble == RuntimeFunctionResolve(ModuleHandle, "D3DDisassemble")
      && Api.D3DDisassembleRegion == RuntimeFunctionResolve(ModuleHandle, "D3DDisassembleRegion")
      && Api.D3DGetBlobPart == RuntimeFunctionResolve(ModuleHandle, "D3DGetBlobPart")
      && Api.D3DGetTraceInstructionOffsets == RuntimeFunctionResolve(ModuleHandle, "D3DGetTraceInstructionOffsets")
      && Api.D3DPreprocess == RuntimeFunctionResolve(ModuleHandle, "D3DPreprocess")
      && Api.D3DReflect == RuntimeFunctionResolve(ModuleHandle, "D3DReflect")
      && Api.D3DReflectLibrary == RuntimeFunctionResolve(ModuleHandle, "D3DReflectLibrary")
      && Api.D3DSetBlobPart == RuntimeFunctionResolve(ModuleHandle, "D3DSetBlobPart")
      && Api.D3DStripShader == RuntimeFunctionResolve(ModuleHandle, "D3DStripShader")
    }

    /**
     * After population, a D3DCompile call reaches d3dcompiler_47.dll exactly
     * when the host has that library and it exports D3DCompile; otherwise
     * it reaches the stub.
     */
    lemma {:induction false} PopulatedBindsD3DCompile(host: Host, loaderFlags: bv32)
      requires Populated(host, loaderFlags)
      ensures Api.D3DCompile == Resolved("D3DCompile") <==> D3DCOMPILER_DLL in host && "D3DCompile" in host[D3DCOMPILER_DLL]
      ensures Api.D3DCompile != Resolved("D3DCompile") ==> Api.D3DCompile == Stub
    {
    }

    /**
     * D3DCompilerApiPopulateDispatch: load the library, bind the six
     * development-only entries only when asked to (stubs otherwise), bind the
     * twelve others, keep the handle and report whether the library loaded.
     */
    method Populate(host: Host, loaderFlags: bv32) returns (loaded: bool)
      modifies this
      ensures Populated(host, loaderFlags)
      ensures loaded <==> ModuleHandle.Some?
    {
      var dll := LoadLibrary(host, D3DCOMPILER_DLL);
      var api := Api;
      if loaderFlags & LOADER_FLAG_DEVELOPMENT != 0 {
        api := api.(D3DCompileFromFile := RuntimeFunctionResolve(dll, "D3DCompileFromFile"));
        api := api.(D3DCompressShaders := RuntimeFunctionResolve(dll, "D3DCompressShaders"));
        api := api.(D3DDecompressShaders := RuntimeFunctionResolve(dll, "D3DDecompressShaders"));
        api := api.(D3DGetDebugInfo := RuntimeFunctionResolve(dll, "D3DGetDebugInfo"));
        api := api.(D3DReadFileToBlob := RuntimeFunctionResolve(dll, "D3DReadFileToBlob"));
        api := api.(D3DWriteBlobToFile := RuntimeFunctionResolve(dll, "D3DWriteBlobToFile"));
      } else {
        api := api.(D3DCompileFromFile := Stub);
        api := api.(D3DCompressShaders := Stub);
        api := api.(D3DDecompressShaders := Stub);
        api := api.(D3DGetDebugInfo := Stub);
        api := api.(D3DReadFileToBlob := Stub);
        api := api.(D3DWriteBlobToFile := Stub);
      }
      api := api.(D3DCompile := RuntimeFunctionResolve(dll, "D3DCompile"));
      api := api.(D3DCompile2 := RuntimeFunctionResolve(dll, "D3DCompile2"));
      api := api.(D3DCreateBlob := RuntimeFunctionResolve(dll, "D3DCreateBlob"));
      api := api.(D3DDisassemble := RuntimeFunctionResolve(dll, "D3DDisassemble"));
      api := api.(D3DDisassembleRegion := RuntimeFunctionResolve(dll, "D3DDisassembleRegion"));
      api := api.(D3DGetBlobPart := RuntimeFunctionResolve(dll, "D3DGetBlobPart"));
      api := api.(D3DGetTraceInstructionOffsets := RuntimeFunctionResolve(dll, "D3DGetTraceInstructionOffsets"));
      api := api.(D3DPreprocess := RuntimeFunctionResolve(dll, "D3DPreprocess"));
      api := api.(D3DReflect := RuntimeFunctionResolve(dll, "D3DReflect"));
      api := api.(D3DReflectLibrary := RuntimeFunctionResolve(dll, "D3DReflectLibrary"));
      api := api.(D3DSetBlobPart := RuntimeFunctionResolve(dll, "D3DSetBlobPart"));
      api := api.(D3DStripShader := RuntimeFunctionResolve(dll, "D3DStripShader"));
      Api := api;
      ModuleHandle := dll;
      loaded := dll.Some?;
    }

    /** D3DCompilerApiQuerySupport: whether the library is loaded. */
    function QuerySupport(): (supported: bool)
      reads this
      ensures supported <==> ModuleHandle.Some?
    {
      ModuleHandle.Some?
    }

    /** D3DCompilerApiInvalidateDispatch: every entry back to its stub, the library released and the handle nulled. */
    method Invalidate()
      modifies this
      ensures Api.AllStubs() && Api.Bound()
      ensures ModuleHandle == None
    {
      var api := Api;
      api := api.(D3DCompile := Stub);
      api := api.(D3DCompile2 := Stub);
      api := api.(D3DCompileFromFile := Stub);
      api := api.(D3DCompressShaders := Stub);
      api := api.(D3DCreateBlob := Stub);
      api := api.(D3DDecompressShaders := Stub);
      api := api.(D3DDisassemble := Stub);
      api := api.(D3DDisassembleRegion := Stub);
      api := api.(D3DGetBlobPart := Stub);
      api := api.(D3DGetDebugInfo := Stub);
      api := api.(D3DGetTraceInstructionOffsets := Stub);
      api := api.(D3DPreprocess := Stub);
      api := api.(D3DReadFileToBlob := Stub);
      api := api.(D3DReflect := Stub);
      api := api.(D3DReflectLibrary := Stub);
      api := api.(D3DSetBlobPart := Stub);
      api := api.(D3DStripShader := Stub);
      api := api.(D3DWriteBlobToFile := Stub);
      Api := api;
      if ModuleHandle.Some? {
        ModuleHandle := None;
      }
    }
  }
}
