/**
 * The runtime loader for dxcompiler.dll and dxil.dll: two entry points, two
 * module handles, and their stubs.
 */
module DxcCompilerApi {
  import opened Wrappers
  import opened Loader

  const DXCOMPILER_DLL: string := "dxcompiler.dll"
  const DXIL_DLL: string := "dxil.dll"

  /** An `LPVOID *ppv` out-parameter receiving an interface pointer. */
  type ObjectOut = Out<Option<Native>>

  function DxcCreateInstanceStub(ppv: ObjectOut): (r: (int, ObjectOut))
    ensures r.0 == E_NOTIMPL && Failed(r.0)
    ensures WroteIfPresent(ppv, r.1, None)
  {
    (E_NOTIMPL, Store(ppv, None))
  }

  function DxcCreateInstance2Stub(ppv: ObjectOut): (r: (int, ObjectOut))
    ensures r.0 == E_NOTIMPL && Failed(r.0)
    ensures WroteIfPresent(ppv, r.1, None)
  {
    (E_NOTIMPL, Store(ppv, None))
  }

  /** What one call of DxcCreateInstance leaves behind: its HRESULT and the instance pointer it wrote. */
  datatype CreateOutcome = CreateOutcome(hr: int, instance: Option<Native>)

  /** A call through the DxcCreateInstance field with a null-initialised `ppv`. */
  function CallDxcCreateInstance(entry: Entry, native: CreateOutcome): (out: CreateOutcome)
    requires entry != Null
    ensures entry == Stub ==> out == CreateOutcome(E_NOTIMPL, None)
    ensures entry.Resolved? ==> out == native
  {
    if entry == Stub then
      var r := DxcCreateInstanceStub(Ptr(None));
      CreateOutcome(r.0, r.1.slot)
    else
      native
  }

  /** DXCCOMPILERAPI_DISPATCH */
  class DxcCompilerDispatch {
    var DxcCreateInstance: Entry
    var DxcCreateInstance2: Entry
    var ModuleHandleDxCompiler: Option<Library>
    var ModuleHandleDxil: Option<Library>

    /** The zero-initialised table of a freshly loaded process. */
    constructor ()
      ensures DxcCreateInstance == Null && DxcCreateInstance2 == Null
      ensures ModuleHandleDxCompiler == None && ModuleHandleDxil == None
    {
      DxcCreateInstance, DxcCreateInstance2 := Null, Null;
      ModuleHandleDxCompiler, ModuleHandleDxil := None, None;
    }

    /** Both entries can be called. */
    predicate Bound()
      reads this
    {
      DxcCreateInstance != Null && DxcCreateInstance2 != Null
    }

    /**
     * What DxcCompilerApiPopulateDispatch leaves: both libraries' handles,
     * and both entries resolved from dxcompiler.dll or stubbed.
     */
    predicate Populated(host: Host)
      reads this
    {
      ModuleHandleDxCompiler == LoadLibrary(host, DXCOMPILER_DLL)
      && ModuleHandleDxil == LoadLibrary(host, DXIL_DLL)
      && DxcCreateInstance == RuntimeFunctionResolve(ModuleHandleDxCompiler, "DxcCreateInstance")
      && DxcCreateInstance2 == RuntimeFunctionResolve(ModuleHandleDxCompiler, "DxcCreateInstance2")
      && Bound()
    }

    /**
     * DxcCompilerApiPopulateDispatch: load both libraries independently,
     * resolve both entries from dxcompiler.dll, keep both handles, and report
     * whether dxcompiler.dll (only) loaded. The loader flags are ignored.
     */
    method Populate(host: Host, loaderFlags: bv32) returns (loaded: bool)
      modifies this
      ensures Populated(host)
      ensures loaded <==> ModuleHandleDxCompiler.Some?
    {
      var dxcompiler := LoadLibrary(host, DXCOMPILER_DLL);
      var dxil := LoadLibrary(host, DXIL_DLL);
      DxcCreateInstance := RuntimeFunctionResolve(dxcompiler, "DxcCreateInstance");
      DxcCreateInstance2 := RuntimeFunctionResolve(dxcompiler, "DxcCreateInstance2");
      ModuleHandleDxCompiler := dxcompiler;
      ModuleHandleDxil := dxil;
      loaded := dxcompiler.Some?;
    }

    /** DxcCompilerApiQuerySupport: whether dxcompiler.dll is loaded. */
    function QuerySupport(): (supported: bool)
      reads this
      ensures supported <==> ModuleHandleDxCompiler.Some?
    {
      ModuleHandleDxCompiler.Some?
    }

    /** DxcCompilerApiQuerySigningSupport: whether dxil.dll (the signer) is loaded. */
    function QuerySigningSupport(): (supported: bool)
      reads this
      ensures supported <==> ModuleHandleDxil.Some?
    {
      ModuleHandleDxil.Some?
    }

    /** DxcCompilerApiInvalidateDispatch: both entries back to stubs, each loaded library released. */
    method Invalidate()
      modifies this
      ensures DxcCreateInstance == Stub && DxcCreateInstance2 == Stub && Bound()
      ensures ModuleHandleDxCompiler == None && ModuleHandleDxil == None
    {
      DxcCreateInstance := Stub;
      DxcCreateInstance2 := Stub;
      if ModuleHandleDxCompiler.Some? {
        ModuleHandleDxCompiler := None;
      }
      if ModuleHandleDxil.Some? {
        ModuleHandleDxil := None;
      }
    }
  }
}
