/**
 * Vocabulary shared by the three runtime loaders: loaded libraries, the
 * entries of a dispatch table, native objects reached through out-pointers,
 * and symbol resolution with fallback to a stub.
 */
module Loader {
  import opened Wrappers
  import opened Gpucc

  /** A library loaded into the process, seen as the set of symbols it exports. */
  type Library = set<string>

  /** The libraries the host's loader can find, by file name. */
  type Host = map<string, Library>

  /**
   * One function-pointer field of a dispatch table: not yet assigned (the
   * zero-initialised table), bound to the library's export of that name, or
   * bound to the loader's own stub.
   */
  datatype Entry = Null | Resolved(symbol: string) | Stub

  /** A native object handed out through a pointer: a buffer-like blob, or any other interface instance. */
  datatype Native = Blob(contents: seq<Byte>) | Instance(id: nat)

  /** E_NOTIMPL (0x80004001) read as a signed 32-bit HRESULT. */
  const E_NOTIMPL: int := -2147467263

  /** FAILED(hr) */
  predicate Failed(hr: int)
  {
    hr < 0
  }

  /** LoadLibraryW: the library when the host has it, null otherwise. */
  function LoadLibrary(host: Host, name: string): (library: Option<Library>)
    ensures library.Some? <==> name in host
    ensures library.Some? ==> library.value == host[name]
  {
    if name in host then Some(host[name]) else None
  }

  /** RuntimeModuleResolve: GetProcAddress on a loaded module, null for a null module. */
  function RuntimeModuleResolve(library: Option<Library>, symbol: string): (address: Option<string>)
    ensures address.Some? <==> library.Some? && symbol in library.value
    ensures address.Some? ==> address.value == symbol
  {
    match library
    case None => None
    case Some(exports) => if symbol in exports then Some(symbol) else None
  }

  /** The RuntimeFunctionResolve macro: bind the export, and fall back to the stub when it is null. */
  function RuntimeFunctionResolve(library: Option<Library>, symbol: string): (e: Entry)
    ensures e != Null
    ensures e == Resolved(symbol) <==> library.Some? && symbol in library.value
    ensures e != Resolved(symbol) ==> e == Stub
  {
    match RuntimeModuleResolve(library, symbol)
    case Some(address) => Resolved(address)
    case None => Stub
  }

  /** A library that failed to load resolves every symbol to the stub. */
  lemma {:induction false} AbsentLibraryGivesStubs(symbol: string)
    ensures RuntimeFunctionResolve(None, symbol) == Stub
  {
  }
}
