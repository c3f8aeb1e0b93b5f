/**
 * Small shared datatypes: an optional value, and a C out-parameter
 * (a pointer that is either null or designates one slot).
 */
module Wrappers {

  datatype Option<T> = None | Some(value: T)

  /** An out-parameter `T *p`: either null, or a pointer to a slot currently holding `slot`. */
  datatype Out<T> = NullPtr | Ptr(slot: T)

  /** `if (p) *p = v;` */
  function Store<T>(p: Out<T>, v: T): Out<T>
  {
    match p
    case NullPtr => NullPtr
    case Ptr(_) => Ptr(v)
  }

  /** The write `after` is `before` with its slot (if any) set to `v`, and nothing through a null pointer. */
  predicate WroteIfPresent<T(==)>(before: Out<T>, after: Out<T>, v: T)
  {
    after.Ptr? == before.Ptr? && (after.Ptr? ==> after.slot == v)
  }
}
