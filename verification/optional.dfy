/** A possibly absent argument: JavaScript's `undefined`/`null` as `None`, and
    the nullish-coalescing operator `??` that supplies a fallback for it. */
module Optional {

  datatype Option<T> = None | Some(value: T)

  /** `o ?? fallback`: a present value wins; only an absent one is replaced. */
  function Coalesce<T>(o: Option<T>, fallback: T): (r: T)
    ensures o.Some? ==> r == o.value
    ensures o.None? ==> r == fallback
  {
    if o.None? then fallback else o.value
  }
}
