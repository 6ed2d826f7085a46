/** Wrappers shared by every store and screen of the model. */
module Base {

  datatype Option<T> = None | Some(value: T)

  /** The error an opaque remote service (document store or auth provider) rejects with. */
  datatype RemoteError = RemoteError(code: string)

  /** The outcome of one awaited remote call: the service either answers or rejects.
      Each remote call of the application is an input of this type (an oracle). */
  datatype Remote<T> = Answered(value: T) | Rejected(error: RemoteError)

  /** How an async store operation ends: it resolves, or it throws `error`. */
  datatype Outcome<E> = Done | Thrown(error: E)

  /** An opaque image reference (an asset handle, a URI or a data URI);
      the empty string stands for a falsy value. */
  type Image = string

  /** JavaScript truthiness of an optional string: absent and "" are falsy. */
  predicate Truthy(s: Option<string>)
  {
    s.Some? && s.value != ""
  }

  /** `s || null`: a falsy optional string becomes absent. */
  function OrNone(s: Option<string>): (r: Option<string>)
    ensures r.Some? <==> Truthy(s)
    ensures r.Some? ==> r == s
  {
    if Truthy(s) then s else None
  }
}
