/** Shared vocabulary of the three slices: how an async thunk settles and how
    a rejection becomes the slice's `error` text. */
module Thunk {

  datatype Option<T> = None | Some(value: T)

  /** The outcome of the remote call inside an async thunk: fulfilled with the
      payload the thunk returned, or rejected with the thrown error's message
      (absent when the error carries none). */
  datatype Settled<T> = Fulfilled(payload: T) | Rejected(message: Option<string>)

  /** JavaScript truthiness of a `string | null` / `string | undefined`:
      null, undefined and the empty string are falsy. */
  predicate Truthy(s: Option<string>) {
    s.Some? && s.value != ""
  }

  /** `action.error.message || fallback`: the message when it is a non-empty
      string, the fallback otherwise. */
  function ErrorText(message: Option<string>, fallback: string): (e: string)
    ensures Truthy(message) ==> e == message.value
    ensures !Truthy(message) ==> e == fallback
    ensures e == fallback || Some(e) == message
    ensures fallback != "" ==> e != ""
  {
    if Truthy(message) then message.value else fallback
  }
}
