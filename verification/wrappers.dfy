/** Small value wrappers shared by every page of the storefront model. */
module Wrappers {

  /** A value that may be absent: JavaScript's `null`/`undefined` fields. */
  datatype Option<+T> = None | Some(value: T)

  /** The outcome of one request to the storefront's REST API. The transport
      is not modelled: a page receives either the response body or a
      rejection carrying the server's message ("" when it sent none). */
  datatype Reply<+T> = Ok(data: T) | Failed(message: string)

  /** JavaScript's `s || fallback` on strings: the empty string is falsy. */
  function OrElse(s: string, fallback: string): string
  {
    if s != "" then s else fallback
  }

  /** JavaScript's `field || fallback` on an optional string field. */
  function PresentOr(s: Option<string>, fallback: string): string
  {
    if s.Some? && s.value != "" then s.value else fallback
  }

  /** A toast notification raised by a handler. */
  datatype Toast = ToastSuccess(text: string) | ToastError(text: string)
}
