/**
 * What the console sees of its HTTP transport: a call either resolves with a
 * response body or is rejected with an error carrying the server's message
 * (`err.response?.data?.message`) and the error's own message (`err.message`).
 */
module Api {
  import opened Json

  datatype Failure = Failure(responseMessage: Value, message: Value)

  datatype Outcome = Ok(data: Value) | Err(failure: Failure)

  datatype Verb = GET | POST | PUT | DELETE

  /** A request body: none, a JSON document, or the parts of a multipart `FormData`, in append order. */
  datatype Body = NoBody | JsonBody(json: Value) | FormData(parts: seq<Entry>)

  /** The request a handler issues; its outcome is what the handler is given. */
  datatype Request = Request(verb: Verb, url: string, body: Body)

  /**
   * `err.response?.data?.message || err.message || fallback`: the server's
   * message when it sent one, else the error's own, else the fallback.
   */
  function ErrorText(f: Failure, fallback: string): (m: Value)
    requires fallback != ""
    ensures Truthy(m)
    ensures Truthy(f.responseMessage) ==> m == f.responseMessage
    ensures !Truthy(f.responseMessage) && Truthy(f.message) ==> m == f.message
    ensures !Truthy(f.responseMessage) && !Truthy(f.message) ==> m == Str(fallback)
  {
    Or(f.responseMessage, Or(f.message, Str(fallback)))
  }
}
