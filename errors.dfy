/** The exceptions the adapter raises or lets through, as values. */
module Errors {
  /** The two kinds of transport failure handed to the retry policy (httpx.RequestError, httpx.StreamError). */
  datatype TransportKind = RequestError | StreamError

  datatype Error =
    /** ValueError "Model {name} is not supported yet!", carrying the lower-cased name. */
    | UnsupportedModel(name: string)
    /** httpx.HTTPStatusError: the response status, the URL fetched and the formatted message. */
    | HttpStatusError(status: int, url: string, message: string)
    /** A body or event payload that `.json()` cannot decode. */
    | DecodeError(data: string)
    /** A connection-level failure inside the transport. */
    | Transport(kind: TransportKind)
}
