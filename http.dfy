/** What the plugin sees of net/http, net/url and encoding/xml: the outcome of one GET,
    the errors getXML reports, and the result of fetching and unmarshalling one document.
    The network itself is never modelled; its answers are inputs. */
module Http {
  import opened Wrappers

  type byte = b: int | 0 <= b < 256

  const StatusOK: int := 200

  /** One GET as the client saw it: the transport failed, or some HTTP status came back. */
  datatype Probe = ConnErr(cause: string) | Status(code: int)

  /** One GET whose body is read: the body read only matters when a status came back. */
  datatype Attempt = Attempt(probe: Probe, body: Result<seq<byte>, string>)

  /** The three ways getXML reports a failed attempt. */
  datatype FetchError = GetError(cause: string) | StatusError(code: int) | ReadError(cause: string)

  /** A document fetched with getXML and then unmarshalled: the fetch failed (with the
      error's text), the XML did not unmarshal (with the decoder's message), or the record. */
  datatype Loaded<T> = FetchFailed(message: string) | ParseFailed(message: string) | Parsed(value: T)

  /** url.Parse rejects any text holding an ASCII control character; that is the one
      failure of it the model keeps. */
  predicate ParsesAsUrl(s: string) {
    forall i :: 0 <= i < |s| ==> 32 <= s[i] as int && s[i] as int != 127
  }
}
