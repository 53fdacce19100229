/**
 * What the browser clients send and receive through `fetch`.
 *
 * Network I/O is not modelled: a handler's request is returned as a value and
 * the reply it eventually gets is passed in as a parameter. Paths are relative
 * to the client's base URL, which is configuration.
 */
module Fetch {

  /** A JavaScript value that may be `undefined`. */
  datatype Option<+T> = None | Some(value: T)

  datatype Verb = GET | POST | PUT | DELETE

  /** The JSON body of a request; each variant carries exactly the keys the client sends. */
  datatype Body =
    | NoBody
    | NameBody(name: string)
    | CelebratedBody(celebrated: bool)
    | CredentialsBody(username: string, password: string)

  datatype Request = Request(verb: Verb, path: string, body: Body)

  /**
   * How a `fetch(...).then(res => res.json())` chain ends: the request itself
   * rejects (network failure), the body is not JSON, or it parses to a value.
   */
  datatype FetchReply<+T> = NetworkError | ParseError | Parsed(value: T)
}
