/**
 * What the API classes hand to their HTTP client and what they get back.
 * The client itself (cURL or PHP streams, authentication, the network) is
 * not modelled: an API object is given the client as a function from the
 * request it sends to the reply, and `json_decode` as a function from the
 * body to a decoded value (null for a body that is not JSON).
 */
module Http {
  import opened Wrappers
  import opened Json

  /** The request methods, named as the API classes' constants name them. */
  datatype Verb = GET | POST | PUT | DELETE

  /** A call as an API method phrases it: method, path below the endpoint, parameters. */
  datatype Request = Request(verb: Verb, path: string, params: Record)

  /** Everything `sendRequest` is handed, apart from the authentication object. */
  datatype Sent = Sent(request: Request, endpoint: Option<string>, isFile: bool, debug: bool)

  /** The exceptions a call can end in. */
  datatype Failure =
    | Unauthorized      // the client's `UnauthorizedException`
    | ClientError       // any other exception the client throws
    | TypeError         // PHP refuses an argument of the wrong type
    | UndefinedMethod   // a call to a method the class does not have

  /** What `sendRequest` does: return the response body, or throw. */
  datatype Reply = Body(text: string) | Thrown(failure: Failure)

  /** The client: the reply it gives to each request. */
  type Client = Sent -> Reply

  /** `json_decode($body, true)`: null for a body that is not JSON. */
  type Decoder = string -> Value

  /** The end of an API method: a value, PHP's `false` for an empty body, or an exception. */
  datatype Outcome<T> = Returned(value: T) | NoContent | Raised(failure: Failure)
}
