/** The exceptions that end a run of the program, one constructor per kind. */
module Errors {
  /** What the HTTP layer (`requests.get`, `raise_for_status`, `.json()`) can raise. */
  datatype TransportFailure =
    | HttpStatus(code: int, reason: string)  // raise_for_status on a 4xx or 5xx response
    | Timeout
    | TooManyRedirects
    | ConnectionFailed
    | BodyNotJson                            // .json() on a body that is not JSON

  datatype Error =
    | UnknownRegion(name: string)            // KeyError from the region enum lookup
    | Transport(failure: TransportFailure)
    | NotIterable                            // TypeError: iterating None, a number or a bool
    | NotARecord                             // AttributeError: `.get` on an item that is not a dict
    | MissingKey(key: string)                // KeyError: subscripting a dict without that key
    | NotSubscriptable                       // TypeError: `x["key"]` on None, a list, a string, a number
    | NotComparable                          // TypeError: `offset < obj_count` with a non-number
}
