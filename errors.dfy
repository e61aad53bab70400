/**
  The exceptions that can leave `myrequests_get`. The retry loop catches
  `StatusError` and `ProtocolError` (both `httpx.HTTPError`s) and lets them
  out only at the fifth counted error; the others end the call at once.
 */
module Errors {

  datatype Failure =
    /** `int(params['limit'])` raised while the parameters were normalised. */
    | LimitNotInt
    /** The RuntimeError raised for a 400 or 404 that no carve-out admitted. */
    | InvalidRequest(status: int)
    /** The `httpx.HTTPStatusError` raised by `raise_for_status` for a status outside 2xx. */
    | StatusError(status: int)
    /** The ValueError raised for a DNS failure on a hostname never seen before. */
    | InvalidHostname(url: string)
    /** The ValueError raised once more than 100 transport errors were counted; carries the diagnostic text. */
    | TooManyFailures(message: string)
    /** An `httpx.HTTPError` or `httpcore.ProtocolError` from the request, re-raised at the fifth counted error. */
    | ProtocolError(message: string)
    /** Any other exception out of the request; nothing in the helper catches it. */
    | Uncaught(message: string)
}
