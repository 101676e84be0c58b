/** The MSRP status codes the library uses and their reason phrases (src/Status.js). */
module Status {
  import opened Wrappers

  const OK: int := 200
  const BAD_REQUEST: int := 400
  const UNAUTHORIZED: int := 401
  const FORBIDDEN: int := 403
  const REQUEST_TIMEOUT: int := 408
  const STOP_SENDING: int := 413
  const UNSUPPORTED_MEDIA: int := 415
  const INTERVAL_OUT_OF_BOUNDS: int := 423
  const SESSION_DOES_NOT_EXIST: int := 481
  const INTERNAL_SERVER_ERROR: int := 500
  const NOT_IMPLEMENTED: int := 501
  const WRONG_CONNECTION: int := 506

  /** `StatusComment[code]`: the reason phrase, absent for a code the table does not list. */
  function Comment(code: int): Option<string>
  {
    if code == 200 then Some("OK")
    else if code == 400 then Some("Bad Request")
    else if code == 401 then Some("Unauthorized")
    else if code == 403 then Some("Forbidden")
    else if code == 408 then Some("Request Timeout")
    else if code == 413 then Some("Stop Sending Message")
    else if code == 415 then Some("Unsupported Media Type")
    else if code == 423 then Some("Interval Out-of-Bounds")
    else if code == 481 then Some("Session Does Not Exist")
    else if code == 500 then Some("Internal Server Error")
    else if code == 501 then Some("Not Implemented")
    else if code == 506 then Some("Wrong Connection")
    else None
  }
}
