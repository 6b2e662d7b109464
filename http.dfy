/** The slice of net/http and net/url the middleware works with: query
    values, status codes and the JSON error responses of cmd/api/errors.go
    (each reduced to its status and message). */
module Http {

  /** url.Values: each key maps to its list of values. */
  type Values = map<string, seq<string>>

  /** Values.Get: the first value for key, or "" when there is none. */
  function Get(qs: Values, key: string): string {
    if key in qs && |qs[key]| > 0 then qs[key][0] else ""
  }

  const StatusOK: int := 200
  const StatusUnauthorized: int := 401
  const StatusForbidden: int := 403
  const StatusTooManyRequests: int := 429
  const StatusInternalServerError: int := 500

  /** An error response: its status code and the "error" message of its body. */
  datatype Response = Response(status: int, message: string)

  const ServerError: Response :=
    Response(StatusInternalServerError, "we encountered a problem in our server")
  const GlobalRateLimitExceeded: Response :=
    Response(StatusTooManyRequests, "our servers are currently handling a lot of requests - try again shortly")
  const RateLimitExceeded: Response :=
    Response(StatusTooManyRequests, "too many requests - try again later")
  const InvalidAuthenticationToken: Response :=
    Response(StatusUnauthorized, "invalid or missing authentication token")
  const AuthenticationRequired: Response :=
    Response(StatusUnauthorized, "you must be authenticated to access this resource")
  const ActivationRequired: Response :=
    Response(StatusForbidden, "your user account must be activated to access this resource")
  const NotPermitted: Response :=
    Response(StatusForbidden, "\n\t\tYou are not permitted to perform this action.\n\t\tActivate your account for full privilege\n\t")
}
