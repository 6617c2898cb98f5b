/** What a handler sends back, and the early-return shape shared by the handlers. */
module Http {

  /**
   * `Preflight` is the plain "ok" answer to OPTIONS; `Success` is status 200
   * with the handler's JSON success body (whose fields come from the foreign
   * service called last); `Failure` is a JSON `{ error }` body with a status.
   */
  datatype Response = Preflight | Success | Failure(status: int, error: string)

  /**
   * A validation cascade either stops with a response (an early `return`) or
   * continues with the values it has checked.
   */
  datatype Flow<+T> = Continue(value: T) | Stop(response: Response)

  const MethodNotAllowed := Failure(405, "Method not allowed")
  const NotAuthenticated := Failure(401, "Not authenticated")

  /** The caller as the auth platform's `getUser` returns it. */
  datatype AuthUser = AuthUser(id: string, email: string)
}
