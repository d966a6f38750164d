/**
 * Access handlers that guard the worker-facing endpoints: the control-plane-only restriction
 * and the check of a worker's node name and join token against the database.
 */
module WorkerAccess {
  import opened Common
  import opened ApiTypes

  /**
   * `restrictWorkers`. `isWorker` is the snap's worker check: an error refuses with 500,
   * a worker with 403, and every other node is let through.
   */
  function RestrictWorkers(isWorker: Result<bool>): (r: Access)
    ensures r.Allowed? <==> isWorker == Ok(false)
    ensures isWorker.Err? ==>
      r == Denied(StatusInternalServerError, Wrap("failed to check if node is a worker", isWorker.error))
    ensures isWorker == Ok(true) ==> r == Denied(StatusForbidden, "this action is restricted on workers")
  {
    if isWorker.Err? then Denied(StatusInternalServerError, Wrap("failed to check if node is a worker", isWorker.error))
    else if isWorker.value then Denied(StatusForbidden, "this action is restricted on workers")
    else Allowed
  }

  /**
   * The handler `ValidateWorkerInfoAccessHandler(nodeHeaderName, tokenHeaderName)` returns,
   * applied to a request whose two headers hold `name` and `token` ("" when absent).
   * `clean` is `utils.CleanHostname` (the hostname it returns and its error); `checkToken`
   * is the database transaction around `CheckWorkerNodeToken` for a hostname and a token.
   */
  function ValidateWorkerInfoAccess(nodeHeaderName: string, name: string, token: string,
                                    clean: string -> (string, Outcome),
                                    checkToken: (string, string) -> Result<bool>): (r: Access)
    // Allowed exactly when both headers are there, the name is a hostname and the
    // database confirms the token for that cleaned hostname.
    ensures r.Allowed? <==>
      name != "" && clean(name).1.Pass? && token != "" && checkToken(clean(name).0, token) == Ok(true)
    ensures name == "" ==> r == Denied(StatusUnauthorized, "missing header " + Quote(nodeHeaderName))
    ensures name != "" && clean(name).1.Fail? ==> r.Denied? && r.status == StatusBadRequest
    ensures name != "" && clean(name).1.Pass? && token == "" ==> r == Denied(StatusUnauthorized, "invalid token")
    ensures name != "" && clean(name).1.Pass? && token != "" ==>
      match checkToken(clean(name).0, token)
      case Err(e) => r == Denied(StatusInternalServerError, Wrap("check token database transaction failed", e))
      case Ok(valid) => valid || r == Denied(StatusUnauthorized, "invalid token")
  {
    if name == "" then Denied(StatusUnauthorized, "missing header " + Quote(nodeHeaderName))
    else
      var (hostname, cleanErr) := clean(name);
      if cleanErr.Fail? then Denied(StatusBadRequest, Wrap("invalid hostname " + Quote(hostname), cleanErr.error))
      else if token == "" then Denied(StatusUnauthorized, "invalid token")
      else
        match checkToken(hostname, token)
        case Err(e) => Denied(StatusInternalServerError, Wrap("check token database transaction failed", e))
        case Ok(valid) => if valid then Allowed else Denied(StatusUnauthorized, "invalid token")
  }

  /** A request refused on its headers never reaches the database: any token checker gives the same answer. */
  lemma HeaderRefusalNeedsNoDatabase(nodeHeaderName: string, name: string, token: string,
                                     clean: string -> (string, Outcome),
                                     check1: (string, string) -> Result<bool>, check2: (string, string) -> Result<bool>)
    requires name == "" || clean(name).1.Fail? || token == ""
    ensures ValidateWorkerInfoAccess(nodeHeaderName, name, token, clean, check1)
         == ValidateWorkerInfoAccess(nodeHeaderName, name, token, clean, check2)
    ensures ValidateWorkerInfoAccess(nodeHeaderName, name, token, clean, check1).Denied?
  {
  }
}
