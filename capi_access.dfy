/** The access handler of the cluster-API endpoints: a token header checked against the database. */
module CapiAccess {
  import opened Common
  import opened ApiTypes

  /**
   * The handler `ValidateCAPIAuthTokenAccessHandler(tokenHeaderName)` returns, applied to a
   * request whose token header holds `token` ("" when absent). `validate` is the database
   * transaction around `ValidateClusterAPIToken`.
   */
  function ValidateCapiAuthTokenAccess(tokenHeaderName: string, token: string,
                                       validate: string -> Result<bool>): (r: Access)
    ensures r.Allowed? <==> token != "" && validate(token) == Ok(true)
    ensures token == "" ==> r == Denied(StatusUnauthorized, "missing header " + Quote(tokenHeaderName))
    ensures token != "" && validate(token).Err? ==>
      r == Denied(StatusInternalServerError, Wrap("check CAPI auth token database transaction failed", validate(token).error))
    ensures token != "" && validate(token) == Ok(false) ==> r == Denied(StatusUnauthorized, "invalid token")
  {
    if token == "" then Denied(StatusUnauthorized, "missing header " + Quote(tokenHeaderName))
    else
      match validate(token)
      case Err(e) => Denied(StatusInternalServerError, Wrap("check CAPI auth token database transaction failed", e))
      case Ok(valid) => if valid then Allowed else Denied(StatusUnauthorized, "invalid token")
  }

  /** A request without the token header is refused whatever the database would say. */
  lemma MissingTokenNeedsNoDatabase(tokenHeaderName: string, validate1: string -> Result<bool>, validate2: string -> Result<bool>)
    ensures ValidateCapiAuthTokenAccess(tokenHeaderName, "", validate1)
         == ValidateCapiAuthTokenAccess(tokenHeaderName, "", validate2)
  {
  }
}
