/**
 * The Kubernetes authentication endpoints: issuing and revoking auth tokens, and the
 * webhook that kube-apiserver calls with a TokenReview object (webhook token authentication
 * of the `authentication.k8s.io` API group).
 */
module AuthTokens {
  import opened Common
  import opened ApiTypes

  const GroupVersionV1: string := "authentication.k8s.io/v1"
  const GroupVersionV1beta1: string := "authentication.k8s.io/v1beta1"
  const TokenReviewKind: string := "TokenReview"

  datatype UserInfo = UserInfo(username: string, uid: string, groups: seq<string>)

  datatype TokenReviewSpec = TokenReviewSpec(token: string, audiences: seq<string>)

  datatype TokenReviewStatus = TokenReviewStatus(authenticated: bool, user: UserInfo, audiences: seq<string>, error: string)

  datatype TokenReview = TokenReview(apiVersion: string, kind: string, spec: TokenReviewSpec, status: TokenReviewStatus)

  /** The zero `TokenReviewStatus{}`. */
  const EmptyStatus: TokenReviewStatus := TokenReviewStatus(false, UserInfo("", "", []), [], "")

  /** The review the webhook decodes the body into: fields the body leaves out keep these values. */
  const InitialReview: TokenReview :=
    TokenReview(GroupVersionV1, TokenReviewKind, TokenReviewSpec("", []), EmptyStatus)

  /**
   * Decoding a JSON body into a review: the decoded review, or the error together with the
   * review as far as decoding got before it failed.
   */
  datatype Decoding = Decoded(review: TokenReview) | DecodeFailed(partial: TokenReview, error: string)

  predicate KnownGroupVersion(v: string)
  {
    v == GroupVersionV1 || v == GroupVersionV1beta1
  }

  /** `errors.Join(a, b)`: nil when both are nil, otherwise the messages of the others, one per line. */
  function JoinErrors(a: Option<string>, b: Option<string>): (r: Option<string>)
    ensures r.None? <==> a.None? && b.None?
    ensures a.Some? && b.None? ==> r == a
    ensures a.None? && b.Some? ==> r == b
    ensures a.Some? && b.Some? ==> r == Some(a.value + "\n" + b.value)
  {
    match (a, b)
    case (None, None) => None
    case (Some(x), None) => Some(x)
    case (None, Some(y)) => Some(y)
    case (Some(x), Some(y)) => Some(x + "\n" + y)
  }

  /** The group-version and kind errors of a decoded review, joined. */
  function HeaderError(review: TokenReview): (r: Option<string>)
    ensures r.None? <==> KnownGroupVersion(review.apiVersion) && review.kind == TokenReviewKind
  {
    JoinErrors(
      if KnownGroupVersion(review.apiVersion) then None else Some("unknown GroupVersion=" + review.apiVersion),
      if review.kind == TokenReviewKind then None else Some("unknown Kind=" + review.kind))
  }

  /**
   * `postKubernetesAuthWebhook`. `decode` decodes the request body into a given review and
   * `checkToken` is the database transaction around `CheckToken`, answering the user name and
   * groups of a token. Returns the HTTP status and the review sent back.
   */
  method PostKubernetesAuthWebhook(decode: TokenReview -> Decoding, checkToken: string -> Result<(string, seq<string>)>)
    returns (code: int, review: TokenReview)
    ensures var d := decode(InitialReview);
      d.DecodeFailed? ==>
        code == StatusBadRequest
        && review == d.partial.(status := d.partial.status.(error := Wrap("failed to parse TokenReview", d.error)))
    // Whatever status the client sent is discarded: every answer to a decoded review carries
    // the request's spec and a status built afresh.
    ensures var d := decode(InitialReview);
      d.Decoded? && HeaderError(d.review).Some? ==>
        code == StatusUnauthorized
        && review.apiVersion == (if KnownGroupVersion(d.review.apiVersion) then d.review.apiVersion else GroupVersionV1)
        && review.kind == TokenReviewKind
        && review.spec == d.review.spec
        && review.status == EmptyStatus.(error := Wrap("invalid TokenReview", HeaderError(d.review).value))
    ensures var d := decode(InitialReview);
      d.Decoded? && HeaderError(d.review).None? && checkToken(d.review.spec.token).Err? ==>
        code == StatusUnauthorized && review == d.review.(status := EmptyStatus.(error := "invalid token"))
    ensures var d := decode(InitialReview);
      d.Decoded? && HeaderError(d.review).None? && checkToken(d.review.spec.token).Ok? ==>
        var (username, groups) := checkToken(d.review.spec.token).value;
        code == StatusOK
        && review == d.review.(status := TokenReviewStatus(true, UserInfo(username, username, groups), d.review.spec.audiences, ""))
    // Authentication succeeds exactly for a decoded review with a known version and kind whose token checks out.
    ensures code == StatusOK <==>
      var d := decode(InitialReview);
      d.Decoded? && HeaderError(d.review).None? && checkToken(d.review.spec.token).Ok?
    // A decoded review is reported authenticated exactly on success; a body that fails to
    // decode is sent back as far as it was decoded, status included.
    ensures code != StatusBadRequest ==> (code == StatusOK <==> review.status.authenticated)
  {
    review := InitialReview;
    var decoding := decode(review);
    if decoding.DecodeFailed? {
      review := decoding.partial;
      review := review.(status := review.status.(error := Wrap("failed to parse TokenReview", decoding.error)));
      return StatusBadRequest, review;
    }
    review := decoding.review;
    review := review.(status := EmptyStatus);

    var apiVersionErr: Option<string> := None;
    var kindErr: Option<string> := None;
    if !(review.apiVersion == GroupVersionV1 || review.apiVersion == GroupVersionV1beta1) {
      apiVersionErr := Some("unknown GroupVersion=" + review.apiVersion);
      review := review.(apiVersion := GroupVersionV1);
    }
    if review.kind != TokenReviewKind {
      kindErr := Some("unknown Kind=" + review.kind);
      review := review.(kind := TokenReviewKind);
    }
    var err := JoinErrors(apiVersionErr, kindErr);
    if err.Some? {
      review := review.(status := review.status.(error := Wrap("invalid TokenReview", err.value)));
      return StatusUnauthorized, review;
    }

    var checked := checkToken(review.spec.token);
    if checked.Err? {
      review := review.(status := review.status.(error := "invalid token"));
      return StatusUnauthorized, review;
    }
    var (username, groups) := checked.value;
    review := review.(status := TokenReviewStatus(true, UserInfo(username, username, groups), review.spec.audiences, ""));
    return StatusOK, review;
  }

  /** The request to issue a token for a user name and groups. */
  datatype GenerateTokenRequest = GenerateTokenRequest(username: string, groups: seq<string>)

  /** The answer of the token endpoints: a token, an empty success, or an error status. */
  datatype TokenResponse = TokenIssued(token: string) | Revoked | TokenError(code: int, error: string)

  /**
   * `postKubernetesAuthTokens`. `request` is the decoding of the body and `getOrCreate`
   * `GetOrCreateAuthToken` for a user name and groups.
   */
  function PostKubernetesAuthTokens(request: Result<GenerateTokenRequest>,
                                    getOrCreate: (string, seq<string>) -> Result<string>): (r: TokenResponse)
    ensures request.Err? ==> r == TokenError(StatusBadRequest, Wrap("failed to parse request", request.error))
    ensures request.Ok? ==>
      match getOrCreate(request.value.username, request.value.groups)
      case Ok(token) => r == TokenIssued(token)
      case Err(e) => r == TokenError(StatusInternalServerError, e)
    ensures r.TokenIssued? <==> request.Ok? && getOrCreate(request.value.username, request.value.groups).Ok?
  {
    if request.Err? then TokenError(StatusBadRequest, Wrap("failed to parse request", request.error))
    else
      match getOrCreate(request.value.username, request.value.groups)
      case Err(e) => TokenError(StatusInternalServerError, e)
      case Ok(token) => TokenIssued(token)
  }

  /**
   * `deleteKubernetesAuthTokens`. `request` is the decoding of the body (the token to revoke)
   * and `revoke` `RevokeAuthToken`.
   */
  function DeleteKubernetesAuthTokens(request: Result<string>, revoke: string -> Outcome): (r: TokenResponse)
    ensures request.Err? ==> r == TokenError(StatusBadRequest, Wrap("failed to parse request", request.error))
    ensures request.Ok? && revoke(request.value).Fail? ==>
      r == TokenError(StatusInternalServerError, Wrap("failed to revoke auth token", revoke(request.value).error))
    ensures r == Revoked <==> request.Ok? && revoke(request.value).Pass?
    ensures !r.TokenIssued?
  {
    if request.Err? then TokenError(StatusBadRequest, Wrap("failed to parse request", request.error))
    else
      match revoke(request.value)
      case Fail(e) => TokenError(StatusInternalServerError, Wrap("failed to revoke auth token", e))
      case Pass => Revoked
  }
}
