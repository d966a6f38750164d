/**
 * The access handler of the node-token endpoints: the token header compared with the node's
 * token file, whose content is trimmed of surrounding white space first.
 */
module NodeAccess {
  import opened Common
  import opened ApiTypes

  /** `unicode.IsSpace`: the Latin-1 spaces and the Unicode White_Space characters above them. */
  predicate IsSpace(c: char)
  {
    c == '\t' || c == '\n' || c == '\U{0B}' || c == '\U{0C}' || c == '\r' || c == ' '
    || c == '\U{85}' || c == '\U{A0}' || c == '\U{1680}'
    || ('\U{2000}' <= c <= '\U{200A}')
    || c == '\U{2028}' || c == '\U{2029}' || c == '\U{202F}' || c == '\U{205F}' || c == '\U{3000}'
  }

  /** Neither end of `s` is white space. */
  predicate Trimmed(s: string)
  {
    s == [] || (!IsSpace(s[0]) && !IsSpace(s[|s| - 1]))
  }

  /** The index of the first character at or after `i` that is not white space (or |s|). */
  function TrimStart(s: string, i: nat): (k: nat)
    requires i <= |s|
    ensures i <= k <= |s|
    ensures k < |s| ==> !IsSpace(s[k])
    decreases |s| - i
  {
    if i == |s| || !IsSpace(s[i]) then i else TrimStart(s, i + 1)
  }

  /** The end of `s[lo..j]` once trailing white space is cut off. */
  function TrimEnd(s: string, lo: nat, j: nat): (k: nat)
    requires lo <= j <= |s|
    ensures lo <= k <= j
    ensures lo < k ==> !IsSpace(s[k - 1])
    decreases j
  {
    if j == lo || !IsSpace(s[j - 1]) then j else TrimEnd(s, lo, j - 1)
  }

  lemma {:induction false} TrimStartSkipsSpaces(s: string, i: nat, q: nat)
    requires i <= q < |s| && q < TrimStart(s, i)
    ensures IsSpace(s[q])
    decreases |s| - i
  {
    if q > i {
      TrimStartSkipsSpaces(s, i + 1, q);
    }
  }

  lemma {:induction false} TrimEndSkipsSpaces(s: string, lo: nat, j: nat, q: nat)
    requires lo <= j <= |s| && TrimEnd(s, lo, j) <= q < j
    ensures IsSpace(s[q])
    decreases j
  {
    if q < j - 1 {
      TrimEndSkipsSpaces(s, lo, j - 1, q);
    }
  }

  /** `strings.TrimSpace`, on the decoded characters of the text. */
  function TrimSpace(s: string): (r: string)
    ensures Trimmed(r)
    ensures |r| <= |s|
  {
    var a := TrimStart(s, 0);
    s[a..TrimEnd(s, a, |s|)]
  }

  /** TrimSpace cuts white space from both ends and nothing else: the result is a slice between them. */
  lemma TrimSpaceCutsOnlySpace(s: string)
    ensures exists a, b ::
      (0 <= a <= b <= |s| && TrimSpace(s) == s[a..b]
       && (forall q :: 0 <= q < a ==> IsSpace(s[q]))
       && (forall q :: b <= q < |s| ==> IsSpace(s[q])))
  {
    var a := TrimStart(s, 0);
    var b := TrimEnd(s, a, |s|);
    forall q | 0 <= q < a
      ensures IsSpace(s[q])
    {
      TrimStartSkipsSpaces(s, 0, q);
    }
    forall q | b <= q < |s|
      ensures IsSpace(s[q])
    {
      TrimEndSkipsSpaces(s, a, |s|, q);
    }
    assert TrimSpace(s) == s[a..b];
  }

  /** Text surrounded by white space trims to itself when its own ends are not white space. */
  lemma {:induction false} TrimSpaceOfPadded(pre: string, t: string, post: string)
    requires forall q :: 0 <= q < |pre| ==> IsSpace(pre[q])
    requires forall q :: 0 <= q < |post| ==> IsSpace(post[q])
    requires Trimmed(t)
    ensures TrimSpace(pre + t + post) == t
  {
    var s := pre + t + post;
    var a := TrimStart(s, 0);
    if t == [] {
      return;
    }
    assert a == |pre| by {
      if a > |pre| {
        assert s[|pre|] == t[0];
        TrimStartSkipsSpaces(s, 0, |pre|);
      }
    }
    var b := TrimEnd(s, a, |s|);
    assert b == |pre| + |t| by {
      if b < |pre| + |t| {
        assert s[|pre| + |t| - 1] == t[|t| - 1];
        TrimEndSkipsSpaces(s, a, |s|, |pre| + |t| - 1);
      }
    }
    assert s[a..b] == t;
  }

  /** Trimming twice is trimming once. */
  lemma TrimSpaceIdempotent(s: string)
    ensures TrimSpace(TrimSpace(s)) == TrimSpace(s)
  {
    var t := TrimSpace(s);
    assert t == [] + t + [];
    TrimSpaceOfPadded([], t, []);
  }

  /**
   * The handler `ValidateNodeTokenAccessHandler(tokenHeaderName)` returns, applied to a request
   * whose token header holds `token` ("" when absent). `nodeTokenFile` is the reading of the
   * snap's node token file.
   */
  function ValidateNodeTokenAccess(tokenHeaderName: string, token: string, nodeTokenFile: Result<string>): (r: Access)
    ensures r.Allowed? <==> token != "" && nodeTokenFile.Ok? && TrimSpace(nodeTokenFile.value) == token
    ensures token == "" ==> r == Denied(StatusUnauthorized, "missing header " + Quote(tokenHeaderName))
    ensures token != "" && nodeTokenFile.Err? ==>
      r == Denied(StatusInternalServerError, Wrap("failed to read node access token", nodeTokenFile.error))
    ensures token != "" && nodeTokenFile.Ok? && TrimSpace(nodeTokenFile.value) != token ==>
      r == Denied(StatusUnauthorized, "invalid token")
  {
    if token == "" then Denied(StatusUnauthorized, "missing header " + Quote(tokenHeaderName))
    else if nodeTokenFile.Err? then Denied(StatusInternalServerError, Wrap("failed to read node access token", nodeTokenFile.error))
    else if TrimSpace(nodeTokenFile.value) != token then Denied(StatusUnauthorized, "invalid token")
    else Allowed
  }

  /** The header is not trimmed: a token header that starts or ends with white space is always refused. */
  lemma PaddedHeaderIsRefused(tokenHeaderName: string, token: string, nodeTokenFile: Result<string>)
    requires token != "" && (IsSpace(token[0]) || IsSpace(token[|token| - 1]))
    ensures ValidateNodeTokenAccess(tokenHeaderName, token, nodeTokenFile).Denied?
  {
    if nodeTokenFile.Ok? {
      assert Trimmed(TrimSpace(nodeTokenFile.value));
    }
  }

  /** White space around the token in the file, such as a trailing newline, does not matter. */
  lemma PaddedFileIsAccepted(tokenHeaderName: string, pre: string, token: string, post: string)
    requires token != "" && Trimmed(token)
    requires forall q :: 0 <= q < |pre| ==> IsSpace(pre[q])
    requires forall q :: 0 <= q < |post| ==> IsSpace(post[q])
    ensures ValidateNodeTokenAccess(tokenHeaderName, token, Ok(pre + token + post)) == Allowed
  {
    TrimSpaceOfPadded(pre, token, post);
  }
}
