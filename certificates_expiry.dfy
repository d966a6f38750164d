/**
 * The cluster-API certificate expiry endpoint: the earliest NotAfter among the cluster's
 * certificates. Times are instants counted from Go's zero `time.Time`, so the zero time is 0.
 */
module CertificatesExpiry {
  import opened Common
  import opened ApiTypes
  import opened ClusterConfigTypes

  /** The instant of the zero `time.Time`, which `IsZero` recognises. */
  const ZeroTime: int := 0

  /** The five certificates the endpoint inspects, in the order it inspects them. */
  function ExpiryCertificates(c: Certificates): (r: seq<string>)
    ensures |r| == 5
  {
    [c.GetCACert(), c.GetClientCACert(), c.GetAdminClientCert(), c.GetAPIServerKubeletClientCert(), c.GetFrontProxyCACert()]
  }

  /** One step of the search: an unset (zero) earliest expiry or a later one is replaced. */
  function Earlier(earliest: int, notAfter: int): int
  {
    if earliest == ZeroTime || notAfter < earliest then notAfter else earliest
  }

  /**
   * The search over `certs` as the loop runs it: empty strings are skipped, the first
   * certificate that `load` (which parses a PEM certificate to its NotAfter) rejects ends it
   * with an error, and every other certificate goes through `Earlier`.
   */
  function EarliestExpiry(certs: seq<string>, load: string -> Result<int>): Result<int>
    decreases |certs|
  {
    if |certs| == 0 then Ok(ZeroTime)
    else
      match EarliestExpiry(certs[..|certs| - 1], load)
      case Err(e) => Err(e)
      case Ok(earliest) =>
        var cert := certs[|certs| - 1];
        if cert == "" then Ok(earliest)
        else
          match load(cert)
          case Err(e) => Err(Wrap("failed to load certificate", e))
          case Ok(notAfter) => Ok(Earlier(earliest, notAfter))
  }

  /** Once the search over a prefix has failed, the rest of the certificates are not looked at. */
  lemma {:induction false} EarliestExpiryStopsAtError(certs: seq<string>, n: nat, load: string -> Result<int>)
    requires n <= |certs| && EarliestExpiry(certs[..n], load).Err?
    ensures EarliestExpiry(certs, load) == EarliestExpiry(certs[..n], load)
    decreases |certs|
  {
    if n < |certs| {
      var init := certs[..|certs| - 1];
      assert init[..n] == certs[..n];
      EarliestExpiryStopsAtError(init, n, load);
    } else {
      assert certs[..n] == certs;
    }
  }

  /** A certificate that is present and fails to load. */
  predicate Unloadable(cert: string, load: string -> Result<int>)
  {
    cert != "" && load(cert).Err?
  }

  /** The search fails exactly when some present certificate fails to load, with the first such failure. */
  lemma {:induction false} EarliestExpiryFails(certs: seq<string>, load: string -> Result<int>)
    ensures EarliestExpiry(certs, load).Err? <==> exists k :: 0 <= k < |certs| && Unloadable(certs[k], load)
    ensures EarliestExpiry(certs, load).Err? ==>
      exists k :: 0 <= k < |certs| && Unloadable(certs[k], load)
        && (forall j :: 0 <= j < k ==> !Unloadable(certs[j], load))
        && EarliestExpiry(certs, load).error == Wrap("failed to load certificate", load(certs[k]).error)
    decreases |certs|
  {
    if |certs| > 0 {
      var init := certs[..|certs| - 1];
      EarliestExpiryFails(init, load);
      forall k | 0 <= k < |init|
        ensures init[k] == certs[k]
      {
      }
    }
  }

  /**
   * When every present certificate loads with a non-zero NotAfter, the search returns the
   * minimum of them, or the zero time when no certificate is present.
   */
  lemma {:induction false} EarliestExpiryIsMinimum(certs: seq<string>, load: string -> Result<int>)
    requires forall k :: 0 <= k < |certs| && certs[k] != "" ==> load(certs[k]).Ok? && load(certs[k]).value != ZeroTime
    ensures EarliestExpiry(certs, load).Ok?
    ensures var m := EarliestExpiry(certs, load).value;
      && (m == ZeroTime <==> forall k :: 0 <= k < |certs| ==> certs[k] == "")
      && (forall k :: 0 <= k < |certs| && certs[k] != "" ==> m <= load(certs[k]).value)
      && (m != ZeroTime ==> exists k :: 0 <= k < |certs| && certs[k] != "" && load(certs[k]).value == m)
    decreases |certs|
  {
    if |certs| > 0 {
      var init := certs[..|certs| - 1];
      assert forall k :: 0 <= k < |init| ==> init[k] == certs[k];
      EarliestExpiryIsMinimum(init, load);
      var earliest := EarliestExpiry(init, load).value;
      var cert := certs[|certs| - 1];
      if cert != "" {
        var m := EarliestExpiry(certs, load).value;
        if earliest != ZeroTime {
          var w :| 0 <= w < |init| && init[w] != "" && load(init[w]).value == earliest;
          assert certs[w] != "" && load(certs[w]).value == earliest;
        }
        assert m == load(cert).value || m == earliest;
        assert certs[|certs| - 1] != "" && load(certs[|certs| - 1]).value == load(cert).value;
      }
    }
  }

  /**
   * `postCertificatesExpiry`. `config` is the reading of the cluster configuration and `load`
   * the certificate parser; the result is the earliest NotAfter (its RFC 3339 rendering is
   * the response body).
   */
  method PostCertificatesExpiry(config: Result<ClusterConfig>, load: string -> Result<int>) returns (r: Result<int>)
    ensures config.Err? ==> r == Err(Wrap("failed to get cluster config", config.error))
    ensures config.Ok? ==> r == EarliestExpiry(ExpiryCertificates(config.value.certificates), load)
  {
    if config.Err? {
      return Err(Wrap("failed to get cluster config", config.error));
    }
    var certificates := ExpiryCertificates(config.value.certificates);
    var earliestExpiry := ZeroTime;
    var i := 0;
    while i < |certificates|
      invariant 0 <= i <= |certificates|
      invariant EarliestExpiry(certificates[..i], load) == Ok(earliestExpiry)
    {
      var cert := certificates[i];
      assert certificates[..i + 1][..i] == certificates[..i];
      if cert == "" {
        i := i + 1;
        continue;
      }
      var loaded := load(cert);
      if loaded.Err? {
        EarliestExpiryStopsAtError(certificates, i + 1, load);
        return Err(Wrap("failed to load certificate", loaded.error));
      }
      if earliestExpiry == ZeroTime || loaded.value < earliestExpiry {
        earliestExpiry := loaded.value;
      }
      i := i + 1;
    }
    assert certificates[..i] == certificates;
    return Ok(earliestExpiry);
  }
}
