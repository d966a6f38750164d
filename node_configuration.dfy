/**
 * One reconciliation of the node configuration controller: the node ConfigMap is verified and
 * decoded, the kubelet arguments are brought in line with it, kubelet is restarted when they
 * changed, kube-proxy is started or stopped, and the local state records the kube-proxy choice.
 *
 * `UpdateServiceArguments` (which edits the kubelet's argument file and reports whether
 * anything changed) is the parameter `updateServiceArguments`; the public-key loader is the
 * outcome `rsaKey` (a verifier, or None for a nil key).
 */
module NodeConfiguration {
  import opened Common
  import opened ApiTypes
  import opened FileStore
  import opened ConfigKubelet
  import opened ClusterConfigTypes
  import opened LocalState
  import ConfigMapCodec

  const CloudProviderFlag: string := "--cloud-provider"
  const ClusterDNSFlag: string := "--cluster-dns"
  const ClusterDomainFlag: string := "--cluster-domain"

  const KubeletFlags: set<string> := {CloudProviderFlag, ClusterDNSFlag, ClusterDomainFlag}

  /** The three kubelet arguments the ConfigMap controls, with the value each gets. */
  function KubeletArgPairs(k: Kubelet): seq<(string, Option<string>)>
  {
    [(CloudProviderFlag, k.cloudProvider), (ClusterDNSFlag, k.clusterDNS), (ClusterDomainFlag, k.clusterDomain)]
  }

  /** The argument updates for a list of (flag, value) pairs: every flag with a non-empty value. */
  function Updates(pairs: seq<(string, Option<string>)>): map<string, string>
    decreases |pairs|
  {
    if |pairs| == 0 then map[]
    else
      var last := pairs[|pairs| - 1];
      var rest := Updates(pairs[..|pairs| - 1]);
      if last.1.Some? && last.1.value != "" then rest[last.0 := last.1.value] else rest
  }

  /** The argument deletions for a list of (flag, value) pairs: every flag set to "", in order. */
  function Deletes(pairs: seq<(string, Option<string>)>): seq<string>
    decreases |pairs|
  {
    if |pairs| == 0 then []
    else
      var last := pairs[|pairs| - 1];
      var rest := Deletes(pairs[..|pairs| - 1]);
      if last.1 == Some("") then rest + [last.0] else rest
  }

  /** How one argument is treated: unset is left alone, "" is deleted, any other value is written. */
  predicate ArgTreatment(value: Option<string>, flag: string, updateArgs: map<string, string>, deleteArgs: seq<string>)
  {
    match value
    case None => flag !in updateArgs && flag !in deleteArgs
    case Some(v) =>
      if v == "" then flag in deleteArgs && flag !in updateArgs
      else flag in updateArgs && updateArgs[flag] == v && flag !in deleteArgs
  }

  /** No flag occurs twice in the list. */
  predicate DistinctFlags(pairs: seq<(string, Option<string>)>)
  {
    forall i, j :: 0 <= i < j < |pairs| ==> pairs[i].0 != pairs[j].0
  }

  /** A list of distinct flags is classified flag by flag, and only its own flags appear in the result. */
  lemma {:induction false} ClassificationOfDistinctFlags(pairs: seq<(string, Option<string>)>)
    requires DistinctFlags(pairs)
    ensures forall i :: 0 <= i < |pairs| ==> ArgTreatment(pairs[i].1, pairs[i].0, Updates(pairs), Deletes(pairs))
    ensures forall f :: f in Updates(pairs) ==> exists i :: 0 <= i < |pairs| && pairs[i].0 == f
    ensures forall k :: 0 <= k < |Deletes(pairs)| ==> exists i :: 0 <= i < |pairs| && pairs[i].0 == Deletes(pairs)[k]
    ensures forall k, l :: 0 <= k < l < |Deletes(pairs)| ==> Deletes(pairs)[k] != Deletes(pairs)[l]
    decreases |pairs|
  {
    if |pairs| > 0 {
      var init, last := pairs[..|pairs| - 1], pairs[|pairs| - 1];
      ClassificationOfDistinctFlags(init);
      var u0, d0 := Updates(init), Deletes(init);
      assert last.0 !in u0;
      assert forall k :: 0 <= k < |d0| ==> d0[k] != last.0;
      forall i | 0 <= i < |pairs|
        ensures ArgTreatment(pairs[i].1, pairs[i].0, Updates(pairs), Deletes(pairs))
      {
        if i < |init| {
          assert ArgTreatment(init[i].1, init[i].0, u0, d0);
          assert pairs[i].0 != last.0;
        }
      }
      var d := Deletes(pairs);
      assert d == d0 || d == d0 + [last.0];
      forall k | 0 <= k < |d|
        ensures exists i :: 0 <= i < |pairs| && pairs[i].0 == d[k]
      {
        if k < |d0| {
          assert d[k] == d0[k];
          var i :| 0 <= i < |init| && init[i].0 == d0[k];
          assert pairs[i] == init[i];
        } else {
          assert d[k] == pairs[|pairs| - 1].0;
        }
      }
      assert forall k :: 0 <= k < |Deletes(pairs)| ==> exists i :: 0 <= i < |pairs| && pairs[i].0 == Deletes(pairs)[k];
    } else {
      assert Deletes(pairs) == [];
    }
  }

  /**
   * The classification of the three kubelet arguments: each is left alone, deleted or updated
   * as its value says, only these three flags appear, and no flag is both updated and deleted.
   */
  lemma ArgClassification(k: Kubelet)
    ensures var u, d := Updates(KubeletArgPairs(k)), Deletes(KubeletArgPairs(k));
      ArgTreatment(k.cloudProvider, CloudProviderFlag, u, d)
      && ArgTreatment(k.clusterDNS, ClusterDNSFlag, u, d)
      && ArgTreatment(k.clusterDomain, ClusterDomainFlag, u, d)
      && u.Keys <= KubeletFlags
      && (forall i :: 0 <= i < |d| ==> d[i] in KubeletFlags && d[i] !in u)
      && (forall i, j :: 0 <= i < j < |d| ==> d[i] != d[j])
  {
    var p := KubeletArgPairs(k);
    ClassificationOfDistinctFlags(p);
    assert ArgTreatment(p[0].1, p[0].0, Updates(p), Deletes(p));
    assert ArgTreatment(p[1].1, p[1].0, Updates(p), Deletes(p));
    assert ArgTreatment(p[2].1, p[2].0, Updates(p), Deletes(p));
  }

  /** Builds the argument updates and deletions, one flag at a time. */
  method ClassifyKubeletArgs(k: Kubelet) returns (updateArgs: map<string, string>, deleteArgs: seq<string>)
    ensures updateArgs == Updates(KubeletArgPairs(k))
    ensures deleteArgs == Deletes(KubeletArgPairs(k))
  {
    var pairs := KubeletArgPairs(k);
    updateArgs, deleteArgs := map[], [];
    var i := 0;
    while i < |pairs|
      invariant 0 <= i <= |pairs|
      invariant updateArgs == Updates(pairs[..i])
      invariant deleteArgs == Deletes(pairs[..i])
    {
      assert pairs[..i + 1][..i] == pairs[..i];
      var (arg, val) := pairs[i];
      if val.None? {
        // not set in the ConfigMap: nothing to do
      } else if val.value == "" {
        deleteArgs := deleteArgs + [arg];
      } else {
        updateArgs := updateArgs[arg := val.value];
      }
      i := i + 1;
    }
    assert pairs[..|pairs|] == pairs;
  }

  /** The local-state document after recording the kube-proxy choice: one entry changes. */
  function WithKubeProxy(doc: LocalStateDoc, enabled: bool): (r: LocalStateDoc)
    ensures r.apiVersion == doc.apiVersion && r.kind == doc.kind
    ensures KubeProxy in r.services && r.services[KubeProxy] == Some(enabled)
    ensures forall s :: s != KubeProxy ==> (s in r.services <==> s in doc.services)
    ensures forall s :: s in doc.services && s != KubeProxy ==> r.services[s] == doc.services[s]
  {
    doc.(services := doc.services[KubeProxy := Some(enabled)])
  }

  /** Starts kube-proxy when it is enabled, otherwise stops it and removes its rules. */
  method ToggleKubeProxy(snap: ServiceManager, enabled: bool) returns (err: Outcome, cleanedRules: bool)
    modifies snap`startCalls, snap`stopCalls
    ensures enabled ==>
      snap.startCalls == old(snap.startCalls) + [SnapCall([KubeProxy], [])] && snap.stopCalls == old(snap.stopCalls)
      && !cleanedRules
      && err == (if snap.startFault.Fail? then Fail(Wrap("failed to start kube-proxy", snap.startFault.error)) else Pass)
    ensures !enabled ==>
      snap.stopCalls == old(snap.stopCalls) + [SnapCall([KubeProxy], [])] && snap.startCalls == old(snap.startCalls)
      && (cleanedRules <==> snap.stopFault.Pass?)
      && err == (if snap.stopFault.Fail? then Fail(Wrap("failed to stop kube-proxy", snap.stopFault.error)) else Pass)
  {
    cleanedRules := false;
    if enabled {
      var e := snap.StartServices([KubeProxy]);
      if e.Fail? {
        return Fail(Wrap("failed to start kube-proxy", e.error)), false;
      }
    } else {
      var e := snap.StopServices([KubeProxy], []);
      if e.Fail? {
        return Fail(Wrap("failed to stop kube-proxy", e.error)), false;
      }
      cleanedRules := true;
    }
    return Pass, cleanedRules;
  }

  /**
   * The text the local state file gets when the kube-proxy choice is recorded: the current
   * document with the kube-proxy entry set, serialised; an error when the file cannot be read,
   * parsed or serialised.
   */
  function RecordedState(contents: map<string, string>, readFaults: set<string>, statePath: string, enabled: bool,
                         unmarshal: string -> Result<LocalStateDoc>, marshal: LocalStateDoc -> Result<string>): Result<string>
  {
    if statePath !in contents || statePath in readFaults then Err("failed to read local state")
    else
      match unmarshal(contents[statePath])
      case Err(e) => Err(e)
      case Ok(doc) => marshal(WithKubeProxy(doc, enabled))
  }

  /**
   * What is recorded reads back, when the YAML decoder inverts the encoder, as the old document
   * with only the kube-proxy entry set to the choice (see WithKubeProxy).
   */
  lemma RecordedStateReadsBack(contents: map<string, string>, readFaults: set<string>, statePath: string, enabled: bool,
                               unmarshal: string -> Result<LocalStateDoc>, marshal: LocalStateDoc -> Result<string>)
    requires forall d :: marshal(d).Ok? ==> unmarshal(marshal(d).value) == Ok(d)
    ensures RecordedState(contents, readFaults, statePath, enabled, unmarshal, marshal).Ok? ==>
      statePath in contents && statePath !in readFaults && unmarshal(contents[statePath]).Ok?
      && unmarshal(RecordedState(contents, readFaults, statePath, enabled, unmarshal, marshal).value)
         == Ok(WithKubeProxy(unmarshal(contents[statePath]).value, enabled))
  {
    var r := RecordedState(contents, readFaults, statePath, enabled, unmarshal, marshal);
    if r.Ok? {
      var doc := unmarshal(contents[statePath]).value;
      assert r == marshal(WithKubeProxy(doc, enabled));
    }
  }

  /** Records the kube-proxy choice in the local state file: read, change one entry, write back. */
  method RecordKubeProxy(files: Files, statePath: string, enabled: bool, unmarshal: string -> Result<LocalStateDoc>,
                         marshal: LocalStateDoc -> Result<string>, chown: Outcome) returns (err: Outcome)
    modifies files`contents
    ensures var recorded := RecordedState(old(files.contents), files.readFaults, statePath, enabled, unmarshal, marshal);
      && (err.Pass? <==> recorded.Ok? && statePath !in files.writeFaults && chown.Pass?)
      // The file is rewritten whenever the new text exists and the write is accepted, even when the chown then fails.
      && files.contents == if recorded.Ok? && statePath !in files.writeFaults
                           then old(files.contents)[statePath := recorded.value] else old(files.contents)
  {
    var localState := ReadLocalState(files, statePath, unmarshal);
    if localState.Err? {
      return Fail(Wrap("failed to read local state", localState.error));
    }
    var state := localState.value;
    state.SetServiceEnabled(KubeProxy, enabled);
    assert state.Doc() == WithKubeProxy(unmarshal(old(files.contents)[statePath]).value, enabled);
    var w := WriteLocalState(files, statePath, state, marshal, chown);
    if w.Fail? {
      return Fail(Wrap("failed to update local state", w.error));
    }
    return Pass;
  }

  /**
   * One reconciliation. `cm` is the ConfigMap's data, `snap` the service manager, and the
   * local state lives at `statePath` in `files`, read with `unmarshal` and written with
   * `marshal` and `chown`. `cleanedRules` tells whether the kube-proxy rules were removed.
   */
  method Reconcile(cm: Option<ConfigMapCodec.ConfigMapData>, rsaKey: Result<Option<(ConfigMapCodec.ConfigMapData, string) -> Outcome>>,
                   decodeTaints: string -> Result<seq<string>>,
                   updateServiceArguments: (map<string, string>, seq<string>) -> Result<bool>,
                   snap: ServiceManager, files: Files, statePath: string,
                   unmarshal: string -> Result<LocalStateDoc>, marshal: LocalStateDoc -> Result<string>, chown: Outcome)
    returns (err: Outcome, cleanedRules: bool)
    modifies snap`restartCalls, snap`startCalls, snap`stopCalls, files`contents
    // No key or no valid ConfigMap: nothing is touched.
    ensures rsaKey.Err? ==> err == Fail(Wrap("failed to load the RSA public key", rsaKey.error))
    ensures rsaKey.Err? || ConfigMapCodec.ConfigMapToClusterConfig(cm, rsaKey.value, decodeTaints).err.Fail? ==>
      err.Fail? && !cleanedRules
      && snap.restartCalls == old(snap.restartCalls) && snap.startCalls == old(snap.startCalls)
      && snap.stopCalls == old(snap.stopCalls) && files.contents == old(files.contents)
    ensures rsaKey.Ok? && ConfigMapCodec.ConfigMapToClusterConfig(cm, rsaKey.value, decodeTaints).err.Pass? ==>
      var config := ConfigMapCodec.ConfigMapToClusterConfig(cm, rsaKey.value, decodeTaints).config;
      var args := updateServiceArguments(Updates(KubeletArgPairs(config.kubelet)), Deletes(KubeletArgPairs(config.kubelet)));
      var restartFailed := args == Ok(true) && snap.restartFault.Fail?;
      var kubeProxyEnabled := !config.network.GetKubeProxyFree();
      var toggleFault := if kubeProxyEnabled then snap.startFault else snap.stopFault;
      var recorded := RecordedState(old(files.contents), files.readFaults, statePath, kubeProxyEnabled, unmarshal, marshal);
      // Kubelet is restarted iff its arguments changed.
      && snap.restartCalls == old(snap.restartCalls) + (if args == Ok(true) then [SnapCall([LocalState.Kubelet], [])] else [])
      // A failed argument update or kubelet restart ends the reconciliation before kube-proxy is touched.
      && (args.Err? ==> err == Fail(Wrap("failed to update kubelet arguments", args.error)))
      && (restartFailed ==>
            err == Fail(Wrap("failed after retry", Wrap("failed to restart kubelet to apply node configuration", snap.restartFault.error))))
      && (args.Err? || restartFailed ==>
            !cleanedRules && snap.startCalls == old(snap.startCalls) && snap.stopCalls == old(snap.stopCalls)
            && files.contents == old(files.contents))
      // Otherwise kube-proxy is started or stopped as the ConfigMap says, its rules removed when it stopped.
      && (args.Ok? && !restartFailed ==>
            && (kubeProxyEnabled ==> snap.startCalls == old(snap.startCalls) + [SnapCall([KubeProxy], [])]
                                      && snap.stopCalls == old(snap.stopCalls) && !cleanedRules)
            && (!kubeProxyEnabled ==> snap.stopCalls == old(snap.stopCalls) + [SnapCall([KubeProxy], [])]
                                       && snap.startCalls == old(snap.startCalls) && (cleanedRules <==> toggleFault.Pass?))
            && (toggleFault.Fail? ==> err.Fail? && files.contents == old(files.contents))
            // and then the local state records the choice.
            && (toggleFault.Pass? ==>
                  && (err.Pass? <==> recorded.Ok? && statePath !in files.writeFaults && chown.Pass?)
                  && files.contents == if recorded.Ok? && statePath !in files.writeFaults
                                       then old(files.contents)[statePath := recorded.value] else old(files.contents)))
    // The reconciliation succeeds exactly when every one of its steps does.
    ensures err.Pass? <==>
      rsaKey.Ok? && ConfigMapCodec.ConfigMapToClusterConfig(cm, rsaKey.value, decodeTaints).err.Pass?
      && var config := ConfigMapCodec.ConfigMapToClusterConfig(cm, rsaKey.value, decodeTaints).config;
         var args := updateServiceArguments(Updates(KubeletArgPairs(config.kubelet)), Deletes(KubeletArgPairs(config.kubelet)));
         var kubeProxyEnabled := !config.network.GetKubeProxyFree();
         args.Ok? && (args.value ==> snap.restartFault.Pass?)
         && (if kubeProxyEnabled then snap.startFault else snap.stopFault).Pass?
         && RecordedState(old(files.contents), files.readFaults, statePath, kubeProxyEnabled, unmarshal, marshal).Ok?
         && statePath !in files.writeFaults && chown.Pass?
  {
    cleanedRules := false;
    if rsaKey.Err? {
      return Fail(Wrap("failed to load the RSA public key", rsaKey.error)), false;
    }
    var decoded := ConfigMapCodec.ConfigMapToClusterConfig(cm, rsaKey.value, decodeTaints);
    if decoded.err.Fail? {
      return Fail(Wrap("failed to parse configmap data to cluster config", decoded.err.error)), false;
    }
    var nodeConfig := decoded.config;

    var updateArgs, deleteArgs := ClassifyKubeletArgs(nodeConfig.kubelet);

    var mustRestart := updateServiceArguments(updateArgs, deleteArgs);
    if mustRestart.Err? {
      return Fail(Wrap("failed to update kubelet arguments", mustRestart.error)), false;
    }
    if mustRestart.value {
      var e := snap.RestartServices([LocalState.Kubelet], []);
      if e.Fail? {
        return Fail(Wrap("failed after retry", Wrap("failed to restart kubelet to apply node configuration", e.error))), false;
      }
    }

    var kubeProxyEnabled := !nodeConfig.network.GetKubeProxyFree();
    err, cleanedRules := ToggleKubeProxy(snap, kubeProxyEnabled);
    if err.Fail? {
      return err, false;
    }
    err := RecordKubeProxy(files, statePath, kubeProxyEnabled, unmarshal, marshal, chown);
    if err.Fail? {
      return err, cleanedRules;
    }
    return Pass, cleanedRules;
  }
}
