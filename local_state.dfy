/**
 * The node-local service state (`local-state.yaml`): which of the eight Kubernetes services a
 * node runs, the constructors for control-plane and worker nodes, and the requests made of
 * the snap's service manager.
 */
module LocalState {
  import opened Common
  import opened ApiTypes
  import opened FileStore

  const LocalNodeStateAPIVersion: string := "k8sd.io/v1alpha1"
  const LocalNodeStateKind: string := "LocalNodeState"
  const LocalNodeStateFileName: string := "local-state.yaml"

  const Containerd: string := "containerd"
  const Etcd: string := "etcd"
  const KubeAPIServer: string := "kube-apiserver"
  const KubeControllerManager: string := "kube-controller-manager"
  const KubeScheduler: string := "kube-scheduler"
  const Kubelet: string := "kubelet"
  const KubeProxy: string := "kube-proxy"
  const K8sAPIServerProxy: string := "k8s-apiserver-proxy"

  /** The eight services a node may run. */
  const AllServices: set<string> :=
    {Containerd, Etcd, KubeAPIServer, KubeControllerManager, KubeScheduler, Kubelet, KubeProxy, K8sAPIServerProxy}

  /**
   * The per-service entries: None is a nil `*ServiceState`, Some(b) one whose Enabled is b.
   * A nil services map reads like the empty map.
   */
  type Services = map<string, Option<bool>>

  /** The services whose entry is present and enabled. */
  function EnabledSet(services: Services): set<string>
  {
    set s | s in services && services[s] == Some(true)
  }

  /** `names` lists exactly the members of `s`, each once. */
  predicate ListsExactly(names: seq<string>, s: set<string>)
  {
    (forall i :: 0 <= i < |names| ==> names[i] in s)
    && (forall x :: x in s ==> x in names)
    && (forall i, j :: 0 <= i < j < |names| ==> names[i] != names[j])
  }

  /** The document written to and read from the state file. */
  datatype LocalStateDoc = LocalStateDoc(apiVersion: string, kind: string, services: Services)

  /** The services of a control-plane node: etcd only for the "etcd" datastore, no API server proxy. */
  function ControlPlaneServices(datastoreType: string): (r: Services)
    ensures r.Keys == AllServices
    ensures r[Etcd] == Some(datastoreType == "etcd")
    ensures r[K8sAPIServerProxy] == Some(false)
    ensures forall s :: s in r && s != Etcd && s != K8sAPIServerProxy ==> r[s] == Some(true)
  {
    var etcdEnabled := datastoreType == "etcd";
    map[Containerd := Some(true), Etcd := Some(etcdEnabled), KubeAPIServer := Some(true),
        KubeControllerManager := Some(true), KubeScheduler := Some(true), Kubelet := Some(true),
        KubeProxy := Some(true), K8sAPIServerProxy := Some(false)]
  }

  /** The services of a worker node: no datastore and no control-plane components. */
  function WorkerServices(): (r: Services)
    ensures r.Keys == AllServices
    ensures forall s :: s in r ==> r[s] == Some(s !in {Etcd, KubeAPIServer, KubeControllerManager, KubeScheduler})
  {
    map[Containerd := Some(true), Etcd := Some(false), KubeAPIServer := Some(false),
        KubeControllerManager := Some(false), KubeScheduler := Some(false), Kubelet := Some(true),
        KubeProxy := Some(true), K8sAPIServerProxy := Some(true)]
  }

  /** What each constructor enables, as a set. */
  lemma EnabledServicesOfConstructors(datastoreType: string)
    ensures EnabledSet(ControlPlaneServices(datastoreType)) ==
      {Containerd, KubeAPIServer, KubeControllerManager, KubeScheduler, Kubelet, KubeProxy}
      + (if datastoreType == "etcd" then {Etcd} else {})
    ensures EnabledSet(WorkerServices()) == {Containerd, Kubelet, KubeProxy, K8sAPIServerProxy}
  {
    var cp := ControlPlaneServices(datastoreType);
    assert forall s :: s in EnabledSet(cp) ==> s in cp.Keys;
    var w := WorkerServices();
    assert forall s :: s in EnabledSet(w) ==> s in w.Keys;
  }

  /** The local node state object. */
  class LocalNodeState {
    var apiVersion: string
    var kind: string
    var services: Services

    /** `NewLocalState`: the fixed version and kind, and the given services. */
    constructor (services0: Services)
      ensures apiVersion == LocalNodeStateAPIVersion && kind == LocalNodeStateKind && services == services0
    {
      apiVersion := LocalNodeStateAPIVersion;
      kind := LocalNodeStateKind;
      services := services0;
    }

    function Doc(): LocalStateDoc
      reads this
    {
      LocalStateDoc(apiVersion, kind, services)
    }

    /** The enabled services, each once, in the unspecified order of a map range. */
    method EnabledServices() returns (enabled: seq<string>)
      ensures ListsExactly(enabled, EnabledSet(services))
    {
      var remaining := services.Keys;
      enabled := [];
      while remaining != {}
        invariant remaining <= services.Keys
        invariant forall i :: 0 <= i < |enabled| ==> enabled[i] in EnabledSet(services) && enabled[i] !in remaining
        invariant forall x :: x in EnabledSet(services) && x !in remaining ==> x in enabled
        invariant forall i, j :: 0 <= i < j < |enabled| ==> enabled[i] != enabled[j]
        decreases |remaining|
      {
        var service :| service in remaining;
        if services[service] == Some(true) {
          enabled := enabled + [service];
        }
        remaining := remaining - {service};
      }
    }

    /** Sets one entry to a present state with the given flag. */
    method SetServiceEnabled(service: string, enabled: bool)
      modifies this`services
      ensures services == old(services)[service := Some(enabled)]
      ensures forall s :: s in old(services) && s != service ==> s in services && services[s] == old(services)[s]
    {
      services := services[service := Some(enabled)];
    }
  }

  method NewControlPlaneLocalState(datastoreType: string) returns (s: LocalNodeState)
    ensures fresh(s) && s.Doc() == LocalStateDoc(LocalNodeStateAPIVersion, LocalNodeStateKind, ControlPlaneServices(datastoreType))
  {
    s := new LocalNodeState(ControlPlaneServices(datastoreType));
  }

  method NewWorkerLocalState() returns (s: LocalNodeState)
    ensures fresh(s) && s.Doc() == LocalStateDoc(LocalNodeStateAPIVersion, LocalNodeStateKind, WorkerServices())
  {
    s := new LocalNodeState(WorkerServices());
  }

  /** One request to the snap's service manager: the service names and the extra snap arguments. */
  datatype SnapCall = SnapCall(services: seq<string>, extraArgs: seq<string>)

  /** The snap's service manager, seen through the requests it receives and the fault it answers with. */
  class ServiceManager {
    var startCalls: seq<SnapCall>
    var restartCalls: seq<SnapCall>
    var stopCalls: seq<SnapCall>
    var startFault: Outcome
    var restartFault: Outcome
    var stopFault: Outcome

    constructor (startFault0: Outcome, restartFault0: Outcome, stopFault0: Outcome)
      ensures startCalls == [] && restartCalls == [] && stopCalls == []
      ensures startFault == startFault0 && restartFault == restartFault0 && stopFault == stopFault0
    {
      startCalls, restartCalls, stopCalls := [], [], [];
      startFault, restartFault, stopFault := startFault0, restartFault0, stopFault0;
    }

    method StartServices(names: seq<string>) returns (err: Outcome)
      modifies this`startCalls
      ensures startCalls == old(startCalls) + [SnapCall(names, [])] && err == startFault
    {
      startCalls := startCalls + [SnapCall(names, [])];
      err := startFault;
    }

    method RestartServices(names: seq<string>, extraArgs: seq<string>) returns (err: Outcome)
      modifies this`restartCalls
      ensures restartCalls == old(restartCalls) + [SnapCall(names, extraArgs)] && err == restartFault
    {
      restartCalls := restartCalls + [SnapCall(names, extraArgs)];
      err := restartFault;
    }

    method StopServices(names: seq<string>, extraArgs: seq<string>) returns (err: Outcome)
      modifies this`stopCalls
      ensures stopCalls == old(stopCalls) + [SnapCall(names, extraArgs)] && err == stopFault
    {
      stopCalls := stopCalls + [SnapCall(names, extraArgs)];
      err := stopFault;
    }
  }

  lemma EmptyListing(names: seq<string>, s: set<string>)
    requires ListsExactly(names, s)
    ensures names == [] <==> s == {}
  {
    if names != [] {
      assert names[0] in s;
    }
  }

  /** Starts the enabled services in one request; with none enabled nothing is requested. */
  method StartEnabledServices(snap: ServiceManager, state: LocalNodeState) returns (err: Outcome)
    modifies snap`startCalls
    ensures EnabledSet(state.services) == {} ==> err == Pass && snap.startCalls == old(snap.startCalls)
    ensures EnabledSet(state.services) != {} ==>
      |snap.startCalls| == |old(snap.startCalls)| + 1
      && snap.startCalls[..|old(snap.startCalls)|] == old(snap.startCalls)
      && ListsExactly(snap.startCalls[|old(snap.startCalls)|].services, EnabledSet(state.services))
      && err == (if snap.startFault.Fail? then Fail(Wrap("failed to start services", snap.startFault.error)) else Pass)
  {
    var services := state.EnabledServices();
    EmptyListing(services, EnabledSet(state.services));
    if |services| == 0 {
      return Pass;
    }
    var e := snap.StartServices(services);
    if e.Fail? {
      return Fail(Wrap("failed to start services", e.error));
    }
    return Pass;
  }

  /** Restarts the enabled services in one request carrying the extra arguments; with none enabled nothing is requested. */
  method RestartEnabledServices(snap: ServiceManager, state: LocalNodeState, extraArgs: seq<string>) returns (err: Outcome)
    modifies snap`restartCalls
    ensures EnabledSet(state.services) == {} ==> err == Pass && snap.restartCalls == old(snap.restartCalls)
    ensures EnabledSet(state.services) != {} ==>
      |snap.restartCalls| == |old(snap.restartCalls)| + 1
      && snap.restartCalls[..|old(snap.restartCalls)|] == old(snap.restartCalls)
      && ListsExactly(snap.restartCalls[|old(snap.restartCalls)|].services, EnabledSet(state.services))
      && snap.restartCalls[|old(snap.restartCalls)|].extraArgs == extraArgs
      && err == (if snap.restartFault.Fail? then Fail(Wrap("failed to restart services", snap.restartFault.error)) else Pass)
  {
    var services := state.EnabledServices();
    EmptyListing(services, EnabledSet(state.services));
    if |services| == 0 {
      return Pass;
    }
    var e := snap.RestartServices(services, extraArgs);
    if e.Fail? {
      return Fail(Wrap("failed to restart services", e.error));
    }
    return Pass;
  }

  /** The order in which every Kubernetes service is asked to stop. */
  const StopOrder: seq<string> :=
    [Containerd, KubeAPIServer, KubeControllerManager, KubeScheduler, KubeProxy, Kubelet, Etcd, K8sAPIServerProxy]

  lemma StopOrderListsAllServices()
    ensures ListsExactly(StopOrder, AllServices)
  {
  }

  /** Stops all eight services in one request, whatever the local state says. */
  method StopAllK8sServices(snap: ServiceManager, extraArgs: seq<string>) returns (err: Outcome)
    modifies snap`stopCalls
    ensures snap.stopCalls == old(snap.stopCalls) + [SnapCall(StopOrder, extraArgs)]
    ensures ListsExactly(snap.stopCalls[|snap.stopCalls| - 1].services, AllServices)
    ensures err == if snap.stopFault.Fail? then Fail(Wrap("failed to stop k8s services", snap.stopFault.error)) else Pass
  {
    StopOrderListsAllServices();
    var e := snap.StopServices(StopOrder, extraArgs);
    if e.Fail? {
      return Fail(Wrap("failed to stop k8s services", e.error));
    }
    return Pass;
  }

  /**
   * Reads and parses the state file at `path`; `unmarshal` is the YAML decoder. The result is
   * a fresh object holding the decoded document.
   */
  method ReadLocalState(files: Files, path: string, unmarshal: string -> Result<LocalStateDoc>) returns (r: Result<LocalNodeState>)
    ensures r.Ok? <==> path in files.contents && path !in files.readFaults && unmarshal(files.contents[path]).Ok?
    ensures r.Ok? ==> fresh(r.value) && r.value.Doc() == unmarshal(files.contents[path]).value
  {
    var data := files.ReadFile(path);
    if data.Err? {
      return Err(Wrap("failed to read local state file", data.error));
    }
    var doc := unmarshal(data.value);
    if doc.Err? {
      return Err(Wrap("failed to parse local state file", doc.error));
    }
    var state := new LocalNodeState(doc.value.services);
    state.apiVersion, state.kind := doc.value.apiVersion, doc.value.kind;
    return Ok(state);
  }

  /**
   * Serialises the state with `marshal` (the YAML encoder), writes it to `path` and hands the
   * file to the snap's user; `chown` is the ownership change's outcome. A failed chown leaves
   * the written file in place.
   */
  method WriteLocalState(files: Files, path: string, state: LocalNodeState, marshal: LocalStateDoc -> Result<string>,
                         chown: Outcome) returns (err: Outcome)
    modifies files`contents
    ensures err.Pass? <==> marshal(state.Doc()).Ok? && path !in files.writeFaults && chown.Pass?
    ensures files.contents ==
      if marshal(state.Doc()).Ok? && path !in files.writeFaults then old(files.contents)[path := marshal(state.Doc()).value]
      else old(files.contents)
  {
    var data := marshal(state.Doc());
    if data.Err? {
      return Fail(Wrap("failed to marshal local state", data.error));
    }
    var w := files.WriteFile(path, data.value);
    if w.Fail? {
      return Fail(Wrap("failed to write local state file", w.error));
    }
    if chown.Fail? {
      return Fail(Wrap("failed to chown local state file", chown.error));
    }
    return Pass;
  }

  /** Removes the state file; a file that is already absent is not an error. */
  method DeleteLocalState(files: Files, path: string) returns (err: Outcome)
    modifies files`contents
    ensures err.Fail? <==> path in files.removeFaults
    ensures err.Pass? ==> path !in files.contents
    ensures files.contents == if err.Pass? then old(files.contents) - {path} else old(files.contents)
  {
    var r := files.Remove(path);
    if r.RemoveFailed? {
      return Fail(Wrap("failed to delete local state file", r.error));
    }
    return Pass;
  }

  /**
   * A written state reads back as the same document whenever the YAML decoder inverts the
   * encoder on it.
   */
  method WriteThenRead(files: Files, path: string, state: LocalNodeState, marshal: LocalStateDoc -> Result<string>,
                       unmarshal: string -> Result<LocalStateDoc>) returns (err: Outcome, read: Result<LocalNodeState>)
    requires marshal(state.Doc()).Ok? ==> unmarshal(marshal(state.Doc()).value) == Ok(state.Doc())
    modifies files`contents
    // A path that accepted the write and is readable gives back the state that was written.
    ensures err.Pass? && path !in files.readFaults ==> read.Ok? && read.value.Doc() == state.Doc() && read.value.services == state.services
  {
    err := WriteLocalState(files, path, state, marshal, Pass);
    read := ReadLocalState(files, path, unmarshal);
  }
}
