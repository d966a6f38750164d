/**
 * Node removal (`postClusterRemove`): the Kubernetes, datastore and microcluster steps, the
 * etcd endpoint list without the departing member, and the wait for a pending join.
 *
 * Every external system is an oracle: its answers are fields of the `*Oracle` records. The
 * model returns the HTTP response, the stages that were started, and the trace of calls
 * into the external systems that change something.
 */
module ClusterRemove {
  import opened Common
  import opened ApiTypes
  import NodeUtil
  import K8sdClient
  import opened ClusterConfigTypes

  /** The annotation that keeps the Kubernetes Node object on removal. Its value is defined by the API package. */
  const SkipCleanupKubernetesNodeOnRemove: string := "k8sd/v1alpha/lifecycle/skip-cleanup-kubernetes-node-on-remove"

  /** Failed member lookups after which the pending-join wait gives up. */
  const MaxRetries: nat := 10

  /** The runtime error of `make([]string, 0, len(members)-1)` for an empty member list. */
  const CapOutOfRange: string := "makeslice: cap out of range"

  /** The prefixes of the errors the removal wraps. */
  const K8sClientFailed: string := "failed to create k8s client"
  const K8sdClientFailed: string := "failed to get k8sd client"
  const MembersFailed: string := "failed to get microcluster members"
  const EtcdClientFailed: string := "failed to create etcd client"
  const EtcdRemovalFailed: string := "failed to remove node from etcd cluster"
  const ParseRequestFailed: string := "failed to parse request"
  const ClusterConfigFailed: string := "failed to get cluster config"
  const ControlPlaneCheckFailed: string := "failed to determine if node is control-plane"
  const KubernetesRemovalFailed: string := "failed to remove node from Kubernetes"
  const DatastoreRemovalFailed: string := "failed to delete node from datastore"
  const MicroclusterRemovalFailed: string := "failed to delete node from microcluster"

  /** The decoded `RemoveNodeRequest`. The timeout only bounds the oracles' waiting. */
  datatype RemoveNodeRequest = RemoveNodeRequest(name: string, force: bool, timeout: int)

  /** The handler's answer; Crashed is a runtime panic that ends the handler without a response of its own. */
  datatype Response = SyncOk | BadRequest(error: string) | InternalError(error: string) | Crashed(reason: string)

  datatype Stage = KubernetesStage | DatastoreStage | MicroclusterStage

  /** Calls into the external systems, in the order they are made. */
  datatype Event =
    | DeleteKubernetesNode(node: string)
    | RemoveEtcdMember(member: string, clientURLs: seq<string>)
    | WaitedForJoin(wait: WaitOutcome)
    | RemoveClusterMember(member: string, address: string, force: bool)

  /** How the wait for a pending join ended. ContextDone: no more answers before the request context ended. */
  datatype WaitOutcome = NotPending | RetriesExhausted | ContextDone

  /** The Kubernetes client: its creation and `DeleteNode`. */
  datatype KubernetesOracle = KubernetesOracle(client: Outcome, deleteNode: Outcome)

  /** The etcd step: the k8sd client, its member listing, the etcd client and `RemoveNodeByName`. */
  datatype EtcdOracle = EtcdOracle(k8sdClient: Outcome, members: Result<seq<ClusterMember>>, etcdClient: Outcome, removeByName: Outcome)

  /**
   * The microcluster step: the k8sd client, the name of the node serving the request, the
   * member listings the wait sees one per check, the listing used to find the departing
   * member's address, and `RemoveClusterMember`.
   */
  datatype MicroclusterOracle = MicroclusterOracle(
    k8sdClient: Outcome,
    localName: string,
    polls: seq<Result<seq<ClusterMember>>>,
    target: Result<seq<ClusterMember>>,
    removeMember: Outcome)

  /** Everything the handler asks of the outside world. */
  datatype RemovalOracle = RemovalOracle(
    clusterConfig: Result<ClusterConfig>,
    cpClient: Outcome,
    cpListing: Result<seq<ClusterMember>>,
    kubernetes: KubernetesOracle,
    etcd: EtcdOracle,
    microcluster: MicroclusterOracle)

  datatype StepOutcome = Done | Failed(error: string) | Panicked(reason: string)

  /** The result of one removal step and the calls it made. */
  datatype Step = Step(outcome: StepOutcome, events: seq<Event>)

  /** The handler's result: response, the stages started in order, and the calls made. */
  datatype RemoveResult = RemoveResult(response: Response, attempted: seq<Stage>, events: seq<Event>)

  // ---------------------------------------------------------------------------------------
  // Kubernetes step

  /** `removeNodeFromKubernetes`: delete the Node object once a client exists. */
  function RemoveNodeFromKubernetes(o: KubernetesOracle, nodeName: string): (r: Step)
    ensures r.outcome.Done? <==> o.client.Pass? && o.deleteNode.Pass?
    ensures !r.outcome.Panicked?
    ensures r.events == (if o.client.Pass? then [DeleteKubernetesNode(nodeName)] else [])
  {
    if o.client.Fail? then Step(Failed(Wrap(K8sClientFailed, o.client.error)), [])
    else if o.deleteNode.Fail? then
      Step(Failed(Wrap("failed to remove k8s node " + Quote(nodeName), o.deleteNode.error)), [DeleteKubernetesNode(nodeName)])
    else Step(Done, [DeleteKubernetesNode(nodeName)])
  }

  // ---------------------------------------------------------------------------------------
  // etcd endpoint list

  /** The client URL of a member: https, its host and the configured etcd port. */
  function ClientURL(m: ClusterMember, etcdPort: int): string
  {
    "https://" + JoinHostPort(m.address.host, etcdPort)
  }

  /** The members carrying `name`. */
  function NameCount(members: seq<ClusterMember>, name: string): nat
  {
    if |members| == 0 then 0
    else NameCount(members[..|members| - 1], name) + (if members[|members| - 1].name == name then 1 else 0)
  }

  /** The client URLs of every member not named `nodeName`, in member order. */
  function PeerClientURLs(members: seq<ClusterMember>, nodeName: string, etcdPort: int): (r: seq<string>)
    ensures |r| <= |members|
  {
    if |members| == 0 then []
    else
      var last := members[|members| - 1];
      var r0 := PeerClientURLs(members[..|members| - 1], nodeName, etcdPort);
      if last.name == nodeName then r0 else r0 + [ClientURL(last, etcdPort)]
  }

  /** Every other member's URL is in the list, and every URL in it belongs to some other member. */
  lemma {:induction false} PeerClientURLsMembers(members: seq<ClusterMember>, nodeName: string, etcdPort: int)
    ensures forall i :: 0 <= i < |members| && members[i].name != nodeName ==>
      ClientURL(members[i], etcdPort) in PeerClientURLs(members, nodeName, etcdPort)
    ensures forall u :: u in PeerClientURLs(members, nodeName, etcdPort) ==>
      exists i :: 0 <= i < |members| && members[i].name != nodeName && u == ClientURL(members[i], etcdPort)
  {
    if |members| > 0 {
      var init, last := members[..|members| - 1], members[|members| - 1];
      var r, r0 := PeerClientURLs(members, nodeName, etcdPort), PeerClientURLs(init, nodeName, etcdPort);
      PeerClientURLsMembers(init, nodeName, etcdPort);
      assert forall i :: 0 <= i < |init| ==> init[i] == members[i];
      assert r == r0 || r == r0 + [ClientURL(last, etcdPort)];
    }
  }

  /** One URL per member other than the departing one. */
  lemma {:induction false} PeerClientURLsCount(members: seq<ClusterMember>, nodeName: string, etcdPort: int)
    ensures |PeerClientURLs(members, nodeName, etcdPort)| == |members| - NameCount(members, nodeName)
  {
    if |members| > 0 {
      PeerClientURLsCount(members[..|members| - 1], nodeName, etcdPort);
    }
  }

  /** The list of a concatenation is the concatenation of the lists. */
  lemma {:induction false} PeerClientURLsAppend(a: seq<ClusterMember>, b: seq<ClusterMember>, nodeName: string, etcdPort: int)
    ensures PeerClientURLs(a + b, nodeName, etcdPort) == PeerClientURLs(a, nodeName, etcdPort) + PeerClientURLs(b, nodeName, etcdPort)
    decreases |b|
  {
    if |b| == 0 {
      assert a + b == a;
    } else {
      var b0 := b[..|b| - 1];
      assert (a + b)[..|a + b| - 1] == a + b0;
      assert (a + b)[|a + b| - 1] == b[|b| - 1];
      PeerClientURLsAppend(a, b0, nodeName, etcdPort);
    }
  }

  /** Without a member of that name every member contributes its URL at its own position. */
  lemma {:induction false} PeerClientURLsOfOthers(members: seq<ClusterMember>, nodeName: string, etcdPort: int)
    requires forall i :: 0 <= i < |members| ==> members[i].name != nodeName
    ensures |PeerClientURLs(members, nodeName, etcdPort)| == |members|
    ensures forall i :: 0 <= i < |members| ==> PeerClientURLs(members, nodeName, etcdPort)[i] == ClientURL(members[i], etcdPort)
  {
    if |members| > 0 {
      PeerClientURLsOfOthers(members[..|members| - 1], nodeName, etcdPort);
    }
  }

  /**
   * When exactly the member at index k carries the departing name, the list is every other
   * member's URL in order: those before k at their index, those after k one place earlier.
   */
  lemma {:induction false} PeerClientURLsDropOne(members: seq<ClusterMember>, nodeName: string, etcdPort: int, k: nat)
    requires k < |members| && members[k].name == nodeName
    requires forall i :: 0 <= i < |members| && i != k ==> members[i].name != nodeName
    ensures |PeerClientURLs(members, nodeName, etcdPort)| == |members| - 1
    ensures forall i :: 0 <= i < k ==> PeerClientURLs(members, nodeName, etcdPort)[i] == ClientURL(members[i], etcdPort)
    ensures forall i :: k <= i < |members| - 1 ==> PeerClientURLs(members, nodeName, etcdPort)[i] == ClientURL(members[i + 1], etcdPort)
  {
    var init, last := members[..|members| - 1], members[|members| - 1];
    var r, r0 := PeerClientURLs(members, nodeName, etcdPort), PeerClientURLs(init, nodeName, etcdPort);
    if k == |members| - 1 {
      assert r == r0;
      PeerClientURLsOfOthers(init, nodeName, etcdPort);
    } else {
      assert r == r0 + [ClientURL(last, etcdPort)];
      PeerClientURLsDropOne(init, nodeName, etcdPort, k);
      assert |r0| == |members| - 2;
    }
  }

  /**
   * The loop of `removeNodeFromEtcd` that collects the client URLs. An empty member list
   * makes the capacity negative, which is a runtime panic before the loop starts.
   */
  method EtcdClientURLs(members: seq<ClusterMember>, nodeName: string, etcdPort: int) returns (r: Result<seq<string>>)
    ensures |members| == 0 ==> r == Err(CapOutOfRange)
    ensures |members| > 0 ==> r == Ok(PeerClientURLs(members, nodeName, etcdPort))
  {
    if |members| - 1 < 0 {
      return Err(CapOutOfRange);
    }
    var clientURLs: seq<string> := [];
    var i := 0;
    while i < |members|
      invariant 0 <= i <= |members|
      invariant clientURLs == PeerClientURLs(members[..i], nodeName, etcdPort)
    {
      var member := members[i];
      assert members[..i + 1][..i] == members[..i];
      if member.name != nodeName {
        clientURLs := clientURLs + [ClientURL(member, etcdPort)];
      }
      i := i + 1;
    }
    assert members[..i] == members;
    return Ok(clientURLs);
  }

  // ---------------------------------------------------------------------------------------
  // Datastore step

  /** `removeNodeFromEtcd`, as a function of the oracle's answers. */
  function EtcdRemoval(o: EtcdOracle, cfg: ClusterConfig, nodeName: string): (r: Step)
    ensures r.outcome.Done? <==>
      o.k8sdClient.Pass? && o.members.Ok? && |o.members.value| > 0 && o.etcdClient.Pass? && o.removeByName.Pass?
    ensures r.outcome.Panicked? <==> o.k8sdClient.Pass? && o.members == Ok([])
    ensures r.events != [] <==> o.k8sdClient.Pass? && o.members.Ok? && |o.members.value| > 0 && o.etcdClient.Pass?
    ensures r.events != [] ==>
      r.events == [RemoveEtcdMember(nodeName, PeerClientURLs(o.members.value, nodeName, cfg.datastore.GetEtcdPort()))]
  {
    if o.k8sdClient.Fail? then Step(Failed(Wrap(K8sdClientFailed, o.k8sdClient.error)), [])
    else if o.members.Err? then Step(Failed(Wrap(MembersFailed, o.members.error)), [])
    else if |o.members.value| == 0 then Step(Panicked(CapOutOfRange), [])
    else if o.etcdClient.Fail? then Step(Failed(Wrap(EtcdClientFailed, o.etcdClient.error)), [])
    else
      var urls := PeerClientURLs(o.members.value, nodeName, cfg.datastore.GetEtcdPort());
      var events := [RemoveEtcdMember(nodeName, urls)];
      if o.removeByName.Fail? then
        Step(Failed(Wrap("failed to remove node " + nodeName + " from etcd cluster", o.removeByName.error)), events)
      else Step(Done, events)
  }

  /** `removeNodeFromEtcd`, step by step. */
  method RemoveNodeFromEtcd(o: EtcdOracle, cfg: ClusterConfig, nodeName: string) returns (r: Step)
    ensures r == EtcdRemoval(o, cfg, nodeName)
  {
    if o.k8sdClient.Fail? {
      return Step(Failed(Wrap(K8sdClientFailed, o.k8sdClient.error)), []);
    }
    if o.members.Err? {
      return Step(Failed(Wrap(MembersFailed, o.members.error)), []);
    }
    var urls := EtcdClientURLs(o.members.value, nodeName, cfg.datastore.GetEtcdPort());
    if urls.Err? {
      return Step(Panicked(urls.error), []);
    }
    if o.etcdClient.Fail? {
      return Step(Failed(Wrap(EtcdClientFailed, o.etcdClient.error)), []);
    }
    var events := [RemoveEtcdMember(nodeName, urls.value)];
    if o.removeByName.Fail? {
      return Step(Failed(Wrap("failed to remove node " + nodeName + " from etcd cluster", o.removeByName.error)), events);
    }
    return Step(Done, events);
  }

  /** `removeNodeFromDatastore`: only the "etcd" datastore is acted on. */
  function DatastoreRemoval(o: EtcdOracle, cfg: ClusterConfig, nodeName: string): (r: Step)
    ensures cfg.datastore.GetType() != "etcd" ==> r == Step(Done, [])
    ensures cfg.datastore.GetType() == "etcd" ==>
      r.events == EtcdRemoval(o, cfg, nodeName).events
      && (r.outcome.Done? <==> EtcdRemoval(o, cfg, nodeName).outcome.Done?)
      && (r.outcome.Panicked? <==> EtcdRemoval(o, cfg, nodeName).outcome.Panicked?)
  {
    if cfg.datastore.GetType() == "etcd" then
      var s := EtcdRemoval(o, cfg, nodeName);
      if s.outcome.Failed? then Step(Failed(Wrap(EtcdRemovalFailed, s.outcome.error)), s.events)
      else s
    else Step(Done, [])
  }

  /** `removeNodeFromDatastore`, step by step. */
  method RemoveNodeFromDatastore(o: EtcdOracle, cfg: ClusterConfig, nodeName: string) returns (r: Step)
    ensures r == DatastoreRemoval(o, cfg, nodeName)
  {
    match cfg.datastore.GetType()
    case "etcd" =>
      r := RemoveNodeFromEtcd(o, cfg, nodeName);
      if r.outcome.Failed? {
        r := Step(Failed(Wrap(EtcdRemovalFailed, r.outcome.error)), r.events);
      }
    case "external" =>
      r := Step(Done, []);
    case _ =>
      r := Step(Done, []);
  }

  // ---------------------------------------------------------------------------------------
  // Microcluster step

  /** The member lookup of one check failed. */
  predicate LookupFailed(answer: Result<seq<ClusterMember>>, name: string)
  {
    K8sdClient.GetClusterMember(answer, name).Err?
  }

  /** The member lookup of one check found the member with a role other than "PENDING". */
  predicate ReportsNotPending(answer: Result<seq<ClusterMember>>, name: string)
  {
    var m := K8sdClient.GetClusterMember(answer, name);
    m.Ok? && m.value.role != "PENDING"
  }

  /** How the wait ends when `retries` lookups have already failed and `polls` are the answers still to come. */
  function WaitResult(polls: seq<Result<seq<ClusterMember>>>, name: string, retries: nat): WaitOutcome
    decreases |polls|
  {
    if |polls| == 0 then ContextDone
    else
      var retries' := if LookupFailed(polls[0], name) then retries + 1 else retries;
      if retries' >= MaxRetries then RetriesExhausted
      else if ReportsNotPending(polls[0], name) then NotPending
      else WaitResult(polls[1..], name, retries')
  }

  /** The failed lookups among `polls`. */
  function Failures(polls: seq<Result<seq<ClusterMember>>>, name: string): nat
    ensures Failures(polls, name) <= |polls|
  {
    if |polls| == 0 then 0
    else (if LookupFailed(polls[0], name) then 1 else 0) + Failures(polls[1..], name)
  }

  /** Ten failed lookups in a row end the wait, whatever follows them. */
  lemma {:induction false} WaitGivesUpAfterMaxRetries(polls: seq<Result<seq<ClusterMember>>>, name: string, retries: nat)
    requires retries < MaxRetries && MaxRetries - retries <= |polls|
    requires forall j :: 0 <= j < MaxRetries - retries ==> LookupFailed(polls[j], name)
    ensures WaitResult(polls, name, retries) == RetriesExhausted
    decreases MaxRetries - retries
  {
    if retries + 1 < MaxRetries {
      assert !ReportsNotPending(polls[0], name);
      WaitGivesUpAfterMaxRetries(polls[1..], name, retries + 1);
    }
  }

  /**
   * An answer that finds the member not pending ends the wait, provided no earlier answer
   * did and fewer than the remaining retries failed before it.
   */
  lemma {:induction false} WaitEndsWhenNotPending(polls: seq<Result<seq<ClusterMember>>>, name: string, retries: nat, i: nat)
    requires i < |polls| && ReportsNotPending(polls[i], name)
    requires forall j :: 0 <= j < i ==> !ReportsNotPending(polls[j], name)
    requires retries + Failures(polls[..i], name) < MaxRetries
    ensures WaitResult(polls, name, retries) == NotPending
    decreases i
  {
    if i > 0 {
      assert polls[..i][1..] == polls[1..][..i - 1];
      var retries' := if LookupFailed(polls[0], name) then retries + 1 else retries;
      WaitEndsWhenNotPending(polls[1..], name, retries', i - 1);
    }
  }

  /** The wait runs out of answers only when none reports the member not pending and too few lookups fail. */
  lemma {:induction false} WaitContextDone(polls: seq<Result<seq<ClusterMember>>>, name: string, retries: nat)
    requires retries < MaxRetries
    ensures WaitResult(polls, name, retries) == ContextDone <==>
      retries + Failures(polls, name) < MaxRetries && forall j :: 0 <= j < |polls| ==> !ReportsNotPending(polls[j], name)
    decreases |polls|
  {
    if |polls| > 0 {
      var retries' := if LookupFailed(polls[0], name) then retries + 1 else retries;
      if retries' < MaxRetries && !ReportsNotPending(polls[0], name) {
        WaitContextDone(polls[1..], name, retries');
        assert (forall j :: 0 <= j < |polls| ==> !ReportsNotPending(polls[j], name)) <==>
          (forall j :: 0 <= j < |polls[1..]| ==> !ReportsNotPending(polls[1..][j], name)) by {
          forall j | 0 <= j < |polls[1..]| ensures polls[1..][j] == polls[j + 1] { }
        }
      }
    }
  }

  /**
   * The polling of the wait in `removeNodeFromMicrocluster`: one check per answer, a
   * failed lookup counts a retry, and the wait ends at the tenth retry or when the member
   * is no longer pending.
   */
  method WaitUntilNotPending(polls: seq<Result<seq<ClusterMember>>>, name: string) returns (w: WaitOutcome)
    ensures w == WaitResult(polls, name, 0)
  {
    var retries: nat := 0;
    var i := 0;
    while i < |polls|
      invariant 0 <= i <= |polls|
      invariant retries < MaxRetries
      invariant WaitResult(polls[i..], name, retries) == WaitResult(polls, name, 0)
    {
      assert polls[i..][1..] == polls[i + 1..];
      var notPending := false;
      var member := K8sdClient.GetClusterMember(polls[i], name);
      if member.Err? {
        retries := retries + 1;
      } else {
        notPending := member.value.role != "PENDING";
      }
      i := i + 1;
      if retries >= MaxRetries {
        return RetriesExhausted;
      }
      if notPending {
        return NotPending;
      }
    }
    return ContextDone;
  }

  /** The address passed to `RemoveClusterMember`: the member's address, or "" when the lookup fails. */
  function DepartingAddress(target: Result<seq<ClusterMember>>, nodeName: string): (a: string)
    ensures (target.Err? || !NodeUtil.HasMemberNamed(target.value, nodeName)) ==> a == ""
    ensures target.Ok? && NodeUtil.HasMemberNamed(target.value, nodeName) ==>
      a == target.value[NodeUtil.FirstByName(target.value, nodeName).value].address.String()
  {
    match K8sdClient.GetClusterMember(target, nodeName)
    case Err(_) => ""
    case Ok(m) => m.address.String()
  }

  /**
   * `removeNodeFromMicrocluster`: the wait is only logged, the address falls back to "",
   * and only `RemoveClusterMember`'s error is returned.
   */
  function MicroclusterRemoval(o: MicroclusterOracle, nodeName: string, force: bool): (r: Step)
    ensures o.k8sdClient.Fail? ==> r.outcome.Failed? && r.events == []
    ensures o.k8sdClient.Pass? ==>
      r.events == [WaitedForJoin(WaitResult(o.polls, o.localName, 0)),
                   RemoveClusterMember(nodeName, DepartingAddress(o.target, nodeName), force)]
    ensures o.k8sdClient.Pass? ==> (r.outcome.Done? <==> o.removeMember.Pass?)
    ensures !r.outcome.Panicked?
  {
    if o.k8sdClient.Fail? then Step(Failed(Wrap(K8sdClientFailed, o.k8sdClient.error)), [])
    else
      var events := [WaitedForJoin(WaitResult(o.polls, o.localName, 0)),
                     RemoveClusterMember(nodeName, DepartingAddress(o.target, nodeName), force)];
      if o.removeMember.Fail? then
        Step(Failed(Wrap("failed to delete cluster member " + nodeName, o.removeMember.error)), events)
      else Step(Done, events)
  }

  /** `removeNodeFromMicrocluster`, step by step. */
  method RemoveNodeFromMicrocluster(o: MicroclusterOracle, nodeName: string, force: bool) returns (r: Step)
    ensures r == MicroclusterRemoval(o, nodeName, force)
  {
    if o.k8sdClient.Fail? {
      return Step(Failed(Wrap(K8sdClientFailed, o.k8sdClient.error)), []);
    }
    var wait := WaitUntilNotPending(o.polls, o.localName);
    var nodeAddr := "";
    var toBeRemoved := K8sdClient.GetClusterMember(o.target, nodeName);
    if toBeRemoved.Ok? {
      nodeAddr := toBeRemoved.value.address.String();
    }
    var events := [WaitedForJoin(wait), RemoveClusterMember(nodeName, nodeAddr, force)];
    if o.removeMember.Fail? {
      return Step(Failed(Wrap("failed to delete cluster member " + nodeName, o.removeMember.error)), events);
    }
    return Step(Done, events);
  }

  // ---------------------------------------------------------------------------------------
  // The handler

  /** The control-plane check of the request's node. */
  function ControlPlaneCheck(req: RemoveNodeRequest, o: RemovalOracle): Result<bool>
  {
    NodeUtil.IsControlPlaneNode(o.cpClient, o.cpListing, req.name)
  }

  /** The request is decoded, the config read, and the control-plane check passed or forced past. */
  predicate Proceeds(request: Result<RemoveNodeRequest>, o: RemovalOracle)
  {
    request.Ok? && o.clusterConfig.Ok? && (ControlPlaneCheck(request.value, o).Ok? || request.value.force)
  }

  /** The value of `isControlPlane`: false when the check failed. */
  predicate IsControlPlane(req: RemoveNodeRequest, o: RemovalOracle)
  {
    var cp := ControlPlaneCheck(req, o);
    cp.Ok? && cp.value
  }

  /** The stage sequences a removal can start. */
  const StageOrders: set<seq<Stage>> := {
    [], [KubernetesStage], [DatastoreStage], [KubernetesStage, DatastoreStage],
    [DatastoreStage, MicroclusterStage], [KubernetesStage, DatastoreStage, MicroclusterStage]}

  /** The Kubernetes step of a request that proceeds, or nothing when the annotation skips it. */
  function KubernetesPart(req: RemoveNodeRequest, cfg: ClusterConfig, o: RemovalOracle): Step
  {
    if SkipCleanupKubernetesNodeOnRemove in cfg.annotations then Step(Done, [])
    else RemoveNodeFromKubernetes(o.kubernetes, req.name)
  }

  /** `postClusterRemove`, as a function of the request and the oracle's answers. */
  function ClusterRemoval(request: Result<RemoveNodeRequest>, o: RemovalOracle): (r: RemoveResult)
    // Decoding and the cluster config come first; neither can be forced past.
    ensures request.Err? ==> r == RemoveResult(BadRequest(Wrap(ParseRequestFailed, request.error)), [], [])
    ensures request.Ok? && o.clusterConfig.Err? ==> r.response.InternalError? && r.attempted == [] && r.events == []
    ensures request.Ok? && o.clusterConfig.Ok? && !request.value.force && ControlPlaneCheck(request.value, o).Err? ==>
      r.response.InternalError? && r.attempted == [] && r.events == []
    ensures r.attempted != [] ==> Proceeds(request, o)
    // The stages run in order, each at most once.
    ensures r.attempted in StageOrders
  {
    if request.Err? then RemoveResult(BadRequest(Wrap(ParseRequestFailed, request.error)), [], [])
    else if o.clusterConfig.Err? then
      RemoveResult(InternalError(Wrap(ClusterConfigFailed, o.clusterConfig.error)), [], [])
    else
      var req, cfg := request.value, o.clusterConfig.value;
      var cp := ControlPlaneCheck(req, o);
      if cp.Err? && !req.force then
        RemoveResult(InternalError(Wrap(ControlPlaneCheckFailed, cp.error)), [], [])
      else
        var kubeStages := if SkipCleanupKubernetesNodeOnRemove in cfg.annotations then [] else [KubernetesStage];
        var kube := KubernetesPart(req, cfg, o);
        if kube.outcome.Failed? && !req.force then
          RemoveResult(InternalError(Wrap(KubernetesRemovalFailed, kube.outcome.error)), kubeStages, kube.events)
        else if !(IsControlPlane(req, o) || req.force) then
          RemoveResult(SyncOk, kubeStages, kube.events)
        else
          var ds := DatastoreRemoval(o.etcd, cfg, req.name);
          var dsStages := if kubeStages == [] then [DatastoreStage] else [KubernetesStage, DatastoreStage];
          var dsEvents := kube.events + ds.events;
          if ds.outcome.Panicked? then RemoveResult(Crashed(ds.outcome.reason), dsStages, dsEvents)
          else if ds.outcome.Failed? && !req.force then
            RemoveResult(InternalError(Wrap(DatastoreRemovalFailed, ds.outcome.error)), dsStages, dsEvents)
          else
            var mc := MicroclusterRemoval(o.microcluster, req.name, req.force);
            var mcStages :=
              if kubeStages == [] then [DatastoreStage, MicroclusterStage] else [KubernetesStage, DatastoreStage, MicroclusterStage];
            var mcEvents := dsEvents + mc.events;
            if mc.outcome.Failed? && !req.force then
              RemoveResult(InternalError(Wrap(MicroclusterRemovalFailed, mc.outcome.error)), mcStages, mcEvents)
            else RemoveResult(SyncOk, mcStages, mcEvents)
  }

  /** Which stages a removal that proceeds starts. */
  lemma ClusterRemovalStages(request: Result<RemoveNodeRequest>, o: RemovalOracle)
    requires Proceeds(request, o)
    ensures var r := ClusterRemoval(request, o);
      var req, cfg := request.value, o.clusterConfig.value;
      var kube := RemoveNodeFromKubernetes(o.kubernetes, req.name);
      var ds := DatastoreRemoval(o.etcd, cfg, req.name);
      var mc := MicroclusterRemoval(o.microcluster, req.name, req.force);
      // The Kubernetes step runs exactly when the annotation is absent.
      && (KubernetesStage in r.attempted <==> SkipCleanupKubernetesNodeOnRemove !in cfg.annotations)
      // The datastore step runs for a control-plane node or a forced removal, unless an unforced Kubernetes failure stopped it.
      && (DatastoreStage in r.attempted <==>
            (IsControlPlane(req, o) || req.force) && !(KubernetesStage in r.attempted && kube.outcome.Failed? && !req.force))
      // The microcluster step follows the datastore step unless that one panicked or failed unforced.
      && (MicroclusterStage in r.attempted <==>
            DatastoreStage in r.attempted && !ds.outcome.Panicked? && !(ds.outcome.Failed? && !req.force))
  {
    var req, cfg := request.value, o.clusterConfig.value;
    var kube := KubernetesPart(req, cfg, o);
    var ds := DatastoreRemoval(o.etcd, cfg, req.name);
    if kube.outcome.Failed? && !req.force {
    } else if !(IsControlPlane(req, o) || req.force) {
    } else if ds.outcome.Panicked? {
    } else if ds.outcome.Failed? && !req.force {
    } else {
    }
  }

  /** The calls a removal that proceeds makes: those of the stages it started, in order. */
  lemma ClusterRemovalEvents(request: Result<RemoveNodeRequest>, o: RemovalOracle)
    requires Proceeds(request, o)
    ensures var r := ClusterRemoval(request, o);
      var req, cfg := request.value, o.clusterConfig.value;
      var kube := RemoveNodeFromKubernetes(o.kubernetes, req.name);
      var ds := DatastoreRemoval(o.etcd, cfg, req.name);
      var mc := MicroclusterRemoval(o.microcluster, req.name, req.force);
      // Only the started stages make calls.
      r.events == (if KubernetesStage in r.attempted then kube.events else [])
                   + (if DatastoreStage in r.attempted then ds.events else [])
                   + (if MicroclusterStage in r.attempted then mc.events else [])
  {
    var req, cfg := request.value, o.clusterConfig.value;
    var kube := KubernetesPart(req, cfg, o);
    var ds := DatastoreRemoval(o.etcd, cfg, req.name);
    if SkipCleanupKubernetesNodeOnRemove in cfg.annotations {
      if !(IsControlPlane(req, o) || req.force) {
      } else if ds.outcome.Panicked? || (ds.outcome.Failed? && !req.force) {
      } else {
      }
    } else if kube.outcome.Failed? && !req.force {
    } else if !(IsControlPlane(req, o) || req.force) {
    } else if ds.outcome.Panicked? || (ds.outcome.Failed? && !req.force) {
    } else {
    }
  }



  /** The answer to a removal that proceeds. */
  lemma ClusterRemovalResponse(request: Result<RemoveNodeRequest>, o: RemovalOracle)
    requires Proceeds(request, o)
    ensures var r := ClusterRemoval(request, o);
      var req, cfg := request.value, o.clusterConfig.value;
      var kube := RemoveNodeFromKubernetes(o.kubernetes, req.name);
      var ds := DatastoreRemoval(o.etcd, cfg, req.name);
      var mc := MicroclusterRemoval(o.microcluster, req.name, req.force);
      // A forced removal answers success, unless the etcd endpoint list panicked.
      && (req.force ==> (r.response.SyncOk? || r.response.Crashed?))
      && (r.response.Crashed? <==> DatastoreStage in r.attempted && ds.outcome.Panicked?)
      // An unforced removal succeeds exactly when every started stage succeeded.
      && (!req.force ==>
            (r.response.SyncOk? <==>
               (KubernetesStage in r.attempted ==> kube.outcome.Done?)
               && (DatastoreStage in r.attempted ==> ds.outcome.Done?)
               && (MicroclusterStage in r.attempted ==> mc.outcome.Done?)))
  {
    var req, cfg := request.value, o.clusterConfig.value;
    var kube := KubernetesPart(req, cfg, o);
    var ds := DatastoreRemoval(o.etcd, cfg, req.name);
    if kube.outcome.Failed? && !req.force {
    } else if !(IsControlPlane(req, o) || req.force) {
    } else if ds.outcome.Panicked? {
    } else if ds.outcome.Failed? && !req.force {
    } else {
    }
  }

  /** `postClusterRemove`: the steps with their early returns, keyed on `force`. */
  method PostClusterRemove(request: Result<RemoveNodeRequest>, o: RemovalOracle)
    returns (response: Response, attempted: seq<Stage>, events: seq<Event>)
    ensures RemoveResult(response, attempted, events) == ClusterRemoval(request, o)
  {
    if request.Err? {
      return BadRequest(Wrap(ParseRequestFailed, request.error)), [], [];
    }
    var req := request.value;
    if o.clusterConfig.Err? {
      return InternalError(Wrap(ClusterConfigFailed, o.clusterConfig.error)), [], [];
    }
    var cfg := o.clusterConfig.value;
    var isControlPlane := false;
    var cp := NodeUtil.IsControlPlaneNode(o.cpClient, o.cpListing, req.name);
    if cp.Err? {
      if !req.force {
        return InternalError(Wrap(ControlPlaneCheckFailed, cp.error)), [], [];
      }
    } else {
      isControlPlane := cp.value;
    }
    assert isControlPlane == IsControlPlane(req, o);

    attempted, events := [], [];
    if SkipCleanupKubernetesNodeOnRemove !in cfg.annotations {
      var kube := RemoveNodeFromKubernetes(o.kubernetes, req.name);
      attempted, events := [KubernetesStage], kube.events;
      if kube.outcome.Failed? && !req.force {
        return InternalError(Wrap(KubernetesRemovalFailed, kube.outcome.error)), attempted, events;
      }
    }
    ghost var kubeStages, kubeEvents := attempted, events;
    assert kubeEvents == KubernetesPart(req, cfg, o).events;

    if isControlPlane || req.force {
      var ds := RemoveNodeFromDatastore(o.etcd, cfg, req.name);
      attempted, events := if attempted == [] then [DatastoreStage] else [KubernetesStage, DatastoreStage], events + ds.events;
      if ds.outcome.Panicked? {
        return Crashed(ds.outcome.reason), attempted, events;
      }
      if ds.outcome.Failed? && !req.force {
        return InternalError(Wrap(DatastoreRemovalFailed, ds.outcome.error)), attempted, events;
      }

      var mc := RemoveNodeFromMicrocluster(o.microcluster, req.name, req.force);
      attempted := if attempted == [DatastoreStage] then [DatastoreStage, MicroclusterStage]
        else [KubernetesStage, DatastoreStage, MicroclusterStage];
      events := events + mc.events;
      if mc.outcome.Failed? && !req.force {
        return InternalError(Wrap(MicroclusterRemovalFailed, mc.outcome.error)), attempted, events;
      }
    }
    return SyncOk, attempted, events;
  }
}
