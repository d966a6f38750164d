/**
 * The cleanup actions a join registers so that a failed join leaves no trace: the local
 * k8s-dqlite state directory, the joining node's etcd membership with its data directory,
 * and the Kubernetes Node object. A reverter runs its actions, newest first, when the
 * join fails, and none of them when it succeeds.
 */
module JoinReverter {
  import opened Common

  /** Endpoints below which the etcd cleanup never touches the cluster, to keep its quorum. */
  const QuorumEndpoints: nat := 3

  /** A registered cleanup action. */
  datatype Action =
    | RemoveK8sDqliteState(stateDir: string)
    | RemoveEtcdMember(nodeName: string, endpoints: seq<string>, etcdDir: string)
    | DeleteK8sNode(nodeName: string)

  /** The answers of the external systems while the actions run. */
  datatype Environment = Environment(etcdClient: Outcome, removeByName: Outcome, deleteNode: Outcome)

  /** The parts of the world the actions change: directories, Kubernetes Nodes and etcd members. */
  datatype HostState = HostState(dirs: set<string>, nodes: set<string>, etcdMembers: set<string>)

  /** The etcd cleanup reaches the cluster and succeeds. */
  predicate EtcdCleanupSucceeds(endpoints: seq<string>, env: Environment)
  {
    |endpoints| >= QuorumEndpoints && env.etcdClient.Pass? && env.removeByName.Pass?
  }

  /** The effect of one action. Removing an absent directory or Node is not an error. */
  function Apply(a: Action, s: HostState, env: Environment): HostState
  {
    match a
    case RemoveK8sDqliteState(dir) => s.(dirs := s.dirs - {dir})
    case RemoveEtcdMember(name, endpoints, dir) =>
      if EtcdCleanupSucceeds(endpoints, env) then s.(etcdMembers := s.etcdMembers - {name}, dirs := s.dirs - {dir})
      else s
    case DeleteK8sNode(name) =>
      if env.deleteNode.Pass? then s.(nodes := s.nodes - {name}) else s
  }

  /** The effect of running `actions` newest first. */
  function Revert(actions: seq<Action>, s: HostState, env: Environment): HostState
    decreases |actions|
  {
    if |actions| == 0 then s
    else Revert(actions[..|actions| - 1], Apply(actions[|actions| - 1], s, env), env)
  }

  /** The directories the actions remove. */
  function RemovedDirs(actions: seq<Action>, env: Environment): set<string>
  {
    set i, d | 0 <= i < |actions| && d == ActionDir(actions[i], env) && d.Some? :: d.value
  }

  /** The directory one action removes, if any. */
  function ActionDir(a: Action, env: Environment): Option<string>
  {
    match a
    case RemoveK8sDqliteState(dir) => Some(dir)
    case RemoveEtcdMember(_, endpoints, dir) => if EtcdCleanupSucceeds(endpoints, env) then Some(dir) else None
    case DeleteK8sNode(_) => None
  }

  /** The Nodes the actions delete. */
  function RemovedNodes(actions: seq<Action>, env: Environment): set<string>
  {
    set i | 0 <= i < |actions| && actions[i].DeleteK8sNode? && env.deleteNode.Pass? :: actions[i].nodeName
  }

  /** The etcd members the actions remove. */
  function RemovedEtcdMembers(actions: seq<Action>, env: Environment): set<string>
  {
    set i | 0 <= i < |actions| && actions[i].RemoveEtcdMember? && EtcdCleanupSucceeds(actions[i].endpoints, env)
      :: actions[i].nodeName
  }

  /** The directories removed by a list of actions: those of all but the last, and the last one's. */
  lemma RemovedDirsOfLast(actions: seq<Action>, env: Environment)
    requires |actions| > 0
    ensures var last := actions[|actions| - 1];
      RemovedDirs(actions, env) == RemovedDirs(actions[..|actions| - 1], env)
        + (if ActionDir(last, env).Some? then {ActionDir(last, env).value} else {})
  {
    var init, last := actions[..|actions| - 1], actions[|actions| - 1];
    assert forall i :: 0 <= i < |init| ==> init[i] == actions[i];
    forall d | d in RemovedDirs(actions, env)
      ensures d in RemovedDirs(init, env) || ActionDir(last, env) == Some(d)
    {
      var i :| 0 <= i < |actions| && ActionDir(actions[i], env) == Some(d);
    }
    if ActionDir(last, env).Some? {
      assert ActionDir(actions[|actions| - 1], env) == Some(ActionDir(last, env).value);
    }
  }

  /** The Nodes deleted by a list of actions: those of all but the last, and the last one's. */
  lemma RemovedNodesOfLast(actions: seq<Action>, env: Environment)
    requires |actions| > 0
    ensures var last := actions[|actions| - 1];
      RemovedNodes(actions, env) == RemovedNodes(actions[..|actions| - 1], env)
        + (if last.DeleteK8sNode? && env.deleteNode.Pass? then {last.nodeName} else {})
  {
    var init, last := actions[..|actions| - 1], actions[|actions| - 1];
    assert forall i :: 0 <= i < |init| ==> init[i] == actions[i];
    forall n | n in RemovedNodes(actions, env)
      ensures n in RemovedNodes(init, env) || (last.DeleteK8sNode? && env.deleteNode.Pass? && n == last.nodeName)
    {
      var i :| 0 <= i < |actions| && actions[i].DeleteK8sNode? && env.deleteNode.Pass? && actions[i].nodeName == n;
    }
  }

  /** The etcd members removed by a list of actions: those of all but the last, and the last one's. */
  lemma RemovedEtcdMembersOfLast(actions: seq<Action>, env: Environment)
    requires |actions| > 0
    ensures var last := actions[|actions| - 1];
      RemovedEtcdMembers(actions, env) == RemovedEtcdMembers(actions[..|actions| - 1], env)
        + (if last.RemoveEtcdMember? && EtcdCleanupSucceeds(last.endpoints, env) then {last.nodeName} else {})
  {
    var init, last := actions[..|actions| - 1], actions[|actions| - 1];
    assert forall i :: 0 <= i < |init| ==> init[i] == actions[i];
    forall n | n in RemovedEtcdMembers(actions, env)
      ensures n in RemovedEtcdMembers(init, env)
        || (last.RemoveEtcdMember? && EtcdCleanupSucceeds(last.endpoints, env) && n == last.nodeName)
    {
      var i :| 0 <= i < |actions| && actions[i].RemoveEtcdMember? && EtcdCleanupSucceeds(actions[i].endpoints, env)
        && actions[i].nodeName == n;
    }
  }

  /**
   * Running the actions removes exactly what each of them removes, whatever their order:
   * no action re-creates what another one removed.
   */
  lemma {:induction false} RevertRemovesExactly(actions: seq<Action>, s: HostState, env: Environment)
    ensures Revert(actions, s, env) ==
      HostState(s.dirs - RemovedDirs(actions, env), s.nodes - RemovedNodes(actions, env),
                s.etcdMembers - RemovedEtcdMembers(actions, env))
    decreases |actions|
  {
    if |actions| > 0 {
      var init, last := actions[..|actions| - 1], actions[|actions| - 1];
      RevertRemovesExactly(init, Apply(last, s, env), env);
      RemovedDirsOfLast(actions, env);
      RemovedNodesOfLast(actions, env);
      RemovedEtcdMembersOfLast(actions, env);
    }
  }

  /** Some k8s-dqlite cleanup among `actions` removes `dir`. */
  predicate DqliteCleanupTargets(actions: seq<Action>, dir: string)
  {
    exists j :: 0 <= j < |actions| && actions[j] == RemoveK8sDqliteState(dir)
  }

  /**
   * The quorum guard: with fewer than three endpoints an etcd cleanup changes nothing,
   * and with a failing etcd client or member removal it changes nothing either.
   */
  lemma QuorumGuardKeepsEtcdState(actions: seq<Action>, s: HostState, env: Environment)
    requires forall i :: 0 <= i < |actions| && actions[i].RemoveEtcdMember? ==> !EtcdCleanupSucceeds(actions[i].endpoints, env)
    ensures Revert(actions, s, env).etcdMembers == s.etcdMembers
    ensures forall i ::
      (0 <= i < |actions| && actions[i].RemoveEtcdMember? && actions[i].etcdDir in s.dirs
       && !DqliteCleanupTargets(actions, actions[i].etcdDir)) ==> actions[i].etcdDir in Revert(actions, s, env).dirs
  {
    RevertRemovesExactly(actions, s, env);
    assert RemovedEtcdMembers(actions, env) == {};
  }

  /** A registered k8s-dqlite cleanup always removes its directory. */
  lemma K8sDqliteStateRemoved(actions: seq<Action>, s: HostState, env: Environment, i: nat)
    requires i < |actions| && actions[i].RemoveK8sDqliteState?
    ensures actions[i].stateDir !in Revert(actions, s, env).dirs
  {
    RevertRemovesExactly(actions, s, env);
    assert ActionDir(actions[i], env) == Some(actions[i].stateDir);
  }

  /** A registered Node cleanup deletes the Node when the deletion call succeeds. */
  lemma K8sNodeDeleted(actions: seq<Action>, s: HostState, env: Environment, i: nat)
    requires i < |actions| && actions[i].DeleteK8sNode? && env.deleteNode.Pass?
    ensures actions[i].nodeName !in Revert(actions, s, env).nodes
  {
    RevertRemovesExactly(actions, s, env);
  }

  /** A successful etcd cleanup removes the member and its data directory. */
  lemma EtcdMemberRemoved(actions: seq<Action>, s: HostState, env: Environment, i: nat)
    requires i < |actions| && actions[i].RemoveEtcdMember? && EtcdCleanupSucceeds(actions[i].endpoints, env)
    ensures actions[i].nodeName !in Revert(actions, s, env).etcdMembers
    ensures actions[i].etcdDir !in Revert(actions, s, env).dirs
  {
    RevertRemovesExactly(actions, s, env);
    assert ActionDir(actions[i], env) == Some(actions[i].etcdDir);
  }

  /** The machine the cleanup actions act on. */
  class Host {
    var dirs: set<string>
    var nodes: set<string>
    var etcdMembers: set<string>

    constructor(dirs: set<string>, nodes: set<string>, etcdMembers: set<string>)
      ensures this.dirs == dirs && this.nodes == nodes && this.etcdMembers == etcdMembers
    {
      this.dirs, this.nodes, this.etcdMembers := dirs, nodes, etcdMembers;
    }

    function State(): HostState
      reads this
    {
      HostState(dirs, nodes, etcdMembers)
    }

    /** Runs one cleanup action against this host. */
    method Run(a: Action, env: Environment)
      modifies this
      ensures State() == Apply(a, old(State()), env)
    {
      match a
      case RemoveK8sDqliteState(dir) =>
        dirs := dirs - {dir};
      case RemoveEtcdMember(name, endpoints, dir) =>
        if |endpoints| < QuorumEndpoints {
          return;
        }
        if env.etcdClient.Fail? {
          return;
        }
        if env.removeByName.Fail? {
          return;
        }
        etcdMembers := etcdMembers - {name};
        dirs := dirs - {dir};
      case DeleteK8sNode(name) =>
        if env.deleteNode.Pass? {
          nodes := nodes - {name};
        }
    }
  }

  /** The reverter a join fills: the registered actions and whether they may still run. */
  class Reverter {
    var actions: seq<Action>
    var armed: bool

    constructor()
      ensures actions == [] && armed
    {
      actions, armed := [], true;
    }

    /** Registers one more action. */
    method Add(a: Action)
      modifies this`actions
      ensures actions == old(actions) + [a]
    {
      actions := actions + [a];
    }

    /** The join failed: runs every action, newest first, once. */
    method Fail(host: Host, env: Environment)
      modifies this`armed, host
      ensures !armed
      ensures old(armed) ==> host.State() == Revert(actions, old(host.State()), env)
      ensures !old(armed) ==> host.State() == old(host.State())
    {
      if !armed {
        return;
      }
      var i := |actions|;
      assert actions[..i] == actions;
      while i > 0
        invariant 0 <= i <= |actions|
        invariant Revert(actions[..i], host.State(), env) == Revert(actions, old(host.State()), env)
        modifies host
      {
        assert actions[..i][..i - 1] == actions[..i - 1];
        host.Run(actions[i - 1], env);
        i := i - 1;
      }
      armed := false;
    }

    /** The join succeeded: no action will run. */
    method Success()
      modifies this`armed
      ensures !armed
    {
      armed := false;
    }
  }

  /** Registers the removal of the local k8s-dqlite state directory. */
  method RegisterK8sDqliteReverter(reverter: Reverter, stateDir: string)
    modifies reverter`actions
    ensures reverter.actions == old(reverter.actions) + [RemoveK8sDqliteState(stateDir)]
  {
    reverter.Add(RemoveK8sDqliteState(stateDir));
  }

  /** Registers the removal of the joining node's etcd membership and data directory. */
  method RegisterEtcdMemberReverter(reverter: Reverter, nodeName: string, endpoints: seq<string>, etcdDir: string)
    modifies reverter`actions
    ensures reverter.actions == old(reverter.actions) + [RemoveEtcdMember(nodeName, endpoints, etcdDir)]
  {
    reverter.Add(RemoveEtcdMember(nodeName, endpoints, etcdDir));
  }

  /** Registers the deletion of the joining node's Kubernetes Node. */
  method RegisterK8sNodeDeletionReverter(reverter: Reverter, nodeName: string)
    modifies reverter`actions
    ensures reverter.actions == old(reverter.actions) + [DeleteK8sNode(nodeName)]
  {
    reverter.Add(DeleteK8sNode(nodeName));
  }

  /**
   * A join that registered all three actions and then failed: the dqlite directory is
   * gone, the Node is deleted when the call succeeds, and the etcd state goes only when
   * the cleanup clears the quorum guard and both etcd calls succeed.
   */
  method FailedJoin(host: Host, env: Environment, nodeName: string, stateDir: string, etcdDir: string, endpoints: seq<string>)
    requires stateDir != etcdDir
    modifies host
    ensures stateDir !in host.dirs
    ensures env.deleteNode.Pass? ==> nodeName !in host.nodes
    ensures etcdDir in old(host.dirs) ==> (etcdDir in host.dirs <==> !EtcdCleanupSucceeds(endpoints, env))
    ensures nodeName in old(host.etcdMembers) ==> (nodeName in host.etcdMembers <==> !EtcdCleanupSucceeds(endpoints, env))
  {
    var reverter := new Reverter();
    RegisterK8sDqliteReverter(reverter, stateDir);
    RegisterEtcdMemberReverter(reverter, nodeName, endpoints, etcdDir);
    RegisterK8sNodeDeletionReverter(reverter, nodeName);
    ghost var before := host.State();
    reverter.Fail(host, env);
    RevertRemovesExactly(reverter.actions, before, env);
    var acts := reverter.actions;
    assert acts == [RemoveK8sDqliteState(stateDir), RemoveEtcdMember(nodeName, endpoints, etcdDir), DeleteK8sNode(nodeName)];
    assert ActionDir(acts[0], env) == Some(stateDir);
    assert RemovedDirs(acts, env) == {stateDir} + (if EtcdCleanupSucceeds(endpoints, env) then {etcdDir} else {});
    assert RemovedEtcdMembers(acts, env) == if EtcdCleanupSucceeds(endpoints, env) then {nodeName} else {};
    assert env.deleteNode.Pass? ==> nodeName in RemovedNodes(acts, env);
  }

  /** A join that registered all three actions and then succeeded: the host is untouched, even by a later Fail. */
  method SucceededJoin(host: Host, env: Environment, nodeName: string, stateDir: string, etcdDir: string, endpoints: seq<string>)
    modifies host
    ensures host.State() == old(host.State())
  {
    var reverter := new Reverter();
    RegisterK8sDqliteReverter(reverter, stateDir);
    RegisterEtcdMemberReverter(reverter, nodeName, endpoints, etcdDir);
    RegisterK8sNodeDeletionReverter(reverter, nodeName);
    reverter.Success();
    reverter.Fail(host, env);
  }
}
