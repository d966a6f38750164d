/** Cluster membership as the node status API reports it. */
module Impl {
  import opened Common
  import opened ApiTypes
  import NodeUtil

  /**
   * Every microcluster member as a control-plane node status, in order. `leader` is the
   * outcome of obtaining the leader client and `listing` the member list it returns.
   */
  method GetClusterMembers(leader: Outcome, listing: Result<seq<ClusterMember>>) returns (r: Result<seq<NodeStatus>>)
    ensures leader.Fail? ==> r == Err(Wrap("failed to get leader client", leader.error))
    ensures leader.Pass? && listing.Err? ==> r == Err(Wrap("failed to get cluster members", listing.error))
    ensures leader.Pass? && listing.Ok? ==> r.Ok? && |r.value| == |listing.value|
    ensures leader.Pass? && listing.Ok? ==>
      forall i :: 0 <= i < |r.value| ==>
        r.value[i].name == listing.value[i].name
        && r.value[i].address == listing.value[i].address.String()
        && r.value[i].clusterRole == ControlPlane
        && r.value[i].datastoreRole == NodeUtil.DatastoreRoleFromString(listing.value[i].role)
  {
    if leader.Fail? {
      return Err(Wrap("failed to get leader client", leader.error));
    }
    if listing.Err? {
      return Err(Wrap("failed to get cluster members", listing.error));
    }
    var clusterMembers := listing.value;
    var members := new NodeStatus[|clusterMembers|](_ => NodeStatus("", "", UnknownClusterRole, NoDatastoreRole));
    var i := 0;
    while i < |clusterMembers|
      invariant 0 <= i <= |clusterMembers|
      invariant forall k :: 0 <= k < i ==> members[k] == NodeUtil.MemberStatus(clusterMembers[k])
    {
      members[i] := NodeUtil.MemberStatus(clusterMembers[i]);
      i := i + 1;
    }
    return Ok(members[..]);
  }

  /**
   * The local node's status. `isWorker` is the snap's worker check; `client` and `listing` are
   * the control-plane lookup's answers; `name` and `hostname` are the local member name and
   * the host part of its address.
   */
  function GetLocalNodeStatus(isWorker: Result<bool>, client: Outcome, listing: Result<seq<ClusterMember>>,
                              name: string, hostname: string): (r: Result<NodeStatus>)
    ensures r.Err? <==> isWorker.Err?
    ensures isWorker.Err? ==> r.error == Wrap("failed to check if node is a worker", isWorker.error)
    ensures isWorker == Ok(true) ==> r == Ok(NodeStatus(name, hostname, Worker, NoDatastoreRole))
    ensures isWorker == Ok(false) ==>
      match NodeUtil.GetControlPlaneNode(client, listing, name)
      case Ok(Some(node)) => r == Ok(node)
      case _ => r == Ok(NodeStatus(name, hostname, UnknownClusterRole, NoDatastoreRole))
  {
    if isWorker.Err? then Err(Wrap("failed to check if node is a worker", isWorker.error))
    else if isWorker.value then Ok(NodeStatus(name, hostname, Worker, NoDatastoreRole))
    else
      match NodeUtil.GetControlPlaneNode(client, listing, name)
      case Err(_) => Ok(NodeStatus(name, hostname, UnknownClusterRole, NoDatastoreRole))
      case Ok(None) => Ok(NodeStatus(name, hostname, UnknownClusterRole, NoDatastoreRole))
      case Ok(Some(node)) => Ok(node)
  }

  /**
   * A non-worker that the member list names is reported as a control-plane node with that
   * member's address and datastore role; one it does not name is reported with an unknown role.
   */
  lemma LocalStatusOfControlPlaneNode(client: Outcome, members: seq<ClusterMember>, name: string, hostname: string)
    requires client.Pass?
    ensures var r := GetLocalNodeStatus(Ok(false), client, Ok(members), name, hostname);
      r.Ok? && r.value.name == name
      && (r.value.clusterRole == ControlPlane <==> NodeUtil.HasMemberNamed(members, name))
      && (r.value.clusterRole == UnknownClusterRole <==> !NodeUtil.HasMemberNamed(members, name))
  {
    var cp := NodeUtil.GetControlPlaneNode(client, Ok(members), name);
    if cp.value.Some? {
      var i :| 0 <= i < |members| && members[i].name == name
        && (forall j :: 0 <= j < i ==> members[j].name != name)
        && cp.value.value == NodeStatus(name, members[i].address.String(), ControlPlane, NodeUtil.DatastoreRoleFromString(members[i].role));
    }
  }
}
