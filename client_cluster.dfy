/** The k8sd client's cluster calls: member lookup by name, readiness gating and client deadlines. */
module K8sdClient {
  import opened Common
  import opened ApiTypes
  import NodeUtil

  /** One second, in the nanoseconds of a Go `time.Duration`. */
  const Second: int := 1_000_000_000

  /** The margin the client adds on top of the request's own timeout. */
  const DeadlineMargin: int := 30 * Second

  /** The remote procedures the client posts to. */
  datatype Rpc = BootstrapClusterRpc | JoinClusterRpc | RemoveNodeRpc

  /**
   * What a client call does: it is refused before anything is sent, or it sends one POST
   * to `rpc` under a context whose deadline is `deadline` nanoseconds away.
   */
  datatype ClientCall = Refused(error: string) | Posted(rpc: Rpc, deadline: int)

  /** Bootstrap: only a ready app posts, with the request timeout plus 30 seconds. */
  function BootstrapCluster(ready: Outcome, timeout: int): (c: ClientCall)
    ensures c.Refused? <==> ready.Fail?
    ensures c.Refused? ==> c.error == Wrap("k8sd is not ready", ready.error)
    ensures c.Posted? ==> c.rpc == BootstrapClusterRpc && c.deadline == timeout + 30 * Second
  {
    if ready.Fail? then Refused(Wrap("k8sd is not ready", ready.error))
    else Posted(BootstrapClusterRpc, timeout + DeadlineMargin)
  }

  /** Join: only a ready app posts, with the request timeout plus 30 seconds. */
  function JoinCluster(ready: Outcome, timeout: int): (c: ClientCall)
    ensures c.Refused? <==> ready.Fail?
    ensures c.Refused? ==> c.error == Wrap("k8sd is not ready", ready.error)
    ensures c.Posted? ==> c.rpc == JoinClusterRpc && c.deadline == timeout + 30 * Second
  {
    if ready.Fail? then Refused(Wrap("k8sd is not ready", ready.error))
    else Posted(JoinClusterRpc, timeout + DeadlineMargin)
  }

  /** RemoveNode: never consults readiness and always posts, with the request timeout plus 30 seconds. */
  function RemoveNode(timeout: int): (c: ClientCall)
    ensures c.Posted? && c.rpc == RemoveNodeRpc && c.deadline == timeout + 30 * Second
  {
    Posted(RemoveNodeRpc, timeout + DeadlineMargin)
  }

  /** The deadline of every posting call is exactly 30 seconds beyond the server-side timeout. */
  lemma DeadlinesAgree(ready: Outcome, timeout: int)
    requires ready.Pass?
    ensures BootstrapCluster(ready, timeout).deadline == JoinCluster(ready, timeout).deadline
    ensures JoinCluster(ready, timeout).deadline == RemoveNode(timeout).deadline
    ensures RemoveNode(timeout).deadline > timeout
  {
  }

  /** The error text for an absent member, with the name quoted as `%q` quotes a plain name. */
  function NotFound(name: string): string
  {
    "cluster member " + Quote(name) + " not found"
  }

  /** The first member in `listing` whose name is `name`; a listing failure is wrapped. */
  function GetClusterMember(listing: Result<seq<ClusterMember>>, name: string): (r: Result<ClusterMember>)
    ensures listing.Err? ==> r == Err(Wrap("failed to get cluster members", listing.error))
    ensures listing.Ok? ==> (r.Ok? <==> NodeUtil.HasMemberNamed(listing.value, name))
    ensures listing.Ok? && r.Err? ==> r.error == NotFound(name)
    ensures r.Ok? ==>
      exists i :: 0 <= i < |listing.value| && listing.value[i] == r.value && r.value.name == name
        && forall j :: 0 <= j < i ==> listing.value[j].name != name
  {
    if listing.Err? then Err(Wrap("failed to get cluster members", listing.error))
    else
      match NodeUtil.FirstByName(listing.value, name)
      case None => Err(NotFound(name))
      case Some(i) => Ok(listing.value[i])
  }
}
