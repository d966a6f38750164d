/** Member lookups of the node utilities: role parsing and the control-plane search by name. */
module NodeUtil {
  import opened Common
  import opened ApiTypes

  /** The microcluster role strings the parser recognises. */
  const KnownRoleStrings: set<string> := {"voter", "stand-by", "spare", "PENDING"}

  /** Converts a microcluster role string to the datastore role; every other string is Unknown. */
  function DatastoreRoleFromString(role: string): (r: DatastoreRole)
    ensures r == Voter <==> role == "voter"
    ensures r == StandBy <==> role == "stand-by"
    ensures r == Spare <==> role == "spare"
    ensures r == Pending <==> role == "PENDING"
    ensures r == UnknownDatastoreRole <==> role !in KnownRoleStrings
    ensures r != NoDatastoreRole
  {
    match role
    case "voter" => Voter
    case "stand-by" => StandBy
    case "spare" => Spare
    case "PENDING" => Pending
    case _ => UnknownDatastoreRole
  }

  /** The case of the role string matters: lower-case "pending" and the empty string are Unknown. */
  lemma RoleParsingIsCaseSensitive()
    ensures DatastoreRoleFromString("pending") == UnknownDatastoreRole
    ensures DatastoreRoleFromString("") == UnknownDatastoreRole
    ensures DatastoreRoleFromString("Voter") == UnknownDatastoreRole
  {
  }

  /** The control-plane status record built for a microcluster member. */
  function MemberStatus(m: ClusterMember): NodeStatus
  {
    NodeStatus(m.name, m.address.String(), ControlPlane, DatastoreRoleFromString(m.role))
  }

  /** Some member of the list carries this name. */
  predicate HasMemberNamed(members: seq<ClusterMember>, name: string)
  {
    exists i :: 0 <= i < |members| && members[i].name == name
  }

  /**
   * The index of the first member whose name equals `name`, as the range loop with an
   * early return finds it.
   */
  function FirstByName(members: seq<ClusterMember>, name: string): (r: Option<nat>)
    ensures r.None? <==> !HasMemberNamed(members, name)
    ensures r.Some? ==> r.value < |members| && members[r.value].name == name
    ensures r.Some? ==> forall j :: 0 <= j < r.value ==> members[j].name != name
  {
    if |members| == 0 then None
    else if members[0].name == name then Some(0)
    else
      match FirstByName(members[1..], name)
      case None => None
      case Some(i) => Some(i + 1)
  }

  /**
   * The control-plane node with the given name, or None when no member carries it.
   * `client` is the outcome of creating the k8sd client and `listing` the member list it returns.
   */
  function GetControlPlaneNode(client: Outcome, listing: Result<seq<ClusterMember>>, name: string): (r: Result<Option<NodeStatus>>)
    ensures r.Err? <==> client.Fail? || listing.Err?
    ensures r.Ok? ==> (r.value.None? <==> !HasMemberNamed(listing.value, name))
    ensures r.Ok? && r.value.Some? ==>
      exists i :: 0 <= i < |listing.value| && listing.value[i].name == name
        && (forall j :: 0 <= j < i ==> listing.value[j].name != name)
        && r.value.value == NodeStatus(name, listing.value[i].address.String(), ControlPlane, DatastoreRoleFromString(listing.value[i].role))
  {
    if client.Fail? then Err(Wrap("failed to get k8sd client", client.error))
    else if listing.Err? then Err(Wrap("failed to get microcluster members", listing.error))
    else
      match FirstByName(listing.value, name)
      case None => Ok(None)
      case Some(i) => Ok(Some(MemberStatus(listing.value[i])))
  }

  /** Whether the named node is a control-plane node; a lookup error is propagated. */
  function IsControlPlaneNode(client: Outcome, listing: Result<seq<ClusterMember>>, name: string): (r: Result<bool>)
    ensures r.Err? <==> client.Fail? || listing.Err?
    ensures r.Ok? ==> (r.value <==> HasMemberNamed(listing.value, name))
  {
    match GetControlPlaneNode(client, listing, name)
    case Err(e) => Err(Wrap("failed to get control-plane node", e))
    case Ok(node) => Ok(node.Some?)
  }
}
