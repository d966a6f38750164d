/**
 * Value types shared by the membership code: the microcluster member record that the
 * consensus-store membership service returns, and the node status reported by the API.
 */
module ApiTypes {
  import opened Common

  /** The cluster role reported for a node. */
  datatype ClusterRole = ControlPlane | Worker | UnknownClusterRole

  /**
   * The datastore role reported for a node. NoDatastoreRole is the zero value of the
   * field, which is what a status built without a datastore role carries.
   */
  datatype DatastoreRole = Voter | StandBy | Spare | Pending | UnknownDatastoreRole | NoDatastoreRole

  /** A `netip.AddrPort`: host part and port. */
  datatype AddrPort = AddrPort(host: string, port: int) {
    /** `AddrPort.String()`, with IPv6 hosts in brackets. */
    function String(): string {
      JoinHostPort(host, port)
    }
  }

  /** A microcluster cluster member: its name, address and role string. */
  datatype ClusterMember = ClusterMember(name: string, address: AddrPort, role: string)

  /** The API's node status record. */
  datatype NodeStatus = NodeStatus(name: string, address: string, clusterRole: ClusterRole, datastoreRole: DatastoreRole)

  /** Wraps an error the way `fmt.Errorf("<prefix>: %w", err)` does. */
  function Wrap(prefix: string, err: string): string
  {
    prefix + ": " + err
  }

  /** An access handler's verdict: `(true, nil)`, or `false` with the error response's status and message. */
  datatype Access = Allowed | Denied(status: int, error: string)
}
