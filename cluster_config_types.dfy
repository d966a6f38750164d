/**
 * The internal cluster configuration record, with the sub-records the modelled code reads or
 * writes. Every field is a Go `*T` (None is unset); maps stand for Go maps, where a nil map
 * reads like the empty one.
 */
module ClusterConfigTypes {
  import opened Common
  import opened ConfigKubelet
  import opened ConfigNetwork

  datatype APIServer = APIServer(securePort: Option<int>, authorizationMode: Option<string>)

  datatype Datastore = Datastore(
    dsType: Option<string>,
    etcdPort: Option<int>,
    etcdPeerPort: Option<int>,
    externalServers: Option<seq<string>>,
    externalCACert: Option<string>,
    externalClientCert: Option<string>,
    externalClientKey: Option<string>)
  {
    /** The datastore type, or "" when unset. */
    function GetType(): string { dsType.GetOr("") }
    /** The etcd client port, or 0 when unset. */
    function GetEtcdPort(): int { etcdPort.GetOr(0) }
  }

  datatype DNS = DNS(enabled: Option<bool>, upstreamNameservers: Option<seq<string>>)

  /** The ingress settings; the user-facing ingress record has the same three fields. */
  datatype Ingress = Ingress(enabled: Option<bool>, defaultTLSSecret: Option<string>, enableProxyProtocol: Option<bool>)

  /** The load-balancer settings that both directions copy field by field. */
  datatype LoadBalancerSettings = LoadBalancerSettings(
    enabled: Option<bool>,
    l2Mode: Option<bool>,
    l2Interfaces: Option<seq<string>>,
    bgpMode: Option<bool>,
    bgpLocalASN: Option<int>,
    bgpPeerAddress: Option<string>,
    bgpPeerASN: Option<int>,
    bgpPeerPort: Option<int>)

  /** An address range "start-stop" of the load balancer. */
  datatype IPRange = IPRange(start: string, stop: string)

  /** The internal load balancer: plain CIDRs and address ranges are kept apart. */
  datatype LoadBalancer = LoadBalancer(settings: LoadBalancerSettings, cidrs: Option<seq<string>>, ipRanges: Option<seq<IPRange>>)

  /** The local storage settings; the user-facing record has the same four fields. */
  datatype LocalStorage = LocalStorage(enabled: Option<bool>, localPath: Option<string>, reclaimPolicy: Option<string>, isDefault: Option<bool>)

  datatype MetricsServer = MetricsServer(enabled: Option<bool>)

  datatype Gateway = Gateway(enabled: Option<bool>)

  /** The PEM certificates whose expiry the cluster API reports. */
  datatype Certificates = Certificates(
    caCert: Option<string>,
    clientCACert: Option<string>,
    adminClientCert: Option<string>,
    apiServerKubeletClientCert: Option<string>,
    frontProxyCACert: Option<string>)
  {
    function GetCACert(): string { caCert.GetOr("") }
    function GetClientCACert(): string { clientCACert.GetOr("") }
    function GetAdminClientCert(): string { adminClientCert.GetOr("") }
    function GetAPIServerKubeletClientCert(): string { apiServerKubeletClientCert.GetOr("") }
    function GetFrontProxyCACert(): string { frontProxyCACert.GetOr("") }
  }

  datatype ClusterConfig = ClusterConfig(
    annotations: map<string, string>,
    kubelet: Kubelet,
    network: Network,
    dns: DNS,
    ingress: Ingress,
    loadBalancer: LoadBalancer,
    localStorage: LocalStorage,
    metricsServer: MetricsServer,
    gateway: Gateway,
    apiServer: APIServer,
    datastore: Datastore,
    certificates: Certificates)

  const ZeroDatastore: Datastore := Datastore(None, None, None, None, None, None, None)
  const ZeroLoadBalancerSettings: LoadBalancerSettings := LoadBalancerSettings(None, None, None, None, None, None, None, None)

  /** The zero `ClusterConfig{}`. */
  const ZeroConfig: ClusterConfig := ClusterConfig(
    map[], ZeroKubelet, ZeroNetwork, DNS(None, None), Ingress(None, None, None),
    LoadBalancer(ZeroLoadBalancerSettings, None, None), LocalStorage(None, None, None, None),
    MetricsServer(None), Gateway(None), APIServer(None, None), ZeroDatastore,
    Certificates(None, None, None, None, None))

  /** A Go `(ClusterConfig, error)` pair. */
  datatype ConfigResult = ConfigResult(config: ClusterConfig, err: Outcome)
}
