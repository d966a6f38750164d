/**
 * Conversions between the public API's configuration records and the internal cluster
 * configuration: the user-facing mapping in both directions and the validation of a
 * bootstrap configuration. The load-balancer CIDR conversion is a parameter: `lbFromApi`
 * splits the API's CIDR list into plain CIDRs and address ranges (or fails), `lbToApi` joins
 * them back.
 */
module ConfigConvert {
  import opened Common
  import opened ConfigKubelet
  import opened ConfigNetwork
  import opened ClusterConfigTypes

  datatype NetworkConfig = NetworkConfig(enabled: Option<bool>, kubeProxyFree: Option<bool>)

  datatype DNSConfig = DNSConfig(
    enabled: Option<bool>,
    clusterDomain: Option<string>,
    serviceIP: Option<string>,
    upstreamNameservers: Option<seq<string>>)

  /** The API's load balancer: one CIDR list that holds plain CIDRs and address ranges alike. */
  datatype LoadBalancerConfig = LoadBalancerConfig(settings: LoadBalancerSettings, cidrs: Option<seq<string>>)

  /** The configuration a user can read and change. */
  datatype UserFacingClusterConfig = UserFacingClusterConfig(
    network: NetworkConfig,
    dns: DNSConfig,
    ingress: Ingress,
    loadBalancer: LoadBalancerConfig,
    localStorage: LocalStorage,
    metricsServer: MetricsServer,
    gateway: Gateway,
    cloudProvider: Option<string>,
    annotations: map<string, string>)

  /** The bootstrap request's configuration. */
  datatype BootstrapConfig = BootstrapConfig(
    clusterConfig: UserFacingClusterConfig,
    securePort: Option<int>,
    disableRBAC: Option<bool>,
    datastoreType: Option<string>,
    datastoreServers: seq<string>,
    datastoreCACert: Option<string>,
    datastoreClientCert: Option<string>,
    datastoreClientKey: Option<string>,
    etcdPort: Option<int>,
    etcdPeerPort: Option<int>,
    podCIDR: Option<string>,
    serviceCIDR: Option<string>,
    controlPlaneTaints: seq<string>)
  {
    function GetDatastoreType(): string { datastoreType.GetOr("") }
    function GetDatastoreCACert(): string { datastoreCACert.GetOr("") }
    function GetDatastoreClientCert(): string { datastoreClientCert.GetOr("") }
    function GetDatastoreClientKey(): string { datastoreClientKey.GetOr("") }
    function GetEtcdPort(): int { etcdPort.GetOr(0) }
    function GetEtcdPeerPort(): int { etcdPeerPort.GetOr(0) }
  }

  /** The load balancer's CIDR list split into plain CIDRs and address ranges. */
  datatype SplitCIDRs = SplitCIDRs(cidrs: Option<seq<string>>, ipRanges: Option<seq<IPRange>>)

  /**
   * The internal configuration for a user-facing one. DNS.ServiceIP and DNS.ClusterDomain go to
   * the kubelet's cluster DNS and domain, the cloud provider to the kubelet's; nothing the
   * user-facing record lacks is set.
   */
  function ClusterConfigFromUserFacing(u: UserFacingClusterConfig, lbFromApi: Option<seq<string>> -> Result<SplitCIDRs>): (r: ConfigResult)
    ensures r.err.Fail? <==> lbFromApi(u.loadBalancer.cidrs).Err?
    ensures r.err.Fail? ==> r.config == ZeroConfig
    ensures r.err.Pass? ==>
      r.config.kubelet.clusterDNS == u.dns.serviceIP
      && r.config.kubelet.clusterDomain == u.dns.clusterDomain
      && r.config.kubelet.cloudProvider == u.cloudProvider
      && r.config.kubelet.controlPlaneTaints.None?
      && r.config.network == Network(u.network.enabled, None, None, u.network.kubeProxyFree)
      && r.config.annotations == u.annotations
      && r.config.loadBalancer.settings == u.loadBalancer.settings
      && r.config.apiServer == ZeroConfig.apiServer
      && r.config.datastore == ZeroDatastore
      && r.config.certificates == ZeroConfig.certificates
  {
    match lbFromApi(u.loadBalancer.cidrs)
    case Err(e) => ConfigResult(ZeroConfig, Fail("invalid load-balancer.cidrs: " + e))
    case Ok(split) =>
      ConfigResult(ClusterConfig(
        u.annotations,
        Kubelet(u.cloudProvider, u.dns.serviceIP, u.dns.clusterDomain, None),
        Network(u.network.enabled, None, None, u.network.kubeProxyFree),
        DNS(u.dns.enabled, u.dns.upstreamNameservers),
        u.ingress,
        LoadBalancer(u.loadBalancer.settings, split.cidrs, split.ipRanges),
        u.localStorage,
        u.metricsServer,
        u.gateway,
        ZeroConfig.apiServer,
        ZeroDatastore,
        ZeroConfig.certificates), Pass)
  }

  /** The user-facing view of a configuration: the kubelet's DNS, domain and cloud provider go back to where they came from. */
  function ToUserFacing(c: ClusterConfig, lbToApi: (Option<seq<string>>, Option<seq<IPRange>>) -> Option<seq<string>>): (r: UserFacingClusterConfig)
    ensures r.dns.serviceIP == c.kubelet.clusterDNS
    ensures r.dns.clusterDomain == c.kubelet.clusterDomain
    ensures r.cloudProvider == c.kubelet.cloudProvider
    ensures r.network == NetworkConfig(c.network.enabled, c.network.kubeProxyFree)
    ensures r.annotations == c.annotations
    ensures r.loadBalancer == LoadBalancerConfig(c.loadBalancer.settings, lbToApi(c.loadBalancer.cidrs, c.loadBalancer.ipRanges))
  {
    UserFacingClusterConfig(
      NetworkConfig(c.network.enabled, c.network.kubeProxyFree),
      DNSConfig(c.dns.enabled, c.kubelet.clusterDomain, c.kubelet.clusterDNS, c.dns.upstreamNameservers),
      c.ingress,
      LoadBalancerConfig(c.loadBalancer.settings, lbToApi(c.loadBalancer.cidrs, c.loadBalancer.ipRanges)),
      c.localStorage,
      c.metricsServer,
      c.gateway,
      c.kubelet.cloudProvider,
      c.annotations)
  }

  /** The part of an internal configuration that the user-facing record carries. */
  function UserFacingPart(c: ClusterConfig): ClusterConfig
  {
    c.(kubelet := c.kubelet.(controlPlaneTaints := None),
       network := c.network.(podCIDR := None, serviceCIDR := None),
       apiServer := ZeroConfig.apiServer,
       datastore := ZeroDatastore,
       certificates := ZeroConfig.certificates)
  }

  /** Going to the internal form and back restores a user-facing configuration whenever the CIDR conversion does. */
  lemma UserFacingRoundTrip(u: UserFacingClusterConfig, lbFromApi: Option<seq<string>> -> Result<SplitCIDRs>,
                            lbToApi: (Option<seq<string>>, Option<seq<IPRange>>) -> Option<seq<string>>)
    requires lbFromApi(u.loadBalancer.cidrs).Ok?
    requires lbToApi(lbFromApi(u.loadBalancer.cidrs).value.cidrs, lbFromApi(u.loadBalancer.cidrs).value.ipRanges) == u.loadBalancer.cidrs
    ensures ClusterConfigFromUserFacing(u, lbFromApi).err.Pass?
    ensures ToUserFacing(ClusterConfigFromUserFacing(u, lbFromApi).config, lbToApi) == u
  {
  }

  /**
   * Going to the user-facing form and back keeps exactly the part of an internal configuration
   * that the user-facing record carries, whenever the CIDR conversion splits its own join.
   */
  lemma InternalRoundTrip(c: ClusterConfig, lbFromApi: Option<seq<string>> -> Result<SplitCIDRs>,
                          lbToApi: (Option<seq<string>>, Option<seq<IPRange>>) -> Option<seq<string>>)
    requires lbFromApi(lbToApi(c.loadBalancer.cidrs, c.loadBalancer.ipRanges)) == Ok(SplitCIDRs(c.loadBalancer.cidrs, c.loadBalancer.ipRanges))
    ensures ClusterConfigFromUserFacing(ToUserFacing(c, lbToApi), lbFromApi) == ConfigResult(UserFacingPart(c), Pass)
  {
  }

  /** The option names and messages of the datastore checks. */
  const DatastoreServersOption: string := "datastore-servers"
  const DatastoreCACertOption: string := "datastore-ca-crt"
  const DatastoreClientCertOption: string := "datastore-client-crt"
  const DatastoreClientKeyOption: string := "datastore-client-key"
  const EtcdPeerPortOption: string := "etcd-peer-port"
  const EtcdPortOption: string := "etcd-port"
  const NoDatastoreServers: string := "datastore type is external but no datastore servers were set"
  const UnknownDatastoreType: string := "unknown datastore type specified in bootstrap config "

  /** The error for an external-datastore option given with the managed etcd datastore type `t`. */
  function NeedsExternal(option: string, t: string): string
  {
    option + " needs datastore-type to be external, not " + Quote(t)
  }

  /** The error for a managed-etcd option given with an external datastore. */
  function NeedsEtcd(option: string): string
  {
    option + " needs datastore-type to be etcd"
  }

  /** The datastore settings a bootstrap configuration asks for, or the reason it is invalid. */
  function BootstrapDatastore(b: BootstrapConfig): (r: Result<Datastore>)
    ensures b.GetDatastoreType() in {"", "etcd"} ==>
      (r.Err? <==> |b.datastoreServers| > 0 || b.GetDatastoreCACert() != "" || b.GetDatastoreClientCert() != ""
                   || b.GetDatastoreClientKey() != "")
    ensures b.GetDatastoreType() in {"", "etcd"} && r.Ok? ==>
      r.value == Datastore(Some("etcd"), b.etcdPort, b.etcdPeerPort, None, None, None, None)
    ensures b.GetDatastoreType() == "external" ==>
      (r.Err? <==> |b.datastoreServers| == 0 || b.GetEtcdPeerPort() != 0 || b.GetEtcdPort() != 0)
    ensures b.GetDatastoreType() == "external" && r.Ok? ==>
      r.value == Datastore(Some("external"), None, None, Some(b.datastoreServers), b.datastoreCACert,
                           b.datastoreClientCert, b.datastoreClientKey)
    ensures b.GetDatastoreType() !in {"", "etcd", "external"} ==> r.Err?
  {
    var t := b.GetDatastoreType();
    if t == "" || t == "etcd" then
      if |b.datastoreServers| > 0 then Err(NeedsExternal(DatastoreServersOption, t))
      else if b.GetDatastoreCACert() != "" then Err(NeedsExternal(DatastoreCACertOption, t))
      else if b.GetDatastoreClientCert() != "" then Err(NeedsExternal(DatastoreClientCertOption, t))
      else if b.GetDatastoreClientKey() != "" then Err(NeedsExternal(DatastoreClientKeyOption, t))
      else Ok(Datastore(Some("etcd"), b.etcdPort, b.etcdPeerPort, None, None, None, None))
    else if t == "external" then
      if |b.datastoreServers| == 0 then Err(NoDatastoreServers)
      else if b.GetEtcdPeerPort() != 0 then Err(NeedsEtcd(EtcdPeerPortOption))
      else if b.GetEtcdPort() != 0 then Err(NeedsEtcd(EtcdPortOption))
      else Ok(Datastore(Some("external"), None, None, Some(b.datastoreServers), b.datastoreCACert,
                        b.datastoreClientCert, b.datastoreClientKey))
    else Err(UnknownDatastoreType + Quote(t))
  }


  /**
   * The internal configuration for a bootstrap request: the user-facing part, then the API
   * server, the datastore, the network CIDRs and the kubelet settings, each set in turn.
   */
  method ClusterConfigFromBootstrapConfig(b: BootstrapConfig, lbFromApi: Option<seq<string>> -> Result<SplitCIDRs>) returns (r: ConfigResult)
    ensures r.err.Fail? ==> r.config == ZeroConfig
    ensures r.err.Pass? <==> ClusterConfigFromUserFacing(b.clusterConfig, lbFromApi).err.Pass? && BootstrapDatastore(b).Ok?
    ensures r.err.Pass? ==>
      var u := ClusterConfigFromUserFacing(b.clusterConfig, lbFromApi).config;
      r.config.apiServer.securePort == b.securePort
      && r.config.apiServer.authorizationMode == Some(if b.disableRBAC == Some(true) then "AlwaysAllow" else "Node,RBAC")
      && r.config.datastore == BootstrapDatastore(b).value
      && r.config.network == u.network.(podCIDR := b.podCIDR, serviceCIDR := b.serviceCIDR)
      && r.config.kubelet == u.kubelet.(controlPlaneTaints := if |b.controlPlaneTaints| != 0 then Some(b.controlPlaneTaints) else None)
      && r.config.(apiServer := u.apiServer, datastore := u.datastore, network := u.network, kubelet := u.kubelet) == u
  {
    var fromUser := ClusterConfigFromUserFacing(b.clusterConfig, lbFromApi);
    if fromUser.err.Fail? {
      return ConfigResult(ZeroConfig, Fail("invalid cluster configuration: " + fromUser.err.error));
    }
    var config := fromUser.config;

    // API server
    config := config.(apiServer := config.apiServer.(securePort := b.securePort));
    if b.disableRBAC.Some? && b.disableRBAC.value {
      config := config.(apiServer := config.apiServer.(authorizationMode := Some("AlwaysAllow")));
    } else {
      config := config.(apiServer := config.apiServer.(authorizationMode := Some("Node,RBAC")));
    }

    // Datastore
    var datastore := BootstrapDatastore(b);
    if datastore.Err? {
      return ConfigResult(ZeroConfig, Fail(datastore.error));
    }
    config := config.(datastore := datastore.value);

    // Network
    config := config.(network := config.network.(podCIDR := b.podCIDR, serviceCIDR := b.serviceCIDR));

    // Kubelet
    config := config.(kubelet := config.kubelet.(cloudProvider := b.clusterConfig.cloudProvider));
    if |b.controlPlaneTaints| != 0 {
      config := config.(kubelet := config.kubelet.(controlPlaneTaints := Some(b.controlPlaneTaints)));
    }
    return ConfigResult(config, Pass);
  }
}
