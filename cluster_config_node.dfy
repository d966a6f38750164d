/**
 * The node ConfigMap codec: the part of the cluster configuration that every node needs
 * (the kubelet settings and whether kube-proxy is replaced), written as string entries and
 * optionally signed with the cluster's RSA key.
 *
 * The cryptographic and JSON steps are parameters: `sign` stands for hashing the entries,
 * signing the hash and base64-encoding the signature (present iff a private key is given);
 * `verify` for hashing the unsigned entries, decoding the signature and checking it (present
 * iff a public key is given); `encodeTaints`/`decodeTaints` for the JSON list codec.
 */
module ConfigMapCodec {
  import opened Common
  import opened ApiTypes
  import opened ConfigKubelet
  import opened ConfigNetwork
  import opened ClusterConfigTypes

  const CloudProviderKey: string := "cloud-provider"
  const ClusterDNSKey: string := "cluster-dns"
  const ClusterDomainKey: string := "cluster-domain"
  const ControlPlaneTaintsKey: string := "control-plane-taints"
  const KubeProxyFreeKey: string := "kube-proxy-free"
  const MacKey: string := "k8sd-mac"

  /** The entries that carry configuration. */
  const DataKeys: set<string> := {CloudProviderKey, ClusterDNSKey, ClusterDomainKey, ControlPlaneTaintsKey, KubeProxyFreeKey}

  type ConfigMapData = map<string, string>

  /** A Go map index: the value, or "" for an absent key. */
  function Lookup(d: ConfigMapData, k: string): string
  {
    if k in d then d[k] else ""
  }

  /** An optional string read back from an entry: present iff the key is. */
  function Entry(d: ConfigMapData, k: string): Option<string>
  {
    if k in d then Some(d[k]) else None
  }

  /** `fmt.Sprintf("%t", b)`. */
  function FormatBool(b: bool): string
  {
    if b then "true" else "false"
  }

  /** A copy of the entries without the signature entry. */
  method WithoutSignature(d: ConfigMapData) returns (r: ConfigMapData)
    ensures MacKey !in r
    ensures r.Keys <= d.Keys
    ensures forall k :: k in d && k != MacKey ==> k in r && r[k] == d[k]
    ensures r == d - {MacKey}
  {
    r := map[];
    var remaining := d.Keys;
    while remaining != {}
      invariant remaining <= d.Keys
      invariant r.Keys <= d.Keys - remaining
      invariant MacKey !in r
      invariant forall k :: k in r ==> r[k] == d[k]
      invariant forall k :: k in d && k !in remaining && k != MacKey ==> k in r
      decreases |remaining|
    {
      var k :| k in remaining;
      if k != MacKey {
        r := r[k := d[k]];
      }
      remaining := remaining - {k};
    }
  }

  /** The unsigned entries for a configuration: one per set field, taints as their JSON text. */
  function UnsignedData(config: ClusterConfig, encodeTaints: seq<string> -> Result<string>): (r: Result<ConfigMapData>)
    ensures r.Err? <==> config.kubelet.controlPlaneTaints.Some? && encodeTaints(config.kubelet.controlPlaneTaints.value).Err?
    ensures r.Ok? ==> r.value.Keys <= DataKeys
    ensures r.Ok? ==> Entry(r.value, CloudProviderKey) == config.kubelet.cloudProvider
    ensures r.Ok? ==> Entry(r.value, ClusterDNSKey) == config.kubelet.clusterDNS
    ensures r.Ok? ==> Entry(r.value, ClusterDomainKey) == config.kubelet.clusterDomain
    ensures r.Ok? ==> (ControlPlaneTaintsKey in r.value <==> config.kubelet.controlPlaneTaints.Some?)
    ensures r.Ok? && config.kubelet.controlPlaneTaints.Some? ==>
      r.value[ControlPlaneTaintsKey] == encodeTaints(config.kubelet.controlPlaneTaints.value).value
    ensures r.Ok? ==> (KubeProxyFreeKey in r.value <==> config.network.kubeProxyFree.Some?)
    ensures r.Ok? && config.network.kubeProxyFree.Some? ==>
      r.value[KubeProxyFreeKey] == (if config.network.kubeProxyFree.value then "true" else "false")
  {
    var k := config.kubelet;
    var d1: ConfigMapData := if k.cloudProvider.Some? then map[CloudProviderKey := k.cloudProvider.value] else map[];
    var d2 := if k.clusterDNS.Some? then d1[ClusterDNSKey := k.clusterDNS.value] else d1;
    var d3 := if k.clusterDomain.Some? then d2[ClusterDomainKey := k.clusterDomain.value] else d2;
    if k.controlPlaneTaints.Some? && encodeTaints(k.controlPlaneTaints.value).Err? then
      Err(Wrap("failed to marshal control plane taints", encodeTaints(k.controlPlaneTaints.value).error))
    else
      var d4 := if k.controlPlaneTaints.Some? then d3[ControlPlaneTaintsKey := encodeTaints(k.controlPlaneTaints.value).value] else d3;
      var kpf := config.network.kubeProxyFree;
      Ok(if kpf.Some? then d4[KubeProxyFreeKey := FormatBool(kpf.value)] else d4)
  }

  /** The ConfigMap entries for a configuration, with the signature entry iff a signer is given. */
  function ClusterConfigToConfigMap(config: ClusterConfig, sign: Option<ConfigMapData -> Result<string>>,
                                   encodeTaints: seq<string> -> Result<string>): (r: Result<ConfigMapData>)
    ensures r.Err? <==> UnsignedData(config, encodeTaints).Err?
                        || (sign.Some? && sign.value(UnsignedData(config, encodeTaints).value).Err?)
    ensures r.Ok? ==> r.value.Keys <= DataKeys + {MacKey}
    ensures r.Ok? ==> (MacKey in r.value <==> sign.Some?)
    ensures r.Ok? ==> r.value - {MacKey} == UnsignedData(config, encodeTaints).value
    ensures r.Ok? && sign.Some? ==> r.value[MacKey] == sign.value(UnsignedData(config, encodeTaints).value).value
  {
    match UnsignedData(config, encodeTaints)
    case Err(e) => Err(e)
    case Ok(data) =>
      if sign.None? then Ok(data)
      else
        match sign.value(data)
        case Err(e) => Err(Wrap("failed to sign hash", e))
        case Ok(mac) => Ok(data[MacKey := mac])
  }

  /** An unset Kubelet with no KubeProxyFree encodes, unsigned, to the empty map. */
  lemma EmptyConfigEncodesToEmptyMap(config: ClusterConfig, encodeTaints: seq<string> -> Result<string>)
    requires config.kubelet.Empty() && config.network.kubeProxyFree.None?
    ensures ClusterConfigToConfigMap(config, None, encodeTaints) == Ok(map[])
  {
    var d := UnsignedData(config, encodeTaints).value;
    assert Entry(d, CloudProviderKey) == None && Entry(d, ClusterDNSKey) == None && Entry(d, ClusterDomainKey) == None;
    assert d.Keys == {};
  }

  /**
   * The configuration carried by a ConfigMap. A nil map gives the zero configuration; a
   * signature, when checked, is checked before any field is read; a failure gives the zero
   * configuration with the error.
   */
  function ConfigMapToClusterConfig(m: Option<ConfigMapData>, verify: Option<(ConfigMapData, string) -> Outcome>,
                                   decodeTaints: string -> Result<seq<string>>): (r: ConfigResult)
    ensures m.None? ==> r == ConfigResult(ZeroConfig, Pass)
    ensures r.err.Fail? ==> r.config == ZeroConfig
    ensures r.err.Fail? <==> (m.Some? &&
      ((verify.Some? && verify.value(m.value - {MacKey}, Lookup(m.value, MacKey)).Fail?)
       || (ControlPlaneTaintsKey in m.value && decodeTaints(m.value[ControlPlaneTaintsKey]).Err?)))
    ensures r.err.Pass? && m.Some? ==>
      r.config.kubelet.cloudProvider == Entry(m.value, CloudProviderKey)
      && r.config.kubelet.clusterDNS == Entry(m.value, ClusterDNSKey)
      && r.config.kubelet.clusterDomain == Entry(m.value, ClusterDomainKey)
      && r.config.kubelet.controlPlaneTaints ==
           (if ControlPlaneTaintsKey in m.value then Some(decodeTaints(m.value[ControlPlaneTaintsKey]).value) else None)
      && r.config.network.kubeProxyFree ==
           (if KubeProxyFreeKey in m.value then Some(m.value[KubeProxyFreeKey] == "true") else None)
    ensures r.config.(kubelet := ZeroKubelet, network := ZeroNetwork.(kubeProxyFree := None)) == ZeroConfig
    ensures r.config.network.(kubeProxyFree := None) == ZeroNetwork
  {
    if m.None? then ConfigResult(ZeroConfig, Pass)
    else
      var d := m.value;
      if verify.Some? && verify.value(d - {MacKey}, Lookup(d, MacKey)).Fail? then
        ConfigResult(ZeroConfig, Fail(Wrap("failed to verify signature", verify.value(d - {MacKey}, Lookup(d, MacKey)).error)))
      else if ControlPlaneTaintsKey in d && decodeTaints(d[ControlPlaneTaintsKey]).Err? then
        ConfigResult(ZeroConfig, Fail(Wrap("failed to parse control plane taints", decodeTaints(d[ControlPlaneTaintsKey]).error)))
      else
        var taints := if ControlPlaneTaintsKey in d then Some(decodeTaints(d[ControlPlaneTaintsKey]).value) else None;
        var kubelet := Kubelet(Entry(d, CloudProviderKey), Entry(d, ClusterDNSKey), Entry(d, ClusterDomainKey), taints);
        var kubeProxyFree := if KubeProxyFreeKey in d then Some(d[KubeProxyFreeKey] == "true") else None;
        ConfigResult(ZeroConfig.(kubelet := kubelet, network := ZeroNetwork.(kubeProxyFree := kubeProxyFree)), Pass)
  }

  /** Only the exact text "true" decodes to a replaced kube-proxy; "True", "1" or "" decode to false. */
  lemma KubeProxyFreeDecoding(v: string, decodeTaints: string -> Result<seq<string>>)
    ensures ConfigMapToClusterConfig(Some(map[KubeProxyFreeKey := v]), None, decodeTaints).config.network.kubeProxyFree
            == Some(v == "true")
    ensures ConfigMapToClusterConfig(Some(map[KubeProxyFreeKey := v]), None, decodeTaints).config.network.GetKubeProxyFree()
            <==> v == "true"
  {
    assert ControlPlaneTaintsKey !in map[KubeProxyFreeKey := v];
  }

  /**
   * Encoding and then decoding restores the Kubelet settings and KubeProxyFree, signed or not,
   * whenever the taint codec inverts itself on the taints and the verifier accepts the signer's
   * signature of the unsigned entries.
   */
  lemma {:induction false} RoundTrip(config: ClusterConfig, sign: Option<ConfigMapData -> Result<string>>,
                                     verify: Option<(ConfigMapData, string) -> Outcome>,
                                     encodeTaints: seq<string> -> Result<string>, decodeTaints: string -> Result<seq<string>>)
    requires sign.Some? <==> verify.Some?
    requires config.kubelet.controlPlaneTaints.Some? && encodeTaints(config.kubelet.controlPlaneTaints.value).Ok? ==>
      decodeTaints(encodeTaints(config.kubelet.controlPlaneTaints.value).value) == Ok(config.kubelet.controlPlaneTaints.value)
    requires sign.Some? && verify.Some? && UnsignedData(config, encodeTaints).Ok?
             && sign.value(UnsignedData(config, encodeTaints).value).Ok? ==>
      verify.value(UnsignedData(config, encodeTaints).value, sign.value(UnsignedData(config, encodeTaints).value).value) == Pass
    ensures ClusterConfigToConfigMap(config, sign, encodeTaints).Ok? ==>
      var back := ConfigMapToClusterConfig(Some(ClusterConfigToConfigMap(config, sign, encodeTaints).value), verify, decodeTaints);
      back.err.Pass?
      && back.config.kubelet == config.kubelet
      && back.config.network.kubeProxyFree == config.network.kubeProxyFree
      && back.config.network.GetKubeProxyFree() == config.network.GetKubeProxyFree()
  {
    var cm := ClusterConfigToConfigMap(config, sign, encodeTaints);
    if cm.Ok? {
      var d := cm.value;
      var u := UnsignedData(config, encodeTaints).value;
      assert d - {MacKey} == u;
      if sign.Some? {
        assert Lookup(d, MacKey) == sign.value(u).value;
      }
      var back := ConfigMapToClusterConfig(Some(d), verify, decodeTaints);
      assert Entry(d, CloudProviderKey) == Entry(u, CloudProviderKey);
      assert Entry(d, ClusterDNSKey) == Entry(u, ClusterDNSKey);
      assert Entry(d, ClusterDomainKey) == Entry(u, ClusterDomainKey);
      assert Entry(d, ControlPlaneTaintsKey) == Entry(u, ControlPlaneTaintsKey);
      assert Entry(d, KubeProxyFreeKey) == Entry(u, KubeProxyFreeKey);
      assert back.err.Pass?;
      var k := config.kubelet;
      assert back.config.kubelet == Kubelet(k.cloudProvider, k.clusterDNS, k.clusterDomain, k.controlPlaneTaints);
    }
  }
}
