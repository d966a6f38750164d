/** The network part of the cluster configuration: four optional settings. */
module ConfigNetwork {
  import opened Common

  /** Each field is a Go `*T`: None is unset. */
  datatype Network = Network(
    enabled: Option<bool>,
    podCIDR: Option<string>,
    serviceCIDR: Option<string>,
    kubeProxyFree: Option<bool>)
  {
    /** Whether the network feature is enabled; false when unset. */
    function GetEnabled(): (r: bool)
      ensures r <==> enabled == Some(true)
    {
      enabled.GetOr(false)
    }

    /** The pod CIDR, or "" when unset. */
    function GetPodCIDR(): (r: string)
      ensures podCIDR.Some? ==> r == podCIDR.value
      ensures podCIDR.None? ==> r == ""
    {
      podCIDR.GetOr("")
    }

    /** The service CIDR, or "" when unset. */
    function GetServiceCIDR(): (r: string)
      ensures serviceCIDR.Some? ==> r == serviceCIDR.value
      ensures serviceCIDR.None? ==> r == ""
    {
      serviceCIDR.GetOr("")
    }

    /** Whether kube-proxy is replaced: false when unset, the stored flag otherwise. */
    function GetKubeProxyFree(): (r: bool)
      ensures r <==> kubeProxyFree == Some(true)
      ensures kubeProxyFree.Some? ==> r == kubeProxyFree.value
    {
      kubeProxyFree.GetOr(false)
    }

    /** Equality with the zero value. */
    predicate Empty()
    {
      this == ZeroNetwork
    }
  }

  const ZeroNetwork: Network := Network(None, None, None, None)

  /** A Network is empty exactly when none of its four fields is set; setting only KubeProxyFree (even to false) makes it non-empty. */
  lemma EmptyIffUnset(n: Network)
    ensures n.Empty() <==> n.enabled.None? && n.podCIDR.None? && n.serviceCIDR.None? && n.kubeProxyFree.None?
    ensures n.kubeProxyFree.Some? ==> !n.Empty()
  {
  }
}
