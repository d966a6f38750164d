/** The kubelet part of the cluster configuration: four optional settings. */
module ConfigKubelet {
  import opened Common

  /** Each field is a Go `*T`: None is unset, Some("") is set to the empty string. */
  datatype Kubelet = Kubelet(
    cloudProvider: Option<string>,
    clusterDNS: Option<string>,
    clusterDomain: Option<string>,
    controlPlaneTaints: Option<seq<string>>)
  {
    /** The cloud provider, or "" when unset. */
    function GetCloudProvider(): (r: string)
      ensures cloudProvider.Some? ==> r == cloudProvider.value
      ensures cloudProvider.None? ==> r == ""
    {
      cloudProvider.GetOr("")
    }

    /** The cluster DNS address, or "" when unset. */
    function GetClusterDNS(): (r: string)
      ensures clusterDNS.Some? ==> r == clusterDNS.value
      ensures clusterDNS.None? ==> r == ""
    {
      clusterDNS.GetOr("")
    }

    /** The cluster domain, or "" when unset. */
    function GetClusterDomain(): (r: string)
      ensures clusterDomain.Some? ==> r == clusterDomain.value
      ensures clusterDomain.None? ==> r == ""
    {
      clusterDomain.GetOr("")
    }

    /** The control-plane taints, or the empty list when unset. */
    function GetControlPlaneTaints(): (r: seq<string>)
      ensures controlPlaneTaints.Some? ==> r == controlPlaneTaints.value
      ensures controlPlaneTaints.None? ==> r == []
    {
      controlPlaneTaints.GetOr([])
    }

    /** Equality with the zero value: presence of a field counts, not its content. */
    predicate Empty()
    {
      this == ZeroKubelet
    }
  }

  const ZeroKubelet: Kubelet := Kubelet(None, None, None, None)

  /** A Kubelet is empty exactly when none of its four fields is set. */
  lemma EmptyIffUnset(k: Kubelet)
    ensures k.Empty() <==>
      k.cloudProvider.None? && k.clusterDNS.None? && k.clusterDomain.None? && k.controlPlaneTaints.None?
  {
  }

  /** A field set to "" or to an empty taint list still makes the Kubelet non-empty. */
  lemma SetToEmptyValueIsNotEmpty(k: Kubelet)
    requires k.cloudProvider == Some("") || k.clusterDNS == Some("") || k.clusterDomain == Some("")
             || k.controlPlaneTaints == Some([])
    ensures !k.Empty()
    ensures k.GetCloudProvider() == "" || k.GetClusterDNS() == "" || k.GetClusterDomain() == "" || k.GetControlPlaneTaints() == []
  {
  }
}
