/** The CSR signing controller's settings, read from the cluster configuration's annotations. */
module CsrSigning {

  /** The annotation that turns on automatic approval of certificate signing requests. */
  const AnnotationAutoApprove: string := "k8sd/v1alpha1/csrsigning/auto-approve"

  /** The controller's internal configuration. */
  datatype InternalConfig = InternalConfig(autoApprove: bool)

  /** `internalConfigFromAnnotations`. */
  function InternalConfigFromAnnotations(annotations: map<string, string>): (cfg: InternalConfig)
    ensures cfg.autoApprove <==> AnnotationAutoApprove in annotations && annotations[AnnotationAutoApprove] == "true"
  {
    if AnnotationAutoApprove in annotations && annotations[AnnotationAutoApprove] == "true"
    then InternalConfig(true)
    else InternalConfig(false)
  }

  /** Only the auto-approve annotation matters: adding or changing any other leaves the configuration as it is. */
  lemma {:induction false} OtherAnnotationsDoNotMatter(annotations: map<string, string>, key: string, value: string)
    requires key != AnnotationAutoApprove
    ensures InternalConfigFromAnnotations(annotations[key := value]) == InternalConfigFromAnnotations(annotations)
  {
    var updated := annotations[key := value];
    assert (AnnotationAutoApprove in updated) == (AnnotationAutoApprove in annotations);
    if AnnotationAutoApprove in annotations {
      assert updated[AnnotationAutoApprove] == annotations[AnnotationAutoApprove];
    }
  }

  /** The value is compared exactly: "True", "1" and "" do not approve, an absent annotation neither. */
  lemma OnlyLowerCaseTrueApproves(annotations: map<string, string>)
    ensures !InternalConfigFromAnnotations(annotations[AnnotationAutoApprove := "True"]).autoApprove
    ensures !InternalConfigFromAnnotations(annotations[AnnotationAutoApprove := "1"]).autoApprove
    ensures !InternalConfigFromAnnotations(annotations[AnnotationAutoApprove := ""]).autoApprove
    ensures !InternalConfigFromAnnotations(annotations - {AnnotationAutoApprove}).autoApprove
    ensures InternalConfigFromAnnotations(annotations[AnnotationAutoApprove := "true"]).autoApprove
  {
  }
}
