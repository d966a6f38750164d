# k8sd membership, node configuration and access control, in Dafny

This project models the core of k8sd, the cluster daemon of Canonical Kubernetes. k8sd runs on
every node, keeps the cluster's membership in microcluster (a dqlite-backed cluster library),
and manages the Kubernetes services of the snap. The model covers these parts of it:

- **Node removal** (`postClusterRemove`):
  - the Kubernetes Node is deleted unless the cluster configuration carries the
    skip-cleanup annotation;
  - a control-plane node, or any node when the removal is forced, leaves the managed etcd
    datastore and then microcluster;
  - before it calls `RemoveClusterMember`, the microcluster step waits, with at most ten
    failed lookups, until the member serving the request is no longer `PENDING`;
  - a forced removal logs each step's failure and carries on;
  - an unforced removal stops at the first failure;
  - an empty microcluster member list makes the etcd step's
    `make([]string, 0, len(members)-1)` panic; the model gives that outcome its own
    response, `Crashed`.
- **The cleanup a join registers**: when a join fails, its reverter runs the registered actions
  newest first. They remove the k8s-dqlite state directory, remove the joining node from etcd
  when at least three endpoints keep the quorum safe, and delete the Kubernetes Node.
- **Local node state** (`local-state.yaml`):
  - which of the eight Kubernetes services a control-plane or worker node runs;
  - reading, writing and deleting the file;
  - starting, restarting and stopping the services through the snap.
- **Node configuration controller**: one reconciliation verifies the signed node ConfigMap,
  sets or deletes three kubelet arguments, restarts kubelet when they changed, starts or stops
  kube-proxy, and records the kube-proxy choice in the local state.
- **Configuration conversions and codecs**:
  - the user-facing configuration and the internal configuration, in both directions;
  - the validation of a bootstrap configuration's datastore options;
  - the node ConfigMap codec, with its optional RSA signature entry `k8sd-mac`.
- **Quorum-loss recovery** (`k8sd cluster-recover`):
  - the prechecks and the confirmation prompt;
  - the helper-comment and blank-line regular expressions;
  - the three editor rounds: cluster.yaml is shown, info.yaml and daemon.yaml are written;
  - the hand-off to microcluster's recovery.
- **HTTP endpoints and access handlers**:
  - node status and taints;
  - cluster-API certificate expiry;
  - Kubernetes auth tokens and the TokenReview webhook;
  - the worker, node-token and cluster-API token checks.
- **Client helpers**: the k8sd client's deadlines and member lookup, `utils.Path`, the
  datastore-role parser, and the CSR-signing auto-approve setting.

Everything k8sd asks of the outside world is a parameter. Answers that are plain outcomes are
`Result`/`Outcome` values. Behaviour that depends on its input is a function-typed parameter.
This covers the Kubernetes, etcd and microcluster clients, the database transactions, the YAML
and JSON codecs, RSA signing and verification, the text editor, `utils.CleanHostname` and
`url.PathEscape`. Round-trip lemmas state, as a `requires`, what they need of these parameters
on the value at hand. Files are the class `FileStore.Files`: a map from path to content, plus
three sets of paths: those whose reads fail, those whose writes fail and those whose removal
fails. The snap's service manager is the class
`LocalState.ServiceManager`, which records every request it gets. The reverter and the host it
cleans up are classes too.

The model follows the code where it differs from the repository's prose. `getNodeStatus`
lists the taints in the response. The worker-info check answers 400 for a hostname that does
not clean. The header token of the node-token check is not trimmed; the token file is.

## Model

| member | source | states |
|---|---|---|
| ClusterRemove.RemoveNodeFromKubernetes | pkg/k8sd/api/cluster_remove.go:206-220 | the step succeeds iff a Kubernetes client exists and DeleteNode succeeds; DeleteNode is called exactly when the client exists; the step never panics |
| ClusterRemove.PeerClientURLs | pkg/k8sd/api/cluster_remove.go:124-131 | the etcd endpoint list has at most one URL per member |
| ClusterRemove.PeerClientURLsMembers | pkg/k8sd/api/cluster_remove.go:125-131 | every member other than the departing one contributes its `https://host:port` URL, and every URL in the list belongs to such a member |
| ClusterRemove.PeerClientURLsCount | pkg/k8sd/api/cluster_remove.go:125-131 | the list has one URL per member not named like the departing node |
| ClusterRemove.PeerClientURLsAppend | pkg/k8sd/api/cluster_remove.go:125-131 | the list for two concatenated member lists is the concatenation of their lists |
| ClusterRemove.PeerClientURLsOfOthers | pkg/k8sd/api/cluster_remove.go:125-131 | without a member of the departing name, every member's URL appears at its own position |
| ClusterRemove.PeerClientURLsDropOne | pkg/k8sd/api/cluster_remove.go:125-131 | when exactly one member has the departing name, the list is all the other members' URLs in order, shifted by one after it |
| ClusterRemove.EtcdClientURLs | pkg/k8sd/api/cluster_remove.go:124-131 | an empty member list panics with "makeslice: cap out of range"; otherwise the loop's result is the peer URL list |
| ClusterRemove.EtcdRemoval | pkg/k8sd/api/cluster_remove.go:113-146 | the etcd step succeeds iff every client call succeeds on a non-empty member list; it panics iff the list is empty; RemoveNodeByName is called, with the peer URLs, exactly when the etcd client could be built |
| ClusterRemove.RemoveNodeFromEtcd | pkg/k8sd/api/cluster_remove.go:113-146 | the step-by-step method agrees with EtcdRemoval |
| ClusterRemove.DatastoreRemoval | pkg/k8sd/api/cluster_remove.go:99-111 | only the "etcd" datastore type is acted on; for it, the calls made, success and panic are those of the etcd step |
| ClusterRemove.RemoveNodeFromDatastore | pkg/k8sd/api/cluster_remove.go:99-111 | the step-by-step method agrees with DatastoreRemoval |
| ClusterRemove.Failures | pkg/k8sd/api/cluster_remove.go:157-166 | the number of failed lookups is at most the number of lookups |
| ClusterRemove.WaitGivesUpAfterMaxRetries | pkg/k8sd/api/cluster_remove.go:156-175 | ten failed lookups in a row end the wait as retries exhausted, whatever comes after them |
| ClusterRemove.WaitEndsWhenNotPending | pkg/k8sd/api/cluster_remove.go:156-175 | the first answer that finds the member with a role other than PENDING ends the wait, while fewer than ten lookups have failed |
| ClusterRemove.WaitContextDone | pkg/k8sd/api/cluster_remove.go:156-178 | the wait outlasts every answer (the context ends) iff no answer reports the member not pending and fewer than ten lookups fail |
| ClusterRemove.WaitUntilNotPending | pkg/k8sd/api/cluster_remove.go:156-178 | the polling loop ends as the recursive definition of the wait says |
| ClusterRemove.DepartingAddress | pkg/k8sd/api/cluster_remove.go:180-189 | the address passed on is that of the first member with the departing name, or "" when the lookup fails or finds no such member |
| ClusterRemove.MicroclusterRemoval | pkg/k8sd/api/cluster_remove.go:148-204 | without a k8sd client nothing is called; otherwise the wait and then RemoveClusterMember(name, address, force) are the calls made, and the step succeeds iff that call does; the step never panics |
| ClusterRemove.RemoveNodeFromMicrocluster | pkg/k8sd/api/cluster_remove.go:148-204 | the step-by-step method agrees with MicroclusterRemoval |
| ClusterRemove.ClusterRemoval | pkg/k8sd/api/cluster_remove.go:24-97 | a bad request, a missing cluster configuration and an unforced failed control-plane check answer with an error before any stage runs; any stage that runs means the removal proceeds; the stages run in order, each at most once |
| ClusterRemove.ClusterRemovalStages | pkg/k8sd/api/cluster_remove.go:46-94 | Kubernetes cleanup runs iff the skip annotation is absent; the datastore step runs iff the node is control-plane or the removal forced, and no unforced Kubernetes failure came first; microcluster runs iff the datastore step ran and neither panicked nor failed unforced |
| ClusterRemove.ClusterRemovalEvents | pkg/k8sd/api/cluster_remove.go:55-94 | the external calls made are exactly those of the stages that ran, in stage order |
| ClusterRemove.ClusterRemovalResponse | pkg/k8sd/api/cluster_remove.go:55-96 | a forced removal answers success unless the etcd step panicked; the answer is a crash iff that panic happened; an unforced removal succeeds iff every stage that ran succeeded |
| ClusterRemove.PostClusterRemove | pkg/k8sd/api/cluster_remove.go:24-97 | the handler with its early returns agrees with ClusterRemoval in response, stages and calls |
| JoinReverter.RemovedDirsOfLast | pkg/k8sd/app/hooks_join_reverter_test.go:23-54 | the directories a list of actions removes are those of all but the last action plus the last one's |
| JoinReverter.RemovedNodesOfLast | pkg/k8sd/app/hooks_join_reverter_test.go:134-152 | the same decomposition for deleted Kubernetes Nodes |
| JoinReverter.RemovedEtcdMembersOfLast | pkg/k8sd/app/hooks_join_reverter_test.go:85-131 | the same decomposition for removed etcd members |
| JoinReverter.RevertRemovesExactly | pkg/k8sd/app/hooks_join_reverter_test.go:85-99 | running the actions newest first removes exactly the union of what each action removes; no action restores what another removed |
| JoinReverter.QuorumGuardKeepsEtcdState | pkg/k8sd/app/hooks_join_reverter_test.go:101-131 | with fewer than three endpoints, or a failing etcd client or member removal, the etcd members are untouched, and so is the etcd directory unless a dqlite cleanup targets it |
| JoinReverter.K8sDqliteStateRemoved | pkg/k8sd/app/hooks_join_reverter_test.go:23-54 | a registered k8s-dqlite cleanup always removes its state directory |
| JoinReverter.K8sNodeDeleted | pkg/k8sd/app/hooks_join_reverter_test.go:134-152 | a registered Node cleanup deletes the Node when the deletion call succeeds |
| JoinReverter.EtcdMemberRemoved | pkg/k8sd/app/hooks_join_reverter_test.go:85-99 | a successful etcd cleanup with at least three endpoints removes the member and its data directory |
| JoinReverter.Host.constructor | pkg/k8sd/app/hooks_join_reverter_test.go:26-33 | a host starts with the given directories, Nodes and etcd members |
| JoinReverter.Host.Run | pkg/k8sd/app/hooks_join_reverter_test.go:85-99 | running one action changes the host exactly as the action's definition says |
| JoinReverter.Reverter.constructor | pkg/k8sd/app/hooks_join_reverter_test.go:44 | a new reverter is armed and empty |
| JoinReverter.Reverter.Add | pkg/k8sd/app/hooks_join_reverter_test.go:47 | registering appends one action |
| JoinReverter.Reverter.Fail | pkg/k8sd/app/hooks_join_reverter_test.go:49-53 | an armed reverter runs every action once, newest first, and disarms; a disarmed one changes nothing |
| JoinReverter.Reverter.Success | pkg/k8sd/app/hooks_join_reverter_test.go:78-82 | success disarms the reverter |
| JoinReverter.RegisterK8sDqliteReverter | pkg/k8sd/app/hooks_join_reverter_test.go:46-47 | registers the removal of the k8s-dqlite state directory |
| JoinReverter.RegisterEtcdMemberReverter | pkg/k8sd/app/hooks_join_reverter_test.go:124 | registers the removal of the node's etcd membership and data directory |
| JoinReverter.RegisterK8sNodeDeletionReverter | pkg/k8sd/app/hooks_join_reverter_test.go:144 | registers the deletion of the node's Kubernetes Node |
| JoinReverter.FailedJoin | pkg/k8sd/app/hooks_join_reverter_test.go:23-54 | after a failed join the dqlite directory is gone, the Node is deleted when the call succeeds, and the etcd member and directory are removed iff the cleanup clears the quorum guard and both etcd calls succeed |
| JoinReverter.SucceededJoin | pkg/k8sd/app/hooks_join_reverter_test.go:155-175 | after a successful join the host is unchanged, even when the deferred Fail runs |
| LocalState.ControlPlaneServices | pkg/snap/util/local_state.go:141-163 | a control-plane node lists all eight services; etcd is enabled iff the datastore is "etcd"; the API server proxy is disabled; the rest are enabled |
| LocalState.WorkerServices | pkg/snap/util/local_state.go:166-179 | a worker lists all eight services with etcd and the three control-plane components disabled |
| LocalState.EnabledServicesOfConstructors | pkg/snap/util/local_state.go:141-179 | the enabled sets of the two constructors as sets |
| LocalState.LocalNodeState.constructor | pkg/snap/util/local_state.go:93-99 | a new state has the fixed API version and kind and the given services |
| LocalState.LocalNodeState.EnabledServices | pkg/snap/util/local_state.go:102-110 | the list holds exactly the services whose entry is present and enabled, each once |
| LocalState.LocalNodeState.SetServiceEnabled | pkg/snap/util/local_state.go:113-118 | one entry is set present with the flag; every other entry is kept |
| LocalState.NewControlPlaneLocalState | pkg/snap/util/local_state.go:141-163 | a fresh state object holding the control-plane document |
| LocalState.NewWorkerLocalState | pkg/snap/util/local_state.go:166-179 | a fresh state object holding the worker document |
| LocalState.ServiceManager.StartServices | pkg/snap/util/local_state.go:133 | records one start request and answers with its configured fault |
| LocalState.ServiceManager.RestartServices | pkg/snap/util/local_state.go:194 | records one restart request with its extra arguments and answers with its configured fault |
| LocalState.ServiceManager.StopServices | pkg/snap/util/local_state.go:214 | records one stop request with its extra arguments and answers with its configured fault |
| LocalState.EmptyListing | pkg/snap/util/local_state.go:123-128 | a list of exactly the enabled services is empty iff no service is enabled |
| LocalState.StartEnabledServices | pkg/snap/util/local_state.go:121-138 | no enabled service means no request and success; otherwise one request naming exactly the enabled services, with its failure wrapped |
| LocalState.RestartEnabledServices | pkg/snap/util/local_state.go:182-199 | the same for restart, with the extra snap arguments passed on |
| LocalState.StopOrderListsAllServices | pkg/snap/util/local_state.go:203-212 | the stop list names each of the eight services exactly once |
| LocalState.StopAllK8sServices | pkg/snap/util/local_state.go:202-219 | one stop request for all eight services whatever the local state says, with its failure wrapped |
| LocalState.ReadLocalState | pkg/snap/util/local_state.go:48-61 | succeeds iff the file exists, is readable and parses; the result is a fresh object holding the parsed document |
| LocalState.WriteLocalState | pkg/snap/util/local_state.go:64-81 | succeeds iff marshalling, the write and the chown succeed; the file holds the serialised state whenever marshalling and the write succeed, even when the chown fails |
| LocalState.DeleteLocalState | pkg/snap/util/local_state.go:84-90 | fails iff removal fails for a reason other than absence; on success the file is gone and nothing else changed |
| LocalState.WriteThenRead | pkg/snap/util/local_state.go:48-81 | a state that was written reads back as the same document, when the path is readable and the YAML decoder inverts the encoder |
| FileStore.Files.constructor | pkg/snap/util/local_state.go:50 | the file store holds the given contents and the paths whose reads, writes and removals fail |
| FileStore.Files.ReadFile | pkg/snap/util/local_state.go:50 | reading succeeds iff the path exists and its reads do not fail, with its content; a refused read and a missing file give their `open` errors |
| FileStore.Files.WriteFile | pkg/snap/util/local_state.go:72 | writing replaces the content of a path whose writes do not fail, and otherwise fails with the `open` error and changes nothing |
| FileStore.Files.Remove | pkg/snap/util/local_state.go:86 | removal reports absence, failure or removal, and only a removal changes the contents |
| NodeConfiguration.ClassificationOfDistinctFlags | pkg/k8sd/controllers/node_configuration.go:85-103 | for distinct flags, each flag is left alone when unset, deleted when set to "", and updated to its value otherwise; only listed flags appear, none deleted twice |
| NodeConfiguration.ArgClassification | pkg/k8sd/controllers/node_configuration.go:82-103 | the three kubelet flags are classified by their ConfigMap values; nothing else is touched; no flag is both updated and deleted |
| NodeConfiguration.ClassifyKubeletArgs | pkg/k8sd/controllers/node_configuration.go:82-103 | the loop builds exactly the updates and deletions of the classification |
| NodeConfiguration.WithKubeProxy | pkg/k8sd/controllers/node_configuration.go:142 | recording the kube-proxy choice sets that one entry and keeps every other entry, the API version and the kind |
| NodeConfiguration.ToggleKubeProxy | pkg/k8sd/controllers/node_configuration.go:122-136 | kube-proxy is started when enabled and stopped otherwise, with its failure wrapped; its rules are removed iff the stop succeeded |
| NodeConfiguration.RecordKubeProxy | pkg/k8sd/controllers/node_configuration.go:138-145 | succeeds iff the state file reads, parses, re-serialises and is written and owned; then the file holds the old document with only the kube-proxy entry changed |
| NodeConfiguration.RecordedStateReadsBack | pkg/k8sd/controllers/node_configuration.go:138-145 | when the kube-proxy record succeeds, the state file was present, readable and parseable, and the new text parses back as the old document with only the kube-proxy entry changed |
| NodeConfiguration.Reconcile | pkg/k8sd/controllers/node_configuration.go:72-148 | succeeds iff the key, the ConfigMap, the kubelet arguments, the restart (when they changed), the kube-proxy toggle and the record all succeed; a key or ConfigMap failure changes nothing; a failed argument update or restart returns its wrapped error with no kube-proxy call and no file change; otherwise kube-proxy is started or stopped as the ConfigMap says and the local state records it as RecordedState states |
| ConfigMapCodec.WithoutSignature | pkg/k8sd/types/cluster_config_node.go:32-40 | the copy holds every entry except the signature entry |
| ConfigMapCodec.UnsignedData | pkg/k8sd/types/cluster_config_node.go:45-68 | one entry per set kubelet field and per set KubeProxyFree, "true"/"false" for the flag, the taints as their JSON text; fails iff the taints fail to encode |
| ConfigMapCodec.ClusterConfigToConfigMap | pkg/k8sd/types/cluster_config_node.go:44-84 | the signature entry is present iff a key is given; without it the map is the unsigned data; fails iff encoding or signing fails |
| ConfigMapCodec.EmptyConfigEncodesToEmptyMap | pkg/k8sd/types/cluster_config_node.go:44-84 | an unset kubelet section and an unset KubeProxyFree encode, unsigned, to the empty map |
| ConfigMapCodec.ConfigMapToClusterConfig | pkg/k8sd/types/cluster_config_node.go:88-135 | a nil map gives the zero configuration; fails iff the signature check or the taint decoding fails, and then gives the zero configuration; otherwise each field is read from its entry and nothing outside the kubelet and KubeProxyFree is set |
| ConfigMapCodec.KubeProxyFreeDecoding | pkg/k8sd/types/cluster_config_node.go:129-132 | only the exact text "true" decodes to a replaced kube-proxy |
| ConfigMapCodec.RoundTrip | pkg/k8sd/types/cluster_config_node.go:44-135 | encoding then decoding restores the kubelet settings and KubeProxyFree, signed or unsigned, when the taint codec and the signature check invert their counterparts |
| ConfigConvert.ClusterConfigFromUserFacing | pkg/k8sd/types/cluster_config_convert.go:81-132 | fails iff the load-balancer CIDRs do not split, giving the zero configuration; otherwise DNS service IP, cluster domain and cloud provider go to the kubelet section and nothing the user-facing record lacks is set |
| ConfigConvert.ToUserFacing | pkg/k8sd/types/cluster_config_convert.go:135-178 | the kubelet's DNS, domain and cloud provider return to their user-facing places; the network, annotations and load balancer are carried back |
| ConfigConvert.UserFacingRoundTrip | pkg/k8sd/types/cluster_config_convert.go:81-178 | a user-facing configuration survives the conversion to the internal form and back when the CIDR conversion does |
| ConfigConvert.InternalRoundTrip | pkg/k8sd/types/cluster_config_convert.go:81-178 | the internal-to-user-facing-and-back round trip keeps exactly the user-facing part of an internal configuration |
| ConfigConvert.BootstrapDatastore | pkg/k8sd/types/cluster_config_convert.go:25-65 | for "" or "etcd", any external option is an error, otherwise an etcd datastore with the given ports; for "external", no servers or any etcd port is an error, otherwise the external settings; any other type is an error |
| ConfigConvert.ClusterConfigFromBootstrapConfig | pkg/k8sd/types/cluster_config_convert.go:11-78 | succeeds iff the user-facing part converts and the datastore options are valid; then it sets the secure port, AlwaysAllow iff RBAC is disabled, the datastore, the pod and service CIDRs, the cloud provider and any non-empty taints, and nothing else |
| ConfigKubelet.Kubelet.GetCloudProvider | pkg/k8sd/types/cluster_config_kubelet.go:10 | the set value, or "" when unset |
| ConfigKubelet.Kubelet.GetClusterDNS | pkg/k8sd/types/cluster_config_kubelet.go:11 | the set value, or "" when unset |
| ConfigKubelet.Kubelet.GetClusterDomain | pkg/k8sd/types/cluster_config_kubelet.go:12 | the set value, or "" when unset |
| ConfigKubelet.Kubelet.GetControlPlaneTaints | pkg/k8sd/types/cluster_config_kubelet.go:13 | the set list, or the empty list when unset |
| ConfigKubelet.EmptyIffUnset | pkg/k8sd/types/cluster_config_kubelet.go:14 | a kubelet section equals the zero value iff none of its four fields is set |
| ConfigKubelet.SetToEmptyValueIsNotEmpty | pkg/k8sd/types/cluster_config_kubelet.go:10-14 | a field set to "" makes the section non-empty although its getter reads "" |
| ConfigNetwork.Network.GetEnabled | pkg/k8sd/types/cluster_config_network.go:10 | true iff the flag is set to true |
| ConfigNetwork.Network.GetPodCIDR | pkg/k8sd/types/cluster_config_network.go:11 | the set value, or "" when unset |
| ConfigNetwork.Network.GetServiceCIDR | pkg/k8sd/types/cluster_config_network.go:12 | the set value, or "" when unset |
| ConfigNetwork.Network.GetKubeProxyFree | pkg/k8sd/types/cluster_config_network.go:13 | true iff the flag is set to true |
| ConfigNetwork.EmptyIffUnset | pkg/k8sd/types/cluster_config_network.go:14 | a network section equals the zero value iff none of its fields is set; KubeProxyFree set to false still makes it non-empty |
| ClusterRecover.ToLower | cmd/k8sd/k8sd_cluster_recover.go:151 | same length, upper-case ASCII letters lowered, every other character kept |
| ClusterRecover.ConfirmsExactly | cmd/k8sd/k8sd_cluster_recover.go:145-153 | the answer confirms iff, without its newline, it is "yes" in any mix of cases |
| ClusterRecover.RecoveryCmdPrechecks | cmd/k8sd/k8sd_cluster_recover.go:122-159 | a non-terminal without non-interactive mode and a missing state directory are refused before stdin is read; stdin is read iff interactive in a terminal with a state directory, and then the checks pass iff the line confirms |
| Common.TrimSuffix | cmd/k8sd/k8sd_cluster_recover.go:149 | the suffix is cut off when present and the text is kept otherwise |
| ClusterRecover.FindFromIsFirst | cmd/k8sd/k8sd_cluster_recover.go:110-112 | a search from a position finds an occurrence with none before it, and finds nothing iff no occurrence starts at or after that position |
| ClusterRecover.FindNothingIffAbsent | cmd/k8sd/k8sd_cluster_recover.go:110-112 | a search from the start finds nothing iff the text does not contain the pattern |
| ClusterRecover.ResumeIndexEndsSearch | cmd/k8sd/k8sd_cluster_recover.go:110-112 | after deleting match after match, no occurrence is left where the deletion stops |
| ClusterRecover.FindFrom | cmd/k8sd/k8sd_cluster_recover.go:110-112 | a found position lies at or after the start of the search, with room for the whole pattern before the end |
| ClusterRecover.RemoveThroughPattern | cmd/k8sd/k8sd_cluster_recover.go:110-112 | deleting every lazy match through the pattern leaves text without the pattern unchanged, leaves no occurrence, and keeps a suffix of the text |
| ClusterRecover.RemoveYamlHelperComments | cmd/k8sd/k8sd_cluster_recover.go:109-114 | text without the footer is unchanged; the result contains no footer and is a suffix of the input |
| ClusterRecover.FooterIsSelfDisjoint | cmd/k8sd/k8sd_cluster_recover.go:68 | the footer's opening '#' occurs nowhere else in it, so two footers cannot overlap |
| ClusterRecover.HelperCommentsEndAtLastFooter | cmd/k8sd/k8sd_cluster_recover.go:109-114 | with a footer present, the result is what follows the last footer, without the spaces right after it |
| ClusterRecover.RemoveEmptyLinesKeepsText | cmd/k8sd/k8sd_cluster_recover.go:116-120 | blank-line removal deletes only white space: every other character survives in order |
| ClusterRecover.RemoveEmptyLinesShortens | cmd/k8sd/k8sd_cluster_recover.go:116-120 | blank-line removal never lengthens the text |
| ClusterRecover.RemoveEmptyLines | cmd/k8sd/k8sd_cluster_recover.go:116-120 | blank-line removal keeps every character that is not white space, in order, and never lengthens the text |
| ClusterRecover.Cleaned | cmd/k8sd/k8sd_cluster_recover.go:189-190 | the editor's answer, cleaned, is no longer than the answer and holds the non-space text after the last footer, or all of it when there is no footer |
| ClusterRecover.GuideTailKept | cmd/k8sd/k8sd_cluster_recover.go:109-114 | the helper-comment removal keeps exactly the text after a guide's footer, when that text holds no '#' and does not start with a space |
| ClusterRecover.ClusterGuide | cmd/k8sd/k8sd_cluster_recover.go:226-245 | the member-list guide opens with the header naming cluster.yaml and ends with the footer, a newline and the member list |
| ClusterRecover.InfoGuide | cmd/k8sd/k8sd_cluster_recover.go:250-263 | the info.yaml guide opens with the header naming info.yaml and ends with the footer |
| ClusterRecover.DaemonGuide | cmd/k8sd/k8sd_cluster_recover.go:269-282 | the daemon.yaml guide opens with the header naming daemon.yaml and ends with the footer |
| ClusterRecover.UnchangedClusterEdit | cmd/k8sd/k8sd_cluster_recover.go:230-245 | saving the member-list guide unchanged gives back the member list, up to blank lines, when the list holds no '#' |
| ClusterRecover.UnchangedRewriteKeepsText | cmd/k8sd/k8sd_cluster_recover.go:165-201 | saving an info.yaml or daemon.yaml guide unchanged writes back the file's own text, up to blank lines, when it holds no '#' |
| ClusterRecover.ClusterYamlContent | cmd/k8sd/k8sd_cluster_recover.go:228-248 | non-interactive recovery parses the serialised members; interactive recovery succeeds iff the editor does, and an unchanged save keeps the member list |
| ClusterRecover.EditorRound | cmd/k8sd/k8sd_cluster_recover.go:165-201 | one round succeeds iff the read (when asked), the editor and the write (when asked) succeed; the result is the cleaned answer; the file holds it iff changes are applied and the round succeeded; no other file changes |
| ClusterRecover.YamlEditorGuide | cmd/k8sd/k8sd_cluster_recover.go:165-201 | the result and the new files are exactly those of EditorRound on the files before the call |
| ClusterRecover.PathJoin | cmd/k8sd/k8sd_cluster_recover.go:226 | the joined path ends with the file name |
| ClusterRecover.JoinedNamesDiffer | cmd/k8sd/k8sd_cluster_recover.go:226-269 | paths joined from names that do not end one another differ |
| ClusterRecover.ClusterYamlIsNotRewritten | cmd/k8sd/k8sd_cluster_recover.go:226-269 | cluster.yaml is neither of the two files the editor rounds write |
| ClusterRecover.InfoYamlIsNotDaemonYaml | cmd/k8sd/k8sd_cluster_recover.go:250-269 | info.yaml and daemon.yaml are different paths, so the daemon round reads what it would have read before the info round |
| ClusterRecover.InteractiveEdits | cmd/k8sd/k8sd_cluster_recover.go:228-287 | the edits succeed iff all three rounds do, and then give the edited member list with info.yaml and daemon.yaml holding their cleaned edits; a failed member-list or info.yaml round writes nothing; a failed daemon.yaml round leaves info.yaml written; no other file changes |
| ClusterRecover.EditInteractively | cmd/k8sd/k8sd_cluster_recover.go:228-287 | the result and the new files are exactly those of InteractiveEdits on the files before the call |
| ClusterRecover.RecoverK8sd | cmd/k8sd/k8sd_cluster_recover.go:204-318 | success iff every stage succeeds and microcluster's recovery returns the tarball (RecoveredTo); each failing stage returns its own wrapped error and no tarball; the files end as InteractiveEdits leaves them when the editor rounds run, and unchanged otherwise |
| CertificatesExpiry.ExpiryCertificates | pkg/k8sd/api/capi_certificates_expiry.go:21-27 | the five certificates inspected |
| CertificatesExpiry.EarliestExpiryStopsAtError | pkg/k8sd/api/capi_certificates_expiry.go:29-45 | once a certificate fails to load, the rest are not looked at |
| CertificatesExpiry.EarliestExpiryFails | pkg/k8sd/api/capi_certificates_expiry.go:29-45 | the search fails iff a present certificate fails to load, and reports the first such failure |
| CertificatesExpiry.EarliestExpiryIsMinimum | pkg/k8sd/api/capi_certificates_expiry.go:29-45 | when every present certificate loads, the result is the minimum NotAfter, attained by one of them, or the zero time iff none is present |
| CertificatesExpiry.PostCertificatesExpiry | pkg/k8sd/api/capi_certificates_expiry.go:15-50 | a configuration error is wrapped; otherwise the loop answers the search over the five certificates |
| NodeApi.Split | pkg/k8sd/api/node.go:46 | splitting yields one piece more than there are separators, and no piece holds the separator |
| NodeApi.Join | pkg/k8sd/api/node.go:46 | the joined text opens with the first piece, followed by the separator when there are more |
| NodeApi.JoinSplit | pkg/k8sd/api/node.go:46 | joining the pieces gives the text back |
| NodeApi.SplitJoin | pkg/k8sd/api/node.go:46 | splitting the join of separator-free pieces gives the pieces back |
| NodeApi.GetNodeTaints | pkg/k8sd/api/node.go:37-47 | an unset argument gives nil, a read error is wrapped, and a set one gives the comma-separated pieces that join back to it |
| NodeApi.GetNodeStatus | pkg/k8sd/api/node.go:17-34 | an error status iff the local status or the taints read fails; otherwise the local status with its taints |
| Impl.GetClusterMembers | pkg/k8sd/api/impl/k8sd.go:15-37 | each error is wrapped; otherwise every member, in order, as a control-plane status with its address and parsed datastore role |
| Impl.GetLocalNodeStatus | pkg/k8sd/api/impl/k8sd.go:41-62 | fails iff the worker check fails; a worker is reported as a worker; another node is its control-plane entry, or an unknown-role status when the lookup fails or finds nothing |
| Impl.LocalStatusOfControlPlaneNode | pkg/k8sd/api/impl/k8sd.go:49-61 | a non-worker is reported as control-plane iff the member list names it, with the first such member's address and role; otherwise with an unknown role |
| NodeUtil.DatastoreRoleFromString | pkg/utils/node/node.go:48-61 | each of the four role strings maps to its role, and every other string to Unknown |
| NodeUtil.RoleParsingIsCaseSensitive | pkg/utils/node/node.go:48-61 | "pending", "" and "Voter" parse as Unknown |
| NodeUtil.FirstByName | pkg/utils/node/node.go:25-34 | the index of the first member of that name, or none iff none is |
| NodeUtil.GetControlPlaneNode | pkg/utils/node/node.go:14-36 | fails iff a client call fails; none iff no member has the name; otherwise the first such member as a control-plane status |
| NodeUtil.IsControlPlaneNode | pkg/utils/node/node.go:39-45 | fails iff a client call fails; otherwise true iff a member has the name |
| K8sdClient.BootstrapCluster | pkg/client/k8sd/cluster.go:12-23 | refused iff the app is not ready; otherwise posted with the request timeout plus 30 seconds |
| K8sdClient.JoinCluster | pkg/client/k8sd/cluster.go:25-37 | refused iff the app is not ready; otherwise posted with the request timeout plus 30 seconds |
| K8sdClient.RemoveNode | pkg/client/k8sd/cluster.go:39-47 | always posted, without a readiness check, with the request timeout plus 30 seconds |
| K8sdClient.DeadlinesAgree | pkg/client/k8sd/cluster.go:19-42 | the three calls have the same deadline, and it lies beyond the server-side timeout |
| K8sdClient.GetClusterMember | pkg/client/k8sd/cluster.go:57-70 | a listing error is wrapped; found iff a member has the name, then the first one; otherwise "not found" |
| WorkerAccess.RestrictWorkers | pkg/k8sd/api/worker_access_handler.go:15-28 | allowed iff the node is known not to be a worker; a check error answers 500, a worker 403 |
| WorkerAccess.ValidateWorkerInfoAccess | pkg/k8sd/api/worker_access_handler.go:31-64 | allowed iff both headers are present, the name cleans to a hostname and the database confirms the token for it; every refusal has its status |
| WorkerAccess.HeaderRefusalNeedsNoDatabase | pkg/k8sd/api/worker_access_handler.go:33-45 | a request refused on its headers gets the same refusal whatever the database holds |
| CapiAccess.ValidateCapiAuthTokenAccess | pkg/k8sd/api/capi_access_handler.go:13-37 | allowed iff the token header is present and the database confirms it; refusals are 401 or 500 |
| CapiAccess.MissingTokenNeedsNoDatabase | pkg/k8sd/api/capi_access_handler.go:15-19 | a missing header is refused whatever the database holds |
| NodeAccess.TrimSpace | pkg/k8sd/api/node_access_handler.go:24 | the result has no white space at either end and is no longer than the input |
| NodeAccess.TrimSpaceCutsOnlySpace | pkg/k8sd/api/node_access_handler.go:24 | the result is a slice of the input with only white space before and after it |
| NodeAccess.TrimSpaceOfPadded | pkg/k8sd/api/node_access_handler.go:24 | text padded with white space trims to itself when its own ends are not white space |
| NodeAccess.TrimSpaceIdempotent | pkg/k8sd/api/node_access_handler.go:24 | trimming twice is trimming once |
| NodeAccess.ValidateNodeTokenAccess | pkg/k8sd/api/node_access_handler.go:12-32 | allowed iff the header is present and equals the trimmed token file; a missing header is 401, an unreadable file 500, a mismatch 401 |
| NodeAccess.PaddedHeaderIsRefused | pkg/k8sd/api/node_access_handler.go:14-28 | a header token with white space at an end is always refused |
| NodeAccess.PaddedFileIsAccepted | pkg/k8sd/api/node_access_handler.go:20-28 | white space around the token in the file, such as a trailing newline, does not matter |
| UrlPath.URL.constructor | pkg/utils/url.go:10 | a URL with the given scheme and host and every other part empty |
| UrlPath.MapEscape | pkg/utils/url.go:17-22 | every part is escaped, in order |
| UrlPath.AbsoluteAppend | pkg/utils/url.go:17-22 | the path of two concatenated part lists is the concatenation of their paths |
| UrlPath.AbsoluteLength | pkg/utils/url.go:17-22 | the path has one "/" per part on top of the parts' lengths |
| UrlPath.AbsoluteStartsWithSlash | pkg/utils/url.go:17-22 | with at least one part the path is absolute |
| UrlPath.Path | pkg/utils/url.go:10-27 | the URL's path is the parts joined absolutely, its raw path the escaped parts joined the same way; the URL itself is returned and its other parts are kept |
| CsrSigning.InternalConfigFromAnnotations | pkg/k8sd/controllers/csrsigning/config.go:12-18 | auto-approve iff the annotation is present with the value "true" |
| CsrSigning.OtherAnnotationsDoNotMatter | pkg/k8sd/controllers/csrsigning/config.go:12-18 | adding or changing any other annotation leaves the setting as it is |
| CsrSigning.OnlyLowerCaseTrueApproves | pkg/k8sd/controllers/csrsigning/config.go:12-18 | "True", "1", "" and an absent annotation do not approve; "true" does |
| AuthTokens.JoinErrors | pkg/k8sd/api/kubernetes_auth_tokens.go:74 | no error iff neither is there; one error alone is kept; two are joined by a newline |
| AuthTokens.HeaderError | pkg/k8sd/api/kubernetes_auth_tokens.go:61-77 | no error iff the group-version is known and the kind is TokenReview |
| AuthTokens.PostKubernetesAuthWebhook | pkg/k8sd/api/kubernetes_auth_tokens.go:48-101 | an undecodable body answers 400 with its partial review; a bad version or kind answers 401 with corrected header fields and a fresh status; an unknown token 401; a valid one 200 with the user, the uid and the request's audiences; 200 iff authenticated |
| AuthTokens.PostKubernetesAuthTokens | pkg/k8sd/api/kubernetes_auth_tokens.go:18-30 | a malformed request answers 400; otherwise the token is issued, or the store's error answers 500; a token iff both succeed |
| AuthTokens.DeleteKubernetesAuthTokens | pkg/k8sd/api/kubernetes_auth_tokens.go:32-44 | a malformed request answers 400, a failed revocation 500, and a revocation that succeeds an empty success; never a token |

## Left out

- Logging, `cmd.Print` and the prompt texts are not modelled. The recovery command's
  pre-recovery and non-interactive messages are among them.
- Contexts, timeouts, cancellations and `control.RetryFor` are not modelled. Each retried call
  is one call whose outcome is that of its last attempt.
- `control.WaitUntilReady`'s polling interval and the end of its context are not modelled. The
  wait sees a finite sequence of answers, and running out of answers stands for the context
  ending.
- The detached context that `removeNodeFromMicrocluster` uses for `RemoveClusterMember` is not
  modelled.
- The node configuration controller's `Run` loop, `ReconciledCh` and `notifyReconciled` are
  left out: they are concurrency and channel plumbing.
- `cleanup.RemoveKubeProxyRules` is the `cleanedRules` result. The rules themselves are not
  modelled.
- `snaputil.UpdateServiceArguments` is a parameter: it edits the kubelet's argument file,
  which is not part of this model.
- Hashing, RSA signing and verification, and base64 are folded into the `sign` and `verify`
  parameters.
- ConfigMapCodec.ClusterConfigToConfigMap: the "failed to compute hash" error and the
  signing error wrap are part of `sign`'s error.
- ConfigMapCodec.ConfigMapToClusterConfig: the "failed to compute config hash" and "failed to
  parse signature" errors are part of `verify`'s error.
- YAML and JSON encoding and decoding are parameters. The HTTP bodies are given decoded.
- `utils.YamlCommentLines`, `shared.TextEditor`, `utils.CleanHostname` and `url.PathEscape`
  are parameters.
- microcluster's `App`, `GetDqliteClusterMembers` and `RecoverFromQuorumLoss` are answers or
  parameters. The validation and backup they perform inside microcluster are not modelled.
- `path.Join` is modelled for directory names that need no cleaning: no `..`, no repeated
  slashes.
- `%q` is modelled as plain double quotes (`Common.Quote`). Escaping of quotes, backslashes
  and unprintable characters is not modelled.
- The values of the annotation keys `AnnotationSkipCleanupKubernetesNodeOnRemove` and
  `AnnotationAutoApprove` are defined in the external API package and are not shown here. The
  model uses constants, and no property depends on their text.
- The lxd `revert` package is not shown. Its Fail and Success are modelled as one-shot: after
  either, the reverter is disarmed.
- The reverter's real actions are modelled only through their effect on the host. That
  includes `os.RemoveAll`, whose failure is not modelled, and the etcd client.
- `RegisterEtcdMemberReverter`'s own source is not shown. The model follows the behaviour
  described in the test file: fewer than three endpoints skip the cleanup, and a failing client
  or member removal keeps the directory.
- A failing read, write or removal gives Go's error text for a refused permission, and a missing
  file the text for a missing file. Other operating-system errors are not modelled.
- The file mode of written files and the snap user and group of the chown are not modelled.
  The chown is an outcome.
- The database transactions around token checks are single parameters.
- Times are integers counted from Go's zero time. The RFC 3339 rendering of the expiry is not
  modelled.
- CertificatesExpiry.EarliestExpiryIsMinimum: assumes that no certificate has the zero
  NotAfter. The code treats a zero NotAfter as unset, and the lemma does not cover it.
- Go's `int`/`int64` wrap-around is not modelled. Ports, timeouts and durations are unbounded
  integers, and `timeout + 30s` cannot overflow in the model.
- `TrimSpace` works on decoded characters. Invalid UTF-8 in the token file is not modelled.
- `strings.ToLower` is modelled on ASCII letters only. This is exact for comparing with "yes",
  because no non-ASCII character lowers to an ASCII letter of "yes".
- A nil Go map and an empty one are the same `map` in the model. The exception is the
  ConfigMap's data, where nil is `None`.
- `K8sdClient.GetJoinToken`, `GetClusterMembers` and `RemoveClusterMember` are left out: each
  passes its request straight to the server and holds no logic of its own.
- ClusterRemove.ClusterRemoval: the cluster-configuration and control-plane-check errors are
  stated as internal errors, without their message text.
- ConfigConvert.ClusterConfigFromBootstrapConfig: does not state the "invalid cluster
  configuration" error text.
- NodeUtil.GetControlPlaneNode: does not state the error text of its two client failures.
- WorkerAccess.ValidateWorkerInfoAccess: the 400 answer for a bad hostname is stated without
  its message.
- The wait in `removeNodeFromMicrocluster` polls the member that serves the request
  (`s.Name()`), not the departing node, as written. The model keeps that: it is the
  microcluster oracle's `localName`.
