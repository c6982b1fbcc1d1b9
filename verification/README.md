# Verified model of the Argo CD pull integration controllers

The controllers keep Argo CD agents running on a fleet of clusters by reading and writing Kubernetes objects. This
project models them as programs over an API store in which every call has an outcome of its own: accepted, rejected
without effect, or lost (the write took effect, the caller is told it failed). A lost update conflict or a throttled
call is a rejected one. All statements are proved by Dafny for all inputs, all outcomes and, where runs are
concerned, all runs; they are about this model, and no statement rests on a run of the controllers.

| part | modules |
|---|---|
| the API store | `Kube` |
| spoke add-on, installer against uninstaller | `PauseProtocol`, `UninstallLaws`, `Uninstaller`, `Installer` |
| spoke add-on, client keypair and agent restarts | `CertDigest`, `AgentCertificate` |
| principal certificate and restarts, advertised address | `PrincipalCertificate`, `ServerDiscovery` |
| per-cluster client certificates | `ClientCertificate` |
| basic pull: Applications, works, status feedback, orphans | `Json`, `ApplicationPayload`, `BasicPull`, `StatusSync` |
| hub fleet: one cluster / the store / whole passes / conditions | `AppendMissing`, `RegistrationUrl`, `EndpointInjection`, `FleetView`, `FleetContent`, `FleetCertificates` / `FleetStore`, `FleetClusters` / `FleetRun`, `FleetLaws` / `FleetStatus`, `FleetGates`, `FleetController`, `FleetReports` |

How it is put together:

- `PauseProtocol` interleaves both spoke processes and everybody else on the cluster call by call. `Uninstaller` and
  `Installer` hold the two programs in imperative form. What the others do before the n-th call and the outcome of that
  call are given; where the program leaves the cluster, how many calls it makes and what it answers is proved to be what
  the machine's one run under these events and outcomes gives. So the safety results of `PauseProtocol` speak about the
  programs.
- The hub fleet is described cluster by cluster in `FleetView` (pure functions on the objects of one cluster).
  `FleetContent` says what these objects hold afterwards without naming those functions. `FleetStore` places the objects
  under their generated names in one flat store and proves that no two clusters share a key. `FleetClusters` and
  `FleetController` are the imperative code; every method ends in exactly the store those functions give. `FleetRun` and
  `FleetLaws` prove convergence, the fixpoint and isolation about whole passes.
- `BasicPull`, `StatusSync`, `AgentCertificate` and `PrincipalCertificate` pair a step function with a class whose
  methods are proved to compute it. `ApplicationPayload` works on heap trees, so that "the hub Application is not
  changed" is a statement about nodes.

## What the code does not do

Where the code and what its comments or documentation say differ, the model follows the code, and a lemma says exactly
when the expected property holds.

- A failed read of the pause marker counts as "not paused" (`PauseProtocol.InstallStartsIff`). An existing marker of any
  content is accepted (`PauseProtocol.CreateMarkerExact`). Uninstalling can report success although Deployments are
  left: in the default configuration, which never looks at the cluster again, and when the last list call fails
  (`PauseProtocol.SuccessIff`, `PauseProtocol.SuccessMeansCleanIff`).
- The principal's restart is announced to be retried at the next resync, but never is
  (`PrincipalCertificate.MissedRestartIsLost`, `PrincipalCertificate.FreshAfterIff`).
- A client certificate issued next to its signer's end is rejected by the controller's own check and issued again in
  every reconcile; `ClientCertificate.AcceptedIff` says when what is issued is accepted.
- Names of ArgoCD works contain namespace and name to be unique. They are within one namespace, but two GitOpsClusters in
  different namespaces can get the same one; `FleetStore.NamesCollideIff` says when.
- A CA work whose manifest cannot be read is never repaired (`FleetView.TurnSettles`, `FleetView.Repairable`).
- A cluster that left the placement is found through its add-on. Once that is gone, what a failed call left behind stays
  for ever; `FleetLaws.RemovalCompletesIff` says when that happens.
- A placed cluster whose ManagedCluster cannot be read is taken down (`FleetReports.PlacedClusterKeptIff`).
- Deleting an Application whose work is already gone releases it and then reports an error; exactly then
  (`BasicPull.ReleaseReportsError`).
- The work's payload is copied from the hub Application in its spec only; its operation is the hub Application's own map
  (`ApplicationPayload.PreparePayloadBody`).
- Discovery replaces both halves of the endpoint when one of them is empty, also a half set by the user
  (`ServerDiscovery.GitOpsClusterSpec.EnsureServerAddressAndPort`).

## Model

| member | source | states |
|---|---|---|
| PauseProtocol.MarkerSurvives | internal/addon/addon_cleanup.go:163-261 | an effective marker survives every delete pass and every interleaving: its labels never match the selector |
| PauseProtocol.CreateMarkerExact | internal/addon/addon_cleanup.go:236-261 | the marker step leaves an effective marker iff none was there and the write took effect, or an effective one was there already; it reports failure iff its call failed |
| PauseProtocol.InstallStartsIff | internal/addon/addon_cleanup.go:265-289 | an idle installer starts an install unless the marker says paused and could be read |
| PauseProtocol.QuietRun | internal/addon/addon_controller.go:105-124 | while the marker is up and readable no install begins, and the set of labelled operator Deployments only shrinks |
| PauseProtocol.SweepRun | internal/addon/addon_cleanup.go:176-199 | while the uninstaller is on its way to a fault-free pass or in it, every Deployment still there is on the list being deleted, or there is none, under every interleaving |
| PauseProtocol.CleanForEver | internal/addon/addon_cleanup.go:163-356 | one fault-free first pass or verification round begun after the last install ended leaves no labelled Deployment, in any later state |
| PauseProtocol.UninstallIsFinal | internal/addon/addon_cleanup.go:56-154 | the same from the uninstaller's first call on, with no marker or an effective one of an earlier attempt, and an install still in flight |
| PauseProtocol.PassClearsEveryKind | internal/addon/addon_cleanup.go:163-233 | from before a fault-free delete pass: it is still under way, or no labelled object of any of the eight kinds is left, whatever else goes on |
| PauseProtocol.KindStaysGone | internal/addon/addon_cleanup.go:293-335 | with the marker up, a kind once gone stays gone, whatever fails later |
| PauseProtocol.FirstPassIsFinal | internal/addon/addon_cleanup.go:132-153 | the default program: with no install in flight once the marker is up, its one fault-free pass leaves no labelled object of any of the eight kinds, in any later state |
| PauseProtocol.SuccessIff | internal/addon/addon_cleanup.go:135-153 | exactly when the program reports success: after the first pass without verification, or after a last look that takes a failed list for clean |
| PauseProtocol.SuccessMeansCleanIff | internal/addon/addon_cleanup.go:339-393 | success implies that no labelled Deployment is left exactly where it comes from a last list that worked; otherwise a store with one left gives success too |
| PauseProtocol.UninstallerProgress | internal/addon/addon_cleanup.go:97-110 | every call brings the uninstaller nearer to its end, whatever the outcomes and the other processes |
| UninstallLaws.NoPassBeforeArgoCDIsDealtWith | internal/addon/addon_cleanup.go:71-135 | in every run the first delete pass is reached, and success reported, only after the ArgoCD object was reported absent, or was deleted and waited for until gone or for two minutes; and success only after a verification look every twenty seconds for the configured time |
| UninstallLaws.SuccessMeansArgoCDGone | internal/addon/addon_cleanup.go:82-123 | if nobody else makes the ArgoCD object it is gone when a delete pass begins and when success is reported, whatever fails, and at every end if nothing fails |
| UninstallLaws.RoundDeletesArgoCD | internal/addon/addon_cleanup.go:307-321 | a fault-free verification round deletes an ArgoCD object that came back |
| Uninstaller.OthersRun | internal/addon/addon_cleanup.go:56-154 | events of the other processes neither see nor change the uninstaller's place in its program |
| Uninstaller.WholeIsRun | internal/addon/addon_cleanup.go:56-154 | the program run to its end is the machine's run over the events given between its calls and its own ones, one per call with that call's outcome |
| Uninstaller.UndisturbedEndsClean | internal/addon/addon_cleanup.go:56-154 | with accepted outcomes, admissible others and no install in flight at some point before or in a sweep, the program ends with the marker up and no labelled Deployment, verified or not |
| Uninstaller.UninstallRemovesArgoCD | internal/addon/addon_cleanup.go:71-123 | the same about the program: success implies the ArgoCD object was dealt with and, if nobody else makes it, that it is gone; without faults it is gone at the end |
| Uninstaller.QuietUninstallClearsEveryKind | internal/addon/addon_cleanup.go:163-233 | if moreover no install is in flight once the marker is written, none of the eight kinds is left |
| Uninstaller.Process.CreatePauseMarker | internal/addon/addon_cleanup.go:236-261 | one create call with its given outcome takes the machine's first step; an existing marker is no error |
| Uninstaller.Process.DeleteArgoCD | internal/addon/addon_cleanup.go:71-123 | deletion of the ArgoCD object and the polling loop take the machine to the delete pass or to failure, towards the same end |
| Uninstaller.Process.DeleteOperatorResources | internal/addon/addon_cleanup.go:163-233 | the nested loops take the machine through one delete pass, towards the same end |
| Uninstaller.Process.VerifyNamespaceCleanup | internal/addon/addon_cleanup.go:360-380 | reports Deployments iff its list call is accepted and there are some at that moment |
| Uninstaller.Process.WaitAndVerifyCleanup | internal/addon/addon_cleanup.go:293-356 | the verification loop takes the machine to its end, with the answer it returns |
| Uninstaller.Process.UninstallArgoCDAgent | internal/addon/addon_cleanup.go:56-154 | store, number of calls and answer are those of the machine's run under the given events and outcomes; undisturbed, no labelled Deployment is left; success implies that the ArgoCD object was dealt with and, if nobody else makes it, that it is gone |
| Installer.Process.ApplyManifest | internal/addon/addon_utils.go:176-214 | get, skip annotation, label, create or update take the machine past one manifest, towards the same end |
| Installer.Process.Reconcile | internal/addon/addon_controller.go:105-124 | store and number of calls are those of the machine's run under the given events and outcomes; undisturbed and not paused, the whole chart is on the cluster under the add-on's label |
| Installer.WholeIsRun | internal/addon/addon_controller.go:105-124 | a reconcile is the machine's run over the events given between its calls and its own ones |
| Installer.OneMarkerRead | internal/addon/addon_controller.go:111-118 | a reconcile reads the marker once, by its first call: it meets the protocol's hypothesis about marker reads iff that call is accepted |
| Installer.InstallerWritesLabelled | internal/addon/addon_utils.go:199-213 | whatever a step of the installer changes in the store is the manifest's object with the add-on's label and nothing else changed; it removes nothing |
| Installer.OnlyTheChartIsPlanned | internal/addon/addon_utils.go:99-135 | over every run only manifests of the chart are ever written |
| Installer.ReconcileInstalls | internal/addon/addon_utils.go:176-214 | an undisturbed reconcile that is not paused leaves every manifest of the chart on the cluster under that label, objects marked to be skipped and all others as they were; a paused one changes nothing |
| Installer.Process.IsPaused | internal/addon/addon_cleanup.go:265-289 | paused iff the marker can be read at that call and says so |
| CertDigest.DigestInputRoundTrip | internal/addon/addon_install.go:327-334 | a reader undoes the length-prefixed format for every keypair of byte strings |
| CertDigest.DigestInputInjective | internal/addon/addon_install.go:322-334 | equal digest inputs come from equal keypairs |
| CertDigest.DigestIdentifies | internal/addon/addon_install.go:317-334 | with a collision-free hash, digests agree iff the keypairs do |
| CertDigest.PlainConcatenationIsAmbiguous | internal/addon/addon_install.go:322-323 | without the lengths every keypair with a certificate has a different one with the same bytes |
| AgentCertificate.RecordsPersistedRun | internal/addon/addon_install.go:295-314 | over every run, a digest on the agent Deployment is that of a keypair that has been persisted in the target secret |
| AgentCertificate.RestartBound | internal/addon/addon_install.go:376-395 | in every run restarts are at most source changes plus losses of the recorded digest plus what was owed at the start |
| AgentCertificate.SteadyStateNeverRestarts | internal/addon/addon_install.go:349-351 | with a stable source and Deployment no number of reconciles, faulty or not, restarts an agent on the current digest |
| AgentCertificate.ConvergesInOne | internal/addon/addon_install.go:231-315 | from every state one fault-free reconcile makes target equal source and the recorded digest the source's |
| AgentCertificate.ConvergedStays | internal/addon/addon_install.go:376-380 | a second fault-free reconcile changes nothing and restarts nothing |
| AgentCertificate.TargetLabelled | internal/addon/addon_install.go:256-303 | the persisted copy carries the add-on's label and keeps labels that were there |
| AgentCertificate.AddonReconciler.RestartAgentDeployment | internal/addon/addon_install.go:406-428 | the patch sets the two annotations of an existing Deployment and nothing else |
| AgentCertificate.AddonReconciler.EnsureAgentRestartedForCert | internal/addon/addon_install.go:356-395 | a restart happens iff the Deployment can be read and carries another digest |
| AgentCertificate.AddonReconciler.CopyClientCertificate | internal/addon/addon_install.go:231-315 | one reconcile of the imperative code is one undisturbed run of the machine; it fails iff a keypair that is there cannot be read or stored |
| PrincipalCertificate.RestartsIffChangeSeen | internal/controller/argocd_agent_certificates.go:186-226 | a call restarts the principal iff both reads worked and saw different bytes and a patch took effect |
| PrincipalCertificate.StableNeverRestarts | internal/controller/argocd_agent_certificates.go:178-185 | while the stored bytes stay the same no number of calls restarts anything, whatever fails, failing rotations and such that write the same bytes included |
| PrincipalCertificate.MissedRestartIsLost | internal/controller/argocd_agent_certificates.go:199-223 | a byte change whose restart was missed, for any reason, leaves the pods on the old certificate until the bytes change again |
| PrincipalCertificate.FreshAfterIff | internal/controller/argocd_agent_certificates.go:215-223 | exactly when a fault-free call leaves the principal on the stored certificate |
| PrincipalCertificate.EdgeVersusLevel | internal/addon/addon_install.go:340-351 | after a failed restart the edge rule stays stale for ever while the level rule repairs it in one reconcile |
| PrincipalCertificate.PrincipalReconciler.RestartPrincipalDeployment | internal/controller/argocd_agent_certificates.go:256-283 | the first of the two Deployments that takes the patch is restarted, the other kept |
| PrincipalCertificate.PrincipalReconciler.EnsurePrincipalCertificate | internal/controller/argocd_agent_certificates.go:142-226 | the imperative code computes the step; it fails iff CA, informers or rotation fail, never because of a restart |
| ServerDiscovery.DistinctIsSound | internal/controller/argocd_agent_certificates.go:504-515 | deduplication keeps exactly the members and leaves no duplicate |
| ServerDiscovery.DistinctKeepsOrder | internal/controller/argocd_agent_certificates.go:501-515 | the order is that of first occurrences |
| ServerDiscovery.AddressIsAppended | internal/controller/argocd_agent_certificates.go:433-437 | the advertised address never changes the first name, which becomes the subject |
| ServerDiscovery.AdvertisedAddressIsCertified | internal/controller/argocd_agent_certificates.go:430-499 | the address agents dial is among the certificate's names, for every Service and node list |
| ServerDiscovery.NodePortIsReal | internal/controller/server_discovery.go:114-140 | a NodePort result is a port some node listens on whenever there is one |
| ServerDiscovery.LoadBalancerIsDiscovered | internal/controller/server_discovery.go:86-112 | hostname, or else IP, of the first ingress entry that has one, with the first https, 443 or 8443 port of the Service, or 443 |
| ServerDiscovery.NodeIsDiscovered | internal/controller/server_discovery.go:114-140 | without ingress a NodePort Service is reached at the first InternalIP of the first node that has one |
| ServerDiscovery.NothingIsDiscovered | internal/controller/server_discovery.go:114-143 | otherwise discovery fails |
| ServerDiscovery.DiscoverServerAddressAndPort | internal/controller/server_discovery.go:77-144 | the search loops find the endpoint the specification gives, or fail when it does |
| ServerDiscovery.GetPrincipalHostNames | internal/controller/argocd_agent_certificates.go:430-486 | the loops compute the list of names the lemmas above speak of |
| ServerDiscovery.DedupeHostNames | internal/controller/argocd_agent_certificates.go:504-515 | the loop with a set of seen names computes the deduplication |
| ServerDiscovery.GetNodeInternalIP | internal/controller/server_discovery.go:174-187 | the first InternalIP of the first node that has one |
| ServerDiscovery.GitOpsClusterSpec.EnsureServerAddressAndPort | internal/controller/server_discovery.go:44-73 | both fields are kept iff both are set; otherwise both are replaced by what is discovered, or kept on failure |
| ClientCertificate.RenewAfterFifth | internal/controller/argocd_agent_clusters.go:445-450 | for certificates with an ordinary lifetime the check is "no later than a fifth before expiry", under int64 arithmetic |
| ClientCertificate.NeverOutlivesSigner | internal/controller/argocd_agent_clusters.go:404-420 | an issued certificate never outlives its signer if signed within the skew; exactly then when the signer was the limit |
| ClientCertificate.AcceptedIff | internal/controller/argocd_agent_clusters.go:342-360 | exactly when a certificate issued at one time passes the check at another: while a fifth of its lifetime, as encoded, is left |
| ClientCertificate.AcceptedByNextCheck | internal/controller/argocd_agent_clusters.go:423-466 | with ample validity what was just issued passes the next check, and every one up to a fifth of its lifetime before the end |
| ClientCertificate.ShortCertificateIsRejected | internal/controller/argocd_agent_clusters.go:345-360 | at a full second and with less than one unit of encoded time left the controller rejects its own certificate |
| ClientCertificate.ValidIsLeftAlone | internal/controller/argocd_agent_clusters.go:337-343 | a certificate that passes the check is left as it is, and that is a success |
| ClientCertificate.ReplacedByIssued | internal/controller/argocd_agent_clusters.go:345-395 | only a certificate that does not pass is replaced, by one for the cluster from the signer with its own key, for at most thirty days and no longer than the signer has left |
| ClientCertificate.SafeRun | internal/controller/argocd_agent_clusters.go:317-401 | over every run in which what is issued would pass the check at once, the stored certificate had a fifth of its lifetime left when last touched |
| ClientCertificate.IssuedIsSafeIff | internal/controller/argocd_agent_clusters.go:342-360 | that condition is exact: what is issued has a fifth of its lifetime left iff it would pass the check at once |
| ClientCertificate.StaysFresh | internal/controller/argocd_agent_clusters.go:317-401 | later calls, failed or lost ones included, replace a fresh certificate by a fresher one or leave it alone |
| ClientCertificate.NeverExpired | internal/controller/argocd_agent_clusters.go:445-450 | after any history, a successful reconcile and any later calls, the certificate then stored is not expired up to a fifth of its lifetime after that success |
| ClientCertificate.HasExtKeyUsage | internal/controller/argocd_agent_clusters.go:469-477 | the loop decides membership |
| ClientCertificate.HasValidClusterClientCertificate | internal/controller/argocd_agent_clusters.go:423-466 | all branches of the check, including the search for a signer |
| ClientCertificate.ClusterCertificate.EnsureClusterClientCertificate | internal/controller/argocd_agent_clusters.go:317-401 | the imperative code computes the step of the run, and fails iff it does |
| Json.SetAllExact | internal/basic/application/application_status_controller.go:143-183 | setting nested fields works iff each way is free; then exactly those fields hold the values and all other paths are kept |
| Json.DeepCopy | internal/basic/application/helper.go:132-133 | the copy is an equal tree of new nodes; nothing is modified |
| EndpointInjection.SameForm | internal/controller/argocd_cr_manifest_work.go:281-302 | injecting does not change which of the two forms the manifest uses |
| EndpointInjection.LeavesAfter | internal/controller/argocd_cr_manifest_work.go:265-317 | both values end up set; a non-empty value of the user's is kept |
| EndpointInjection.EndpointAfter | internal/controller/argocd_cr_manifest_work.go:265-317 | at the named places the user's own address and port stay where there are any and the given ones are put where there are none; a manifest that is not an ArgoCD is unchanged |
| EndpointInjection.ReinjectionIsNoOp | internal/controller/argocd_cr_manifest_work.go:261-264 | injecting any other endpoint afterwards changes nothing |
| EndpointInjection.RestIsKept | internal/controller/argocd_cr_manifest_work.go:276-316 | every path that does not lead to or through the target leaves is kept when the way to them is well-typed |
| EndpointInjection.InjectServerEndpoint | internal/controller/argocd_cr_manifest_work.go:265-317 | the nested edits compute the injection; a manifest that is not an ArgoCD is returned as it is |
| ApplicationPayload.PayloadNeverPulled | internal/basic/application/helper.go:160-180 | no payload qualifies for pulling again on the spoke |
| ApplicationPayload.WorkNamesItsApplication | internal/basic/application/helper.go:197-211 | a generated work carries the collector's label and the name of its Application |
| ApplicationPayload.WorkIgnoresStatus | internal/basic/application/helper.go:114-158 | the generated work does not depend on the Application's status |
| ApplicationPayload.SpecElsewhereIsTheHubs | internal/basic/application/helper.go:130-158 | the payload spec equals the hub's at every path but destination name and server |
| ApplicationPayload.DestinationFollowsAnnotations | internal/basic/application/helper.go:134-156 | destination name and server follow the annotation rules |
| ApplicationPayload.PayloadCarries | internal/basic/application/helper.go:114-158 | the payload in a work has the Application's name and finalizers, its namespace or the annotated one, its operation and spec if they are objects, and nothing else of its body |
| ApplicationPayload.PayloadMetaIs | internal/basic/application/helper.go:160-188 | its labels and annotations are the Application's but for the hub's own and those of an owning ApplicationSet |
| ApplicationPayload.PayloadSpecElsewhere | internal/basic/application/helper.go:130-158 | its spec is the hub's at every path but destination name and server |
| ApplicationPayload.PayloadDestination | internal/basic/application/helper.go:134-156 | and there it says what the annotations ask for, or the local cluster |
| ApplicationPayload.PreparePayloadSpec | internal/basic/application/helper.go:130-158 | on the heap the payload's spec consists of new nodes only and no existing node is modified |
| ApplicationPayload.PreparePayloadBody | internal/basic/application/helper.go:125-158 | nothing is modified; the payload has a spec and an operation iff the hub Application has them as objects; the spec is a new tree, the operation the hub's own node |
| ApplicationPayload.GetAppSetOwnerName | internal/basic/application/helper.go:97-107 | the first ApplicationSet owner, if any |
| ApplicationPayload.PreparePayloadMeta | internal/basic/application/helper.go:160-188 | labels and annotations of the payload as the loops leave them |
| BasicPull.OnlyOwnWorkIsWritten | internal/basic/application/application_controller.go:224-248 | the only work a reconcile creates or changes is the one at its Application's key, with the generated content |
| BasicPull.OperationIsDelivered | internal/basic/application/application_controller.go:224-257 | whatever fails, an operation is stripped only when the cluster is known and the work carrying it has been accepted |
| BasicPull.NoWorkWithoutCluster | internal/basic/application/application_controller.go:217-222 | for a cluster that is unknown or cannot be read nothing is written, and that is an error |
| BasicPull.LiveSucceedsIff | internal/basic/application/application_controller.go:217-261 | the reconcile of a live Application succeeds iff all its calls do; then its work says what is generated from it and no operation is left |
| BasicPull.WrittenWorkIsCollectable | internal/basic/application/application_controller.go:224-248 | every work written is found by the collector's selector and names its Application |
| BasicPull.DeletedApplicationLosesItsWorks | internal/basic/application/application_controller.go:107-148 | after a fault-free reconcile of a missing Application exactly the listed works naming it are gone |
| BasicPull.FinalizerWaitsForWork | internal/basic/application/application_controller.go:176-215 | finalizer removal is persisted only after the work was reported absent or its deletion accepted |
| BasicPull.ReleaseReportsError | internal/basic/application/application_controller.go:192-214 | without faults a deleted Application is always released, and the reconcile succeeds iff its work was still there |
| BasicPull.Collector.Cleanup | internal/basic/application/manifestwork_cleanup_controller.go:69-131 | deletes exactly the orphans it could look up and delete, counts them exactly, and never touches a work whose Application exists |
| BasicPull.FilterInPlace | internal/basic/application/application_controller.go:178-187 | the in-place filter with its index steps removes every occurrence of the finalizer and keeps the order |
| BasicPull.ApplicationReconciler.CleanupManifestWorksForDeletedApplication | internal/basic/application/application_controller.go:107-148 | the loops compute the cleanup, stopping at the first deletion that fails |
| BasicPull.ApplicationReconciler.ReconcileApplication | internal/basic/application/application_controller.go:151-262 | the imperative reconcile computes the specification in all branches and under all faults |
| StatusSync.WriteStatusExact | internal/basic/application/application_status_controller.go:159-183 | the status can be written iff what is on the way consists of objects; then the six places hold the values and everything else is kept |
| StatusSync.FeedbackRoundTrip | internal/basic/application/helper.go:235-241 | through the five feedback rules and the writer the hub agrees with the spoke at those paths, the start time defaulted when empty |
| StatusSync.SyncRoundTrip | internal/basic/application/application_status_controller.go:73-194 | a whole fault-free status run, the intermediate Progressing included, succeeds iff the status can be written, and then the stored Application agrees with the spoke |
| StatusSync.SilentReportChangesNothing | internal/basic/application/application_status_controller.go:84-124 | a work without a health or sync report, or one being deleted, changes nothing and is no error |
| StatusSync.ReportedIsLast | internal/basic/application/application_status_controller.go:96-115 | of several entries with one name the last counts |
| StatusSync.SharedWorkIff | internal/basic/application/helper.go:90-94 | two Applications are given the same work iff cluster, name and the first five characters of their UIDs agree |
| StatusSync.HealthyFollowsProgressing | internal/basic/application/application_status_controller.go:144-158 | every persisted Healthy is preceded in the same run by a persisted Progressing |
| StatusSync.SyncKeepsApplications | internal/basic/application/application_status_controller.go:73-194 | a status run changes nothing but Applications' status |
| StatusSync.OneRoundSettlesIff | internal/basic/application/application_controller.go:224-257 | one reconcile settles an Application exactly when there was no operation to be delivered first |
| StatusSync.SettledIsFixpoint | internal/basic/application/application_controller.go:227-257 | the reconcile of a settled Application changes nothing |
| StatusSync.SettlesAfterTwoRounds | internal/basic/application/application_controller.go:224-257 | two reconciles of a live Application settle it for good, however status runs, reports and other reconciles are mixed in |
| StatusSync.SameWork | internal/basic/application/helper.go:114-158 | events between settled states, status runs included, do not change the work |
| StatusSync.ReadFeedback | internal/basic/application/application_status_controller.go:89-118 | the loop takes the last value of each name and defaults the start time |
| StatusSync.StatusReconciler.ReconcileStatus | internal/basic/application/application_status_controller.go:73-194 | the imperative run computes the specification, in all branches and under all faults |
| RegistrationUrl.UnescapeEscape | internal/controller/argocd_agent_clusters.go:310-313 | query unescaping undoes query escaping for every byte string |
| RegistrationUrl.NameRoundTrip | internal/controller/argocd_agent_clusters.go:293-314 | for every accepted origin and every cluster name the printed URL gives back the name |
| RegistrationUrl.DistinctClustersDistinctUrls | internal/controller/argocd_agent_clusters.go:291-296 | distinct clusters get distinct URLs, also in the legacy form |
| AppendMissing.AddAllComplete | internal/controller/addon_management.go:135-154 | find-or-append keeps what was there as a prefix and ends with a match for every required entry |
| AppendMissing.AddAllTwice | internal/controller/addon_management.go:156-159 | a second pass over the requirements, in whatever order, adds nothing |
| AppendMissing.EnsureAll | internal/controller/addon_management.go:135-159 | the nested loops compute it, and ask for an update iff something was added |
| FleetView.TurnSettles | internal/controller/argocd_agent_clusters.go:93-196 | a fault-free turn of any stage does its work for a servable cluster and makes every later one a no-op; done iff the CA work could be read |
| FleetView.TurnKeepsForeign | internal/controller/argocd_agent_clusters.go:163-187 | no turn of any stage, whatever fails, removes an object, or touches labels, annotations and list entries put there by others |
| FleetView.TurnIsLocal | internal/controller/gitopscluster_controller.go:210-332 | no stage touches the objects of another stage |
| FleetView.ImportDone | internal/controller/argocd_agent_clusters.go:93-287 | a fault-free import leaves a client certificate that passes the check, the cluster secret made from it, and its labels |
| FleetView.WorksDone | internal/controller/manifest_work_management.go:44-134 | a fault-free delivery leaves the CA certificate delivered, unless the existing work's manifest cannot be read, and the ArgoCD work up to date |
| FleetView.InstallDone | internal/controller/addon_management.go:41-258 | a fault-free install leaves both config references on the add-on and every variable in its configuration |
| FleetContent.ImportConnects | internal/controller/argocd_agent_clusters.go:93-314 | after a fault-free import Argo CD reaches the cluster under its name and URL with the cluster's client certificate as certificate and its key as key, trusting the CA; the four labels are there |
| FleetContent.CAWorkIsWritten | internal/controller/manifest_work_management.go:44-191 | whatever fails, the CA work is left alone or written in full: one Secret for the spoke's Argo CD namespace with the CA's certificate, annotated and labelled; none for the local cluster |
| FleetContent.DeliveredIsComplete | internal/controller/argocd_cr_manifest_work.go:62-171 | the ArgoCD work holds the user's manifests in order, injected or as they are, or the default one with the hub's image unless disabled, and the three labels |
| FleetContent.InstalledIsReady | internal/controller/addon_management.go:41-258 | the add-on refers to the template and to the cluster's configuration, and that one has both namespaces where they are given |
| FleetContent.InstallAddsOnly | internal/controller/addon_management.go:41-258 | whatever fails, nothing is added but the two references and the two namespaces with their values, and a new add-on carries the label the cleanup goes by |
| FleetContent.AddOnGoesFirst | internal/controller/gitopscluster_controller.go:426-468 | whatever fails, a removal touches works and secret only after the add-on's deletion was accepted, and never client certificate and configuration |
| FleetCertificates.AmpleIsServable | internal/controller/argocd_agent_clusters.go:337-360 | with a CA that lasts long enough what is issued for a cluster passes the next check, so every cluster can be served |
| FleetCertificates.PassBeforeRenewalIsIdle | internal/controller/argocd_agent_clusters.go:337-360 | the fixpoint in terms of time: a second fault-free pass before any stored certificate is due for renewal changes nothing |
| FleetStore.NameFits | internal/controller/argocd_cr_manifest_work.go:49-60 | the generated work name has at most 63 characters |
| FleetStore.NamesCollideIff | internal/controller/argocd_cr_manifest_work.go:49-60 | exactly when two GitOpsClusters get the same work name, short, truncated or one of each |
| FleetStore.FullNamesCollideIff | internal/controller/argocd_cr_manifest_work.go:49-56 | the untruncated names agree iff one namespace continues the other with a dash and the names make up for it; never within one namespace |
| FleetStore.SecretKeysApart | internal/controller/argocd_agent_clusters.go:99 | generated secret names of different clusters and different purposes never coincide |
| FleetStore.WorkKeysApart | internal/controller/argocd_cr_manifest_work.go:37-60 | the CA work and the ArgoCD work of a cluster never share a name, even after truncation |
| FleetStore.PutView | internal/controller/gitopscluster_controller.go:210-332 | replacing a cluster's objects changes just these and not the shared CA secret |
| FleetStore.PutElsewhere | internal/controller/gitopscluster_controller.go:210-332 | replacing a cluster's objects is not seen by any other cluster |
| FleetClusters.Clusters.EnsureClusterClientCertificate | internal/controller/argocd_agent_clusters.go:317-401 | the store changes at the client secret's key only, as specified |
| FleetClusters.Clusters.BuildArgoCDClusterSecretData | internal/controller/argocd_agent_clusters.go:199-287 | the data, or no data, and the client secret written on the way |
| FleetClusters.Clusters.CreateArgoCDClusterSecret | internal/controller/argocd_agent_clusters.go:93-196 | create and update paths end in the specified secrets; all others are unchanged |
| FleetClusters.Clusters.CreateArgoCDAgentManifestWork | internal/controller/manifest_work_management.go:44-134 | the store is exactly the old one with the cluster's CA work replaced as specified |
| FleetClusters.Clusters.CreateArgoCDCRManifestWork | internal/controller/argocd_cr_manifest_work.go:62-171 | the same for the ArgoCD work, with the injection loop over the user's manifests |
| FleetClusters.Clusters.BuildManifests | internal/controller/argocd_cr_manifest_work.go:79-107 | every manifest of the user is injected, in order; otherwise the default one is made with the hub's image if readable |
| FleetClusters.Clusters.EnsureAddOnDeploymentConfig | internal/controller/addon_management.go:170-258 | the store is exactly the old one with the cluster's configuration replaced as specified |
| FleetClusters.MergeVariables | internal/controller/addon_management.go:228-247 | variables are added by name only, existing values are kept, and an update is asked for iff one was added |
| FleetClusters.Clusters.EnsureManagedClusterAddon | internal/controller/addon_management.go:41-167 | the store is exactly the old one with the cluster's add-on replaced as specified |
| FleetClusters.Clusters.RemoveManagedCluster | internal/controller/gitopscluster_controller.go:421-468 | the body of the cleanup loop: add-on first, then both works and the secret; configuration and client certificate stay |
| FleetRun.PassViews | internal/controller/gitopscluster_controller.go:210-332 | what a whole pass does to a cluster is determined by its objects, the shared CA and the outcomes of its own calls |
| FleetLaws.ClustersAreIsolated | internal/controller/gitopscluster_controller.go:210-332 | two passes that agree on the shared calls and on a cluster end with identical objects for it |
| FleetLaws.FailuresAreIsolated | internal/controller/gitopscluster_controller.go:210-290 | and report it as failed equally often |
| FleetLaws.UnplacedPass | internal/controller/gitopscluster_controller.go:402-472 | a cluster that is not placed is touched by the cleanup only |
| FleetLaws.FleetConverges | internal/controller/gitopscluster_controller.go:210-332 | from every store one fault-free pass leaves every placed cluster connected, with its works and add-on as described, takes down every removed one, leaves all others alone, and leaves labelled add-ons in placed clusters only |
| FleetLaws.SecondPassIsIdle | internal/controller/gitopscluster_controller.go:210-332 | a second fault-free pass at the same moment leaves the store as it is |
| FleetLaws.LaterPassIsIdle | internal/controller/gitopscluster_controller.go:210-332 | and so does one at any later time at which the stored client certificates still pass the check |
| FleetLaws.LeftBehindForEver | internal/controller/gitopscluster_controller.go:411-431 | once its add-on is gone nothing of a removed cluster is ever cleaned, by any number of passes |
| FleetLaws.RemovalCompletesIff | internal/controller/gitopscluster_controller.go:426-468 | a removed cluster ends up clean iff its first removal was refused as a whole or lost no call |
| FleetStatus.StatusShowsLast | internal/controller/gitopscluster_controller.go:587-614 | of each type the status shows what was set last, or what was there before |
| FleetStatus.AllTracked | internal/controller/gitopscluster_controller.go:539-584 | after initialisation every tracked condition exists and none that was there has changed |
| FleetStatus.StatusWriter.InitializeConditions | internal/controller/gitopscluster_controller.go:539-584 | missing conditions are added in one update, none when all are there |
| FleetStatus.StatusWriter.SetCondition | internal/controller/gitopscluster_controller.go:587-614 | sets or replaces the condition; an accepted update persists everything set so far |
| FleetGates.VerdictsAreGated | internal/controller/gitopscluster_controller.go:96-208 | gating conditions are written in order, all True up to at most one False, which belongs to the first stage not passed |
| FleetController.GitOpsClusterReconciler.EnsurePlacementTolerations | internal/controller/gitopscluster_controller.go:475-513 | adds what is missing and updates the placement only then |
| FleetController.GitOpsClusterReconciler.GetManagedClustersFromPlacement | internal/controller/gitopscluster_controller.go:338-399 | the clusters of all decisions whose ManagedCluster can be read, in order; the toleration condition is set iff the placement was read |
| FleetController.GitOpsClusterReconciler.RunGates | internal/controller/gitopscluster_controller.go:96-208 | writes exactly the gate log and goes on iff all eight stages pass |
| FleetController.GitOpsClusterReconciler.EnsureServer | internal/controller/gitopscluster_controller.go:110-140 | discovery into the spec, its update and the check for completeness give the stage's verdict and the endpoint the run goes on with |
| FleetController.GitOpsClusterReconciler.RunStage | internal/controller/gitopscluster_controller.go:211-254 | the loop takes every cluster's turn, whoever fails, and returns exactly the failed ones in order |
| FleetController.GitOpsClusterReconciler.DeliverArgoCDs | internal/controller/gitopscluster_controller.go:267-279 | delivered plus failed equals the number of non-local clusters |
| FleetController.GitOpsClusterReconciler.CleanupRemovedClusters | internal/controller/gitopscluster_controller.go:402-472 | the cleanup over the listed add-ons, and its exact count |
| FleetController.ValidateArgoCDCRManifestWork | internal/controller/argocd_cr_manifest_work.go:320-349 | accepts iff every manifest can be read and one is an ArgoCD |
| FleetController.GitOpsClusterReconciler.Reconcile | internal/controller/gitopscluster_controller.go:73-335 | the imperative reconcile writes exactly the specified log and ends in exactly the specified store; it fails iff a gate does |
| FleetReports.ReconcileIsGated | internal/controller/gitopscluster_controller.go:96-208 | in every reconcile the gating conditions are all True up to at most one False, and a stage not passed ends it before any cluster is touched |
| FleetReports.GatesAre | internal/controller/gitopscluster_controller.go:96-208 | the eight stages in their order, and what each waits for |
| FleetReports.GetsThroughIff | internal/controller/gitopscluster_controller.go:96-208 | a run gets through to the clusters iff every stage before them has worked |
| FleetReports.FailingInOrder | internal/controller/gitopscluster_controller.go:211-228 | the reported names are those of the failed turns, in their order |
| FleetReports.ConditionIsExact | internal/controller/gitopscluster_controller.go:617-626 | for the import, CA and add-on conditions: False iff some turn failed; then it tells how many and the first three names |
| FleetReports.CRConditionIsExact | internal/controller/gitopscluster_controller.go:267-290 | the condition about the ArgoCD works is False iff some delivery failed, the failed clusters are non-local, and otherwise it counts all non-local clusters |
| FleetReports.NobodyFails | internal/controller/gitopscluster_controller.go:211-332 | without faults no servable cluster is reported in any stage |
| FleetReports.TolerationsStay | internal/controller/gitopscluster_controller.go:475-513 | an update that is not refused leaves both tolerations, existing ones in place, and the next run does not update |
| FleetReports.SelectedIff | internal/controller/gitopscluster_controller.go:382-395 | a cluster is selected iff some decision names it and its ManagedCluster could be read for that decision |
| FleetReports.PlacedClusterKeptIff | internal/controller/gitopscluster_controller.go:389-392 | a placed cluster keeps its add-on iff its ManagedCluster could be read for one of its decisions |
| FleetReports.EndpointIsCertified | internal/controller/gitopscluster_controller.go:109-176 | a run that gets through goes on with the spec's endpoint if complete, else the discovered one, and its address is among the names of the principal's certificate |
| FleetReports.EndpointIsDelivered | internal/controller/gitopscluster_controller.go:267-279 | that endpoint is what a fault-free pass delivers in each ArgoCD manifest where the user gave none, at the user's index |
| FleetReports.OthersAreDeliveredAsTheyAre | internal/controller/argocd_cr_manifest_work.go:275-277 | every document of the user's that is not an ArgoCD is delivered unchanged at its index |
| FleetReports.UnacceptableStops | internal/controller/gitopscluster_controller.go:256-265 | a list of the user's that is empty, cannot be read or holds no ArgoCD stops the pass: no ArgoCD work, add-on or configuration changes, whatever fails |
| FleetReports.EachStageIsReported | internal/controller/gitopscluster_controller.go:211-332 | each of the four conditions about clusters is False iff some turn of its own stage failed, on the store that stage began with |
| FleetReports.RemovedIsExact | internal/controller/gitopscluster_controller.go:415-471 | the number reported is that of the labelled add-ons outside the placement whose deletion was accepted |

## Left out

- Manager wiring, leader election, caches, watches and the event filters: which reconcile runs when is arbitrary in the
  model; that every event leads to one is not claimed.
- Real cryptography and the certificate rotation library: certificates carry subject, issuer, keys, times and usages;
  rotation of the principal's certificate is an arbitrary change of its bytes. `FleetView` takes check and signing as
  parameters; `FleetCertificates` gives them the meaning of `ClientCertificate` at one moment.
- The stages before the placement other than server discovery (RBAC, principal certificate, JWT key, CA secret, resource
  proxy certificate, AddOnTemplate) are inputs that pass or fail.
- Helm rendering, CRD discovery and YAML parsing: the rendered chart is an arbitrary finite list of objects, and an
  install may stop anywhere. Creating namespaces, CRDs and the copied secret belongs to the "others" of `PauseProtocol`.
- Go's URL parser and JSON codec: the model starts from parsed origins and trees. A manifest that does not parse is a
  value of its own.
- The default ArgoCD manifest is an arbitrary function of the hub's image.
- Resource versions: a conflict is a rejected write. Retries on conflict inside one call are part of that call's outcome.
- Finalizers of works and add-ons: a deletion that takes effect removes the object. Applications keep theirs.
- In `FleetClusters` nobody else writes between two calls of one reconcile, so "already exists" after "not found" does
  not arise; the branch is there.
- FleetLaws.FleetConverges: assumes a single GitOpsCluster, since the cleanup goes by one shared label, and readable
  ManagedClusters, since it starts from the selected clusters; `FleetReports.PlacedClusterKeptIff` covers the rest. It
  claims the certificate of a CA work, not its target namespace, which the code does not compare.
- FleetLaws.SecondPassIsIdle: both passes happen at one moment; `FleetLaws.LaterPassIsIdle` covers later ones.
- ClientCertificate.HasValidClusterClientCertificate: one clock reading where the code takes two.
- FleetStatus.StatusWriter.SetCondition: transition times, reasons and observed generations are not modelled, nor that
  the spec update in between reads the status back; a conflict on the resource version is a rejected update.
- FleetController.GitOpsClusterReconciler.GetManagedClustersFromPlacement: the decisions of all PlacementDecisions are
  one list.
- Log messages, metrics and sleeping.
