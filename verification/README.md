# Verification of the Kong operator's protocols

A Dafny model of the most stateful parts of the Kong operator, with proofs of the promises those parts are
written for. Each part is modelled in the form the Go code has: objects whose methods update their fields are
classes proved against specification functions, expressions and decisions are functions, and everything that
happens around the code (other writers, stale caches, failing requests) is an explicit, nondeterministic
environment. Results are about all inputs and all runs.

| files | part of the operator |
| --- | --- |
| `KonnectProtocol`, `KonnectSafety`, `KonnectProgress`, `KonnectReconciler` | creating and deleting Konnect entities through a stale cache, with the in-memory store of IDs whose status write is still owed |
| `HybridState`, `HybridSafety`, `HybridFrame`, `HybridProgress`, `HybridBlocks`, `HybridOrder`, `HybridStarvation`, `HybridCleanup`, `Naming`, `OrphanRace` | the gated apply loop of the hybrid gateway, what it may touch, its convergence and the exact condition for it, the ordered orphan cleanup, the names of what is generated, and the race of the cleanup with other Routes |
| `PortAllocation`, `PortSafety`, `ListenerConflicts`, `HostPorts`, `ListenStrings`, `StreamListen`, `StreamAgreement`, `StreamTemplates`, `Hostnames` | Gateway listeners to Kong ports, environment strings, Service ports and NetworkPolicy ports; conflicts; hostname intersection |
| `BlueGreen`, `BlueGreenSafety`, `BlueGreenPromotion`, `BlueGreenRemoval`, `BlueGreenInstall` | blue/green promotion of a DataPlane, the plain controller it delegates to, exactly when a promotion happens and how it ends, the removal of the strategy half way, and the first installation |
| `Strings`, `Annotations`, `AnnotationMerge`, `AnnotationFields` | comma lists kept in annotations, and the three-way merge of the ingress Service's annotations |

How to read the model:

- The API server is a history of versions. A write by merge patch applies to whatever is newest, a write with
  optimistic locking only to the version it was based on. The cache serves any version not older than the one
  it served before. Every write may be refused, or be applied although the caller sees an error.
- A Go error return is `None`, a `false` flag or an error case; a nil map and an empty one are the same value
  unless the code tells them apart.
- UUIDs and Konnect IDs are drawn fresh. Go's 32-bit port numbers are a subset type; `Atoi` is the 64-bit one.
- Every lemma turns Dafny's automatic induction off, so that each proof shows its own induction.

What the proofs found out about the code:

- When a Route gains a parent in another namespace whose control plane has the name of one it already uses, the
  names of its upstreams come out the same, because they leave the namespace out. The lookup of targets goes by
  name alone, so the old service waits for the new targets, and the apply loop passes over the new upstream those
  targets wait for: however often it runs, they are never created (`HybridStarvation`). `HybridOrder` shows that,
  for lists whose objects follow what they need, being well ordered is exactly what convergence takes.
- An orphaned object of the hybrid gateway is given up by looking only at the annotation of the Route's own
  kind. That is enough: the names of generated objects never coincide for Routes of two kinds.
- Two TCP (or two UDP) listeners on one port do not clash on it, so neither is marked Conflicted for the other, yet
  the later one takes over the earlier one's entry of the port map. The map, the Service and the allocation agree
  exactly when listeners that share a port are all HTTP or all HTTPS.
- The reason of the Conflicted condition, unlike its status, depends on the order of the listeners: exactly for
  a listener that clashes with one listener on its port and with another one on its hostname only.
- While the strategy stays BlueGreen, live Services are always served once a Deployment exists. But when a request
  of the last steps of a promotion fails after the new Deployment is labelled live, two live Deployments remain
  for good: every later pass of either controller stops before doing anything about it.
- Under the BlueGreen strategy a DataPlane whose spec changes between its first pass and its first Deployment is
  never installed: the guard refuses the plain controller, and the readiness check ends every pass but one for
  want of a Deployment.
- Taking the BlueGreen strategy out of the spec while a promotion is half way ends in an outage, exactly when the
  selector is switched and the new Deployment not labelled live yet, or two Deployments are live and the new one
  does not rank above the old one. Both are reached from an empty start.
- The patch that adds the cleanup finalizer sends the finalizer list of the cached copy, so it drops a finalizer
  that somebody else added since; every other write of the Konnect reconciler changes only what it is there for.
- Detaching a plugin deletes the plugins annotation only when the plugin's name was its whole value; a list that
  names it more than once, and nothing else, stays behind empty.
- A last-applied annotation that is not empty and does not decode makes every later pass over the ingress Service
  report an error and an update, whatever is asked for or edited in between; nothing the operator does repairs it.

## Model

| member | source | states |
|---|---|---|
| KonnectReconciler.PendingKonnectIDStore.Store | controller/konnect/pending_konnect_ids.go:43-48 | After storing, exactly that key maps to the ID; other keys keep theirs |
| KonnectReconciler.PendingKonnectIDStore.Get | controller/konnect/pending_konnect_ids.go:50-56 | Reports the recorded ID and whether there is one, and changes nothing |
| KonnectReconciler.PendingKonnectIDStore.Delete | controller/konnect/pending_konnect_ids.go:58-63 | The key has no entry afterwards; other keys keep theirs |
| KonnectReconciler.KonnectEntityReconciler.WithFinalizer | controller/pkg/patch/finalizer.go:15-45 | One EnsureFinalizer event of the protocol, which needs no request when the copy already has the finalizer |
| KonnectReconciler.KonnectEntityReconciler.ReconcilePendingKonnectID | controller/konnect/reconciler_generic.go:853-892 | Either drops the entry of an identified object or persists the recorded ID and stops the pass |
| KonnectReconciler.KonnectEntityReconciler.HandleDeletion | controller/konnect/reconciler_generic.go:586-643 | Deletes in Konnect by the ID on the object or in the store, then drops the entry, then the finalizer, and from a control plane the Gateway controller's finalizer with it, in this order |
| KonnectReconciler.KonnectEntityReconciler.Create | controller/konnect/reconciler_generic.go:682-727 | Creates, records the ID in memory at once, and only then tries to persist it |
| KonnectReconciler.KonnectEntityReconciler.Reconcile | controller/konnect/reconciler_generic.go:555-777 | The requests a pass issues are a complete pass of the protocol for the copy it read, no step skipped or repeated, and at most one entity lives throughout |
| KonnectSafety.AtMostOneLiveEntity | controller/konnect/reconciler_generic.go:682-727 | In every run at most one entity lives, and its ID is in the store or in every version still observable |
| KonnectSafety.FinalizerReleasedOnlyWhenClean | controller/konnect/reconciler_generic.go:586-643 | The cleanup finalizer leaves the server only in the deletion branch, when no entity lives and the store has no entry |
| KonnectSafety.NothingOutlivesTheObject | controller/konnect/pending_konnect_ids.go:9-30 | Without the object, or without its finalizer, nothing lives in Konnect or in the store, so a same-named successor inherits no ID |
| KonnectSafety.CreateOnlyWhenNothingLives | controller/konnect/reconciler_generic.go:870-922 | Creation is requested only when no entity lives, no ID is recorded anywhere, and the server's copy carries the finalizer |
| KonnectProgress.WritesOnlyItsOwn | controller/konnect/reconciler_generic.go:586-777 | In every run each write changes on the server, field by field, what it is there for and nothing else: a status update touches no finalizer and no ID, an ID is filled in once, and other finalizers change only by the finalizer patch and the release |
| KonnectProgress.RecordedIDsAreAlive | controller/konnect/reconciler_generic.go:682-727 | In every run, while the object is not being deleted, the ID on it and the ID in the store are that of the one living entity |
| KonnectProgress.TwoPassesProvision | controller/konnect/reconciler_generic.go:645-777 | From any reachable state two complete passes in which nothing fails end with the finalizer, the ID of the one living entity on the object, and no entry in the store |
| KonnectProgress.OnePassReleases | controller/konnect/reconciler_generic.go:586-643 | One such pass over an object that is being deleted leaves nothing in Konnect or in the store, and the object goes exactly when no other finalizer is left |
| KonnectProgress.PassExists | controller/konnect/reconciler_generic.go:555-777 | From every reachable state between two passes there is such a pass |
| HybridState.ClusterClient.UpstreamTargetsProgrammed | controller/hybridgateway/reconciler_utils.go:347-367 | True exactly when every target is readable and Programmed; an unreadable one is an error |
| HybridState.ClusterClient.BuildLookups | controller/hybridgateway/reconciler_utils.go:77-117 | The two lookup maps answer as the desired list does |
| HybridState.ClusterClient.CheckGate | controller/hybridgateway/reconciler_utils.go:142-258 | The read-by-read gate equals the gate of the object's kind |
| HybridState.ClusterClient.EnforceState | controller/hybridgateway/reconciler_utils.go:72-337 | The loop with its latch and counters computes the specified pass, cluster and result; NoRouteIsLost and its neighbours say on the fields what that pass does |
| HybridFrame.NoRouteIsLost | controller/hybridgateway/reconciler_utils.go:283-325 | Over any run, whatever fails, an object stays with every Route its annotation names; at most the root is added, nothing for a Gateway; a spec changes only to a desired one |
| HybridFrame.NewObjectsAreDesired | controller/hybridgateway/reconciler_utils.go:269-325 | Over any run a new object is a desired one that names the root and nobody else |
| HybridFrame.WritesAreServable | controller/hybridgateway/reconciler_utils.go:131-315 | Over any cluster and in any surroundings, what a pass creates or changes has all it depends on, there and Programmed, its service not being deleted |
| HybridFrame.RoutesAreRecorded | controller/hybridgateway/reconciler_utils.go:203-236 | What a pass for a Route creates or changes as a KongRoute has a service that names the Route |
| HybridFrame.CreationHoldsBack | controller/hybridgateway/reconciler_utils.go:119-319 | What a pass creates holds back the objects of other kinds that follow, up to the next of its own kind |
| HybridFrame.WaitingHoldsBack | controller/hybridgateway/reconciler_utils.go:119-319 | After a desired object that is being deleted, or still lacks something when the pass is over, the pass goes on with one kind at a time |
| HybridSafety.RoutesOnlyOverServableBackends | controller/hybridgateway/reconciler_utils.go:120-325 | In every state reachable from an empty cluster a KongRoute exists only over a Programmed KongService, and a KongService only over its desired upstream and all its targets, Programmed |
| HybridProgress.QuietPassProgresses | controller/hybridgateway/reconciler_utils.go:119-337 | An undisturbed pass over a settled cluster writes something and leaves fewer objects to enforce, or reports neither work nor waiting, and this if and only if everything is in place |
| HybridProgress.EnforcementConverges | controller/hybridgateway/reconciler_utils.go:119-337 | As many undisturbed rounds as there are objects to enforce put everything in place |
| HybridProgress.PassCounts | controller/hybridgateway/reconciler_utils.go:260-325 | What a pass created and updated is at most what became enforced, whatever happens around it |
| HybridBlocks.DeduplicateOutputStore | controller/hybridgateway/converter/common.go:193-210 | Keeps, of the objects with one type, namespace and name, the first |
| HybridBlocks.KeepsTheFirsts | controller/hybridgateway/converter/common.go:193-210 | Kept are, in order, exactly the objects before which there is none with their type, namespace and name |
| HybridBlocks.TranslationIsWellOrdered | controller/hybridgateway/converter/http_route.go:425-495 | After deduplication the order of translation meets the ordering the convergence needs, when blocks whose upstreams have one name have the same targets: rules may share backends, parents a control plane, and grants may be in other namespaces |
| HybridOrder.ConvergesIffWellOrdered | controller/hybridgateway/reconciler_utils.go:119-337 | For objects that follow what they need, convergence from every settled cluster and the ordering are equivalent |
| HybridOrder.SecondNamespaceIsStuck | controller/hybridgateway/reconciler_utils.go:91-117 | When a parent is added whose upstream has an earlier one's name in another namespace, and all is in place but KongRoutes and bindings from that service on, enforcement waits without ever writing |
| HybridStarvation.SecondNamespaceIsNeverServed | controller/hybridgateway/refs/by.go:69-70 | From any settled cluster that has the earlier upstreams, whatever else is missing or translated after it, no number of passes creates the upstream with the repeated name or its new targets |
| HybridCleanup.CleanOrphanedResources | controller/hybridgateway/reconciler_utils.go:508-648 | The nested loop issues exactly the specified deletes and ends as specified; DeletesIff and its neighbours say which and how |
| HybridCleanup.OrphansAreDeleted | controller/hybridgateway/reconciler_utils.go:552-627 | In a kind that a pass gets to, with waiting or without, a delete is sent for every orphan that may be deleted and is not being deleted, unless something before it ends the pass |
| HybridCleanup.DeletesIff | controller/hybridgateway/reconciler_utils.go:552-647 | A delete is sent if and only if it is for such an orphan |
| HybridCleanup.WaitingEnds | controller/hybridgateway/reconciler_utils.go:565-640 | With waiting, a pass that finds a kind not clean ends there: with an error if that cannot be listed or something fails, and otherwise by coming back |
| HybridCleanup.GoesThroughIff | controller/hybridgateway/reconciler_utils.go:565-647 | Without waiting, a pass comes to its end if and only if every kind is listed and nothing fails or conflicts |
| HybridCleanup.DeletesRespectKindOrder | controller/hybridgateway/reconciler_utils.go:552-647 | Only listed, unskipped, undesired objects are deleted, and with waiting only when all earlier kinds were listed without orphans |
| HybridCleanup.FinishedIffNothingLeft | controller/hybridgateway/reconciler_utils.go:628-647 | The cleanup reports that it is finished if and only if every kind was listed without an orphan, and then deleted nothing |
| HybridCleanup.HybridGatewayReconciler.HandleDeletion | controller/hybridgateway/controller.go:348-400 | The finalizer goes exactly after a cleanup that found no orphan of any kind |
| HybridCleanup.HybridGatewayReconciler.Reconcile | controller/hybridgateway/controller.go:126-342 | Orphans are deleted only in a pass whose enforcement was idle, with every desired object in place; the finalizer of an unmanaged root goes only after a clean listing |
| HybridCleanup.NoWorkMeansAllInPlace | controller/hybridgateway/controller.go:251-298 | A pass that wrote nothing and waits for nothing saw every desired object in place, whatever happened around it |
| OrphanRace.DetachKeepsOthers | controller/hybridgateway/metadata/annotation.go:372-440 | Removing a Route's entry removes that Route, no other one, and touches no other annotation |
| OrphanRace.DeleteCommitsOnlyIfLast | controller/hybridgateway/reconciler_utils.go:576-626 | Under every interleaving with other writers a delete commits only when the annotation of the Route's kind names this Route and no other |
| OrphanRace.DetachCommitsLoseNobody | controller/hybridgateway/converter/common.go:252-300 | Under every interleaving a committed detach loses no other Route |
| OrphanRace.DecidesIff | controller/hybridgateway/converter/common.go:252-300 | On the entries of the annotation: the handler leaves alone what does not name the Route, deletes what names no other, and takes its own entries and nothing else out of any other list |
| Naming.KindsShareNoName | controller/hybridgateway/namegen/name.go:80-122 | For no kind of object are the names generated for Routes of two kinds equal, truncated and hashed ones included |
| Naming.SameNameSameHashes | controller/hybridgateway/namegen/name.go:89-120 | However much is cut off, a name fits and keeps its hashes: equal names were made with equal hashes |
| OrphanRace.DeleteLeavesNoRoute | controller/hybridgateway/converter/common.go:252-300 | Under every interleaving of the operator's writes over the object's life, a committed delete leaves no other Route of any kind that names it |
| Annotations.MergeHybridRouteAnnotation | controller/hybridgateway/reconciler_utils.go:389-408 | The desired object carries the live annotation with this Route recorded, and nothing else changes |
| Annotations.EnsureHybridRouteAnnotationOnKongService | controller/hybridgateway/reconciler_utils.go:412-436 | Records the Route on the live Service, and patches only when it was not recorded |
| Strings.DelimitedSearch | controller/hybridgateway/reconciler_utils.go:438-443 | The search between commas finds a comma-free reference if and only if it is an entry of the list |
| Annotations.MergeKeepsOtherRoutes | controller/hybridgateway/reconciler_utils.go:389-408 | Merging adds the Route and nothing else, keeps every other entry in place, and is idempotent |
| Annotations.MergesCommute | controller/hybridgateway/reconciler_utils.go:389-408 | Two Routes may record themselves in either order |
| Annotations.EnsureKongPluginsAnnotationIsSet | controller/cpextensions/controller.go:392-413 | Both Service annotations become the specified ones |
| Annotations.EnsureKongPluginsAnnotationIsUnset | controller/cpextensions/controller.go:415-445 | Both Service annotations become the specified ones |
| Annotations.SetThenUnsetRestores | controller/cpextensions/controller.go:317-336 | Set and then unset restores both annotations if and only if the plugin was absent and the managed list was not the empty string |
| AnnotationFields.SetNamesThePlugin | controller/cpextensions/controller.go:392-413 | Key by key: both lists name the plugin afterwards, a list that had entries keeps them, and no other annotation changes |
| AnnotationFields.UnsetKeepsTheOthers | controller/cpextensions/controller.go:415-445 | Key by key: each list keeps every other entry, as often and in order; the plugins annotation goes exactly when its value was the plugin, the managed one exactly when nothing is left |
| PortAllocation.Allocator.AssignStreamPort | controller/gateway/controller_reconciler_utils.go:1356-1373 | The cursor loop assigns the first free port of the window, or the listener's own port, or fails |
| PortAllocation.Allocator.HandleListeners | controller/gateway/controller_reconciler_utils.go:1375-1407 | The listener loop computes the specified allocation |
| PortSafety.StreamPortsAreDistinctAndUsable | controller/gateway/controller_reconciler_utils.go:1337-1407 | On success the stream ports are pairwise distinct, never reserved and never below 1024 |
| PortSafety.WhoIsGivenWhat | controller/gateway/controller_reconciler_utils.go:1337-1407 | HTTP gets 8000 and HTTPS 8443; a stream listener keeps its port if and only if that is at least 1024, not reserved and not given before, and otherwise gets the lowest port of the window not given before |
| PortSafety.StreamPortsAreTheGiven | controller/gateway/controller_reconciler_utils.go:1377-1403 | The stream ports are those given to the stream listeners, with their protocols |
| PortSafety.CursorLeavesNoFreePort | controller/gateway/controller_reconciler_utils.go:1353-1373 | The cursor passes only occupied ports, and a listener is refused only when the whole window is occupied |
| PortSafety.NeverExhaustedWithinWindow | controller/gateway/controller_reconciler_utils.go:1353-1373 | Allocation cannot run out while the stream listeners number at most 1024 |
| PortSafety.ExhaustedIff | controller/gateway/controller_reconciler_utils.go:1353-1373 | Ports run out if and only if some stream listener has to move when the whole window is occupied |
| PortSafety.BoundIsTight | controller/gateway/controller_reconciler_utils.go:1353-1373 | Stream listeners that all have to move, for whatever reason, are served if and only if they number at most 1024 |
| PortSafety.FailsIff | controller/gateway/controller_reconciler_utils.go:1404-1411 | Allocation fails exactly for want of a port or for an unsupported protocol |
| PortSafety.GivenEqual | controller/gateway/controller_reconciler_utils.go:1375-1407 | Two listeners are given one Kong port if and only if both are HTTP or both HTTPS |
| PortSafety.NothingOverwrittenIff | controller/gateway/controller_reconciler_utils.go:1375-1407 | No map entry is overwritten with another value if and only if listeners sharing a port are all HTTP or all HTTPS |
| PortSafety.EveryPortIsMapped | controller/gateway/controller_reconciler_utils.go:1525-1540 | After a successful allocation the error about a missing target port cannot occur |
| ListenerConflicts.Gateway.SetConflicted | controller/gateway/controller_reconciler_utils.go:1230-1269 | A listener is marked if and only if another one has its port with another protocol or with TLS, or has its hostname; the first such listener decides the reason, its port before its hostname |
| ListenerConflicts.MarkIgnoresOrder | controller/gateway/controller_reconciler_utils.go:1230-1269 | Which listeners are marked does not depend on their order |
| ListenerConflicts.ReasonFollowsOrderIff | controller/gateway/controller_reconciler_utils.go:1239-1265 | Both reasons are possible under reordering if and only if the listener clashes with one listener on its port and with another one on its hostname only |
| ListenerConflicts.UnmarkedMeansNothingOverwritten | controller/gateway/controller_reconciler_utils.go:1230-1269 | With no listener marked and no two TCP or UDP listeners on one port no map entry is overwritten |
| ListenerConflicts.EarlierStreamPortIsLost | controller/gateway/controller_reconciler_utils.go:1356-1403 | For any two TCP or two UDP listeners on one port, the map entry is never the earlier one's Kong port, and the port does not make them clash |
| HostPorts.AtoiItoa | controller/gateway/controller_reconciler_utils.go:1734-1770 | A printed port reads back as itself |
| HostPorts.SplitJoined | controller/gateway/controller_reconciler_utils.go:1734-1766 | Splitting a joined host and port gives both back, IPv6 literals included |
| HostPorts.SplitsIff | controller/gateway/controller_reconciler_utils.go:1762-1765 | Exactly what is accepted as a host and a port, brackets and colons included, and what it is split into |
| ListenStrings.ParseKongListenEnv | controller/gateway/controller_reconciler_utils.go:1749-1805 | The parse loops put every entry in its bucket in order, and fail exactly when some entry does |
| ListenStrings.ParsesIff | controller/gateway/controller_reconciler_utils.go:1749-1805 | A value parses if and only if every entry is a host and a decimal port, possibly after one space, and possibly with flags after another |
| ListenStrings.ParseRendered | controller/gateway/controller_reconciler_utils.go:1734-1740 | One rendered entry parses back to its bucket, address, port and options |
| ListenStrings.ParsedEndpointsArePlain | controller/gateway/controller_reconciler_utils.go:1425-1437 | Endpoints of any successful parse can serve as templates without loss |
| StreamListen.DataPlaneOptions.SetDataPlaneDeploymentListenPorts | controller/gateway/controller_reconciler_utils.go:1324-1468 | Succeeds exactly when allocation does, sets exactly the two variables, returns the port map, and leaves everything alone on failure; UsersEndpointsAreKept says what is set |
| StreamListen.DataPlaneOptions.SetDataPlaneIngressServicePorts | controller/gateway/controller_reconciler_utils.go:1470-1552 | Appends the listeners' Service ports in order; fails exactly for an unknown option name or an untargeted listener |
| StreamListen.DataPlaneOptions.SetDataPlaneOptionsForListeners | controller/gateway/controller_reconciler_utils.go:1303-1314 | After a successful allocation only an option without listener can make it fail |
| StreamListen.StreamRules | controller/gateway/controller_reconciler_utils.go:685-703 | The stream rules are those of the parsed value; none without a value; an error when it does not parse |
| StreamAgreement.ConfiguredIsUnique | controller/gateway/controller_reconciler_utils.go:1438-1465 | The environment does not depend on the order of map iteration or the stability of the sort |
| StreamAgreement.StreamListenRoundTrip | controller/gateway/controller_reconciler_utils.go:1414-1452 | Parsing the rendered value gives exactly every stream port with every template in the bucket of its protocol |
| StreamTemplates.UsersEndpointsAreKept | controller/gateway/controller_reconciler_utils.go:1414-1452 | Read back, the new value has each stream port once with the address and options of every SSL endpoint of the earlier value, in the bucket of its protocol, and nothing else; without such endpoints once on any address with reuseport |
| StreamTemplates.OthersAreKept | controller/gateway/controller_reconciler_utils.go:1413-1465 | Other variables stay, and so does KONG_STREAM_LISTEN when there is no stream listener |
| StreamAgreement.TemplatesArePlain | controller/gateway/controller_reconciler_utils.go:1425-1437 | The templates taken from any earlier value, or the default, satisfy the round trip's hypothesis |
| StreamAgreement.PolicyOpensExactlyTheAllocated | controller/gateway/controller_reconciler_utils.go:758-777 | The NetworkPolicy opens exactly the TLS and TCP ports over TCP and the UDP ports over UDP, and no rule is empty |
| StreamAgreement.AgreementIff | controller/gateway/controller_reconciler_utils.go:1503-1550 | Service target, port map and allocation agree for every listener if and only if sharing listeners are all HTTP or all HTTPS |
| StreamAgreement.PortMapsParseBack | controller/gateway/controller_reconciler_utils.go:1454-1465 | Reading the whole KONG_PORT_MAPS value back gives exactly the port map, whatever the iteration order |
| StreamAgreement.PortMapsSpelled | controller/gateway/controller_reconciler_utils.go:1454-1465 | Letter by letter, the entries of KONG_PORT_MAPS are the ports with a colon and their Kong port |
| StreamAgreement.PortMapsNameEveryTargetIff | controller/gateway/controller_reconciler_utils.go:1454-1550 | Read back, KONG_PORT_MAPS sends every listener's port to the Kong port it was given and its Service port targets, if and only if sharing listeners are all HTTP or all HTTPS |
| StreamAgreement.OneServicePortPerListener | controller/gateway/controller_reconciler_utils.go:1503-1550 | The Service has one port per listener, in order, with its name, port, transport, target and node port |
| StreamAgreement.NodePortOfFirst | controller/gateway/controller_reconciler_utils.go:1543-1548 | The node port is that of the first option with the listener's name, none without one |
| Hostnames.ListenerHostnameIntersectsRouteHostnames | controller/gateway/controller_reconciler_utils.go:1201-1217 | True exactly for an empty listener hostname, an empty route list, or some route hostname matched either way |
| Hostnames.IntersectIff | controller/gateway/controller_reconciler_utils.go:1201-1227 | For exact and wildcard hostnames the two-way glob test holds if and only if some concrete hostname is one both stand for, ignoring case |
| Hostnames.CaseIsIgnored | controller/gateway/controller_reconciler_utils.go:1201-1227 | The answer does not depend on case, and exact hostnames match if and only if they differ in case only |
| BlueGreen.BlueGreenReconciler.EnsurePreviewSelectorOverridesLive | controller/dataplane/bluegreen_controller.go:867-884 | The live selector becomes the preview selector unless it already is or the write fails |
| BlueGreen.BlueGreenReconciler.EnsurePreviewDeploymentLabeledLive | controller/dataplane/bluegreen_controller.go:921-969 | Labels one Deployment with the selector, fails when there is none |
| BlueGreen.BlueGreenReconciler.ReduceLiveDeployments | controller/dataplane/bluegreen_controller.go:572-615 | Deletes the live Deployments oldest first, up to the one before the newest or the first failure |
| BlueGreen.BlueGreenReconciler.Reconcile | controller/dataplane/bluegreen_controller.go:98-326 | The staged pass, with the guard of the delegation and all early returns, computes the specified step; PromotesIff and its neighbours say on the fields what that step does |
| BlueGreenPromotion.PromotesIff | controller/dataplane/bluegreen_controller.go:98-266 | In every run under the strategy a pass replaces the live selector if and only if there is a preview that is not scaled down, wholly available and ready, asked for and not live yet, and no request on the way fails |
| BlueGreenPromotion.OnlyAvailableIsPromoted | controller/dataplane/bluegreen_controller.go:229-266 | In every such run, whenever the live selector changes, the Deployment with the new one has replicas, all available and ready, its promotion is asked for, and nothing else changes but the conditions |
| BlueGreenPromotion.ReportsIff | controller/dataplane/bluegreen_controller.go:221-254 | Progressing is reported if and only if a staged preview is not wholly available, AwaitingPromotion if and only if it is and is not approved |
| BlueGreenPromotion.FailuresAreReported | controller/dataplane/bluegreen_controller.go:207-266 | Failing preview resources report RolloutFailed, a failing promotion PromotionFailed, which stays while it is tried again |
| BlueGreenPromotion.PromotionCompletes | controller/dataplane/bluegreen_controller.go:263-323 | One undisturbed pass for each selector that is not at the preview yet and one more leave the promoted Deployment alone, live and selected, the approval spent and PromotionDone reported |
| BlueGreenPromotion.PromotionSettles | controller/dataplane/bluegreen_controller.go:111-222 | Two passes later Ready has caught up, a new preview is scaled down, the rollout waits for a change, and no undisturbed pass changes anything |
| BlueGreenPromotion.PreviewCreatedIff | controller/dataplane/bluegreen_controller.go:356-393 | When an undisturbed pass creates a preview Deployment instead of delegating, and when that is scaled down |
| BlueGreenPromotion.EditIsRolledOut | controller/dataplane/bluegreen_controller.go:98-323 | From every reachable state with one live Deployment and no promotion under way, an edit of the spec, the new Deployment becoming available and at most five undisturbed passes put it in place of the old one |
| BlueGreenSafety.ServicesAlwaysServed | controller/dataplane/bluegreen_controller.go:244-323 | In every run under the BlueGreen strategy, once a Deployment exists, both live Services select one that exists |
| BlueGreenSafety.NeverReducesByRanking | controller/dataplane/bluegreen_controller.go:356-393 | In every such run the guard never lets the plain controller meet two live Deployments |
| BlueGreenSafety.ClearAndDeleteOnlyAfterPropagation | controller/dataplane/bluegreen_controller.go:268-323 | In every such run the preview selector is cleared and Deployments are deleted only when both live Services select the promoted one, which is the newest live one and survives |
| BlueGreenSafety.ServicesSelectOnlyEndorsed | controller/dataplane/bluegreen_controller.go:229-287 | In every such run live Services only ever select the first selector or one promoted in a pass in which its Deployment had replicas, all available and ready, and the promotion was asked for |
| BlueGreenSafety.ApprovalPromotesOnce | controller/dataplane/bluegreen_controller.go:296-323 | Under BreakBeforePromotion, after a promotion no later preview is promoted before the user approves again, although the approval annotation may survive failing requests |
| BlueGreenSafety.FailedFinishIsStuck | controller/dataplane/bluegreen_controller.go:268-323 | The last steps of a promotion end with one live Deployment unless a request fails after the label was set; then both stay in every later run under the BlueGreen strategy |
| BlueGreenSafety.TwoLiveIsStuck | controller/dataplane/controller_utils.go:206-238 | With two live Deployments no run under the BlueGreen strategy deletes one or changes a selector |
| BlueGreenInstall.EditedInstallIsStuck | controller/dataplane/controller_utils.go:206-240 | With nothing installed and a spec newer than the Ready condition, no run under the BlueGreen strategy creates a Deployment or changes a Service or selector |
| BlueGreenInstall.InstalledUnlessEditedIff | controller/dataplane/bluegreen_controller.go:356-393 | In every state that a run reaches without a Deployment, some run installs one if and only if Ready is not initialised or is of the current generation |
| BlueGreenInstall.EditedInstallIsReachable | controller/dataplane/controller.go:79-85 | The first pass and then any change of the spec that keeps the strategy lead there from an empty start |
| BlueGreenRemoval.RemovalStrandsIff | controller/dataplane/bluegreen_controller.go:397-470 | The pass that follows the removal of the strategy, whatever happens around it, leaves the live selector without a Deployment in exactly two half-finished states of a promotion |
| BlueGreenRemoval.RemovalIsAnOutageIff | controller/dataplane/bluegreen_controller.go:103-110 | Three undisturbed passes after the removal both live Services select nothing if and only if the promotion was in one of those states; the preview and the rollout's condition are gone |
| BlueGreenRemoval.OutagesAreReachable | pkg/utils/kubernetes/reduce/filters.go:85-114 | A run from an empty start reaches both kinds of state |
| AnnotationMerge.EnsureAnnotationsOfMeta | pkg/utils/kubernetes/metadata.go:38-57 | Generated annotations are set, others kept, and an update is reported exactly when something changed |
| AnnotationMerge.EnsureDataPlaneIngressServiceAnnotationsUpdated | controller/dataplane/controller_reconciler_utils.go:316-344 | The two loops compute the specified annotations, flag and error |
| AnnotationMerge.EnsureIngressServiceAnnotations | controller/dataplane/owned_resources.go:329-354 | The saved last-applied annotation is restored around the metadata merge |
| AnnotationFields.OnePass | controller/dataplane/controller_reconciler_utils.go:316-344 | Key by key, whatever state the Service is in: what is asked for is set and written down, what was asked for last and is not any more goes, the rest stays |
| AnnotationFields.UpdateReportedIff | controller/dataplane/owned_resources.go:329-354 | A pass that does not fail reports an update if and only if some annotation changed |
| AnnotationMerge.HistoryIndependence | controller/dataplane/controller_utils.go:118-142 | After any history of specs, nil included, and foreign edits the visible annotations are the foreign ones plus the last spec |
| AnnotationMerge.ReapplyIsQuiet | controller/dataplane/controller_reconciler_utils.go:316-344 | Applying the last spec again changes nothing and reports no update |
| AnnotationMerge.NothingRepairsIff | controller/dataplane/controller_utils.go:118-142 | After any history of specs and foreign edits a pass fails if and only if the Service started out with a non-empty last-applied annotation that does not decode, which is then still there |
| AnnotationMerge.FailsIffUndecodable | controller/dataplane/controller_utils.go:118-142 | One merge fails exactly for a last-applied annotation that does not decode, and then reports an update and keeps it |

## Left out

- KonnectEntityReconciler: the reference handlers that resolve other objects first, and the finalizer removals they trigger, are not modelled; runs are those in which references stay resolvable.
- KonnectEntityReconciler: adoption of existing entities, an operator restart that loses the store, deletion behind the operator's back in Konnect, rate limits and requeue delays, and entities that do not persist an ID.
- The probe for an entity by Kubernetes UID is not part of this model beyond its result in the deletion event.
- HybridState: server-side apply is a comparison with three outcomes; field ownership and the type converter are not modelled, and neither is an annotation lost to a write that carries no version.
- HybridSafety.RoutesOnlyOverServableBackends: the desired list is fixed during a run, objects are not deleted by others, and Programmed is stable once reached.
- HybridBlocks.TranslationIsWellOrdered: that blocks of one upstream name have the same targets is a hypothesis; it holds within one namespace because the name is made from the control plane and the backends.
- HybridOrder: from an empty cluster, where no service exists to wait, such a list can still converge; the claim is about settled clusters.
- Naming.KindsShareNoName: hashes are taken to have no collisions, and what is hashed of filters to contain their Go type; the print format of the hash library is not part of this model. Objects of Gateways are not compared with those of Routes.
- OrphanRace.DeleteLeavesNoRoute: annotations edited by hand are excluded; DeleteCommitsOnlyIfLast and DetachCommitsLoseNobody admit them.
- HybridCleanup: the decision to skip an orphan is an input of the cleanup; it is modelled by itself in OrphanRace.
- StreamListen: container, admin, proxy and metrics rules of the NetworkPolicy, environment variables with a source other than a value, and the random suffix of unnamed Service ports.
- Hostnames: character classes and escapes of path.Match, and lower-casing beyond ASCII; hostnames admitted by the Gateway API contain neither.
- BlueGreen: certificates, preview Services, status addresses, HPA and PDB steps only appear as places where a pass may stop. The one pass that goes past the readiness check without a live Deployment stops at the preview Service of the admin API, which it has to create.
- BlueGreen: the resource plan is the only one the API admits, scaling the preview down after a promotion; the plain controller changing an existing live Deployment in other ways than deleting it is not modelled.
- BlueGreen: creation times are strictly increasing, and nobody else deletes Deployments. Adding the strategy back after its removal is not claimed to be safe.
- AnnotationMerge: JSON is a parameter, an encoding that decodes to the same map and is never empty; labels, owner references and the rest of the Service spec are not modelled.
- Gateway, ControlPlane and KonnectExtension provisioning, TLS secret validation, reference grants and plugin binding combinations would only add members of lesser difficulty.
