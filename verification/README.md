# ROR agent: verified model

A Dafny model of the ROR cluster agent (v1) and proofs about it. The agent copies a Kubernetes cluster's
resources to the ROR API, keeps a stable cluster identity, and reports node pools, ingresses and access groups.

The main part is the replication pipeline:

- `Watcher.dfy` is the LIST/WATCH loop with its cursor and backoff; `Mirror.dfy` puts it against an API server
  with a versioned history; `Delivery.dfy` says which handler call it makes for which change, `CallLog.dfy` is about
  the order of its handler calls and says when the mirror is exact; `Backoff.dfy` is about its sleeps.
- `Workqueue.dfy`, `HashList.dfy` and `ResourceCache.dfy` are the retry queue, the hash list and the cache that
  suppresses, sends or queues each event, drains the queue and sweeps once. `Events.dfy` says what a single event and
  a drain do, case by case. `Drain.dfy`, `Replication.dfy`, `MarkAndSweep.dfy` and `Suppression.dfy` hold the
  properties of drains and of whole runs.
- `EndToEnd.dfy` joins the two halves: what the ROR API holds at the end is the mirror, and when it is the cluster.
  `Fleet.dfy` does so for several watchers over one cache.

The second part is the identity set-up, `Identity.dfy`, `IdentityRuns.dfy` and `IdentitySources.dfy`: a machine over
secret, fields and registration that restarts after an abort at any call. `NodePools.dfy`, `AccessGroups.dfy`,
`ResourceHash.dfy` and `Ingress.dfy` are the supporting computations; `Text.dfy` is string splitting, `Common.dfy`
holds shared datatypes and what it means to select elements of a list.

Code that changes state is a class or a method with loops, proved to compute a specification function over the
state before; the properties are lemmas about these functions.

## How the environment is modelled

- Every external call has an outcome chosen by an adversary: a parameter of the step, an element of a script, or a
  function of the call's number. A failed call changes nothing remotely. Create and update both store the
  resource; delete removes it. The requests are logged, so that a create and an update can be told apart.
- One handler call, one drain or one sweep is one atomic step, since the Go code takes no locks.
- The hash list library, the encoder and the digest are not part of the repository. The hash list is a map from uid
  to (hash, active) in which new entries are active and fetched ones are not; the digest is a function, injective
  where a lemma says so.
- The API server keeps one history of versions. A list shows one snapshot per page chain, no older than anything
  shown before; a watch delivers every later change of its resource in order; calls fail and streams close or break
  at any point. The script of a watcher run ends when the stop channel closes.
- Times are abstract integers. Node figures are int64 with wrap-around.

Where the code differs from its own comments, the model follows the code. The one exception is the retry queue's
scheduler: resourcecache.go:62-70 binds it to a copy of the cache made at start-up, while the comment at line 112
says that it drains the queue; the model drains the shared queue.

## Model

| member | source | states |
|---|---|---|
| Workqueue.Queue.GetByUid | internal/services/resourceupdate/workqueue.go:24-32 | finds the first entry of the uid; 0 is returned both for the head and for no match, and only the found entry tells them apart |
| Workqueue.Queue.Add | internal/services/resourceupdate/workqueue.go:33-48 | if the first match lies behind the head it is replaced (one retry more); with no match or a match at the head, one entry is appended |
| Workqueue.Queue.DeleteByUid | internal/services/resourceupdate/workqueue.go:50-63 | the queue is the old one without the entry at the reported position; an empty uid changes nothing |
| Workqueue.AddedExactly | internal/services/resourceupdate/workqueue.go:33-48 | the first entry of the uid is replaced where it stands, with a new time and one retry more, iff it is not the head; otherwise the update is appended |
| Workqueue.DeleteTouchesOnlyItsUid | internal/services/resourceupdate/workqueue.go:24-63 | entries of other uids survive exactly when the deleted uid is queued or the queue is empty: an absent uid drops the head |
| Workqueue.AddedKeepsShape | internal/services/resourceupdate/workqueue.go:33-48 | adding keeps it true that only the head's uid can be queued twice |
| Workqueue.CoalescingPreservesMeaning | internal/services/resourceupdate/workqueue.go:24-48 | for any run of Adds from empty and any store, replaying the coalesced queue gives what replaying every added update gives |
| Workqueue.RetriesConserved | internal/services/resourceupdate/workqueue.go:33-63 | over any run of Add and DeleteByUid from empty, the sum of RetryCount+1 over queued and dropped entries is the number of Adds |
| HashList.List.CheckUpdateNeeded | internal/services/resourceupdate/resourceupdate.go:25-25 | contract of the unseen hash list: an update is needed iff the uid is unknown or has another hash |
| HashList.List.UpdateHash | internal/services/resourceupdate/resourceupdate.go:33-33 | contract: the uid now has this hash; an existing entry keeps its mark, a new one is active |
| HashList.List.MarkActive | internal/services/resourceupdate/resourcecache.go:58-60 | contract: a known uid becomes active, an unknown one changes nothing |
| HashList.List.GetInactiveUid | internal/services/resourceupdate/resourcecache.go:89-89 | contract: the inactive uids, each once |
| ResourceCache.Cache.constructor | internal/services/resourceupdate/resourcecache.go:33-53 | start-up: the fetched hash list, an empty queue, the clean-up pending |
| ResourceCache.Cache.SendResourceUpdateToRor | internal/services/resourceupdate/resourcecache.go:128-147 | the create, update or delete call of the action is made and its effect or error kept; an unknown action makes none |
| ResourceCache.Cache.SendResource | internal/services/resourceupdate/resourceupdate.go:14-44 | the whole new state of one event and the requests it makes: mark, suppress, send or queue |
| ResourceCache.Cache.RunWorkQue | internal/services/resourceupdate/resourcecache.go:114-125 | the loop over a snapshot of the queue, with the live queue changing, leaves the state of the drain and makes its requests |
| ResourceCache.Cache.RunWorkqueueScheduler | internal/services/resourceupdate/resourcecache.go:65-70 | one tick is one drain, also when the queue is empty and it does nothing |
| ResourceCache.Cache.FinnishCleanup | internal/services/resourceupdate/resourcecache.go:83-106 | asks for the delete of every inactive uid, each once, and removes the acknowledged ones; a second call does nothing |
| Events.FailedSend | internal/services/resourceupdate/resourceupdate.go:21-43 | a failed send leaves the store, every hash and the list's members alone; it queues the update, and only the put's own uid may turn active, only while the clean-up is pending |
| Events.SuppressedSend | internal/services/resourceupdate/resourceupdate.go:21-26 | an add or update with the known hash makes no request and only marks its uid |
| Events.AcknowledgedPut | internal/services/resourceupdate/resourceupdate.go:21-34 | an acknowledged add or update puts hash and content in the store and the hash on the list, for its uid only, with the mark it then has |
| Events.AcknowledgedDelete | internal/services/resourceupdate/resourceupdate.go:35-42 | an acknowledged delete takes its uid from the store and leaves the hash list and the queue alone |
| Events.UnknownActionIsRecorded | internal/services/resourceupdate/resourcecache.go:139-146 | an unknown action is neither sent nor queued, yet its hash is recorded, which suppresses a later add or update of the same content |
| Events.EventAsks | internal/services/resourceupdate/resourcecache.go:129-146 | one create, update or delete request with the event's own resource, or none if its hash is on the list |
| Events.DrainAsks | internal/services/resourceupdate/resourcecache.go:114-125 | a drain asks for the i-th queued entry iff every one before it was acknowledged |
| Drain.RetryFindsItsOwnEntry | internal/services/resourceupdate/resourcecache.go:115-122 | inside a drain DeleteByUid finds the entry just retried: the drop-the-head case is never reached, duplicates or not |
| Drain.DrainEffect | internal/services/resourceupdate/resourcecache.go:114-125 | with k the first failing index, store and hash list are the fold of the first k entries; the queue is the acknowledged empty-uid entries, the unsent suffix, then Add of the failing entry |
| Drain.DrainEffectWithUids | internal/services/resourceupdate/resourcecache.go:114-125 | with non-empty uids the queue is the suffix plus one appended copy of its head, or empty |
| Drain.HashesAfterAt | internal/services/resourceupdate/resourcecache.go:123 | acknowledged retries leave each uid with the hash of its last retry, also of a delete, and with the mark it had |
| Replication.Provenance | internal/services/resourceupdate/resourcecache.go:114-147 | over any run every queued update and every stored value comes from start-up or from an event for its uid |
| Replication.CacheAgreement | internal/services/resourceupdate/resourcecache.go:83-147 | over any run with failures, retries and the sweep, a hash-list entry is the stored hash unless a delete of its uid was once acknowledged |
| Replication.AcknowledgedEventHeals | internal/services/resourceupdate/resourceupdate.go:21-34 | after any run, an acknowledged add or update leaves its hash in the store, unless its uid was once deleted |
| Replication.DrainOverwritesIff | internal/services/resourceupdate/resourcecache.go:114-125 | a drain leaves each uid as its last acknowledged entry says; it changes the store there iff there is such an entry and its content is not what the store already holds |
| Replication.QueuedUpdateCanOverwriteNewer | internal/services/resourceupdate/resourcecache.go:114-125 | an instance: a queued older update overwrites a newer one that was sent in between |
| Replication.QueuedUpdateCanUndoDelete | internal/services/resourceupdate/resourcecache.go:114-125 | a worse one: a queued older update brings back an object whose delete was acknowledged in between |
| Replication.StepKeepsQueued | internal/services/resourceupdate/resourcecache.go:114-125 | in one step a queued uid stays queued or a retry for it is acknowledged |
| Replication.NoPendingUidIsLost | internal/services/resourceupdate/resourceupdate.go:27-41 | after a failed send the uid stays queued through any interleaving until a retry for it is acknowledged |
| MarkAndSweep.PendingUntilFirstSweep | internal/services/resourceupdate/resourcecache.go:83-87 | the clean-up is pending exactly until the first sweep of a run |
| MarkAndSweep.InactiveBeforeSweep | internal/services/resourceupdate/resourceupdate.go:21-24 | before the sweep the inactive uids are exactly the start-up uids without an add or update so far |
| MarkAndSweep.SweepDeletesExactlyTheUnseen | internal/services/resourceupdate/resourcecache.go:83-106 | the first sweep deletes exactly the unseen start-up uids whose delete is acknowledged; every later sweep changes nothing |
| MarkAndSweep.SurvivorsWereSeen | internal/services/resourceupdate/resourcecache.go:83-106 | if all its deletes are acknowledged, every start-up uid the store still holds, then or later, had an add or update since start |
| Suppression.EventAgainstForwarding | internal/services/resourceupdate/resourceupdate.go:21-42 | one acknowledged event keeps suppression and forwarding in step iff it does not meet a stale hash |
| Suppression.SuppressionRefinesForwarding | internal/services/resourceupdate/resourceupdate.go:14-44 | for every sequence of acknowledged events the two stores have the same hashes after every prefix iff no add or update meets a stale hash |
| Suppression.SuppressionIsInvisible | internal/services/resourceupdate/resourceupdate.go:14-44 | if no uid reappears after its delete, suppression leaves the store that sending every event would; the contents too when equal hashes mean equal contents |
| Watcher.DynamicController.Await | common/pkg/controllers/dynamiccontroller/dynamicController.go:184-190 | blocks until the pending call is answered or the stop channel is closed |
| Watcher.DynamicController.NoCacheInitialList | common/pkg/controllers/dynamiccontroller/dynamicController.go:142-172 | pages through the list, delivering each object, and ends as the trace says: a version, a failure or a stop |
| Watcher.DynamicController.NoCacheWatch | common/pkg/controllers/dynamiccontroller/dynamicController.go:174-225 | follows the watch from the cursor and ends as the trace says: same cursor, later cursor or a forced relist |
| Watcher.DynamicController.RunNoCacheWatcher | common/pkg/controllers/dynamiccontroller/dynamicController.go:94-124 | all handler calls and sleeps of the nested loops are those of the state machine over everything the server answered |
| Delivery.WatchCallsTheRightHandler | common/pkg/controllers/dynamiccontroller/dynamicController.go:204-219 | with an open watch an answer makes one call iff it moves on to a change: an update for an object that was live, an add for one that was not, a delete for a deletion; no change is passed over |
| Delivery.EveryChangeIsDelivered | common/pkg/controllers/dynamiccontroller/dynamicController.go:94-225 | from any cursor on, as long as nothing breaks, the handlers are called once for each later change, in order, however often the stream is reopened |
| Delivery.PagedListIsComplete | common/pkg/controllers/dynamiccontroller/dynamicController.go:142-172 | a whole page chain delivers one snapshot: each live object once, as an add, and nothing else; the watch continues from its version |
| Delivery.BreakStartsANewList | common/pkg/controllers/dynamiccontroller/dynamicController.go:151-157 | a failed list or an ERROR event starts over with the first page of a whole new snapshot |
| Delivery.CursorIsTheLastVersion | common/pkg/controllers/dynamiccontroller/dynamicController.go:196-208 | for any answers, the cursor is the last version an event carried, or else the one the watch was opened with |
| Delivery.EventTypesHaveHandlers | common/pkg/controllers/dynamiccontroller/dynamicController.go:210-219 | for any answers, the three event types call their own handler with their object, and no other event calls one |
| Delivery.ReconnectKeepsTheCursor | common/pkg/controllers/dynamiccontroller/dynamicController.go:174-194 | a closed stream or failed watch call comes back to the same cursor, or to a new list without one |
| Mirror.PageInv | common/pkg/controllers/dynamiccontroller/dynamicController.go:160-171 | a list page keeps the mirror invariant, also when the chain breaks off and restarts |
| Mirror.EventInv | common/pkg/controllers/dynamiccontroller/dynamicController.go:206-219 | a watch event or bookmark keeps the mirror invariant |
| Mirror.MirrorAgrees | common/pkg/controllers/dynamiccontroller/dynamicController.go:94-225 | in every run, whenever a cursor is held the mirror agrees with the cluster at it on every live object; an extra entry was live once and deleted at a version no watch delivered |
| CallLog.MirrorIsExactIff | common/pkg/controllers/dynamiccontroller/dynamicController.go:94-225 | in every run the mirror is the cluster at the cursor iff every object ever delivered and gone by then had its deletion delivered by a watch |
| Mirror.MirrorIsExactWithoutGap | common/pkg/controllers/dynamiccontroller/dynamicController.go:94-225 | in particular if no list fails and no stream breaks with ERROR once a page has arrived; the first list may fail any number of times |
| Mirror.RelistCanLeaveADeletedObject | common/pkg/controllers/dynamiccontroller/dynamicController.go:196-202 | an instance where it is not: an object deleted while the stream was broken stays in the mirror |
| Backoff.BackoffOfRun | common/pkg/controllers/dynamiccontroller/dynamicController.go:135-182 | after n failures in a row since the last page or watch open the shared backoff is min(2^n, 32) seconds, and the sleeps follow |
| Backoff.NoSleepExceeds32 | common/pkg/controllers/dynamiccontroller/dynamicController.go:135-140 | no sleep exceeds 32 s despite the test for 30 s, and 32 s is reached |
| Backoff.SleepOfAStreak | common/pkg/controllers/dynamiccontroller/dynamicController.go:135-182 | n failures in a row sleep 2^n-1 seconds in all for n<=5 and 32 more for each further one |
| CallLog.LogInvHolds | common/pkg/controllers/dynamiccontroller/dynamicController.go:160-219 | in every run, with any relists, each delete call stems from a deletion a watch delivered, and without reuse of uids in the cluster no add or update call follows a delete call for its uid |
| CallLog.LaterPutsAreLive | common/pkg/controllers/dynamiccontroller/dynamicController.go:160-219 | handler calls are only appended, and each later add or update is for an object live at some version no older than anything shown before |
| EndToEnd.CallEffect | internal/services/resourceupdate/resourceupdate.go:14-44 | one acknowledged call, uid by uid: other uids are untouched, a delete empties the store, an add or update leaves its hash in store and hash list unless the hash list suppresses it |
| EndToEnd.CallAsks | internal/handlers/dynamichandler/functions.go:9-22 | a handler call leads to the create, update or delete request of its own kind for its own object, unless it is suppressed |
| EndToEnd.StoreIsMirrorWithoutLost | internal/services/resourceupdate/resourcecache.go:72-106 | after any calls with a sweep in between, the store holds for each uid the mirror's hash, except for start-up uids without a call before the sweep and only their old hash since |
| EndToEnd.SweepLosesNothingIff | internal/services/resourceupdate/resourcecache.go:72-106 | the store ends as the mirror iff every start-up object listed only after the sweep comes with a new hash at some point |
| EndToEnd.SweepSyncs | internal/services/resourceupdate/resourcecache.go:83-106 | a sweep that comes last leaves exactly the mirrored objects |
| EndToEnd.PipelineConverges | common/pkg/controllers/dynamiccontroller/dynamicController.go:94-225 | watcher, suppression and sweep together, with any failed lists and relists: with acknowledged sends and an acknowledged sweep any time after a first cursor, at which all start-up uids that ever live again are live, the store ends as the mirror; so at a cursor it agrees with every live object, and every extra uid is a deletion no watch delivered |
| EndToEnd.PipelineIsExactWithoutGap | common/pkg/controllers/dynamiccontroller/dynamicController.go:94-225 | without a relist the store ends with exactly the live objects at the cursor |
| EndToEnd.CreatedBeforeIsNotBornAfter | common/pkg/controllers/dynamiccontroller/dynamicController.go:94-225 | uids of objects created before the cursor meet the condition on start-up uids |
| Fleet.FleetConverges | internal/services/resourceupdate/resourcecache.go:72-106 | several watchers over one cache and one sweep, their calls interleaved in any way: if the sweep comes once all have held a cursor, the store ends as the union of their mirrors and nothing else |
| EndToEnd.SweepBeforeListLosesResources | internal/services/resourceupdate/resourcecache.go:72-106 | an instance of a loss: a start-up resource swept before its first event, whose unchanged add is then suppressed |
| Identity.RorAgentClient.KubernetesCreateApiKeySecret | common/pkg/clients/clusteragentclient/clusteragentclient.go:296-314 | the created secret holds the two configured values, sentinels included |
| Identity.RorAgentClient.KubernetesUpdateOrCreateApiKeySecret | common/pkg/clients/clusteragentclient/clusteragentclient.go:316-352 | writes only known values that differ, creates a missing secret, panics on a secret without data |
| Identity.RorAgentClient.GetClusterAuthFromSecret | common/pkg/clients/clusteragentclient/clusteragentclient.go:357-384 | loads id and key, the sentinels for missing or empty ones |
| Identity.RorAgentClient.InitRorAgentClientSetup | common/pkg/clients/clusteragentclient/clusteragentclient.go:191-294 | secret, fields and ids asked to be registered after every combination of failing calls |
| Identity.RorAgentClient.NewRorAgentClient | common/pkg/clients/clusteragentclient/clusteragentclient.go:101-170 | invalid configuration and failing interregator, set-up, then the key check and the best-effort write of the cluster uid |
| IdentityRuns.KnownIdentityIsKept | common/pkg/clients/clusteragentclient/clusteragentclient.go:191-384 | with id and key stored a run neither registers nor changes them, and a successful one ends with them |
| IdentityRuns.IdentityIsStable | common/pkg/clients/clusteragentclient/clusteragentclient.go:191-384 | crash-restart stability over any sequence of runs that may each abort anywhere |
| IdentityRuns.KnownKeyIsKept | common/pkg/clients/clusteragentclient/clusteragentclient.go:266-288 | a stored known key is never replaced and prevents registration |
| IdentityRuns.KnownIdChangesOnlyByRegistration | common/pkg/clients/clusteragentclient/clusteragentclient.go:266-288 | a stored known id changes only to the id in a registration reply of the same run |
| IdentityRuns.SuccessSettlesIdentity | common/pkg/clients/clusteragentclient/clusteragentclient.go:191-294 | a successful run from any secret ends with a known id and key that the secret holds exactly iff the values it takes are non-empty and no sentinel |
| IdentityRuns.GoodAnswersSettle | common/pkg/clients/clusteragentclient/clusteragentclient.go:191-294 | with good values from every source every success settles the identity |
| IdentityRuns.SuccessCondition | common/pkg/clients/clusteragentclient/clusteragentclient.go:191-294 | with good values and no failing call a run succeeds iff the secret is not one without data and an id or a cluster name is available |
| IdentityRuns.NilSecretIsNeverRepaired | common/pkg/clients/clusteragentclient/clusteragentclient.go:330-341 | a secret without data is never written, whatever any sequence of runs is told; a run on it succeeds iff it takes only empty or unknown values, so never with good answers |
| IdentitySources.ForeignKeyStoresNothing | common/pkg/clients/clusteragentclient/clusteragentclient.go:207-223 | with a stored key and no id, a failing connection or self lookup or a key that is not a cluster's aborts the run, which registers nothing and leaves the secret alone |
| IdentitySources.IdOfAKeyIsItsCluster | common/pkg/clients/clusteragentclient/clusteragentclient.go:207-233 | an id is then stored only for a cluster's key, and it is that cluster's name, or a generated one where the name is the unknown value |
| IdentitySources.SuccessTakes | common/pkg/clients/clusteragentclient/clusteragentclient.go:101-150 | what every successful run had: a cluster's key in the final check, a registration for an unknown key, a source for an unknown id |
| IdentitySources.RegistersTheIdTaken | common/pkg/clients/clusteragentclient/clusteragentclient.go:266-282 | a run asks for a registration only without a stored key, once, and for the id it has taken |
| IdentitySources.IdSurvivesFailedRegistration | common/pkg/clients/clusteragentclient/clusteragentclient.go:252-275 | if the registration fails, the secret holds the id that was asked for |
| IdentitySources.RetriesAskForTheSameId | common/pkg/clients/clusteragentclient/clusteragentclient.go:191-294 | over any runs whose registrations fail, every one asks for the id stored first |
| IdentitySources.UidRoundTrip | common/pkg/clients/clusteragentclient/clusteragentclient.go:161-170 | the uid a successful run stores is the one the next process has, whatever its environment says, unless the API reports another |
| IdentitySources.CreatedHoldsTheIdentity | common/pkg/clients/clusteragentclient/clusteragentclient.go:296-316 | a created secret holds id and key and nothing else |
| IdentitySources.LastUpdateMayFail | common/pkg/clients/clusteragentclient/clusteragentclient.go:164-167 | no failure of the last update turns success into an abort |
| IdentitySources.RunKeepsOthers | common/pkg/clients/clusteragentclient/clusteragentclient.go:330-346 | no run touches any other key of the secret, however it ends |
| NodePools.Topology.AppendNodeToControlePlane | internal/services/heartbeat.go:338-367 | appends the node and adds its figures, with int64 wrap-around |
| NodePools.Topology.AppendNodeToNodePools | internal/services/heartbeat.go:369-436 | puts the worker into the last pool of its name or a new one, or stops where it has no name |
| NodePools.Topology.Build | internal/services/heartbeat.go:133-140 | masters and workers are separated and folded; it fails iff some worker has no pool name |
| NodePools.AksPool | internal/services/heartbeat.go:370-379 | an AKS worker belongs to the second dash-separated part of its machine name, and has no pool without one |
| NodePools.PoolAfterClusterName | internal/services/heartbeat.go:370-377 | elsewhere it is the part after as many parts as the cluster name has, and there is none iff the machine name is no longer than that |
| NodePools.TalosPool | internal/services/heartbeat.go:373-374 | on Talos it is the annotation, or the empty name |
| NodePools.ReportedAsItIs | internal/services/heartbeat.go:381-400 | a node is reported with its own name, machine name, details, figures and role |
| NodePools.MastersAreSelected | internal/services/heartbeat.go:133-140 | the masters are the nodes with the control-plane label, in input order |
| NodePools.WorkersAreSelected | internal/services/heartbeat.go:133-140 | the workers are all others, in input order |
| NodePools.Topology.Totals | internal/services/heartbeat.go:159-171 | the totals loop over the pools |
| NodePools.WorkersAreGrouped | internal/services/heartbeat.go:369-436 | the fold is a stable group-by: distinct names in first-appearance order, one per name in use, each with exactly its workers in input order |
| NodePools.NamedNodesAreSelected | internal/services/heartbeat.go:402-435 | the nodes of a name are those of the members with it, each once and in input order |
| NodePools.MembersAreWorkers | internal/services/heartbeat.go:370-400 | pool names are defined iff every worker's is, and each worker is reported once, in order |
| NodePools.PoolsAreMeasured | internal/services/heartbeat.go:402-435 | every pool's count and figures are the sums over its own nodes, modulo 2^64 |
| NodePools.ControlPlaneIsMeasured | internal/services/heartbeat.go:338-367 | so are the control plane's |
| NodePools.SumByFigure | internal/services/heartbeat.go:360-366 | the four figures are summed each with its own kind |
| NodePools.TotalsAreConserved | internal/services/heartbeat.go:159-171 | the totals over pools equal one direct sum over all workers, exactly iff that sum fits in an int64 |
| NodePools.NothingOverflows | internal/services/heartbeat.go:159-171 | with figures of at most B and n*B inside int64, for n workers and for n masters, no sum over the first nodes of a pool or of the control plane overflows, nor a running total; the figures are the exact sums |
| AccessGroups.StringArray | internal/services/heartbeat.go:49-88 | prints the non-empty groups of the six lists in order, each behind its role's prefix |
| AccessGroups.PrintedGroupsDecode | internal/services/heartbeat.go:49-104 | reading one of the six roles back gives the non-empty ';'-parts of its own entry, in order; an absent entry counts as empty |
| AccessGroups.RolesInOrder | internal/services/heartbeat.go:49-87 | the roles are printed one after the other in their order, and nothing without a config map |
| AccessGroups.NonEmptyAreSelected | internal/services/heartbeat.go:51-56 | exactly the empty groups are dropped, and the others keep their order |
| AccessGroups.PrintedListIsUnique | internal/services/heartbeat.go:49-104 | two group sets print alike iff their six filtered lists are equal |
| AccessGroups.PrefixesAreApart | internal/services/heartbeat.go:49-88 | no prefix can be mistaken for another, whatever name follows |
| ResourceHash.RemoveUnnecessaryDataFromObject | internal/models/rorResources/resourcestype.go:93-106 | changes the shared maps in place so that the object's tree is the cleaned one |
| ResourceHash.CalculateHashFromObject | internal/models/rorResources/resourcestype.go:62-91 | the digest of the tree with the three fields nulled; nothing the caller sees changes |
| ResourceHash.NewFromUnstructured | internal/models/rorResources/resourcestype.go:23-48 | error for a nil object or an unhandled kind; the object is cleaned either way, the hash is of the cleaned tree |
| ResourceHash.StringAtReads | internal/models/rorResources/resourcestype.go:30-34 | API version, kind and uid are the string under their key, and empty for anything else |
| ResourceHash.CleanedAt | internal/models/rorResources/resourcestype.go:93-106 | cleaning keeps every field but the annotations, and of these it keeps what KeptAnnotationsAt says |
| ResourceHash.KeptAnnotationsAt | internal/models/rorResources/resourcestype.go:98-105 | all annotations but the last-applied one are kept, and the map itself goes iff there is no other |
| ResourceHash.HashDecidesAlike | internal/models/rorResources/resourcestype.go:62-106 | two objects have the same hash input iff they agree outside the three fields and the last-applied annotation, empty and absent annotations being the same |
| ResourceHash.EqualHashesMeanAlike | internal/models/rorResources/resourcestype.go:37-43 | with an injective digest, equal hashes mean exactly that |
| ResourceHash.CleanedTwice | internal/models/rorResources/resourcestype.go:93-106 | cleaning is idempotent |
| Ingress.GetIngressService | internal/utils/ingress.go:176-280 | service, endpoint slices and legacy fallback, with every error branch |
| Ingress.FetchedServiceHolds | internal/utils/ingress.go:176-280 | on the raw replies: an error iff a call that is reached errs; name, kind, selector and ports of the reply; node and pod of raw endpoints that answer, and endpoints iff one does |
| Ingress.FlatInOrder | internal/utils/ingress.go:235-252 | the raw endpoints are taken group by group, one by one, in order |
| Ingress.FirstsAreKept | internal/utils/ingress.go:253-277 | of the slices' endpoints exactly the first of each key is kept, in order |
| Ingress.FailedLookupIsEmpty | internal/utils/ingress.go:97-106 | a failed lookup gives the empty service |
| Ingress.CollectSlices | internal/utils/ingress.go:251-273 | the endpoints of all slices, without those whose key was seen |
| Ingress.EndpointsAreDistinct | internal/utils/ingress.go:263-271 | each (node, pod) pair is kept once in first-appearance order iff no two different pairs share a key |
| Ingress.KeysCanCollide | internal/utils/ingress.go:263-263 | a separator inside a name lets two pairs share a key |
| Ingress.KeyDecides | internal/utils/ingress.go:263-263 | without a separator in node names the key determines the pair |
| Ingress.GetIngressDetails | internal/utils/ingress.go:34-117 | the nested loops compute the memoised walk and the verdict; nil client, nil rules and nil backend are told apart |
| Ingress.ServicesFetchedOnce | internal/utils/ingress.go:82-104 | each service is fetched successfully at most once and not again afterwards, for any sequence of answers |
| Ingress.RulesAlign | internal/utils/ingress.go:56-105 | with steady answers rules, addresses and paths line up with the specification and every path has the service of an uncached lookup |
| Ingress.AddressesAreSelected | internal/utils/ingress.go:70-77 | the addresses of a rule are the ips of the balancers with its host name, in order |
| Ingress.GetIngressHealth | internal/utils/ingress.go:129-162 | health is left alone iff the class suffix is allowed, rules exist, and each has an address and only NodePort paths with endpoints, at least one; else it is 3 |
| Ingress.DetailsFollowTheSpecification | internal/utils/ingress.go:34-162 | with steady answers the specification and the raw replies alone decide: a panic iff a path has no service backend, else health 1 iff the class is allowed, rules exist, and each has a balancer for its host and only paths to NodePort services with an answering endpoint, at least one; uid, name, namespace and class are the ingress's own |
| Ingress.LastPart | internal/utils/ingress.go:132-132 | the last '-'-part of a class is c iff the class is c or ends in '-' and c |
| Ingress.AllowedClasses | internal/utils/ingress.go:131-136 | a class is allowed iff its last dash-separated part is internett, helsenett or datacenter |
| Text.SplitJoins | internal/services/heartbeat.go:96-101 | splitting loses nothing: the parts hold no separator and join back to the string |
| Text.JoinSplits | internal/services/heartbeat.go:96-101 | joining parts without a separator and splitting again gives the parts |

## Left out

- ResourceCache.Cache.RunWorkqueueScheduler: drains the shared queue, as the comment at resourcecache.go:112 says, not the start-up copy of the cache that its scheduler is bound to.
- Transport, logging, signals, garbage collection and wall-clock time: only the outcomes of calls are modelled.
- Interleavings finer than one handler call: the claims do not hold for them, as the Go code shares maps and slices without locks.
- Failing sends in `EndToEnd` and `Fleet`: they take every send as acknowledged; `Replication` is about the runs where calls fail.
- Freshness of the store while calls fail: the code does not provide it, `Replication.DrainOverwritesIff` says when a drain takes it away.
- Liveness of the watch loop: an error returned by the watch call keeps the same cursor (dynamicController.go:176-180), so an expired version is not recovered from on that path.
- The informer branch of the controller and the list limit of 500.
- An event action other than add, update and delete: it is modelled, but run properties require the three actions the handlers use.
- The generated dispatch on kinds (extractResource.go): a set of handled kinds and a conversion outcome.
- JSON keys as plain strings: the keys the code names are constructors, all others carry their name.
- The copies of id and key that set-up puts into the process configuration (clusteragentclient.go:291-292), and the version and owner settings of the client (152-161).
- The provider's own constant for an unknown cluster id is not part of the repository; the interregator answers with an optional id.
- Descriptive node fields are one string that is copied; quantities and floating point (node_service.go) come in as int64 figures.
- Control plane endpoint, CA certificate, egress address, versions and the remaining fields of the heartbeat report: copied values.
- The v2 agent: its cache and queue live in a library that is not part of the repository.
