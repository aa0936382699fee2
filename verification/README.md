# Control-plane protocols, modelled and proved in Dafny

This project models the parts of the agent control plane whose correctness depends on
interleavings, stale reads and bounded histories, and proves what they keep.

- **Config distribution (ASDP).** `Snapshots` and `SnapshotHistory` model the versioned snapshot
  store; `Connections` the per-connection send queues, the connection registry, the handshake and the
  distributor as classes, one operation at a time. `Distribution` puts the same operations into one
  transition system with a step per lock region - pushes, refused sends and their closing, handshakes,
  evictions, registrations, full syncs, writers, context cancellations, teardowns, agent deletions and
  `Stop` - and quantifies over every finite sequence of steps, so over every interleaving.
  `DistributionHandshakes` covers the life of a stream from its handshake to its teardown,
  `DistributionRegistry` how connections enter and leave the registry, `DistributionStore` the snapshot
  store under concurrency and where the configs in flight come from, `DistributionOrder` the order of a
  slot's configs, `DistributionOwners` whose configs reach a queue, and `DistributionLimits` concrete
  runs at the limits of the guarantees.
- **One stream end to end.** `StreamOrder` models a single bidirectional stream: the handshake, the
  server's queue and writer goroutine, the connector's receive loop and send funnel, and the
  acknowledgements and heartbeats coming back; `StreamLife` covers who is accepted, what bounds the
  funnel, session reports and how the ends stop. `EndToEnd` composes it with `Distribution`: for a stream that carries
  a connection's queue, what is current is what was acknowledged last, and an acknowledgement's nonce
  alone names what it answers.
- **Team coordination.** `ObjectStore` is one API object under optimistic concurrency: reads may
  return any past version, a write is accepted only on the newest. Its theorem (every accepted
  read-modify-write acts atomically) is instantiated for CRD tasks (`CrdTasks`), team status
  (`Teams`, `TeamRuns`) and outbox messages (`Outbox`). `Tasks`, `TaskRuns` and `TaskProgress` cover
  the in-memory task store, `TaskSimulation` relates the two stores, and `Rescheduling` covers the
  release of a failed member's tasks. `TeamTasks` connects a team's end to the state of its tasks
  through the summary in its status.
- **Revision history.** `Revisions` models the bounded annotation with pruned snapshots, pushes,
  rollbacks and direct edits.
- **Event-stream reader.** `Sse` refines the scanning loop to a declarative rule.

Conventions. A method models source code that changes state in place and is specified by a function
of the old state; the lemmas are about those functions and about `Run`, the fold of `Apply` over a
sequence of steps. A truncated SHA-256 digest is an arbitrary function `hash`; a lemma that needs it
to be collision free says so with `Injective(hash)`. JSON encoding is lossless, and a failing
`json.Marshal` is the value `None`. Certificate checks, session lookups, delivery results and the
room in a channel are parameters. In `Distribution` a stored snapshot carries a stamp that the source
does not have: a serial number, which only tells apart two updates that store equal values
(`ChangedConfigIsNew` shows that it does), and the pair that was pushed, which tells apart two pairs
that share a key.

## Where the code and its promises differ

- The newest config need not be the last one enqueued: a full sync can read, be overtaken by a push,
  and then send what it read (`LastEnqueuedCanBeStale`). Along a run the newest stays last exactly as
  long as no step sends a stale config after it (`NewestStaysLastIff`, `StepBreaksIff`), and no step
  does if updates of a slot wait until nothing in flight carries an older one (`UnhurriedIsNeverStale`).
- Agent keys join namespace and name with `/`. If a pair that a stream claims shares its key with
  another pair that is pushed to, the push replaces the stream's current config without reaching it.
  Nothing is lost exactly when no claimed and pushed pairs collide (`NothingLostIff`). The config
  watcher pushes to Kubernetes objects, whose names hold no `/`, so nothing it pushes is lost,
  whatever the clients claim (`ObjectPushesAreNotLost`).
- A full sync reads configs by the joined agent key and looks its target up by namespace and instance
  only. A stream of another agent that takes the instance over receives the first agent's configs, and
  so does a stream whose pair shares its key with the pushed one. Queues hold only configs pushed to
  their own agent exactly when no claimed and pushed names allow that (`OnlyOwnConfigsIff`); for
  pushes to objects only instances shared between agents matter (`ObjectPushesMisdirectIff`).
- A full buffer tears a connection down only by cancelling it; it stays registered
  (`CancelledCanStayRegistered`) until one of the steps that `RegistrationEndsIff` lists. Two
  handshakes that both pass the eviction check leave one connection open and unregistered, and the
  gauge one too high (`OverwrittenConnectionStaysOpen`).
- Versions and nonces restart when an agent is forgotten (`TriplesRepeatAfterDelete`); `TriplesAgreeIff`
  says exactly when two triples agree.
- `Unclaim` accepts completed tasks, which can strand a started dependent
  (`ReleasingCompletedBreaksSafety`); `StepSafeIff` is the exact condition. The CRD store ignores
  dependencies, expected versions, on completion the state, and the team that a call names
  (`AcceptanceGap`, `WrongTeamIsAccepted`).
- A task may name an id that is yet to be handed out, and then two tasks can block each other for good
  (`CyclicDependenciesDeadlock`). A list drains exactly when its dependencies can be ranked
  (`DrainableIff`), which dependencies on earlier tasks always can.
- The REST handler counts static members twice instead of counting the lead once, so without static
  members a team can exceed `maxTotal` by one (`LimitHoldsIffStaticMember`).
- Members that join through REST before a team is started are forgotten by the start (`StartForgets`).
- Members can share a name. Those added through REST have no session and are never found failed, so
  recovery still settles (`SessionsStayOnFirst`, `RecoveryTerminates`), and sessions only run for
  members of the spec and allowed agents (`OnlyAllowedSessionsRun`). A dynamic member spawned under
  a name in use has one, and then its failure can be handled forever (`SpawnedTwinNeverSettles`);
  the repository has that method but no caller of it. `FailureLowersIff` is the exact condition.
- Completed and Failed can replace each other (`TerminalVersionsSwapIff`).
- A message is recorded as delivered at most once but can be handed over more often
  (`HandedOverTwiceIff`), and it can be recorded as delivered although its instance had gone and
  nothing was queued (`NeverQueuedIff`).
- The comment at internal/httpapi/agent_handler.go:139-141 says that `status.revision`, the listed
  revisions and rollback refer to the same configuration. They do not after a creation, after a
  rollback to another spec, or after an edit to another spec; `NextStatusHoldsLiveIff` says exactly
  when they do.
- Several data fields of one event are joined without a line feed, unlike section 9.2.6 of the WHATWG
  HTML Standard; the payloads agree exactly for events with at most one (`PayloadIsStandardIff`).

## Model

| member | source | states |
|---|---|---|
| Text.DecimalInjective | internal/asdp/snapshot.go:58-66 | two version numbers with the same decimal rendering are equal, so `v<n>` names one n |
| Text.DecimalRoundTrip | internal/asdp/snapshot.go:64-64 | a "%d" rendering consists of digits without a leading zero and denotes the number rendered |
| Text.SlashKeySplitsLast | internal/asdp/snapshot.go:122-123 | names without '/' are split off a key at its last one, whatever the scope holds |
| Text.SlashKeyInjective | internal/asdp/connect_handler.go:156-159 | scopes without '/' make keys injective in both parts |
| Text.OneSlashSplits | internal/asdp/snapshot.go:38-38 | a key made of two parts without '/' can be made of no other two parts, slashes or not |
| Text.SlashKeysCollide | internal/asdp/connect_handler.go:156-159 | without that guard two different pairs share a key |
| Text.SlashKeySameScope | internal/team/task_store.go:50-52 | under one fixed scope the key determines the name, slashes or not |
| Snapshots.UpdateAt | internal/asdp/snapshot.go:45-69 | a changing update raises exactly its own slot's version by one and stores the new snapshot there; every other slot, and an unchanged one, keeps version and snapshot |
| Snapshots.SnapshotStore.UpdateSnapshot | internal/asdp/snapshot.go:34-70 | the returned snapshot is the stored one and holds content with the offered digest; `changed` is false exactly when the digest was already stored, and a changed one has the offered content under the next version; a marshalling error changes nothing |
| Snapshots.SnapshotStore.GetAllSnapshots | internal/asdp/snapshot.go:82-97 | the result lists exactly the agent's current snapshots, one entry per config type |
| Snapshots.SnapshotStore.DeleteAgent | internal/asdp/snapshot.go:100-107 | the agent's snapshots and counters go, nobody else's |
| SnapshotHistory.DedupIsWithoutRepeats | internal/asdp/snapshot.go:45-49 | with a collision-free digest, skipping equal digests skips exactly the consecutive repeats |
| SnapshotHistory.StoreEqualsHistory | internal/asdp/snapshot.go:34-70 | after any updates and deletes, a slot's version is the number of contents since the last delete with repeats removed, and its snapshot is the last of them with that version and nonce |
| SnapshotHistory.VersionCountsChanges | internal/asdp/snapshot.go:34-70 | the same in plain contents when the digest is collision free; the stored content is the last one offered |
| SnapshotHistory.VersionIdentifiesContent | internal/asdp/snapshot.go:58-69 | between deletes a type and version, hence a (type, version, nonce) triple, names one snapshot, across any later operations |
| SnapshotHistory.StoredSnapshot | internal/asdp/snapshot.go:58-66 | after any history a stored snapshot names its own type, the version v<n> of the n-th change since the last delete, and the nonce of that agent key, type and n |
| SnapshotHistory.NonceNamesVersion | internal/asdp/snapshot.go:122-126 | with a collision-free digest, the snapshots that any two histories leave in any two slots have the same nonce exactly if agent key, config type and version agree, slashes in the key or not |
| SnapshotHistory.TriplesAgreeIff | internal/asdp/snapshot.go:58-69 | any two histories of a slot, deletes included, end with the same triple exactly if they changed its content equally often since their last deletes, and then with the same snapshot exactly if their last contents agree |
| SnapshotHistory.TriplesRepeatAfterDelete | internal/asdp/snapshot.go:100-107 | across a delete the same triple names two contents, for any two contents |
| Connections.EnqueueAllFills | internal/asdp/server.go:35-48 | a burst of messages that nobody receives is queued in order, each once, as far as the 64 slots allow, and the connection is cancelled exactly if it did not all fit |
| Connections.Connection.Send | internal/asdp/server.go:40-48 | the queue's whole history after a send; an error is returned exactly when the 64-slot buffer was full, and then the connection is cancelled |
| Connections.Connection.Close | internal/asdp/server.go:51-55 | closing cancels and touches nothing else |
| Connections.Connection.Receive | internal/asdp/service.go:86-90 | the writer receives the oldest message not yet taken |
| Connections.UnregisterIsExact | internal/asdp/server.go:208-226 | exactly the entry under the key goes, and only if it still holds the caller's connection; gauge minus size is kept |
| Connections.Server.RegisterConnection | internal/asdp/server.go:185-200 | the entry under the connection's own key becomes this connection, the gauge rises by one, keys keep matching connections |
| Connections.Server.UnregisterConnectionIfMatch | internal/asdp/server.go:208-226 | removes and closes exactly when the key still holds this very connection, and reports which happened |
| Connections.Server.GetConnection | internal/asdp/server.go:229-236 | returns the entry, and for namespaces without '/' never another instance's connection |
| Connections.Server.GetConnectionsForAgent | internal/asdp/server.go:239-250 | returns exactly the registered connections of the agent, each once |
| Connections.Server.Stop | internal/asdp/server.go:173-182 | every registered connection is cancelled, the registry emptied, the gauge left alone |
| Connections.Server.HandleConnect | internal/asdp/connect_handler.go:31-77 | accepted exactly for complete metadata and a matching certificate; then the instance's old connection is closed, removed and counted off; every other connection, and on a rejection every connection, is as it was |
| Connections.SendToEach | internal/asdp/distributor.go:82-87 | each listed connection is offered the message once |
| Connections.SendSnapshots | internal/asdp/distributor.go:135-150 | the connection is offered one push per snapshot, in list order |
| Connections.Distributor.Broadcast | internal/asdp/distributor.go:54-87 | exactly the agent's registered connections are offered the message, all other queues are unchanged |
| Connections.Distributor.PushConfig | internal/asdp/distributor.go:30-90 | the store is updated; a changed config is offered to exactly the agent's connections, an unchanged or unencodable one to nobody |
| Connections.Distributor.PushFullSync | internal/asdp/distributor.go:100-151 | a registered instance is offered every current snapshot of the agent and nothing else, once per type; no other queue changes |
| Connections.Distributor.ForgetAgent | internal/asdp/distributor.go:95-97 | exactly the agent's snapshots and counters are dropped |
| Connections.Distributor.SendTeamEvent | internal/asdp/distributor.go:195-213 | a connected instance is offered the event and an error means its buffer was full; an unconnected one yields no error and nothing is sent; no other queue changes |
| Distribution.SlashFreeIsCollisionFree | internal/asdp/snapshot.go:38-38 | claims and pushes whose namespaces hold no '/' never collide |
| Distribution.SlashFreePushesAreCollisionFree | internal/asdp/snapshot.go:38-38 | pushes whose namespace and name hold no '/' collide with no claim whatever |
| Distribution.RunKeepsFiled | internal/asdp/server.go:184-250 | in every reachable state entries, streams and queues fit together, whatever is claimed or pushed |
| Distribution.StepKeepsInv | internal/asdp/distributor.go:30-151 | every atomic step of every goroutine keeps the invariant: entries match, queues are valid, every registered connection is served or owed |
| Distribution.NoLostUpdate | internal/asdp/distributor.go:30-151 | in every interleaving in which no claimable pair shares its key with another pair that is pushed to, for each registered connection and config type: the current snapshot has been enqueued, or its own full sync or a push in flight still owes it, or the connection is cancelled or a refused sender is closing it |
| Distribution.ObjectPushesAreNotLost | internal/controller/config_watcher.go:76-150 | the same with no condition on the clients when every push names an object, as the watcher's do |
| Distribution.QuiescentMeansEnqueued | internal/asdp/distributor.go:30-151 | with no push, full sync or refused send in flight the current snapshot has been enqueued for every registered uncancelled connection |
| Distribution.QueuesNeverDropSilently | internal/asdp/server.go:35-57 | on every run no queue ever holds more than 64 messages, and a connection that lacks something offered to it is cancelled or has a refused sender about to close it |
| Distribution.DisconnectKeepsEntry | internal/asdp/connect_handler.go:150-154 | a teardown removes an entry exactly when it holds the torn-down connection |
| DistributionRegistry.LookupFindsOwnInstance | internal/asdp/server.go:229-236 | if no stream claims a namespace with '/', a lookup in any reachable state finds the connection of that very namespace and instance |
| DistributionRegistry.TeardownRemovesOnlyOwn | internal/asdp/service.go:75-82 | in every reachable state a stream's teardown leaves exactly the other connections registered, a newer one of the same instance included, and the gauge falls with the size |
| DistributionRegistry.GaugeAlways | internal/asdp/server.go:173-226 | in every reachable state gauge = registry size + overwriting registrations + entries cleared by Stop |
| DistributionRegistry.LeavingMeansClosed | internal/asdp/server.go:173-226 | in every reachable state every connection is registered, or closed, or was overwritten by another registration |
| DistributionRegistry.RegistrationEndsIff | internal/asdp/server.go:173-226 | in every reachable state a step ends a registration if and only if it is Stop, that stream's own enabled teardown, an enabled eviction that found it under the same key, or an enabled registration under the same key |
| DistributionHandshakes.OnlyAuthorisedConnect | internal/asdp/connect_handler.go:31-50 | on every run whoever has a connection or an entry opened with a complete identity that its certificate authorises, as what it claims to be, and was sent its ack |
| DistributionHandshakes.PastEvictionNothingFoundRemains | internal/asdp/connect_handler.go:52-63 | on every run, once a handshake is past its eviction the connection that its lookup found is registered no more |
| DistributionHandshakes.EvictionIsFinal | internal/asdp/connect_handler.go:52-63 | if the connection that the lookup found still holds the key when the stream evicts it, it is closed and out of the registry after every continuation |
| DistributionHandshakes.OverwritesIff | internal/asdp/connect_handler.go:52-63 | a registration overwrites an entry if and only if another stream registered under the key after this stream's own lookup and still holds it |
| DistributionHandshakes.QuietReconnectEvicts | internal/asdp/connect_handler.go:52-63 | a handshake during which nobody registers under its key closes and removes what it found, and registers without overwriting anybody |
| DistributionHandshakes.OrphansWereOverwritten | internal/asdp/server.go:185-190 | the connections counted as overwritten are exactly those whose entry some registration of the run replaced |
| DistributionHandshakes.OverwrittenCounts | internal/asdp/server.go:185-190 | the overwriting registrations in the gauge law are the registrations of the run that found an entry |
| DistributionHandshakes.SyncCanFinish | internal/asdp/distributor.go:100-151 | after any run a stream that has just registered reaches its receive loop by steps of its own full sync alone |
| DistributionHandshakes.EndedStreamsAreClosed | internal/asdp/service.go:75-82 | on every run a stream that has ended has no entry, and its connection, if it had one, is closed |
| DistributionHandshakes.TeardownEndsOwnStream | internal/asdp/service.go:75-82 | after any run the three teardown steps end a stream in its receive loop, close its connection, remove its entry if it has one, and leave every other entry and connection as they were |
| DistributionStore.StoreIsHistory | internal/asdp/distributor.go:41-80 | the snapshot store of every concurrent run is that of the sequential history of its updates and deletes |
| DistributionStore.CurrentIsLastPushed | internal/asdp/distributor.go:41-97 | in every reachable state a slot is current exactly if something was pushed to it since its agent was last forgotten; it holds content with the last one's digest, under the number of changes |
| DistributionStore.ForgetClears | internal/asdp/distributor.go:95-97 | after any run forgetting an agent leaves no type of it current and every other slot as it was |
| DistributionStore.ForgottenAgentSyncsNothing | internal/asdp/distributor.go:111-117 | a full sync of an agent to which nothing was pushed since it was forgotten goes straight to the receive loop |
| DistributionStore.UnchangedPushIsSilent | internal/asdp/snapshot.go:45-49 | after any run a push whose content has the digest of the last one pushed changes nothing and sends nothing |
| DistributionStore.NoConfigIsInvented | internal/asdp/distributor.go:30-151 | whatever a step puts into a queue, a full sync or a push was in flight already or is current |
| DistributionStore.InFlightWasCurrent | internal/asdp/distributor.go:30-151 | on every run every config queued or carried was its slot's current one at some moment of the run |
| DistributionStore.NonceNamesConfig | internal/asdp/snapshot.go:122-126 | with a collision-free digest, two configs of a run have the same nonce exactly if agent key, config type and version agree, and are then the same snapshot unless the agent was forgotten |
| DistributionOrder.ChangedConfigIsNew | internal/asdp/distributor.go:41-80 | a changing push creates an item no queue holds yet and owes it to every target, so "enqueued" later means this very update |
| DistributionOrder.StepBreaksIff | internal/asdp/distributor.go:82-150 | from a reachable state in which nothing follows a slot's current config in a queue, a step breaks that if and only if it offers that queue another config of the slot while the current one is in it and there is room |
| DistributionOrder.NewestStaysLastIff | internal/asdp/distributor.go:82-150 | along a run the newest config stays last after every step if and only if no step is such a stale send |
| DistributionOrder.QuiescentEndsWithNewest | internal/asdp/distributor.go:30-151 | a quiescent run without stale sends leaves every registered uncancelled connection with the current config of every type enqueued and nothing of that slot after it |
| DistributionOrder.UnhurriedIsNeverStale | internal/asdp/distributor.go:41-151 | if no update of a slot is stored while a push or a full sync still carries an older config of it, no send of the run is ever stale |
| DistributionOwners.OnlyOwnConfigsIff | internal/asdp/distributor.go:111-150 | for sets of claimed identities and pushed pairs: on every run every queue holds only configs pushed to its own (namespace, agent) if and only if no full sync of a claimed p can read what was pushed to r and look up a claimed q that is not r's |
| DistributionOwners.ObjectPushesMisdirectIff | internal/controller/config_watcher.go:76-150 | when every push names an object that condition says: no identity of a pushed agent shares its instance key with one of another agent |
| DistributionOwners.MisdirectedConfigArrives | internal/asdp/distributor.go:119-125 | for any such p, q and r a run on which a stream of q takes the instance over during p's full sync and receives what was pushed to r |
| DistributionOwners.SharedKeyMisdirects | internal/asdp/snapshot.go:38-38 | one claim and one push with a shared agent key do it alone |
| DistributionLimits.LastEnqueuedCanBeStale | internal/asdp/distributor.go:111-150 | for every complete identity and two contents with different digests, a run after which nothing is in flight and the last config in the queue is the older one |
| DistributionLimits.CancelledCanStayRegistered | internal/asdp/server.go:35-48 | for every complete identity, a run of its client's steps and their consequences on which a full buffer cancels the connection and leaves it registered |
| DistributionLimits.RefusedBeforeClosed | internal/asdp/server.go:40-48 | for every complete identity, a run after which a 65th message was refused and the connection is not closed yet |
| DistributionLimits.OverwrittenConnectionStaysOpen | internal/asdp/server.go:185-200 | for every complete identity, two racing handshakes overwrite an open connection and leave the gauge at two for one entry |
| DistributionLimits.CollisionLosesUpdate | internal/asdp/snapshot.go:38-38 | for any stream and push whose different pairs share a key, a sequence of steps that ends with nothing in flight and the stream's current config never sent |
| DistributionLimits.NothingLostIff | internal/asdp/distributor.go:30-151 | for a set of claimed and a set of pushed pairs, every quiescent run leaves every registered connection up to date if and only if no claimed pair with both parts shares its key with another pushed pair |
| DistributionLimits.SlashesCollide | internal/asdp/snapshot.go:38-38 | a concrete claim and push that collide |
| StreamOrder.Respond | internal/asdp/service.go:22-59 | the handshake answer is always an ack, accepting exactly a connect request with complete metadata and a matching certificate |
| StreamOrder.Funnel.HandleDownstream | connector/connector.go:236-288 | a push is answered by one ack with its own type, version and nonce and the callback's verdict (accepted without a callback), a heartbeat by its own timestamp, anything else by nothing |
| StreamOrder.StepKeepsInv | internal/asdp/service.go:19-138 | every step of either end keeps the order invariants of both wires |
| StreamOrder.DeliveryOrder | internal/asdp/service.go:51-103 | on every accepted stream the accepting ack comes first, what follows is a prefix of what was enqueued, the queue holds at most 64, and a connection neither cancelled nor being closed has dropped nothing; a stream that is not accepted carries nothing but at most one rejection |
| StreamOrder.AcksFollowPushes | connector/connector.go:163-195 | the acks the server handles match, in order, a prefix of the pushes the connector received, by type, version and nonce, and those are a prefix of the pushes enqueued |
| StreamOrder.AckTagsOfAcks | internal/asdp/service.go:140-161 | the i-th handled ack carries the i-th tag, so no ack is skipped in that comparison |
| StreamOrder.DrainedMeansAllAcked | internal/asdp/service.go:84-138 | with both ends alive and nothing in transit, everything enqueued was delivered and every push was acked once |
| StreamOrder.HeartbeatsAreEchoed | connector/connector.go:277-283 | on every run the connector's heartbeats are those it received, in order and with their timestamps, and the server has offered back every heartbeat it has read |
| StreamOrder.DrainedMeansAllAnswered | connector/connector.go:236-288 | on a drained stream the answers to pushes and heartbeats together are in the order of what was enqueued |
| StreamOrder.OnePushIsAcked | connector/connector.go:129-195 | a complete exchange exists for every snapshot and verdict: handshake, push, and its ack with that verdict handled by the server |
| StreamLife.OnlyWelcomedAreAccepted | internal/asdp/service.go:22-59 | an accepted stream had a handshake with complete metadata and a matching certificate whose answer was sent |
| StreamLife.RejectedStreamsStaySilent | connector/connector.go:129-160 | on every run a connector whose stream is not accepted runs nothing and sends nothing after its handshake |
| StreamLife.FunnelStaysBounded | connector/connector.go:227-234 | on every run sendCh holds at most 64 messages, and only what went into it reaches the wire, in order |
| StreamLife.ReportsArriveInOrder | connector/connector.go:290-317 | the session reports on the wire are the first of those taken while running and with room, in order, and all of them on a drained stream |
| StreamLife.WriterClosesItsConnection | internal/asdp/service.go:86-101 | on every run a writer that stopped has closed the connection, and one still running has put on the wire all it took but the message in its hands |
| StreamLife.RefusalCloses | internal/asdp/server.go:40-48 | a refused message leads to the closing of the connection, which takes back nothing queued |
| StreamLife.EndsCanStop | internal/asdp/service.go:98-100 | both ends can stop after any run, keeping what was queued, sent and handled |
| EndToEnd.CurrentConfigIsAcked | internal/asdp/service.go:84-161 | with nothing in flight on the server and the stream drained, the server has handled an acknowledgement of the current config of every type, by its type, version and nonce |
| EndToEnd.LastAckIsCurrent | internal/asdp/service.go:84-161 | if moreover nothing was misdirected or sent stale, the last acknowledgement of each type is that of the current config |
| EndToEnd.AckAnswersPush | connector/connector.go:254-265 | on every run each ack that the server handles carries type, version and nonce of a push that was enqueued |
| EndToEnd.NonceNamesPush | internal/asdp/snapshot.go:122-126 | with a collision-free digest, for a stream at any moment that carries a connection's queue: every config in any queue with a handled ack's nonce has the agent key, type and version of what that ack answers, and is that snapshot unless the agent was forgotten |
| EndToEnd.OneConfigEndToEnd | internal/asdp/distributor.go:100-151 | for every complete identity, content and verdict, runs of both systems that meet those conditions |
| ObjectStore.StoredObject.Update | internal/team/task_store_k8s.go:105-110 | a write is accepted exactly when nothing was written since the version it was read at |
| ObjectStore.StepIsAtomic | internal/team/task_store_k8s.go:95-112 | each read and each conditional write keeps the history serial and only extends it |
| ObjectStore.WritesAreAtomic | internal/team/task_store_k8s.go:95-139 | for any number of clients and any stale reads, version i + 1 is the i-th accepted operation applied to version i |
| ObjectStore.HistoryGrows | internal/team/task_store_k8s.go:95-139 | versions and accepted operations are never withdrawn |
| Tasks.TaskStore.Create | internal/team/task_store.go:55-80 | the new task is pending, unowned, filed under the next id and returned as stored; nothing else changes |
| Tasks.TaskStore.BlockedNow | internal/team/task_store.go:234-246 | blocked exactly when an existing dependency is not completed; a missing one does not block |
| Tasks.TaskStore.Claim | internal/team/task_store.go:113-142 | refused exactly with the first failing check, leaving the store as it was; otherwise only this task changes, to in progress under the claimant |
| Tasks.TaskStore.Complete | internal/team/task_store.go:145-168 | only an in-progress task completes, with its result; a refusal changes nothing |
| Tasks.TaskStore.Unclaim | internal/team/task_store.go:171-188 | any existing task goes back to pending and unowned, whatever its state |
| Tasks.TaskStore.DeleteTeam | internal/team/task_store.go:225-231 | the team's tasks and counter go, nobody else's |
| Tasks.TaskStore.GetUnblockedPending | internal/team/task_store.go:191-203 | lists exactly the claimable tasks, each once |
| Tasks.TaskStore.GetSummary | internal/team/task_store.go:206-222 | the four counts are the sizes of the team's task sets |
| Tasks.CountStates | internal/team/task_store.go:210-221 | the counting loop counts each task once, under its own state |
| Tasks.TaskIdInjective | internal/team/task_store.go:64-65 | ids of different numbers differ |
| Tasks.RefusalReasons | internal/team/task_store.go:113-188 | each operation is refused exactly for the first failing check in the order of the source; a claim passes exactly for a claimable task at the expected version |
| TaskRuns.StepSafeIff | internal/team/task_store.go:113-188 | from a state where every started task has its existing dependencies completed, an operation keeps that if and only if it does not reuse a named id and does not release a task a started one depends on; other teams are untouched |
| TaskRuns.AllowedRunsAreSafe | internal/team/task_store.go:113-188 | every run of allowed operations is dependency safe |
| TaskRuns.DisciplinedRunsAreSafe | internal/team/task_store.go:113-188 | with backward dependencies and only in-progress tasks released, every run is dependency safe and dependencies keep pointing backward |
| TaskRuns.PendingTasksAreUnowned | internal/team/task_store.go:113-188 | in every reachable state a pending task has no owner and every task is filed under its own id |
| TaskRuns.IdsAreNumbered | internal/team/task_store.go:64-78 | in every reachable state no id beyond the counter is in use, so a new id is fresh |
| TaskRuns.IdsCountCreations | internal/team/task_store.go:64-78 | in every reachable state the ids in use are exactly task-1 to task-n for the n tasks created since the team was last deleted |
| TaskRuns.VersionCountsChanges | internal/team/task_store.go:113-188 | in every reachable state a task's version is one more than the number of accepted changes since its creation |
| TaskRuns.AcceptedChangeRefusesStaleClaim | internal/team/task_store.go:134-140 | after any accepted change of a task, a claim that expects the old version is refused |
| TaskRuns.ReleasingCompletedBreaksSafety | internal/team/task_store.go:184-187 | a run from the empty store that is safe until it releases a completed task, which strands a started dependent |
| TaskProgress.NoDeadlock | internal/team/task_store.go:191-203 | with backward dependencies, if something is pending and nothing is in progress, an unblocked pending task exists |
| TaskProgress.SomeTaskIsClaimable | internal/team/task_store.go:234-246 | following unfinished dependencies downward from any pending task reaches a claimable one |
| TaskProgress.CyclicDependenciesDeadlock | internal/team/task_store.go:234-246 | two tasks created to name each other stay pending and unclaimable on every continuation that does not delete the team |
| TaskProgress.RoundIsClaimThenComplete | internal/team/task_store.go:113-168 | a round is exactly an accepted Claim followed by an accepted Complete, possible exactly for a claimable task |
| TaskProgress.EachRoundFinishesOne | internal/team/task_store.go:113-168 | every schedule of rounds removes exactly its own ids from the pending set, each once |
| TaskProgress.DrainedAfterPendingRounds | internal/team/task_store.go:113-168 | everything is complete exactly when as many rounds were played as tasks were pending |
| TaskProgress.UnfinishedScheduleContinues | internal/team/task_store.go:191-203 | a schedule that is too short can always be continued, by any claimable task |
| TaskProgress.DrainingScheduleExists | internal/team/task_store.go:191-203 | a draining schedule exists |
| TaskProgress.ScheduleIsTopological | internal/team/task_store.go:234-246 | in every schedule an existing dependency was complete before or ran earlier |
| TaskProgress.DrainableIff | internal/team/task_store.go:191-203 | an idle task list has a full draining schedule if and only if its pending tasks can be ranked with every unfinished existing dependency below its task |
| CrdTasks.Create | internal/team/task_store_k8s.go:46-70 | the object appears without a state and is then marked pending; a failed second write is ignored and the caller still sees pending |
| CrdTasks.ClaimTask | internal/team/task_store_k8s.go:95-112 | refused exactly when the copy read is not pending; written exactly when that copy is the newest |
| CrdTasks.CompleteTask | internal/team/task_store_k8s.go:114-126 | completes whatever the state of the copy read, if it is the newest |
| CrdTasks.UnclaimTask | internal/team/task_store_k8s.go:128-139 | releases whatever the state of the copy read, if it is the newest |
| CrdTasks.MethodsAreSteps | internal/team/task_store_k8s.go:95-139 | each method is one read and one conditional write of the object store |
| CrdTasks.HeldUntilUnclaim | internal/team/task_store_k8s.go:95-139 | after an accepted claim the claimant stays owner until a release is accepted |
| CrdTasks.ClaimsAreExclusive | internal/team/task_store_k8s.go:95-139 | for any replicas and stale reads, between two accepted claims of a task there is an accepted release |
| CrdTasks.RacingClaims | internal/team/task_store_k8s.go:95-112 | of two replicas that both read the task as pending exactly the first writer wins |
| TaskSimulation.GetUnblockedPending | internal/team/task_store_k8s.go:141-166 | lists exactly the pending tasks all of whose dependencies exist and are completed, each once |
| TaskSimulation.GetSummary | internal/team/task_store_k8s.go:168-181 | the four counts are the sizes of the listed task sets |
| TaskSimulation.UnblockedGap | internal/team/task_store_k8s.go:141-166 | on equal tasks the CRD set is contained in the in-memory one and lacks exactly the claimable tasks that name a missing dependency |
| TaskSimulation.SerialEditIsReadModifyWrite | internal/team/task_store_k8s.go:95-139 | a serial CRD edit is a read-modify-write of the newest version |
| TaskSimulation.StepSimulates | internal/team/task_store_k8s.go:46-188 | what the in-memory store accepts the CRD store accepts, and the two stay equal on state, owner, result and fields up to an id bijection |
| TaskSimulation.HistoriesStayRelated | internal/team/task_store.go:55-231 | after every accepted history the stores hold the same tasks up to the bijection |
| TaskSimulation.HistoriesAreSimulated | internal/team/task_store_k8s.go:46-188 | every call of an accepted in-memory history is accepted by the CRD store |
| TaskSimulation.SummariesAgree | internal/team/task_store_k8s.go:168-181 | related stores report the same counts for every team |
| TaskSimulation.ListsAgree | internal/team/task_store_k8s.go:190-204 | on related stores each listed object shows its own name, version 0, and its task's team, texts, state, owner and result |
| TaskSimulation.UnblockedAgrees | internal/team/task_store_k8s.go:141-166 | on related stores with renamed dependencies an object is unblocked exactly when its task is unblocked in memory and names no missing dependency |
| TaskSimulation.HistoriesStayRenamed | internal/team/task_store_k8s.go:46-70 | accepted histories whose creations rename their dependencies, name no id yet to be handed out and get unreferenced object names keep all dependencies renamed |
| TaskSimulation.HistoriesUnblockAlike | internal/team/task_store_k8s.go:141-166 | after every such history an object is unblocked exactly when its task is, unless that names a missing dependency |
| TaskSimulation.AcceptanceGap | internal/team/task_store_k8s.go:95-139 | for a call on an existing task that names any team: the CRD store refuses only claims of tasks not pending, and accepts what the in-memory store refuses exactly for a blocked or version-mismatched claim, for completing a task not in progress, and for a wrong team that lacks that task or refuses its own of that number |
| TaskSimulation.WrongTeamIsAccepted | internal/team/task_store_k8s.go:128-139 | a call naming an unknown team releases another team's task in the CRD store and is refused in memory |
| Teams.Validate | internal/discovery/agentteam_webhook.go:40-91 | admits exactly the specs with a lead, unique named members with agents, room for the static members and the lead, a known policy and a valid duration; a rejection names a true fault, and the first faulty member |
| Teams.TeamCopy.StartTeam | internal/team/lifecycle.go:39-92 | the copy becomes running with one static member per spec entry in order, working with its session or failed without, no restarts, and an empty summary |
| Teams.TeamCopy.HandleMemberFailure | internal/team/lifecycle.go:202-243 | only the first member of that name changes, to lost, failed or restarted by policy and restart count; the write is skipped exactly when the recovery session could not be spawned |
| Teams.RecoveryOutcome | internal/team/lifecycle.go:211-243 | a handled member keeps its identity; it is failed exactly with a policy and its restarts used up (three by default), working in the spawned session with one restart more exactly under Auto with restarts left and a spawn, and otherwise lost in its old session |
| Teams.NoDeadSessionStays | internal/controller/agentteam_controller.go:269-290 | after a check no member is up with a session found missing or terminated, unless it is the one just spawned for it |
| Teams.HealthyMembersStay | internal/controller/agentteam_controller.go:269-290 | a check leaves alone whoever is down, has no session, or whose session was not found dead |
| Teams.HandledMembersStay | internal/team/lifecycle.go:335-351 | over two checks, a member handled by the first, with the reason found, is left alone by the second if the session spawned for it is alive by then |
| Teams.TeamCopy.CheckMember | internal/controller/agentteam_controller.go:269-290 | a member is handled exactly when it is up, has a session, and that session is missing or terminated |
| Teams.TeamCopy.CheckMemberHealth | internal/controller/agentteam_controller.go:268-291 | with unique names each member ends as its own check leaves it; in general the result is a sequence of failure edits of the fetched copy |
| Teams.TeamCopy.SpawnDynamicMember | internal/team/lifecycle.go:246-297 | succeeds exactly when enabled, below the limit, allowed and spawned; then one working member is appended |
| Teams.TeamCopy.AddTeamMember | internal/httpapi/team_handler.go:173-190 | succeeds exactly under the handler's own count; then one joining member is appended |
| Teams.TeamCopy.UpdateMemberPhase | internal/controller/team_sink.go:134-140 | the first member of that name takes the phase; without one nothing is written |
| TeamRuns.VersionFollows | internal/team/lifecycle.go:80-82 | every status version is an accepted writer's edits of the previous version, whatever the writers had read |
| TeamRuns.PhasesMoveForward | internal/controller/agentteam_controller.go:86-93 | under every interleaving of reconciler, event sink and REST writes no team leaves Completed or Failed for Pending or Running, nor Running for Pending |
| TeamRuns.PhaseChangeIff | internal/controller/agentteam_controller.go:98-240 | exactly which writer moves a team into which phase; the all-complete checks only a running team whose summary says so, the legacy check and the lead only under their policies |
| TeamRuns.TerminalVersionsSwapIff | internal/controller/team_sink.go:173-192 | on every run, from a terminal version the next accepted write sets the phase of its last timeout retry, lead completion or finalization, and keeps the phase exactly without one or if that is the same |
| TeamRuns.EditAcceptedIff | internal/controller/agentteam_controller.go:86-240 | when exactly each writer writes: by phase, policy, summary, limit or member looked for, or whatever it finds |
| TeamRuns.MembershipOnlyGrows | internal/team/lifecycle.go:285-293 | on every run a started team only gains members at the end of its list: nobody leaves, moves or changes name, origin or agent |
| TeamRuns.StartForgets | internal/team/lifecycle.go:60-77 | a start, possible only from pending, replaces the members by those of the spec, so who joined before is forgotten |
| TeamRuns.MemberChangesIff | internal/controller/team_sink.go:134-140 | apart from starts, only member events, REST removals and failures change a present member, only the first of the name, to the event's phase, to shutdown, or by recovery of an up member with a session |
| TeamRuns.MembershipBounded | internal/team/lifecycle.go:254-258 | for an admitted spec, every mix of starts, spawns and REST additions keeps members plus lead within maxTotal, plus one if there is no static member |
| TeamRuns.RestFillsUp | internal/httpapi/team_handler.go:178-190 | without static members the REST handler alone can add maxTotal members |
| TeamRuns.LimitHoldsIffStaticMember | internal/httpapi/team_handler.go:178-182 | maxTotal holds on every run if and only if the spec has a static member |
| TeamRuns.FailureLowersIff | internal/team/lifecycle.go:206-243 | an accepted failure edit lowers the remaining budget if and only if the first member of the handled name is up |
| TeamRuns.FailureUsesBudget | internal/team/lifecycle.go:202-243 | if only first members of a name have sessions, handling a failure strictly lowers the budget and keeps restart counts within the effective maximum |
| TeamRuns.RecoveryTerminates | internal/team/lifecycle.go:202-243 | if only first members of a name have sessions and only failures occur, each accepted write lowers the potential, so at most that many are accepted, and restart counts stay within the maximum |
| TeamRuns.SessionsStayOnFirst | internal/httpapi/team_handler.go:184-190 | for an admitted spec, on every run whose dynamic members are spawned under new names, duplicate names added through REST included, only first members of a name have sessions |
| TeamRuns.AppendKeepsSessionsIff | internal/team/lifecycle.go:285-293 | a new member keeps that if and only if it brings no session or a name not in use |
| TeamRuns.OnlyAllowedSessionsRun | internal/team/lifecycle.go:260-272 | for an admitted spec, on every such run each member with a session is one of the spec or a dynamic one of an allowed agent |
| TeamRuns.SpawnsAreAllowed | internal/team/lifecycle.go:245-272 | on every run every dynamic member is spawned with dynamic members enabled, for an allowed agent, and below the limit |
| TeamTasks.SummarySaysAllComplete | internal/team/lifecycle.go:161-166 | for the counts that GetSummary reports of any tasks, the all-complete check holds exactly if there are tasks and every one is completed |
| TeamTasks.SummaryIsLastReport | internal/controller/team_sink.go:147-171 | on every run a version's summary is the last one reported before it, or the empty one of a start |
| TeamTasks.FinishesIffTasksComplete | internal/controller/agentteam_controller.go:124-184 | on every run, on a version whose last report is of some tasks, an all-complete check completes the team exactly if it is running, there are tasks, all are completed, and for the legacy check the policy says so; nothing else changes |
| TeamTasks.FinishedTeamsHadCompleteTasks | internal/team/lifecycle.go:161-166 | on every run, whenever an all-complete check completed a team it was running and the tasks last reported were there and all completed |
| TeamTasks.UnreportedTeamsNeverFinish | internal/team/lifecycle.go:76-80 | before any report such a check never completes a team |
| TeamRuns.SpawnedTwinNeverSettles | internal/team/lifecycle.go:245-297 | for every n a run from a new team on which a dynamic member is spawned under a name in use and its failure is then handled n times without changing the status |
| Rescheduling.Visit | internal/team/lifecycle.go:310-327 | one task is recorded if the member completed it and released if the member is working on it |
| Rescheduling.GatherAndRelease | internal/team/lifecycle.go:308-327 | the pass releases exactly the member's in-progress tasks, records exactly its completed ones, once each, and names an interrupted one if there was any |
| Rescheduling.ReleaseConserves | internal/team/lifecycle.go:318-326 | afterwards the member owns nothing in progress, completed and foreign tasks are unchanged, the total is unchanged, and pending grew by exactly the number released |
| Outbox.Reconcile | internal/controller/teamevent_watcher.go:36-117 | the deliver call is made exactly for an undelivered message with attempts left and a local recipient; its outcome is recorded exactly when the copy read was the newest |
| Outbox.OutcomeRecorded | internal/controller/teamevent_watcher.go:94-112 | every recorded outcome is a deliver call made on the version it replaced |
| Outbox.AttemptsCountOutcomes | internal/controller/teamevent_watcher.go:53-59 | attempts equals the number of recorded outcomes and never exceeds five |
| Outbox.DeliveredIsFinal | internal/controller/teamevent_watcher.go:48-51 | delivered is recorded only by a call that returned no error, and is then the last version ever written |
| Outbox.DeliveredRecordedOnce | internal/controller/teamevent_watcher.go:104-112 | at most one reconcile records a delivery, for any number of replicas and stale reads |
| Outbox.NextCallIff | internal/controller/teamevent_watcher.go:48-95 | on every run, the next reconcile makes a deliver call exactly if it can deliver, read one of the first five versions, and read a stale version or a message not recorded as delivered |
| Outbox.CallsAreAccountedFor | internal/controller/teamevent_watcher.go:94-112 | successful calls = recorded delivery + records still to be written + records dropped, on every run |
| Outbox.HandedOverTwiceIff | internal/controller/teamevent_watcher.go:94-112 | a delivered message was handed over more than once if and only if the record of some successful call is still to be written or was dropped |
| Outbox.NeverQueuedIff | internal/asdp/distributor.go:195-199 | a message recorded as delivered was never queued if and only if the recorded call found no connection and no call that queued it lacks its record |
| Outbox.TwoReplicasMayBothDeliver | internal/controller/teamevent_watcher.go:94-112 | two replicas hand a message over twice for one recorded delivery |
| Outbox.OneReplicaMayDeliverTwice | internal/controller/teamevent_watcher.go:104-112 | one replica does so alone if its first record is lost |
| Revisions.AgentObject.AppendRevision | internal/httpapi/agent_handler.go:560-595 | the stored history becomes the bounded, pruned append of the new entry |
| Revisions.AgentObject.Push | internal/httpapi/agent_handler.go:135-148 | the new spec is live and is the one recorded under the new revision, which the status names |
| Revisions.AgentObject.Rollback | internal/httpapi/agent_handler.go:656-690 | refused exactly when the revision is unknown or has no snapshot, changing nothing; otherwise the replaced spec is recorded and the target's spec is live |
| Revisions.AppendSlidesWindow | internal/httpapi/agent_handler.go:573-585 | appending to a window of a log gives the window of the longer log |
| Revisions.HistoryIsWindow | internal/httpapi/agent_handler.go:560-595 | after any appends the stored history is the window of the full log |
| Revisions.WindowContents | internal/httpapi/agent_handler.go:575-585 | the window is the last min(20, n) entries in order, and exactly the last five of them keep their snapshots |
| Revisions.FindInWindow | internal/httpapi/agent_handler.go:656-671 | a revision stays listed through exactly 19 later appends and restorable through exactly 4 |
| Revisions.RollbackIff | internal/httpapi/agent_handler.go:656-671 | a rollback is accepted if and only if its target is among the last five recorded revisions |
| Revisions.RollbackErrorIff | internal/httpapi/agent_handler.go:656-671 | a refused rollback says unknown revision exactly if its target is not among the last twenty recorded, and no snapshot exactly if it is but not among the last five |
| Revisions.UnreadableHistoryStartsOver | internal/httpapi/agent_handler.go:537-550 | without a readable annotation every rollback is refused and the next push records a history of one |
| Revisions.RollbackRestoresRecorded | internal/httpapi/agent_handler.go:673-682 | an accepted rollback restores the spec its target recorded |
| Revisions.RollbackRestoresPush | internal/httpapi/agent_handler.go:135-142 | rolling back to a push revision restores exactly the spec that push applied, whatever happened since |
| Revisions.RollbackRoundTrip | internal/httpapi/agent_handler.go:656-690 | rolling back, and then to the revision that rollback returned, is accepted and restores the spec that was live before |
| Revisions.RollbackRecordsReplaced | internal/httpapi/agent_handler.go:679-690 | the revision a rollback makes the status name records the spec it replaced |
| Revisions.StatusHoldsLiveIff | internal/httpapi/agent_handler.go:126-148 | after any pushes, rollbacks, edits and creations by others, the status names a listed revision of the live spec if and only if it names one at all and the newest record is of the live spec |
| Revisions.NextStatusHoldsLiveIff | internal/httpapi/agent_handler.go:126-148 | per operation: after a push exactly if the agent existed, after an accepted rollback exactly if it restores what was live anyway, after an edit exactly if the status names a revision and the edit sets the spec recorded last |
| Revisions.CreationMissesLive | internal/httpapi/agent_handler.go:126-133 | a created agent's status names no revision |
| Revisions.EditMissesLive | internal/httpapi/agent_handler.go:139-148 | an edit after a push leaves the status at a revision of another spec |
| Revisions.RollbackMissesLive | internal/httpapi/agent_handler.go:679-690 | so does a rollback to another spec |
| Sse.ParseSse | internal/mcp/client.go:250-293 | for every sequence of lines the reader returns the message of the earliest event that holds one, the trailing event counting unless reading failed; and otherwise the read error, or that there is none |
| Sse.RuleIsEarliest | internal/mcp/client.go:255-292 | a message is found if and only if some event, ended or without a read error trailing, holds it and no earlier one holds any |
| Sse.SplitRoundTrip | internal/mcp/client.go:269-277 | the events rejoin to the input lines and hold no blank line, so none is lost, moved or shared |
| Sse.DataStripsOneSpace | internal/mcp/client.go:281-283 | a data field's value is everything after the colon, less one leading space |
| Sse.ClosingBlankLineNeverMatters | internal/mcp/client.go:288-291 | without a read error the result is the same whether or not a blank line ends the input |
| Sse.ExtraBlankLinesNeverMatter | internal/mcp/client.go:255-258 | repeating a blank line anywhere, or starting with one, changes nothing: an event without data is never decoded |
| Sse.FirstMessageIsFirst | internal/mcp/client.go:248-249 | the rule's choice is the earliest payload that holds a message, and there is none exactly when no payload does |
| Sse.FoundIsFinal | internal/mcp/client.go:269-277 | later lines cannot change a message already found |
| Sse.IgnoredLineKeepsPayloads | internal/mcp/client.go:278-283 | a comment or other field inserted anywhere leaves every payload as it was |
| Sse.IgnoredLinesNeverMatter | internal/mcp/client.go:278-283 | inserting comments or other fields never changes the result |
| Sse.PayloadIsStandardIff | internal/mcp/client.go:281-283 | an event's payload is that of section 9.2.6 of the WHATWG HTML Standard if and only if it has at most one data field |
| Sse.TwoDataLinesDiffer | internal/mcp/client.go:281-283 | two data lines for which the payloads differ |

## Left out

- Transport: gRPC, TLS, keepalive and the matching of certificate names are a flag; a wire is a FIFO that may stop at any point.
- Encodings: JSON bytes and SHA-256 are a lossless encoding and an arbitrary function.
- Integer widths: 64-bit versions and 32-bit counts and limits are unbounded here.
- Time: timeouts, requeues, backoff, TTLs and the timestamps on tasks and members are nondeterministic flags or absent.
- Kubernetes: clients, informers and the retry helper are replaced by the versioned object store; a retry is another read-modify-write. A write that fails for another reason than a conflict is a step that does not happen.
- Pointers handed out: the source's task and snapshot pointers stay shared with callers, the model returns values.
- Connection metadata that no decision reads (runtime, capabilities, affinity, conditions, the lead's status) is absent.
- Metrics other than the connection gauge, tracing, logging and Kubernetes events.
- Stop: the graceful stop of the gRPC server that follows it, which ends the streams, is the receive errors of the individual streams.
- CrdTasks.Create: the owner reference and the generated name are not modelled; the name is a parameter, and a failing first write creates nothing.
- Teams.TeamCopy.StartTeam: a failing lead session returns before any change, and is an edit that does not happen.
- Teams.TeamCopy.UpdateMemberPhase: takes the phase directly; the table from event names to phases is not modelled.
- Rescheduling.GatherAndRelease: models the task part only; the recent messages put into the recovery context and the spawned session are parameters elsewhere or absent, and List is taken in the same critical section as the releases.
- Revisions.AgentObject.Push: models the revision part on an existing agent, with both writes succeeding; secrets, model configs and tool servers are absent. Concurrent pushes are not modelled.
- Sse.ParseSse: starts from the lines the scanner yields; splitting bytes into lines and the 1 MiB line limit appear only as `readError`.
- Revisions.NextStatusHoldsLiveIff: assumes what the generator provides, revision ids that are not empty and do not repeat.
- Revisions: an agent starts with a push or is created by another client without the annotation; its deletion and edits of the annotation by other clients are not modelled.
- StreamOrder.HeartbeatsAreEchoed: neither end starts a heartbeat in the repository; in the model one enters the queue like any other message.
- TeamTasks.FinishesIffTasksComplete: speaks of the tasks as last reported, which is all the check sees; the task store and the status are not run as one system.
- EndToEnd.CurrentConfigIsAcked: takes as given that the stream carries the connection's queue; the two systems are not run as one.
- Easy members that would add nothing: Get and List of both task stores, GetSnapshot, ListConnections, BroadcastTeamEvent, SendSessionCommand, ShouldCleanup.
- The dispatch of HandleEvent by event name, ParseDetail, and team objects that are deleted and created again under the same name.
- The connector's reconnect loop and its session list; each stream is modelled from its handshake on.
