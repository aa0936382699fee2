/**
 Concurrent config distribution: pushes, handshakes, full syncs, evictions, writers and
 teardowns interleave at the granularity of one lock region per step
 (internal/asdp/distributor.go, server.go, service.go, connect_handler.go).
 */
module Distribution {
  import opened Text
  import opened Snapshots
  import opened Connections

  datatype Identity = Identity(namespace: string, agent: string, instance: string)

  function AgentKey(id: Identity): (k: string) {
    SlashKey(id.namespace, id.agent)
  }

  function InstanceKey(id: Identity): (k: string) {
    SlashKey(id.namespace, id.instance)
  }

  /**
   Which store update made a snapshot: its serial number and the (namespace, agent) pair
   that was pushed. This is bookkeeping: it tells apart two updates that store equal values,
   and two pairs that share a key.
   */
  datatype Stamp = Stamp(serial: nat, pair: (string, string))

  /** A snapshot together with the update that made it. */
  datatype Item = Item(key: string, snapshot: Snapshot, stamp: Stamp)

  datatype Message = Config(item: Item) | Other(payload: string)

  /** Where the goroutine serving one stream stands. */
  datatype Phase =
    | LookingUp                                    // HandleConnect: GetConnection
    | Evicting(existing: nat)                      // HandleConnect: UnregisterConnectionIfMatch
    | Acking                                       // stream.Send(ConnectAck)
    | Registering                                  // RegisterConnection
    | SyncReading                                  // PushFullSync: GetAllSnapshots
    | SyncLooking(pending: set<Item>)              // PushFullSync: GetConnection
    | SyncSending(target: nat, pending: set<Item>) // PushFullSync: the send loop
    | Receiving                                    // the Recv loop
    | Disconnecting                                // deferred HandleDisconnect
    | Cancelling                                   // deferred cancel()
    | Ended

  datatype Stream = Stream(id: Identity, phase: Phase)

  /** A PushConfig call after its store update: about to list, or sending to what it listed. */
  datatype Push = Listing(namespace: string, agent: string, item: Item) | Sending(item: Item, targets: set<nat>)

  datatype State = State(
    store: Store,
    stamps: map<(string, nat), Stamp>,
    clock: nat,
    registry: Registry<nat>,
    overwritten: nat,
    orphans: set<nat>,
    cleared: nat,
    streams: map<nat, Stream>,
    channels: map<nat, Channel<Message>>,
    pushes: map<nat, Push>)

  const INIT := State(EMPTY, map[], 0, Registry(map[], 0), 0, {}, 0, map[], map[], map[])

  function StampOf(s: State, key: string, cfgType: nat): (r: Stamp) {
    if (key, cfgType) in s.stamps then s.stamps[(key, cfgType)] else Stamp(0, ("", ""))
  }

  /** The current snapshot of an agent and type, as the update that stored it. */
  function Current(s: State, key: string, cfgType: nat): (r: Option<Item>) {
    match Lookup(s.store, key, cfgType)
    case None => None
    case Some(snap) => Some(Item(key, snap, StampOf(s, key, cfgType)))
  }

  function AllCurrent(s: State, key: string): (r: set<Item>)
    ensures forall t :: Current(s, key, t).Some? ==> Current(s, key, t).value in r
    ensures forall i :: i in r ==> exists t :: Current(s, key, t) == Some(i)
  {
    if key !in s.store.snapshots then {}
    else set t | t in s.store.snapshots[key] :: Current(s, key, t).value
  }

  datatype Step =
    | Open(stream: nat, id: Identity, certificateMatches: bool)
    | LookUpExisting(stream: nat)
    | EvictExisting(stream: nat)
    | SendAck(stream: nat, sent: bool)
    | RegisterStream(stream: nat)
    | ReadSnapshots(stream: nat)
    | LookUpTarget(stream: nat)
    | SyncOne(stream: nat, item: Item)
    | ReceiveHeartbeat(stream: nat, payload: string)
    | ReceiveError(stream: nat)
    | Disconnect(stream: nat)
    | CancelOwn(stream: nat)
    | WriterTake(conn: nat)
    | CloseRefused(conn: nat)
    | CancelContext(conn: nat)
    | SendOther(conn: nat, payload: string)
    | BeginPush(push: nat, namespace: string, agent: string, cfgType: nat, marshalled: Option<string>)
    | ListTargets(push: nat)
    | PushOne(push: nat, conn: nat)
    | Forget(namespace: string, agent: string)
    | Stop

  predicate At(s: State, stream: nat, phase: Phase) {
    stream in s.streams && s.streams[stream].phase == phase
  }

  function Goto(s: State, stream: nat, phase: Phase): (r: State)
    requires stream in s.streams
  {
    s.(streams := s.streams[stream := s.streams[stream].(phase := phase)])
  }

  function SendTo(s: State, conn: nat, m: Message): (r: State) {
    if conn in s.channels then s.(channels := s.channels[conn := TrySend(s.channels[conn], m)]) else s
  }

  function CancelConn(s: State, conn: nat): (r: State) {
    if conn in s.channels then s.(channels := s.channels[conn := Cancel(s.channels[conn])]) else s
  }

  /** UnregisterConnectionIfMatch: close and remove, only if conn still holds the key. */
  function UnregisterConn(s: State, key: string, conn: nat): (r: State) {
    var s' := s.(registry := Unregister(s.registry, key, conn));
    if key in s.registry.entries && s.registry.entries[key] == conn then CancelConn(s', conn) else s'
  }

  function ApplyHandshake(s: State, step: Step): (r: State) {
    match step
    case Open(i, id, ok) =>
      if i in s.streams then s
      else if id.agent != "" && id.instance != "" && id.namespace != "" && ok
      then s.(streams := s.streams[i := Stream(id, LookingUp)])
      else s.(streams := s.streams[i := Stream(id, Ended)])
    case LookUpExisting(i) =>
      if !At(s, i, LookingUp) then s else
      var key := InstanceKey(s.streams[i].id);
      Goto(s, i, if key in s.registry.entries then Evicting(s.registry.entries[key]) else Acking)
    case EvictExisting(i) =>
      if i !in s.streams || !s.streams[i].phase.Evicting? then s else
      Goto(UnregisterConn(s, InstanceKey(s.streams[i].id), s.streams[i].phase.existing), i, Acking)
    case SendAck(i, sent) =>
      if !At(s, i, Acking) then s else Goto(s, i, if sent then Registering else Ended)
    case RegisterStream(i) =>
      if !At(s, i, Registering) then s else
      var key := InstanceKey(s.streams[i].id);
      Goto(s.(registry := Register(s.registry, key, i),
              overwritten := s.overwritten + (if key in s.registry.entries then 1 else 0),
              orphans := s.orphans + (if key in s.registry.entries then {s.registry.entries[key]} else {}),
              channels := s.channels[i := NewChannel()]),
           i, SyncReading)
    case _ => s
  }

  function ApplySync(s: State, step: Step): (r: State) {
    match step
    case ReadSnapshots(i) =>
      if !At(s, i, SyncReading) then s else
      var all := AllCurrent(s, AgentKey(s.streams[i].id));
      Goto(s, i, if all == {} then Receiving else SyncLooking(all))
    case LookUpTarget(i) =>
      if i !in s.streams || !s.streams[i].phase.SyncLooking? then s else
      var key := InstanceKey(s.streams[i].id);
      Goto(s, i, if key in s.registry.entries
                 then SyncSending(s.registry.entries[key], s.streams[i].phase.pending) else Receiving)
    case SyncOne(i, item) =>
      if i !in s.streams || !s.streams[i].phase.SyncSending? || item !in s.streams[i].phase.pending then s else
      var rest := s.streams[i].phase.pending - {item};
      var target := s.streams[i].phase.target;
      Goto(SendTo(s, target, Config(item)), i, if rest == {} then Receiving else SyncSending(target, rest))
    case _ => s
  }

  function ApplyStream(s: State, step: Step): (r: State) {
    match step
    case ReceiveHeartbeat(i, payload) => if At(s, i, Receiving) then SendTo(s, i, Other(payload)) else s
    case ReceiveError(i) => if At(s, i, Receiving) then Goto(s, i, Disconnecting) else s
    case Disconnect(i) =>
      if !At(s, i, Disconnecting) then s else
      Goto(UnregisterConn(s, InstanceKey(s.streams[i].id), i), i, Cancelling)
    case CancelOwn(i) => if At(s, i, Cancelling) then Goto(CancelConn(s, i), i, Ended) else s
    case WriterTake(c) =>
      if c in s.channels then s.(channels := s.channels[c := Take(s.channels[c])]) else s
    case CloseRefused(c) => if c in s.channels && s.channels[c].refused then CancelConn(s, c) else s
    case CancelContext(c) => CancelConn(s, c)
    case SendOther(c, payload) => SendTo(s, c, Other(payload))
    case _ => s
  }

  function CancelAll(channels: map<nat, Channel<Message>>, conns: set<nat>): (r: map<nat, Channel<Message>>)
    ensures r.Keys == channels.Keys
    ensures forall c :: c in channels ==> r[c] == if c in conns then Cancel(channels[c]) else channels[c]
  {
    map c | c in channels :: if c in conns then Cancel(channels[c]) else channels[c]
  }

  function ApplyStop(s: State): (r: State) {
    s.(registry := Registry(map[], s.registry.gauge),
       cleared := s.cleared + |s.registry.entries|,
       channels := CancelAll(s.channels, s.registry.entries.Values))
  }

  function Hosting(s: State, namespace: string, agent: string): (r: set<nat>) {
    set k | k in s.registry.entries && s.registry.entries[k] in s.streams
            && s.streams[s.registry.entries[k]].id.namespace == namespace
            && s.streams[s.registry.entries[k]].id.agent == agent
      :: s.registry.entries[k]
  }

  function ApplyPush(hash: Hash, s: State, step: Step): (r: State) {
    match step
    case BeginPush(p, ns, agent, t, Some(data)) =>
      var key := SlashKey(ns, agent);
      if p in s.pushes || Unchanged(s.store, hash, key, t, data) then s else
      var s' := s.(store := Update(s.store, hash, key, t, data),
                   stamps := s.stamps[(key, t) := Stamp(s.clock, (ns, agent))],
                   clock := s.clock + 1);
      UpdateAt(s.store, hash, key, t, data, key, t);
      s'.(pushes := s.pushes[p := Listing(ns, agent, Current(s', key, t).value)])
    case BeginPush(_, _, _, _, None) => s
    case ListTargets(p) =>
      if p !in s.pushes || !s.pushes[p].Listing? then s else
      var targets := Hosting(s, s.pushes[p].namespace, s.pushes[p].agent);
      s.(pushes := if targets == {} then s.pushes - {p} else s.pushes[p := Sending(s.pushes[p].item, targets)])
    case PushOne(p, c) =>
      if p !in s.pushes || !s.pushes[p].Sending? || c !in s.pushes[p].targets then s else
      var rest := s.pushes[p].targets - {c};
      var s' := SendTo(s, c, Config(s.pushes[p].item));
      s'.(pushes := if rest == {} then s.pushes - {p} else s.pushes[p := Sending(s.pushes[p].item, rest)])
    case Forget(ns, agent) => s.(store := Delete(s.store, SlashKey(ns, agent)))
    case _ => s
  }

  function Apply(hash: Hash, s: State, step: Step): (r: State) {
    match step
    case Open(_, _, _) => ApplyHandshake(s, step)
    case LookUpExisting(_) => ApplyHandshake(s, step)
    case EvictExisting(_) => ApplyHandshake(s, step)
    case SendAck(_, _) => ApplyHandshake(s, step)
    case RegisterStream(_) => ApplyHandshake(s, step)
    case ReadSnapshots(_) => ApplySync(s, step)
    case LookUpTarget(_) => ApplySync(s, step)
    case SyncOne(_, _) => ApplySync(s, step)
    case BeginPush(_, _, _, _, _) => ApplyPush(hash, s, step)
    case ListTargets(_) => ApplyPush(hash, s, step)
    case PushOne(_, _) => ApplyPush(hash, s, step)
    case Forget(_, _) => ApplyPush(hash, s, step)
    case Stop => ApplyStop(s)
    case _ => ApplyStream(s, step)
  }

  function Run(hash: Hash, steps: seq<Step>): (s: State) {
    if steps == [] then INIT else Apply(hash, Run(hash, steps[..|steps| - 1]), steps[|steps| - 1])
  }

  /** Pairs of a namespace and an agent name. */
  type Pairs = iset<(string, string)>

  /** The pairs that connecting streams claim, and those that pushes name. */
  datatype Names = Names(claimed: Pairs, pushed: Pairs)

  ghost predicate Named(names: Names, step: Step) {
    match step
    case Open(_, id, _) => (id.namespace, id.agent) in names.claimed
    case BeginPush(_, ns, agent, _, _) => (ns, agent) in names.pushed
    case _ => true
  }

  ghost predicate NamedSteps(names: Names, steps: seq<Step>) {
    forall i :: 0 <= i < |steps| ==> Named(names, steps[i])
  }

  /** Two different pairs filed under one agent key. */
  predicate Collide(p: (string, string), q: (string, string)) {
    p != q && SlashKey(p.0, p.1) == SlashKey(q.0, q.1)
  }

  /** No pair a stream can connect with is filed under the key of another pair that is pushed to. */
  ghost predicate CollisionFree(names: Names) {
    forall p, q :: p in names.claimed && q in names.pushed && Collide(p, q) ==> p.0 == "" || p.1 == ""
  }

  // ----- The invariant -----

  predicate HoldsConnection(phase: Phase) {
    phase.SyncReading? || phase.SyncLooking? || phase.SyncSending? || phase.Receiving? || phase.Disconnecting?
  }

  /** Entry k files a live stream's own connection under that stream's key. */
  predicate EntryMatches(s: State, k: string) {
    k in s.registry.entries ==>
      var c := s.registry.entries[k];
      c in s.streams && c in s.channels && k == InstanceKey(s.streams[c].id) && HoldsConnection(s.streams[c].phase)
  }

  predicate BeforeConnection(phase: Phase) {
    phase.LookingUp? || phase.Evicting? || phase.Acking? || phase.Registering?
  }

  ghost predicate StreamOk(s: State, i: nat) {
    && (i in s.channels ==> i in s.streams && s.channels[i].Valid())
    && (i in s.streams ==>
          && (HoldsConnection(s.streams[i].phase) ==> i in s.channels)
          && (BeforeConnection(s.streams[i].phase) ==> i !in s.channels))
  }

  /** Entries, streams and queues fit together. */
  ghost predicate Filed(s: State) {
    && (forall k :: EntryMatches(s, k))
    && (forall i :: StreamOk(s, i))
  }

  /** A stream past its handshake checks claims a complete pair. */
  ghost predicate StreamNamed(names: Names, s: State, i: nat) {
    i in s.streams && !s.streams[i].phase.Ended? ==>
      var id := s.streams[i].id;
      (id.namespace, id.agent) in names.claimed && id.namespace != "" && id.agent != ""
  }

  ghost predicate PushNamed(names: Names, s: State, p: nat) {
    p in s.pushes && s.pushes[p].Listing? ==>
      && (s.pushes[p].namespace, s.pushes[p].agent) in names.pushed
      && s.pushes[p].item.key == SlashKey(s.pushes[p].namespace, s.pushes[p].agent)
  }

  ghost predicate AllNamed(names: Names, s: State) {
    && (forall i :: StreamNamed(names, s, i))
    && (forall p :: PushNamed(names, s, p))
  }

  predicate PushOwes(push: Push, c: nat, item: Item) {
    push.item == item && (push.Listing? || c in push.targets)
  }

  /** The connection's own full sync has yet to offer item to it. */
  predicate SyncOwes(s: State, c: nat, item: Item) {
    c in s.streams &&
    match s.streams[c].phase
    case SyncReading => true
    case SyncLooking(pending) => item in pending
    case SyncSending(target, pending) => target == c && item in pending
    case _ => false
  }

  ghost predicate SomePushOwes(s: State, c: nat, item: Item) {
    exists p :: p in s.pushes && PushOwes(s.pushes[p], c, item)
  }

  predicate Enqueued(s: State, c: nat, item: Item) {
    c in s.channels && Config(item) in s.channels[c].enqueued
  }

  predicate Cancelled(s: State, c: nat) {
    c in s.channels && s.channels[c].cancelled
  }

  /** Cancelled, or refused a message and about to be closed by the sender. */
  predicate Doomed(s: State, c: nat) {
    c in s.channels && s.channels[c].Doomed()
  }

  /** The current config of type t has reached c's queue, or somebody in flight still owes it. */
  ghost predicate Served(s: State, c: nat, t: nat)
    requires c in s.streams
  {
    var item := Current(s, AgentKey(s.streams[c].id), t);
    item.Some? && !Doomed(s, c) ==>
      Enqueued(s, c, item.value) || SyncOwes(s, c, item.value) || SomePushOwes(s, c, item.value)
  }

  ghost predicate ServedAt(s: State, k: string, t: nat) {
    k in s.registry.entries && s.registry.entries[k] in s.streams ==> Served(s, s.registry.entries[k], t)
  }

  ghost predicate Progressed(s: State, s': State, c: nat) {
    c in s.channels && c in s'.channels
    && s.channels[c].enqueued <= s'.channels[c].enqueued
    && (s.channels[c].Doomed() ==> s'.channels[c].Doomed())
  }

  ghost predicate AllServed(s: State) {
    forall k, t :: ServedAt(s, k, t)
  }

  ghost predicate Inv(names: Names, s: State) {
    Filed(s) && AllNamed(names, s) && AllServed(s)
  }

  predicate SameStore(s: State, s': State) {
    s'.store == s.store && s'.stamps == s.stamps && s'.clock == s.clock && s'.pushes == s.pushes
  }

  /** Namespaces without '/' never collide. */
  lemma SlashFreeIsCollisionFree(names: Names)
    requires forall p :: p in names.claimed || p in names.pushed ==> SlashFree(p.0)
    ensures CollisionFree(names)
  {
    forall p, q | p in names.claimed && q in names.pushed ensures !Collide(p, q) {
      if Collide(p, q) { SlashKeyInjective(p.0, p.1, q.0, q.1); }
    }
  }

  /** Pushes that name objects, whose names hold no '/', never collide with any claim. */
  lemma SlashFreePushesAreCollisionFree(names: Names)
    requires forall q :: q in names.pushed ==> SlashFree(q.0) && SlashFree(q.1)
    ensures CollisionFree(names)
  {
    forall p, q | p in names.claimed && q in names.pushed ensures !Collide(p, q) {
      if Collide(p, q) { OneSlashSplits(p.0, p.1, q.0, q.1); }
    }
  }

  // ----- Every step keeps the invariant -----

  lemma ChannelKeepsStream(s: State, c: nat, m: Message, i: nat)
    requires StreamOk(s, i)
    ensures StreamOk(SendTo(s, c, m), i) && StreamOk(CancelConn(s, c), i)
  {
  }

  lemma UnregisterKeepsStream(s: State, key: string, c: nat, i: nat)
    requires StreamOk(s, i)
    ensures StreamOk(UnregisterConn(s, key, c), i)
  {
  }

  lemma GotoKeepsEntry(s: State, i: nat, phase: Phase, k: string)
    requires EntryMatches(s, k) && i in s.streams
    requires HoldsConnection(s.streams[i].phase) ==> HoldsConnection(phase)
    ensures EntryMatches(Goto(s, i, phase), k)
  {
  }

  lemma GotoKeepsStream(s: State, j: nat, phase: Phase, i: nat)
    requires StreamOk(s, i) && j in s.streams
    requires HoldsConnection(phase) ==> j in s.channels
    requires BeforeConnection(phase) ==> j !in s.channels
    ensures StreamOk(Goto(s, j, phase), i)
  {
  }

  lemma UnregisterKeepsEntry(s: State, key: string, c: nat, k: string)
    requires EntryMatches(s, k)
    ensures EntryMatches(UnregisterConn(s, key, c), k)
  {
  }

  lemma RegisterKeepsFiled(s: State, i: nat, k: string, j: nat)
    requires EntryMatches(s, k) && StreamOk(s, j)
    ensures EntryMatches(ApplyHandshake(s, RegisterStream(i)), k)
    ensures StreamOk(ApplyHandshake(s, RegisterStream(i)), j)
  {
  }

  lemma OpenKeepsFiled(s: State, step: Step, k: string, j: nat)
    requires EntryMatches(s, k) && StreamOk(s, j) && step.Open?
    ensures EntryMatches(ApplyHandshake(s, step), k) && StreamOk(ApplyHandshake(s, step), j)
  {
  }

  lemma LookUpKeepsEntry(s: State, i: nat, k: string)
    requires EntryMatches(s, k)
    ensures EntryMatches(ApplyHandshake(s, LookUpExisting(i)), k)
  {
    if At(s, i, LookingUp) { GotoKeepsEntry(s, i, ApplyHandshake(s, LookUpExisting(i)).streams[i].phase, k); }
  }

  lemma EvictKeepsEntry(s: State, i: nat, k: string)
    requires EntryMatches(s, k)
    ensures EntryMatches(ApplyHandshake(s, EvictExisting(i)), k)
  {
    if i in s.streams && s.streams[i].phase.Evicting? {
      var key, c := InstanceKey(s.streams[i].id), s.streams[i].phase.existing;
      UnregisterKeepsEntry(s, key, c, k);
      GotoKeepsEntry(UnregisterConn(s, key, c), i, Acking, k);
    }
  }

  lemma AckKeepsEntry(s: State, i: nat, sent: bool, k: string)
    requires EntryMatches(s, k)
    ensures EntryMatches(ApplyHandshake(s, SendAck(i, sent)), k)
  {
    if At(s, i, Acking) { GotoKeepsEntry(s, i, if sent then Registering else Ended, k); }
  }

  lemma HandshakeKeepsEntry(s: State, step: Step, k: string)
    requires Filed(s)
    ensures EntryMatches(ApplyHandshake(s, step), k)
  {
    assert EntryMatches(s, k);
    match step
    case Open(i, _, _) =>
      assert StreamOk(s, i);
      OpenKeepsFiled(s, step, k, i);
    case LookUpExisting(i) => LookUpKeepsEntry(s, i, k);
    case EvictExisting(i) => EvictKeepsEntry(s, i, k);
    case SendAck(i, sent) => AckKeepsEntry(s, i, sent, k);
    case RegisterStream(i) =>
      assert StreamOk(s, i);
      RegisterKeepsFiled(s, i, k, i);
    case _ =>
  }

  lemma LookUpKeepsStream(s: State, j: nat, i: nat)
    requires StreamOk(s, i) && StreamOk(s, j)
    ensures StreamOk(ApplyHandshake(s, LookUpExisting(j)), i)
  {
    if At(s, j, LookingUp) {
      GotoKeepsStream(s, j, ApplyHandshake(s, LookUpExisting(j)).streams[j].phase, i);
    }
  }

  lemma EvictKeepsStream(s: State, j: nat, i: nat)
    requires StreamOk(s, i) && StreamOk(s, j)
    ensures StreamOk(ApplyHandshake(s, EvictExisting(j)), i)
  {
    if j in s.streams && s.streams[j].phase.Evicting? {
      var key, c := InstanceKey(s.streams[j].id), s.streams[j].phase.existing;
      UnregisterKeepsStream(s, key, c, i);
      GotoKeepsStream(UnregisterConn(s, key, c), j, Acking, i);
    }
  }

  lemma AckKeepsStream(s: State, j: nat, sent: bool, i: nat)
    requires StreamOk(s, i) && StreamOk(s, j)
    ensures StreamOk(ApplyHandshake(s, SendAck(j, sent)), i)
  {
    if At(s, j, Acking) { GotoKeepsStream(s, j, if sent then Registering else Ended, i); }
  }

  lemma HandshakeKeepsStream(s: State, step: Step, i: nat)
    requires Filed(s)
    ensures StreamOk(ApplyHandshake(s, step), i)
  {
    assert StreamOk(s, i) && EntryMatches(s, "");
    match step
    case Open(_, _, _) => OpenKeepsFiled(s, step, "", i);
    case LookUpExisting(j) =>
      assert StreamOk(s, j);
      LookUpKeepsStream(s, j, i);
    case EvictExisting(j) =>
      assert StreamOk(s, j);
      EvictKeepsStream(s, j, i);
    case SendAck(j, sent) =>
      assert StreamOk(s, j);
      AckKeepsStream(s, j, sent, i);
    case RegisterStream(j) => RegisterKeepsFiled(s, j, "", i);
    case _ =>
  }

  lemma SyncKeepsEntry(s: State, step: Step, k: string)
    requires Filed(s)
    ensures EntryMatches(ApplySync(s, step), k)
  {
    assert EntryMatches(s, k);
    if k in s.registry.entries { assert StreamOk(s, s.registry.entries[k]); }
  }

  lemma SyncKeepsStream(s: State, step: Step, i: nat)
    requires Filed(s)
    ensures StreamOk(ApplySync(s, step), i)
  {
    assert StreamOk(s, i);
  }

  /** Tearing down stream i removes exactly the entry holding i, whoever holds the key now. */
  lemma DisconnectKeepsEntry(s: State, i: nat, k: string)
    requires EntryMatches(s, k) && At(s, i, Disconnecting)
    ensures var s' := ApplyStream(s, Disconnect(i));
            && EntryMatches(s', k)
            && (k in s'.registry.entries <==> k in s.registry.entries && s.registry.entries[k] != i)
            && (k in s'.registry.entries ==> s'.registry.entries[k] == s.registry.entries[k])
  {
  }

  lemma StreamKeepsEntry(s: State, step: Step, k: string)
    requires Filed(s)
    ensures EntryMatches(ApplyStream(s, step), k)
  {
    assert EntryMatches(s, k);
    if step.Disconnect? && At(s, step.stream, Disconnecting) {
      DisconnectKeepsEntry(s, step.stream, k);
    } else if k in s.registry.entries {
      assert ApplyStream(s, step).registry == s.registry;
    }
  }

  lemma CancelOwnKeepsStream(s: State, j: nat, i: nat)
    requires StreamOk(s, i)
    ensures StreamOk(ApplyStream(s, CancelOwn(j)), i)
  {
    if At(s, j, Cancelling) {
      ChannelKeepsStream(s, j, Other(""), i);
      GotoKeepsStream(CancelConn(s, j), j, Ended, i);
    }
  }

  lemma DisconnectKeepsStream(s: State, j: nat, i: nat)
    requires StreamOk(s, i)
    ensures StreamOk(ApplyStream(s, Disconnect(j)), i)
  {
    if At(s, j, Disconnecting) {
      var key := InstanceKey(s.streams[j].id);
      UnregisterKeepsStream(s, key, j, i);
      GotoKeepsStream(UnregisterConn(s, key, j), j, Cancelling, i);
    }
  }

  lemma ReceiveKeepsStream(s: State, j: nat, i: nat)
    requires StreamOk(s, i) && StreamOk(s, j)
    ensures StreamOk(ApplyStream(s, ReceiveError(j)), i)
  {
    if At(s, j, Receiving) { GotoKeepsStream(s, j, Disconnecting, i); }
  }

  lemma TakeKeepsStream(s: State, c: nat, i: nat)
    requires StreamOk(s, i)
    ensures StreamOk(ApplyStream(s, WriterTake(c)), i)
  {
  }

  lemma StreamKeepsStream(s: State, step: Step, i: nat)
    requires Filed(s)
    ensures StreamOk(ApplyStream(s, step), i)
  {
    assert StreamOk(s, i);
    match step
    case ReceiveHeartbeat(j, payload) => ChannelKeepsStream(s, j, Other(payload), i);
    case SendOther(c, payload) => ChannelKeepsStream(s, c, Other(payload), i);
    case CancelContext(c) => ChannelKeepsStream(s, c, Other(""), i);
    case CloseRefused(c) => ChannelKeepsStream(s, c, Other(""), i);
    case CancelOwn(j) => CancelOwnKeepsStream(s, j, i);
    case Disconnect(j) => DisconnectKeepsStream(s, j, i);
    case ReceiveError(j) =>
      assert StreamOk(s, j);
      ReceiveKeepsStream(s, j, i);
    case WriterTake(c) => TakeKeepsStream(s, c, i);
    case _ =>
  }

  lemma PushKeepsEntry(hash: Hash, s: State, step: Step, k: string)
    requires Filed(s)
    ensures EntryMatches(ApplyPush(hash, s, step), k)
  {
    assert EntryMatches(s, k);
    if k in s.registry.entries { assert StreamOk(s, s.registry.entries[k]); }
  }

  lemma PushKeepsStream(hash: Hash, s: State, step: Step, i: nat)
    requires Filed(s)
    ensures StreamOk(ApplyPush(hash, s, step), i)
  {
    assert StreamOk(s, i);
  }

  lemma StepKeepsEntry(hash: Hash, s: State, step: Step, k: string)
    requires Filed(s)
    ensures EntryMatches(Apply(hash, s, step), k)
  {
    HandshakeKeepsEntry(s, step, k);
    SyncKeepsEntry(s, step, k);
    StreamKeepsEntry(s, step, k);
    PushKeepsEntry(hash, s, step, k);
  }

  lemma StepKeepsStream(hash: Hash, s: State, step: Step, i: nat)
    requires Filed(s)
    ensures StreamOk(Apply(hash, s, step), i)
  {
    assert StreamOk(s, i);
    HandshakeKeepsStream(s, step, i);
    SyncKeepsStream(s, step, i);
    StreamKeepsStream(s, step, i);
    PushKeepsStream(hash, s, step, i);
  }

  lemma HandshakeLeavesStore(s: State, step: Step)
    ensures SameStore(s, ApplyHandshake(s, step))
  {
  }

  lemma SyncLeavesStore(s: State, step: Step)
    ensures SameStore(s, ApplySync(s, step))
  {
  }

  lemma StreamLeavesStore(s: State, step: Step)
    ensures SameStore(s, ApplyStream(s, step))
  {
  }

  predicate PushStep(step: Step) {
    step.BeginPush? || step.ListTargets? || step.PushOne? || step.Forget?
  }

  lemma PushStepApplies(hash: Hash, s: State, step: Step)
    requires PushStep(step)
    ensures Apply(hash, s, step) == ApplyPush(hash, s, step)
  {
  }

  /** Only pushes and forgetting touch the snapshot store and the pushes in flight. */
  lemma StoreUntouched(hash: Hash, s: State, step: Step)
    requires !PushStep(step)
    ensures SameStore(s, Apply(hash, s, step))
  {
    HandshakeLeavesStore(s, step);
    SyncLeavesStore(s, step);
    StreamLeavesStore(s, step);
  }

  lemma StepKeepsFiled(hash: Hash, s: State, step: Step)
    requires Filed(s)
    ensures Filed(Apply(hash, s, step))
  {
    var s' := Apply(hash, s, step);
    forall k ensures EntryMatches(s', k) { StepKeepsEntry(hash, s, step, k); }
    forall i ensures StreamOk(s', i) { StepKeepsStream(hash, s, step, i); }
  }

  /** A stream's identity is fixed when it opens, and only a complete one gets past the checks. */
  ghost predicate KeepsIdentity(s: State, s': State, i: nat) {
    i in s'.streams && !s'.streams[i].phase.Ended? ==>
      i in s.streams && !s.streams[i].phase.Ended? && s'.streams[i].id == s.streams[i].id
  }

  lemma GotoKeepsIdentity(s: State, j: nat, phase: Phase, i: nat)
    requires j in s.streams && !s.streams[j].phase.Ended?
    ensures KeepsIdentity(s, Goto(s, j, phase), i)
  {
  }

  lemma SameStreamsKeepIdentity(s: State, s': State, i: nat)
    requires s'.streams == s.streams
    ensures KeepsIdentity(s, s', i)
  {
  }

  lemma HandshakeKeepsIdentity(s: State, step: Step, i: nat)
    requires !step.Open?
    ensures KeepsIdentity(s, ApplyHandshake(s, step), i)
  {
  }

  lemma SyncKeepsIdentity(s: State, step: Step, i: nat)
    ensures KeepsIdentity(s, ApplySync(s, step), i)
  {
  }

  lemma CancelOwnKeepsIdentity(s: State, j: nat, i: nat)
    ensures KeepsIdentity(s, ApplyStream(s, CancelOwn(j)), i)
  {
    if At(s, j, Cancelling) {
      assert CancelConn(s, j).streams == s.streams;
      GotoKeepsIdentity(CancelConn(s, j), j, Ended, i);
    }
  }

  lemma UnregisterKeepsStreams(s: State, key: string, conn: nat)
    ensures UnregisterConn(s, key, conn).streams == s.streams
  {
  }

  lemma DisconnectKeepsIdentity(s: State, j: nat, i: nat)
    ensures KeepsIdentity(s, ApplyStream(s, Disconnect(j)), i)
  {
    if At(s, j, Disconnecting) {
      var s1 := UnregisterConn(s, InstanceKey(s.streams[j].id), j);
      UnregisterKeepsStreams(s, InstanceKey(s.streams[j].id), j);
      GotoKeepsIdentity(s1, j, Cancelling, i);
    }
  }

  lemma ReceiveErrorKeepsIdentity(s: State, j: nat, i: nat)
    ensures KeepsIdentity(s, ApplyStream(s, ReceiveError(j)), i)
  {
    if At(s, j, Receiving) { GotoKeepsIdentity(s, j, Disconnecting, i); }
  }

  lemma StreamKeepsIdentity(s: State, step: Step, i: nat)
    ensures KeepsIdentity(s, ApplyStream(s, step), i)
  {
    match step
    case CancelOwn(j) => CancelOwnKeepsIdentity(s, j, i);
    case Disconnect(j) => DisconnectKeepsIdentity(s, j, i);
    case ReceiveError(j) => ReceiveErrorKeepsIdentity(s, j, i);
    case _ => SameStreamsKeepIdentity(s, ApplyStream(s, step), i);
  }

  lemma PushKeepsIdentity(hash: Hash, s: State, step: Step, i: nat)
    ensures KeepsIdentity(s, ApplyPush(hash, s, step), i)
  {
  }

  lemma StepKeepsIdentity(hash: Hash, s: State, step: Step, i: nat)
    requires !step.Open?
    ensures KeepsIdentity(s, Apply(hash, s, step), i)
  {
    HandshakeKeepsIdentity(s, step, i);
    SyncKeepsIdentity(s, step, i);
    StreamKeepsIdentity(s, step, i);
    PushKeepsIdentity(hash, s, step, i);
  }

  lemma StepKeepsStreamNamed(names: Names, hash: Hash, s: State, step: Step, i: nat)
    requires StreamNamed(names, s, i) && Named(names, step)
    ensures StreamNamed(names, Apply(hash, s, step), i)
  {
    match step
    case Open(_, _, _) =>
    case _ => StepKeepsIdentity(hash, s, step, i);
  }

  lemma PushStepKeepsPushNamed(names: Names, hash: Hash, s: State, step: Step, p: nat)
    requires PushNamed(names, s, p) && Named(names, step)
    ensures PushNamed(names, ApplyPush(hash, s, step), p)
  {
  }

  lemma StepKeepsPushNamed(names: Names, hash: Hash, s: State, step: Step, p: nat)
    requires PushNamed(names, s, p) && Named(names, step)
    ensures PushNamed(names, Apply(hash, s, step), p)
  {
    if PushStep(step) {
      PushStepApplies(hash, s, step);
      PushStepKeepsPushNamed(names, hash, s, step, p);
    } else {
      StoreUntouched(hash, s, step);
    }
  }

  lemma StepKeepsAllNamed(names: Names, hash: Hash, s: State, step: Step)
    requires AllNamed(names, s) && Named(names, step)
    ensures AllNamed(names, Apply(hash, s, step))
  {
    var s' := Apply(hash, s, step);
    forall i ensures StreamNamed(names, s', i) {
      assert StreamNamed(names, s, i);
      StepKeepsStreamNamed(names, hash, s, step, i);
    }
    forall p ensures PushNamed(names, s', p) {
      assert PushNamed(names, s, p);
      StepKeepsPushNamed(names, hash, s, step, p);
    }
  }

  /** The step leaves entry k, its stream and everything owed to it alone. */
  ghost predicate Undisturbed(s: State, s': State, k: string) {
    && s'.store == s.store && s'.stamps == s.stamps && s'.pushes == s.pushes
    && k in s.registry.entries && k in s'.registry.entries
    && s.registry.entries[k] == s'.registry.entries[k]
    && var c := s.registry.entries[k];
       && c in s.streams && c in s'.streams && s'.streams[c].id == s.streams[c].id
       && Progressed(s, s', c)
       && (s.streams[c].phase == s'.streams[c].phase || s.streams[c].phase.Receiving?)
  }

  lemma Carry(s: State, s': State, k: string, t: nat)
    requires ServedAt(s, k, t) && Undisturbed(s, s', k)
    ensures ServedAt(s', k, t)
  {
    var c := s.registry.entries[k];
    var item := Current(s, AgentKey(s.streams[c].id), t);
    if item.Some? && SomePushOwes(s, c, item.value) {
      assert SomePushOwes(s', c, item.value);
    }
  }

  lemma UnregisterUndisturbed(s: State, key: string, conn: nat, k: string)
    requires EntryMatches(s, k)
    ensures var s' := UnregisterConn(s, key, conn); k in s'.registry.entries ==> Undisturbed(s, s', k)
  {
  }

  lemma GotoUndisturbed(s: State, i: nat, phase: Phase, k: string)
    requires EntryMatches(s, k) && k in s.registry.entries && i in s.streams
    requires s.registry.entries[k] == i ==> s.streams[i].phase.Receiving?
    ensures Undisturbed(s, Goto(s, i, phase), k)
  {
  }

  lemma EvictUndisturbed(s: State, i: nat, k: string)
    requires EntryMatches(s, k)
    ensures var s' := ApplyHandshake(s, EvictExisting(i)); k in s'.registry.entries ==> Undisturbed(s, s', k)
  {
    if i in s.streams && s.streams[i].phase.Evicting? {
      var s1 := UnregisterConn(s, InstanceKey(s.streams[i].id), s.streams[i].phase.existing);
      UnregisterUndisturbed(s, InstanceKey(s.streams[i].id), s.streams[i].phase.existing, k);
      if k in s1.registry.entries { GotoUndisturbed(s1, i, Acking, k); }
    }
  }

  lemma HandshakeUndisturbed(s: State, step: Step, k: string)
    requires EntryMatches(s, k)
    ensures var s' := ApplyHandshake(s, step);
            k in s'.registry.entries ==>
              || (step.RegisterStream? && At(s', step.stream, SyncReading) && s'.registry.entries[k] == step.stream)
              || Undisturbed(s, s', k)
  {
    if step.EvictExisting? {
      EvictUndisturbed(s, step.stream, k);
    } else if k in s.registry.entries && !step.RegisterStream? {
      assert ApplyHandshake(s, step).registry == s.registry;
    }
  }

  lemma HandshakeKeepsServed(s: State, step: Step, k: string, t: nat)
    requires Filed(s) && ServedAt(s, k, t)
    ensures ServedAt(ApplyHandshake(s, step), k, t)
  {
    var s' := ApplyHandshake(s, step);
    assert EntryMatches(s, k);
    HandshakeUndisturbed(s, step, k);
    if Undisturbed(s, s', k) { Carry(s, s', k, t); }
  }

  /** A stream's own sync may move on as long as it still owes what its queue lacks. */
  lemma GotoKeepsServed(s: State, i: nat, phase: Phase, k: string, t: nat)
    requires EntryMatches(s, k) && ServedAt(s, k, t) && i in s.streams
    requires var item := Current(s, AgentKey(s.streams[i].id), t);
             k in s.registry.entries && s.registry.entries[k] == i && item.Some? && SyncOwes(s, i, item.value) ==>
               Enqueued(s, i, item.value) || Doomed(s, i) || SyncOwes(Goto(s, i, phase), i, item.value)
    ensures ServedAt(Goto(s, i, phase), k, t)
  {
    var s' := Goto(s, i, phase);
    if k in s.registry.entries {
      var c := s.registry.entries[k];
      var item := Current(s, AgentKey(s.streams[c].id), t);
      if item.Some? && SomePushOwes(s, c, item.value) {
        assert SomePushOwes(s', c, item.value);
      }
    }
  }

  lemma SyncOneKeepsServed(s: State, i: nat, item: Item, k: string, t: nat)
    requires EntryMatches(s, k) && ServedAt(s, k, t)
    ensures ServedAt(ApplySync(s, SyncOne(i, item)), k, t)
  {
    if k in s.registry.entries && i in s.streams && s.streams[i].phase.SyncSending?
       && item in s.streams[i].phase.pending {
      var target := s.streams[i].phase.target;
      var s1 := SendTo(s, target, Config(item));
      var rest := s.streams[i].phase.pending - {item};
      ChannelUndisturbed(s, target, Config(item), k);
      Carry(s, s1, k, t);
      assert s.registry.entries[k] == target ==> Enqueued(s1, target, item) || Doomed(s1, target);
      var owed := Current(s1, AgentKey(s.streams[i].id), t);
      assert owed.Some? && SyncOwes(s1, i, owed.value) ==> owed.value == item || owed.value in rest;
      GotoKeepsServed(s1, i, if rest == {} then Receiving else SyncSending(target, rest), k, t);
    }
  }

  lemma SyncKeepsServed(s: State, step: Step, k: string, t: nat)
    requires Filed(s) && ServedAt(s, k, t)
    ensures ServedAt(ApplySync(s, step), k, t)
  {
    assert EntryMatches(s, k);
    match step
    case ReadSnapshots(i) =>
      if At(s, i, SyncReading) {
        var all := AllCurrent(s, AgentKey(s.streams[i].id));
        GotoKeepsServed(s, i, if all == {} then Receiving else SyncLooking(all), k, t);
      }
    case LookUpTarget(i) =>
      if i in s.streams && s.streams[i].phase.SyncLooking? {
        GotoKeepsServed(s, i, ApplySync(s, step).streams[i].phase, k, t);
      }
    case SyncOne(i, item) => SyncOneKeepsServed(s, i, item, k, t);
    case _ =>
  }

  lemma DisconnectUndisturbed(s: State, i: nat, k: string)
    requires EntryMatches(s, k)
    ensures var s' := ApplyStream(s, Disconnect(i)); k in s'.registry.entries ==> Undisturbed(s, s', k)
  {
    if At(s, i, Disconnecting) {
      var s1 := UnregisterConn(s, InstanceKey(s.streams[i].id), i);
      UnregisterUndisturbed(s, InstanceKey(s.streams[i].id), i, k);
      DisconnectKeepsEntry(s, i, k);
      if k in s1.registry.entries { GotoUndisturbed(s1, i, Cancelling, k); }
    }
  }

  lemma ChannelUndisturbed(s: State, c: nat, m: Message, k: string)
    requires EntryMatches(s, k) && k in s.registry.entries
    ensures Undisturbed(s, SendTo(s, c, m), k) && Undisturbed(s, CancelConn(s, c), k)
  {
  }

  lemma CancelOwnUndisturbed(s: State, i: nat, k: string)
    requires EntryMatches(s, k) && k in s.registry.entries
    ensures Undisturbed(s, ApplyStream(s, CancelOwn(i)), k)
  {
    if At(s, i, Cancelling) {
      ChannelUndisturbed(s, i, Other(""), k);
      GotoUndisturbed(CancelConn(s, i), i, Ended, k);
    }
  }

  lemma WriterTakeUndisturbed(s: State, c: nat, k: string)
    requires EntryMatches(s, k) && k in s.registry.entries
    ensures Undisturbed(s, ApplyStream(s, WriterTake(c)), k)
  {
  }

  lemma ReceiveErrorUndisturbed(s: State, i: nat, k: string)
    requires EntryMatches(s, k) && k in s.registry.entries
    ensures Undisturbed(s, ApplyStream(s, ReceiveError(i)), k)
  {
    if At(s, i, Receiving) { GotoUndisturbed(s, i, Disconnecting, k); }
  }

  /** Steps that only send to a queue or cancel it. */
  predicate ChannelStep(step: Step) {
    step.ReceiveHeartbeat? || step.SendOther? || step.CancelContext? || step.CloseRefused? || step.WriterTake?
  }

  lemma ChannelStepUndisturbed(s: State, step: Step, k: string)
    requires EntryMatches(s, k) && k in s.registry.entries && ChannelStep(step)
    ensures Undisturbed(s, ApplyStream(s, step), k)
  {
    match step
    case ReceiveHeartbeat(i, payload) => ChannelUndisturbed(s, i, Other(payload), k);
    case SendOther(c, payload) => ChannelUndisturbed(s, c, Other(payload), k);
    case CancelContext(c) => ChannelUndisturbed(s, c, Other(""), k);
    case CloseRefused(c) => ChannelUndisturbed(s, c, Other(""), k);
    case WriterTake(c) => WriterTakeUndisturbed(s, c, k);
  }

  lemma StreamUndisturbed(s: State, step: Step, k: string)
    requires EntryMatches(s, k) && k in s.registry.entries && k in ApplyStream(s, step).registry.entries
    ensures Undisturbed(s, ApplyStream(s, step), k)
  {
    if ChannelStep(step) {
      ChannelStepUndisturbed(s, step, k);
    } else {
      match step
      case Disconnect(i) => DisconnectUndisturbed(s, i, k);
      case ReceiveError(i) => ReceiveErrorUndisturbed(s, i, k);
      case CancelOwn(i) => CancelOwnUndisturbed(s, i, k);
      case _ =>
    }
  }

  lemma StreamForgetsOnly(s: State, step: Step, k: string)
    requires k in ApplyStream(s, step).registry.entries
    ensures k in s.registry.entries
  {
  }

  lemma StreamKeepsServed(s: State, step: Step, k: string, t: nat)
    requires Filed(s) && ServedAt(s, k, t)
    ensures ServedAt(ApplyStream(s, step), k, t)
  {
    var s' := ApplyStream(s, step);
    assert EntryMatches(s, k);
    if k in s'.registry.entries {
      StreamForgetsOnly(s, step, k);
      StreamUndisturbed(s, step, k);
      Carry(s, s', k, t);
    }
  }

  lemma BeginPushKeepsServed(hash: Hash, s: State, step: Step, k: string, t: nat)
    requires Filed(s) && ServedAt(s, k, t) && step.BeginPush?
    ensures ServedAt(ApplyPush(hash, s, step), k, t)
  {
    var s' := ApplyPush(hash, s, step);
    assert EntryMatches(s, k);
    if k in s.registry.entries && s' != s {
      var c := s.registry.entries[k];
      var key := SlashKey(step.namespace, step.agent);
      var mine := AgentKey(s.streams[c].id);
      UpdateAt(s.store, hash, key, step.cfgType, step.marshalled.value, mine, t);
      var item := Current(s', mine, t);
      if mine == key && t == step.cfgType {
        assert PushOwes(s'.pushes[step.push], c, item.value);
      } else if item.Some? && SomePushOwes(s, c, item.value) {
        var p :| p in s.pushes && PushOwes(s.pushes[p], c, item.value);
        assert p in s'.pushes && PushOwes(s'.pushes[p], c, item.value);
      }
    }
  }

  /** The push lists every connection of the agent whose key its item is filed under. */
  lemma ListingFindsAgent(names: Names, s: State, p: nat, k: string)
    requires CollisionFree(names) && AllNamed(names, s) && EntryMatches(s, k)
    requires p in s.pushes && s.pushes[p].Listing? && k in s.registry.entries
    requires AgentKey(s.streams[s.registry.entries[k]].id) == s.pushes[p].item.key
    ensures s.registry.entries[k] in Hosting(s, s.pushes[p].namespace, s.pushes[p].agent)
  {
    var id := s.streams[s.registry.entries[k]].id;
    assert PushNamed(names, s, p) && StreamNamed(names, s, s.registry.entries[k]);
    assert (id.namespace, id.agent) in names.claimed && (s.pushes[p].namespace, s.pushes[p].agent) in names.pushed;
    assert !Collide((id.namespace, id.agent), (s.pushes[p].namespace, s.pushes[p].agent));
  }

  lemma ListTargetsKeepsServed(names: Names, hash: Hash, s: State, p: nat, k: string, t: nat)
    requires CollisionFree(names) && AllNamed(names, s) && EntryMatches(s, k) && ServedAt(s, k, t)
    ensures ServedAt(ApplyPush(hash, s, ListTargets(p)), k, t)
  {
    var s' := ApplyPush(hash, s, ListTargets(p));
    if k in s.registry.entries && s' != s {
      var c := s.registry.entries[k];
      var item := Current(s, AgentKey(s.streams[c].id), t);
      if item.Some? && SomePushOwes(s, c, item.value) {
        var q :| q in s.pushes && PushOwes(s.pushes[q], c, item.value);
        if q == p { ListingFindsAgent(names, s, p, k); }
        assert q in s'.pushes && PushOwes(s'.pushes[q], c, item.value);
      }
    }
  }

  lemma PushOneKeepsServed(hash: Hash, s: State, p: nat, target: nat, k: string, t: nat)
    requires Filed(s) && ServedAt(s, k, t)
    ensures ServedAt(ApplyPush(hash, s, PushOne(p, target)), k, t)
  {
    var s' := ApplyPush(hash, s, PushOne(p, target));
    assert EntryMatches(s, k);
    if k in s.registry.entries && s' != s {
      var c := s.registry.entries[k];
      var item := Current(s, AgentKey(s.streams[c].id), t);
      if item.Some? && SomePushOwes(s, c, item.value) {
        var q :| q in s.pushes && PushOwes(s.pushes[q], c, item.value);
        if q != p {
          assert q in s'.pushes && PushOwes(s'.pushes[q], c, item.value);
        } else if c != target {
          assert c in s.pushes[p].targets - {target};
          assert PushOwes(s'.pushes[p], c, item.value);
        }
      }
    }
  }

  lemma ForgetKeepsServed(hash: Hash, s: State, step: Step, k: string, t: nat)
    requires Filed(s) && ServedAt(s, k, t) && step.Forget?
    ensures ServedAt(ApplyPush(hash, s, step), k, t)
  {
    var s' := ApplyPush(hash, s, step);
    assert EntryMatches(s, k);
    if k in s.registry.entries {
      var c := s.registry.entries[k];
      var item := Current(s', AgentKey(s.streams[c].id), t);
      if item.Some? && SomePushOwes(s, c, item.value) {
        assert SomePushOwes(s', c, item.value);
      }
    }
  }

  lemma PushKeepsServed(names: Names, hash: Hash, s: State, step: Step, k: string, t: nat)
    requires CollisionFree(names) && AllNamed(names, s) && Filed(s) && ServedAt(s, k, t)
    requires PushStep(step)
    ensures ServedAt(ApplyPush(hash, s, step), k, t)
  {
    match step
    case BeginPush(_, _, _, _, _) => BeginPushKeepsServed(hash, s, step, k, t);
    case ListTargets(p) =>
      assert EntryMatches(s, k);
      ListTargetsKeepsServed(names, hash, s, p, k, t);
    case PushOne(p, c) => PushOneKeepsServed(hash, s, p, c, k, t);
    case Forget(_, _) => ForgetKeepsServed(hash, s, step, k, t);
  }

  lemma StopKeepsServed(s: State, k: string, t: nat)
    ensures ServedAt(ApplyStop(s), k, t)
  {
  }

  predicate SyncStep(step: Step) {
    step.ReadSnapshots? || step.LookUpTarget? || step.SyncOne?
  }

  lemma OtherStepKeepsServed(hash: Hash, s: State, step: Step, k: string, t: nat)
    requires Filed(s) && ServedAt(s, k, t) && !PushStep(step) && !SyncStep(step) && !step.Stop?
    ensures ServedAt(Apply(hash, s, step), k, t)
  {
    HandshakeKeepsServed(s, step, k, t);
    StreamKeepsServed(s, step, k, t);
  }

  lemma StepKeepsServed(names: Names, hash: Hash, s: State, step: Step, k: string, t: nat)
    requires CollisionFree(names) && AllNamed(names, s) && Filed(s) && ServedAt(s, k, t)
    ensures ServedAt(Apply(hash, s, step), k, t)
  {
    if PushStep(step) {
      PushStepApplies(hash, s, step);
      PushKeepsServed(names, hash, s, step, k, t);
    } else if SyncStep(step) {
      SyncKeepsServed(s, step, k, t);
    } else if step.Stop? {
      StopKeepsServed(s, k, t);
    } else {
      OtherStepKeepsServed(hash, s, step, k, t);
    }
  }

  lemma StepKeepsInv(names: Names, hash: Hash, s: State, step: Step)
    requires CollisionFree(names) && Inv(names, s) && Named(names, step)
    ensures Inv(names, Apply(hash, s, step))
  {
    var s' := Apply(hash, s, step);
    StepKeepsFiled(hash, s, step);
    StepKeepsAllNamed(names, hash, s, step);
    forall k, t: nat ensures ServedAt(s', k, t) {
      assert ServedAt(s, k, t);
      StepKeepsServed(names, hash, s, step, k, t);
    }
  }

  lemma {:induction false} RunKeepsInv(names: Names, hash: Hash, steps: seq<Step>)
    requires CollisionFree(names) && NamedSteps(names, steps)
    ensures Inv(names, Run(hash, steps))
  {
    if steps != [] {
      RunKeepsInv(names, hash, steps[..|steps| - 1]);
      StepKeepsInv(names, hash, Run(hash, steps[..|steps| - 1]), steps[|steps| - 1]);
    }
  }

  /** Whatever streams claim and pushes name. */
  lemma {:induction false} RunKeepsFiled(hash: Hash, steps: seq<Step>)
    ensures Filed(Run(hash, steps))
  {
    if steps != [] {
      RunKeepsFiled(hash, steps[..|steps| - 1]);
      StepKeepsFiled(hash, Run(hash, steps[..|steps| - 1]), steps[|steps| - 1]);
    }
  }

  // ----- Main results -----

  /**
   After the run, the connection filed under key is a live stream's own and is served:
   unless it is cancelled or about to be, its agent's current config of type t has been
   enqueued for it or is still owed to it.
   */
  ghost predicate NothingLost(hash: Hash, steps: seq<Step>, key: string, t: nat) {
    var s := Run(hash, steps);
    key in s.registry.entries ==>
      var c := s.registry.entries[key];
      c in s.streams && c in s.channels && Served(s, c, t)
  }

  /**
   In every interleaving, the current snapshot of every config type of a registered
   connection's agent has been enqueued for it, or its own full sync or some push in flight
   still owes it, or the connection is cancelled or a sender it refused is closing it.
   */
  lemma NoLostUpdate(names: Names, hash: Hash, steps: seq<Step>, key: string, t: nat)
    requires CollisionFree(names) && NamedSteps(names, steps)
    ensures NothingLost(hash, steps, key, t)
  {
    RunKeepsInv(names, hash, steps);
    assert EntryMatches(Run(hash, steps), key) && ServedAt(Run(hash, steps), key, t);
  }

  /** The pushes name Kubernetes objects: no '/' in the namespace or the name. */
  predicate PushesObjects(steps: seq<Step>) {
    forall i :: 0 <= i < |steps| && steps[i].BeginPush? ==> SlashFree(steps[i].namespace) && SlashFree(steps[i].agent)
  }

  ghost const ANYONE: Pairs := iset p: (string, string) | true

  /** When every push names an object nothing is lost, whatever the clients claim to be. */
  lemma ObjectPushesAreNotLost(hash: Hash, steps: seq<Step>, key: string, t: nat)
    requires PushesObjects(steps)
    ensures NothingLost(hash, steps, key, t)
  {
    var objects := iset p: (string, string) | SlashFree(p.0) && SlashFree(p.1);
    var names := Names(ANYONE, objects);
    SlashFreePushesAreCollisionFree(names);
    NoLostUpdate(names, hash, steps, key, t);
  }

  predicate Syncing(phase: Phase) {
    phase.SyncReading? || phase.SyncLooking? || phase.SyncSending?
  }

  ghost predicate Quiescent(s: State) {
    && s.pushes == map[]
    && (forall i :: i in s.streams ==> !Syncing(s.streams[i].phase))
    && (forall c :: c in s.channels ==> !s.channels[c].refused)
  }

  /** The connection filed under key, unless cancelled, has been sent its agent's current config of type t. */
  predicate UpToDate(s: State, key: string, t: nat) {
    key in s.registry.entries ==>
      var c := s.registry.entries[key];
      && c in s.streams && c in s.channels
      && var item := Current(s, AgentKey(s.streams[c].id), t);
         item.Some? && !s.channels[c].cancelled ==> Config(item.value) in s.channels[c].enqueued
  }

  /** With no push, full sync or refused send in flight, the current snapshot has been enqueued. */
  lemma QuiescentMeansEnqueued(names: Names, hash: Hash, steps: seq<Step>, key: string, t: nat)
    requires CollisionFree(names) && NamedSteps(names, steps) && Quiescent(Run(hash, steps))
    ensures UpToDate(Run(hash, steps), key, t)
  {
    NoLostUpdate(names, hash, steps, key, t);
  }

  /** After the run, c's queue is within its 64 slots and, unless c is doomed, lacks nothing offered. */
  predicate DropsNothingSilently(hash: Hash, steps: seq<Step>, c: nat) {
    var s := Run(hash, steps);
    c in s.channels ==>
      var ch := s.channels[c];
      && ch.taken <= |ch.enqueued| <= ch.taken + 64
      && (!ch.Doomed() ==> ch.enqueued == ch.offered)
  }

  /** No queue exceeds its 64 slots, and a connection that dropped something is cancelled or being closed. */
  lemma QueuesNeverDropSilently(hash: Hash, steps: seq<Step>, c: nat)
    ensures DropsNothingSilently(hash, steps, c)
  {
    RunKeepsFiled(hash, steps);
    assert StreamOk(Run(hash, steps), c);
  }
}
