/**
 Concrete runs at the limits of the distribution protocol: a stale config sent last, a
 cancelled connection that stays registered, an overwritten one that stays open, and a
 push lost to colliding keys.
 */
module DistributionLimits {
  import opened Text
  import opened Snapshots
  import opened Connections
  import opened Distribution
  import opened DistributionRegistry

  // ----- Concrete runs -----

  lemma RunSnoc(hash: Hash, steps: seq<Step>, step: Step)
    ensures Run(hash, steps + [step]) == Apply(hash, Run(hash, steps), step)
  {
    assert (steps + [step])[..|steps|] == steps;
  }

  lemma Extend(names: Names, hash: Hash, steps: seq<Step>, step: Step, s': State) returns (longer: seq<Step>)
    requires NamedSteps(names, steps) && Named(names, step) && Apply(hash, Run(hash, steps), step) == s'
    ensures longer == steps + [step] && Run(hash, longer) == s' && NamedSteps(names, longer)
  {
    longer := steps + [step];
    RunSnoc(hash, steps, step);
  }

  /** s after one stream of identity id has connected and is about to read the snapshots. */
  function Connected(s: State, id: Identity): (r: State) {
    s.(registry := Registry(s.registry.entries[InstanceKey(id) := 0], s.registry.gauge + 1),
       streams := map[0 := Stream(id, SyncReading)],
       channels := map[0 := NewChannel()])
  }

  function WithStream(s: State, id: Identity, phase: Phase): (r: State) {
    s.(streams := map[0 := Stream(id, phase)])
  }

  lemma Moves(s: State, id: Identity, p: Phase, q: Phase)
    ensures Goto(WithStream(s, id, p), 0, q) == WithStream(s, id, q)
  {
    assert map[0 := Stream(id, p)][0 := Stream(id, q)] == map[0 := Stream(id, q)];
  }

  lemma Registers(hash: Hash, s: State, id: Identity)
    requires s.channels == map[] && s.registry.entries == map[]
    ensures Apply(hash, WithStream(s, id, Registering), RegisterStream(0)) == Connected(s, id)
  {
    Moves(s, id, Registering, SyncReading);
    assert s.channels[0 := NewChannel()] == map[0 := NewChannel()];
  }

  /** What a client alone brings about: its handshake and first sync, its heartbeats, and what they lead to. */
  predicate ClientSteps(steps: seq<Step>) {
    forall i :: 0 <= i < |steps| ==>
      match steps[i]
      case Open(_, _, _) => true
      case LookUpExisting(_) => true
      case SendAck(_, _) => true
      case RegisterStream(_) => true
      case ReadSnapshots(_) => true
      case ReceiveHeartbeat(_, _) => true
      case CloseRefused(_) => true
      case _ => false
  }

  /** Every stream that opens claims to be id. */
  predicate OpensOnly(steps: seq<Step>, id: Identity) {
    forall i :: 0 <= i < |steps| && steps[i].Open? ==> steps[i].id == id
  }

  /** What a handshake demands of an identity. */
  predicate Complete(id: Identity) {
    id.namespace != "" && id.agent != "" && id.instance != ""
  }

  lemma Opens(hash: Hash, s: State, id: Identity)
    requires s.streams == map[] && Complete(id)
    ensures Apply(hash, s, Open(0, id, true)) == WithStream(s, id, LookingUp)
  {
    assert s.streams[0 := Stream(id, LookingUp)] == map[0 := Stream(id, LookingUp)];
  }

  lemma FindsNothing(hash: Hash, s: State, id: Identity)
    requires s.registry.entries == map[]
    ensures Apply(hash, WithStream(s, id, LookingUp), LookUpExisting(0)) == WithStream(s, id, Acking)
  {
    Moves(s, id, LookingUp, Acking);
  }

  lemma Acks(hash: Hash, s: State, id: Identity)
    ensures Apply(hash, WithStream(s, id, Acking), SendAck(0, true)) == WithStream(s, id, Registering)
  {
    Moves(s, id, Acking, Registering);
  }

  lemma HandshakeRun(names: Names, hash: Hash, before: seq<Step>, id: Identity) returns (steps: seq<Step>)
    requires NamedSteps(names, before) && (id.namespace, id.agent) in names.claimed && Complete(id)
    requires Run(hash, before).streams == map[] && Run(hash, before).registry.entries == map[]
    ensures steps == before + [Open(0, id, true), LookUpExisting(0), SendAck(0, true)]
    ensures NamedSteps(names, steps) && Run(hash, steps) == WithStream(Run(hash, before), id, Registering)
  {
    var s := Run(hash, before);
    Opens(hash, s, id);
    steps := Extend(names, hash, before, Open(0, id, true), WithStream(s, id, LookingUp));
    FindsNothing(hash, s, id);
    steps := Extend(names, hash, steps, LookUpExisting(0), WithStream(s, id, Acking));
    Acks(hash, s, id);
    steps := Extend(names, hash, steps, SendAck(0, true), WithStream(s, id, Registering));
  }

  lemma ConnectRun(names: Names, hash: Hash, before: seq<Step>, id: Identity) returns (steps: seq<Step>)
    requires NamedSteps(names, before) && (id.namespace, id.agent) in names.claimed && Complete(id)
    requires var s := Run(hash, before); s.streams == map[] && s.channels == map[] && s.registry.entries == map[]
    ensures steps == before + [Open(0, id, true), LookUpExisting(0), SendAck(0, true), RegisterStream(0)]
    ensures NamedSteps(names, steps) && Run(hash, steps) == Connected(Run(hash, before), id)
  {
    steps := HandshakeRun(names, hash, before, id);
    Registers(hash, Run(hash, before), id);
    steps := Extend(names, hash, steps, RegisterStream(0), Connected(Run(hash, before), id));
  }

  /** Streams that claim id's agent, and pushes that name it. */
  ghost function NamesOf(id: Identity): (r: Names) {
    Names(iset{(id.namespace, id.agent)}, iset{(id.namespace, id.agent)})
  }

  function PairOf(id: Identity): (r: (string, string)) {
    (id.namespace, id.agent)
  }

  function First(id: Identity, hash: Hash, data: string): (r: Item) {
    Item(AgentKey(id), MakeSnapshot(hash, AgentKey(id), 1, 1, data), Stamp(0, PairOf(id)))
  }

  function Second(id: Identity, hash: Hash, data: string): (r: Item) {
    Item(AgentKey(id), MakeSnapshot(hash, AgentKey(id), 1, 2, data), Stamp(1, PairOf(id)))
  }

  /** s after the update of a push has been stored: the push p is about to list its targets. */
  function Stored(id: Identity, hash: Hash, s: State, p: nat, data: string): (r: State) {
    var key := AgentKey(id);
    s.(store := Update(s.store, hash, key, 1, data),
       stamps := s.stamps[(key, 1) := Stamp(s.clock, PairOf(id))], clock := s.clock + 1,
       pushes := map[p := Listing(id.namespace, id.agent, NewItem(id, hash, s, data))])
  }

  function NewItem(id: Identity, hash: Hash, s: State, data: string): (r: Item) {
    Item(AgentKey(id), MakeSnapshot(hash, AgentKey(id), 1, Version(s.store, AgentKey(id), 1) + 1, data),
         Stamp(s.clock, PairOf(id)))
  }

  lemma PushIsStored(id: Identity, hash: Hash, s: State, p: nat, data: string)
    requires s.pushes == map[] && !Unchanged(s.store, hash, AgentKey(id), 1, data)
    ensures Apply(hash, s, BeginPush(p, id.namespace, id.agent, 1, Some(data))) == Stored(id, hash, s, p, data)
    ensures Current(Stored(id, hash, s, p, data), AgentKey(id), 1) == Some(NewItem(id, hash, s, data))
    ensures Version(Stored(id, hash, s, p, data).store, AgentKey(id), 1) == Version(s.store, AgentKey(id), 1) + 1
  {
    UpdateAt(s.store, hash, AgentKey(id), 1, data, AgentKey(id), 1);
  }

  /** The server after one config has been pushed for id's agent and nobody has connected. */
  function Pushed(id: Identity, hash: Hash, a: string): (r: State) {
    INIT.(store := Update(EMPTY, hash, AgentKey(id), 1, a),
          stamps := map[(AgentKey(id), 1) := Stamp(0, PairOf(id))], clock := 1)
  }

  lemma FirstPush(id: Identity, hash: Hash, a: string)
    ensures Apply(hash, INIT, BeginPush(0, id.namespace, id.agent, 1, Some(a))) == Stored(id, hash, INIT, 0, a)
    ensures Apply(hash, Stored(id, hash, INIT, 0, a), ListTargets(0)) == Pushed(id, hash, a)
  {
    PushIsStored(id, hash, INIT, 0, a);
    assert Stored(id, hash, INIT, 0, a)
           == Pushed(id, hash, a).(pushes := map[0 := Listing(id.namespace, id.agent, First(id, hash, a))]);
    assert Hosting(Stored(id, hash, INIT, 0, a), id.namespace, id.agent) == {};
  }

  lemma TwoSteps(hash: Hash, x: Step, y: Step)
    ensures Run(hash, [x, y]) == Apply(hash, Apply(hash, INIT, x), y)
  {
    RunSnoc(hash, [], x);
    RunSnoc(hash, [x], y);
    assert [] + [x] == [x] && [x] + [y] == [x, y];
  }

  lemma PushedRun(id: Identity, hash: Hash, a: string) returns (steps: seq<Step>)
    requires Complete(id)
    ensures NamedSteps(NamesOf(id), steps) && Run(hash, steps) == Pushed(id, hash, a)
    ensures OpensOnly(steps, id)
  {
    var push := BeginPush(0, id.namespace, id.agent, 1, Some(a));
    FirstPush(id, hash, a);
    TwoSteps(hash, push, ListTargets(0));
    steps := [push, ListTargets(0)];
  }

  lemma CurrentOfPushed(id: Identity, hash: Hash, a: string)
    ensures AllCurrent(Pushed(id, hash, a), AgentKey(id)) == {First(id, hash, a)}
  {
    var s := Pushed(id, hash, a);
    forall t: nat ensures Current(s, AgentKey(id), t) == if t == 1 then Some(First(id, hash, a)) else None {
      UpdateAt(EMPTY, hash, AgentKey(id), 1, a, AgentKey(id), t);
    }
    assert Current(s, AgentKey(id), 1).value in AllCurrent(s, AgentKey(id));
  }

  /** id has then registered and read that config for its full sync. */
  function SyncRead(id: Identity, hash: Hash, a: string): (r: State) {
    WithStream(Connected(Pushed(id, hash, a), id), id, SyncLooking({First(id, hash, a)}))
  }

  lemma SameStoreSameCurrent(s: State, s': State, key: string)
    requires s'.store == s.store && s'.stamps == s.stamps
    ensures AllCurrent(s', key) == AllCurrent(s, key)
  {
    assert forall t :: Current(s', key, t) == Current(s, key, t);
  }

  lemma SyncReadRun(id: Identity, hash: Hash, a: string) returns (steps: seq<Step>)
    requires Complete(id)
    ensures NamedSteps(NamesOf(id), steps) && Run(hash, steps) == SyncRead(id, hash, a)
    ensures OpensOnly(steps, id)
  {
    steps := PushedRun(id, hash, a);
    steps := ConnectRun(NamesOf(id), hash, steps, id);
    CurrentOfPushed(id, hash, a);
    SameStoreSameCurrent(Run(hash, steps), Pushed(id, hash, a), AgentKey(id));
    steps := Extend(NamesOf(id), hash, steps, ReadSnapshots(0), SyncRead(id, hash, a));
  }

  /** The config is current, it is all that was ever queued for id's connection, and nothing is in flight. */
  ghost predicate Delivered(s: State, id: Identity, item: Item) {
    && s.registry.entries == map[InstanceKey(id) := 0] && s.streams == map[0 := Stream(id, Receiving)]
    && s.channels == map[0 := TrySend(NewChannel(), Config(item))] && s.pushes == map[]
    && Current(s, AgentKey(id), 1) == Some(item)
  }

  lemma SyncReadCurrent(id: Identity, hash: Hash, a: string)
    ensures Current(SyncRead(id, hash, a), AgentKey(id), 1) == Some(First(id, hash, a))
  {
    PushIsStored(id, hash, INIT, 0, a);
  }

  /** The full sync of a config that was pushed before the instance connected. */
  lemma DeliveredRun(id: Identity, hash: Hash, a: string) returns (steps: seq<Step>)
    requires Complete(id)
    ensures NamedSteps(NamesOf(id), steps) && Delivered(Run(hash, steps), id, First(id, hash, a))
  {
    var s := SyncRead(id, hash, a);
    var first := First(id, hash, a);
    var sending := WithStream(s, id, SyncSending(0, {first}));
    var sent := WithStream(s, id, Receiving).(channels := map[0 := TrySend(NewChannel(), Config(first))]);
    steps := SyncReadRun(id, hash, a);
    SyncReadCurrent(id, hash, a);
    SyncFindsTarget(id, hash, s, {first});
    steps := Extend(NamesOf(id), hash, steps, LookUpTarget(0), sending);
    SyncSendsLast(id, hash, sending, first);
    steps := Extend(NamesOf(id), hash, steps, SyncOne(0, first), sent);
  }

  /** s after the push of b has been stored and sent to id's connection. */
  function Overtaken(id: Identity, hash: Hash, a: string, b: string): (r: State) {
    SyncRead(id, hash, a).(store := Update(Pushed(id, hash, a).store, hash, AgentKey(id), 1, b),
                       stamps := map[(AgentKey(id), 1) := Stamp(1, PairOf(id))], clock := 2,
                       channels := map[0 := TrySend(NewChannel(), Config(Second(id, hash, b)))])
  }

  lemma PushFindsTarget(id: Identity, hash: Hash, s: State, p: nat, item: Item)
    requires s.pushes == map[p := Listing(id.namespace, id.agent, item)] && Hosting(s, id.namespace, id.agent) == {0}
    ensures Apply(hash, s, ListTargets(p)) == s.(pushes := map[p := Sending(item, {0})])
  {
    assert s.pushes[p := Sending(item, {0})] == map[p := Sending(item, {0})];
  }

  lemma PushSends(id: Identity, hash: Hash, s: State, p: nat, item: Item)
    requires s.pushes == map[p := Sending(item, {0})] && s.channels == map[0 := NewChannel()]
    ensures Apply(hash, s, PushOne(p, 0))
            == s.(pushes := map[], channels := map[0 := TrySend(NewChannel(), Config(item))])
  {
    assert {0} - {0} == {} && s.pushes - {p} == map[];
    assert s.channels[0 := TrySend(NewChannel(), Config(item))] == map[0 := TrySend(NewChannel(), Config(item))];
  }

  lemma SendToOnlyTarget(id: Identity, hash: Hash, before: seq<Step>, p: nat, item: Item) returns (steps: seq<Step>)
    requires Complete(id)
    requires NamedSteps(NamesOf(id), before)
    requires var s := Run(hash, before);
             && s.pushes == map[p := Listing(id.namespace, id.agent, item)] && s.channels == map[0 := NewChannel()]
             && Hosting(s, id.namespace, id.agent) == {0}
    ensures NamedSteps(NamesOf(id), steps)
    ensures Run(hash, steps)
            == Run(hash, before).(pushes := map[], channels := map[0 := TrySend(NewChannel(), Config(item))])
  {
    var s := Run(hash, before);
    PushFindsTarget(id, hash, s, p, item);
    PushSends(id, hash, s.(pushes := map[p := Sending(item, {0})]), p, item);
    steps := Extend(NamesOf(id), hash, before, ListTargets(p), s.(pushes := map[p := Sending(item, {0})]));
    steps := Extend(NamesOf(id), hash, steps, PushOne(p, 0),
                    s.(pushes := map[], channels := map[0 := TrySend(NewChannel(), Config(item))]));
  }

  lemma SecondIsStored(id: Identity, hash: Hash, a: string, b: string)
    requires hash(a) != hash(b)
    ensures var s0 := SyncRead(id, hash, a);
            var s1 := Stored(id, hash, s0, 1, b);
            && Apply(hash, s0, BeginPush(1, id.namespace, id.agent, 1, Some(b))) == s1
            && NewItem(id, hash, s0, b) == Second(id, hash, b)
            && Current(s1, AgentKey(id), 1) == Some(Second(id, hash, b))
  {
    PushIsStored(id, hash, INIT, 0, a);
    PushIsStored(id, hash, SyncRead(id, hash, a), 1, b);
  }

  lemma SecondFindsStream(id: Identity, s: State)
    requires s.registry.entries == map[InstanceKey(id) := 0]
    requires exists phase :: s.streams == map[0 := Stream(id, phase)]
    ensures Hosting(s, id.namespace, id.agent) == {0}
  {
    assert InstanceKey(id) in s.registry.entries;
  }

  lemma SecondPush(id: Identity, hash: Hash, a: string, b: string)
    requires hash(a) != hash(b)
    ensures var s0 := SyncRead(id, hash, a);
            var s1 := Stored(id, hash, s0, 1, b);
            && Apply(hash, s0, BeginPush(1, id.namespace, id.agent, 1, Some(b))) == s1
            && Hosting(s1, id.namespace, id.agent) == {0} && s1.channels == map[0 := NewChannel()]
            && s1.(pushes := map[], channels := map[0 := TrySend(NewChannel(), Config(NewItem(id, hash, s0, b)))])
               == Overtaken(id, hash, a, b)
            && Current(Overtaken(id, hash, a, b), AgentKey(id), 1) == Some(Second(id, hash, b))
  {
    SecondIsStored(id, hash, a, b);
    SecondFindsStream(id, Stored(id, hash, SyncRead(id, hash, a), 1, b));
  }

  lemma OvertakenRun(id: Identity, hash: Hash, a: string, b: string) returns (steps: seq<Step>)
    requires Complete(id)
    requires hash(a) != hash(b)
    ensures NamedSteps(NamesOf(id), steps) && Run(hash, steps) == Overtaken(id, hash, a, b)
    ensures Current(Run(hash, steps), AgentKey(id), 1) == Some(Second(id, hash, b))
  {
    steps := SyncReadRun(id, hash, a);
    var s0 := SyncRead(id, hash, a);
    SecondPush(id, hash, a, b);
    var push := BeginPush(1, id.namespace, id.agent, 1, Some(b));
    steps := Extend(NamesOf(id), hash, steps, push, Stored(id, hash, s0, 1, b));
    steps := SendToOnlyTarget(id, hash, steps, 1, NewItem(id, hash, s0, b));
  }

  /** The full sync's remaining steps, from the overtaken state. */
  function Synced(id: Identity, hash: Hash, a: string, b: string): (r: State) {
    var s := Overtaken(id, hash, a, b);
    WithStream(s, id, Receiving).(channels := map[0 := TrySend(s.channels[0], Config(First(id, hash, a)))])
  }

  lemma SyncFindsTarget(id: Identity, hash: Hash, s: State, pending: set<Item>)
    requires s.streams == map[0 := Stream(id, SyncLooking(pending))]
    requires s.registry.entries == map[InstanceKey(id) := 0]
    ensures Apply(hash, s, LookUpTarget(0)) == WithStream(s, id, SyncSending(0, pending))
  {
  }

  lemma SyncSendsLast(id: Identity, hash: Hash, s: State, item: Item)
    requires s.streams == map[0 := Stream(id, SyncSending(0, {item}))] && s.channels.Keys == {0}
    ensures Apply(hash, s, SyncOne(0, item))
            == WithStream(s, id, Receiving).(channels := map[0 := TrySend(s.channels[0], Config(item))])
  {
  }

  lemma SyncedRun(id: Identity, hash: Hash, a: string, b: string) returns (steps: seq<Step>)
    requires Complete(id) && hash(a) != hash(b)
    ensures NamedSteps(NamesOf(id), steps) && Run(hash, steps) == Synced(id, hash, a, b)
    ensures Current(Run(hash, steps), AgentKey(id), 1) == Some(Second(id, hash, b))
  {
    var s := Overtaken(id, hash, a, b);
    var sending := WithStream(s, id, SyncSending(0, {First(id, hash, a)}));
    steps := OvertakenRun(id, hash, a, b);
    SyncFindsTarget(id, hash, s, {First(id, hash, a)});
    steps := Extend(NamesOf(id), hash, steps, LookUpTarget(0), sending);
    SyncSendsLast(id, hash, sending, First(id, hash, a));
    steps := Extend(NamesOf(id), hash, steps, SyncOne(0, First(id, hash, a)), Synced(id, hash, a, b));
  }

  /** A push overtaking a full sync leaves the older config last in the queue, with nothing left in flight. */
  lemma LastEnqueuedCanBeStale(id: Identity, hash: Hash, a: string, b: string) returns (steps: seq<Step>)
    requires Complete(id) && hash(a) != hash(b)
    ensures NamedSteps(NamesOf(id), steps) && Quiescent(Run(hash, steps))
    ensures var s := Run(hash, steps);
            && InstanceKey(id) in s.registry.entries && s.registry.entries[InstanceKey(id)] == 0
            && 0 in s.channels && !s.channels[0].cancelled
            && s.channels[0].enqueued == [Config(Second(id, hash, b)), Config(First(id, hash, a))]
            && Current(s, AgentKey(id), 1) == Some(Second(id, hash, b))
  {
    steps := SyncedRun(id, hash, a, b);
    assert InstanceKey(id) in Synced(id, hash, a, b).registry.entries;
  }

  // ----- A connection torn down by its full buffer -----

  function Copies(n: nat): (r: seq<Message>)
    ensures |r| == n
  {
    seq(n, _ => Other(""))
  }

  /** id's stream is receiving, and n heartbeat responses wait in its queue. */
  function Flooded(id: Identity, n: nat): (r: State) {
    WithStream(Connected(INIT, id), id, Receiving).(
      channels := map[0 := Channel(Copies(n), 0, Copies(n), false, false)])
  }

  lemma OneMoreHeartbeat(id: Identity, hash: Hash, n: nat)
    requires n < 64
    ensures Apply(hash, Flooded(id, n), ReceiveHeartbeat(0, "")) == Flooded(id, n + 1)
  {
    assert Copies(n) + [Other("")] == Copies(n + 1);
    var ch := Channel(Copies(n), 0, Copies(n), false, false);
    assert TrySend(ch, Other("")) == Channel(Copies(n + 1), 0, Copies(n + 1), false, false);
    assert map[0 := ch][0 := TrySend(ch, Other(""))] == map[0 := TrySend(ch, Other(""))];
  }

  lemma ReceivingRun(id: Identity, hash: Hash) returns (steps: seq<Step>)
    requires Complete(id)
    ensures NamedSteps(NamesOf(id), steps) && ClientSteps(steps) && Run(hash, steps) == Flooded(id, 0)
  {
    steps := ConnectRun(NamesOf(id), hash, [], id);
    assert AllCurrent(Run(hash, steps), AgentKey(id)) == {};
    Moves(Connected(INIT, id), id, SyncReading, Receiving);
    assert Copies(0) == [];
    steps := Extend(NamesOf(id), hash, steps, ReadSnapshots(0), Flooded(id, 0));
  }

  lemma {:induction false} FloodedRun(id: Identity, hash: Hash, n: nat) returns (steps: seq<Step>)
    requires Complete(id)
    requires n <= 64
    ensures NamedSteps(NamesOf(id), steps) && ClientSteps(steps) && Run(hash, steps) == Flooded(id, n)
  {
    if n == 0 {
      steps := ReceivingRun(id, hash);
    } else {
      steps := FloodedRun(id, hash, n - 1);
      OneMoreHeartbeat(id, hash, n - 1);
      steps := Extend(NamesOf(id), hash, steps, ReceiveHeartbeat(0, ""), Flooded(id, n));
    }
  }

  /**
   A full buffer tears the connection down, as Send promises, but only by cancelling it:
   the entry stays until one of the steps of RegistrationEndsIff.
   */
  lemma CancelledCanStayRegistered(id: Identity, hash: Hash) returns (steps: seq<Step>)
    requires Complete(id)
    ensures NamedSteps(NamesOf(id), steps) && ClientSteps(steps)
    ensures Registered(Run(hash, steps), 0) && Cancelled(Run(hash, steps), 0)
  {
    steps := FloodedRun(id, hash, 64);
    assert InstanceKey(id) in Flooded(id, 64).registry.entries;
    var refused := SendTo(Flooded(id, 64), 0, Other(""));
    steps := Extend(NamesOf(id), hash, steps, ReceiveHeartbeat(0, ""), refused);
    steps := Extend(NamesOf(id), hash, steps, CloseRefused(0), CancelConn(refused, 0));
  }

  /** Between a refused send and the closing it causes, the connection has lost a message and is still open. */
  lemma RefusedBeforeClosed(id: Identity, hash: Hash) returns (steps: seq<Step>)
    requires Complete(id)
    ensures NamedSteps(NamesOf(id), steps) && ClientSteps(steps)
    ensures var s := Run(hash, steps);
            && Registered(s, 0) && 0 in s.channels && !s.channels[0].cancelled && s.channels[0].refused
            && |s.channels[0].enqueued| == 64 && |s.channels[0].offered| == 65
  {
    steps := FloodedRun(id, hash, 64);
    assert InstanceKey(id) in Flooded(id, 64).registry.entries;
    steps := Extend(NamesOf(id), hash, steps, ReceiveHeartbeat(0, ""), SendTo(Flooded(id, 64), 0, Other("")));
  }

  function Two(id: Identity, p: Phase, q: Phase): (r: map<nat, Stream>) {
    map[0 := Stream(id, p), 1 := Stream(id, q)]
  }

  /** Both streams of id are in a handshake, and nothing else has happened. */
  function Racing(id: Identity, p: Phase, q: Phase): (s: State) {
    INIT.(streams := Two(id, p, q))
  }

  lemma MoveFirst(id: Identity, p: Phase, q: Phase, p': Phase)
    ensures Goto(Racing(id, p, q), 0, p') == Racing(id, p', q)
  {
    assert Two(id, p, q)[0 := Stream(id, p')] == Two(id, p', q);
  }

  lemma MoveSecond(id: Identity, p: Phase, q: Phase, q': Phase)
    ensures Goto(Racing(id, p, q), 1, q') == Racing(id, p, q')
  {
    assert Two(id, p, q)[1 := Stream(id, q')] == Two(id, p, q');
  }

  lemma BothOpen(id: Identity, hash: Hash) returns (steps: seq<Step>)
    requires Complete(id)
    ensures NamedSteps(NamesOf(id), steps) && Run(hash, steps) == Racing(id, LookingUp, LookingUp)
  {
    steps := Extend(NamesOf(id), hash, [], Open(0, id, true), INIT.(streams := map[0 := Stream(id, LookingUp)]));
    assert map[0 := Stream(id, LookingUp)][1 := Stream(id, LookingUp)] == Two(id, LookingUp, LookingUp);
    steps := Extend(NamesOf(id), hash, steps, Open(1, id, true), Racing(id, LookingUp, LookingUp));
  }

  lemma BothFindNothing(id: Identity, hash: Hash) returns (steps: seq<Step>)
    requires Complete(id)
    ensures NamedSteps(NamesOf(id), steps) && Run(hash, steps) == Racing(id, Acking, Acking)
  {
    steps := BothOpen(id, hash);
    MoveFirst(id, LookingUp, LookingUp, Acking);
    steps := Extend(NamesOf(id), hash, steps, LookUpExisting(0), Racing(id, Acking, LookingUp));
    MoveSecond(id, Acking, LookingUp, Acking);
    steps := Extend(NamesOf(id), hash, steps, LookUpExisting(1), Racing(id, Acking, Acking));
  }

  lemma TwoHandshakes(id: Identity, hash: Hash) returns (steps: seq<Step>)
    requires Complete(id)
    ensures NamedSteps(NamesOf(id), steps) && Run(hash, steps) == Racing(id, Registering, Registering)
  {
    steps := BothFindNothing(id, hash);
    MoveFirst(id, Acking, Acking, Registering);
    steps := Extend(NamesOf(id), hash, steps, SendAck(0, true), Racing(id, Registering, Acking));
    MoveSecond(id, Registering, Acking, Registering);
    steps := Extend(NamesOf(id), hash, steps, SendAck(1, true), Racing(id, Registering, Registering));
  }

  /** Connection 1 is registered, connection 0 is open but in no entry, and the gauge counts both. */
  predicate LeakedOne(id: Identity, s: State) {
    && s.overwritten == 1 && 0 in s.channels && !s.channels[0].cancelled
    && s.registry.entries == map[InstanceKey(id) := 1] && s.registry.gauge == 2
  }

  function OneRegistered(id: Identity): (s: State) {
    INIT.(streams := Two(id, SyncReading, Registering), registry := Registry(map[InstanceKey(id) := 0], 1),
          channels := map[0 := NewChannel()])
  }

  function TwoRegistered(id: Identity): (s: State) {
    INIT.(streams := Two(id, SyncReading, SyncReading), registry := Registry(map[InstanceKey(id) := 1], 2),
          channels := map[0 := NewChannel(), 1 := NewChannel()], overwritten := 1, orphans := {0})
  }

  lemma FirstRegisters(id: Identity, hash: Hash)
    ensures Apply(hash, Racing(id, Registering, Registering), RegisterStream(0)) == OneRegistered(id)
  {
    assert Two(id, Registering, Registering)[0 := Stream(id, SyncReading)] == Two(id, SyncReading, Registering);
  }

  lemma SecondOverwrites(id: Identity, hash: Hash)
    ensures Apply(hash, OneRegistered(id), RegisterStream(1)) == TwoRegistered(id)
  {
    assert Two(id, SyncReading, Registering)[1 := Stream(id, SyncReading)] == Two(id, SyncReading, SyncReading);
  }

  /** Two handshakes racing past the eviction check: one overwrites an entry that nobody closed or counted off. */
  lemma OverwrittenConnectionStaysOpen(id: Identity, hash: Hash) returns (steps: seq<Step>)
    requires Complete(id)
    ensures NamedSteps(NamesOf(id), steps) && LeakedOne(id, Run(hash, steps))
  {
    steps := TwoHandshakes(id, hash);
    FirstRegisters(id, hash);
    SecondOverwrites(id, hash);
    steps := Extend(NamesOf(id), hash, steps, RegisterStream(0), OneRegistered(id));
    steps := Extend(NamesOf(id), hash, steps, RegisterStream(1), TwoRegistered(id));
  }

  // ----- Agent keys that collide -----

  lemma NobodyHosts(s: State, id: Identity, ns: string, agent: string)
    requires s.registry.entries == map[InstanceKey(id) := 0] && s.streams == map[0 := Stream(id, Receiving)]
    requires (id.namespace, id.agent) != (ns, agent)
    ensures Hosting(s, ns, agent) == {}
  {
  }

  /** A connected stream of id, receiving, and a push to another pair under id's agent key. */
  function Collided(hash: Hash, id: Identity, ns: string, agent: string, data: string): (r: State) {
    Apply(hash, WithStream(Connected(INIT, id), id, Receiving), BeginPush(0, ns, agent, 1, Some(data)))
  }

  lemma CollidedFacts(hash: Hash, id: Identity, ns: string, agent: string, data: string) returns (item: Item)
    requires AgentKey(id) == SlashKey(ns, agent)
    ensures var s := Collided(hash, id, ns, agent, data);
            && s.registry.entries == map[InstanceKey(id) := 0] && s.streams == map[0 := Stream(id, Receiving)]
            && s.channels == map[0 := NewChannel()] && s.pushes == map[0 := Listing(ns, agent, item)]
            && Current(s, AgentKey(id), 1) == Some(item)
  {
    UpdateAt(EMPTY, hash, AgentKey(id), 1, data, AgentKey(id), 1);
    item := Current(Collided(hash, id, ns, agent, data), AgentKey(id), 1).value;
  }

  lemma NotUpToDate(s: State, id: Identity, item: Item)
    requires s.registry.entries == map[InstanceKey(id) := 0] && s.streams == map[0 := Stream(id, Receiving)]
    requires s.channels == map[0 := NewChannel()] && Current(s, AgentKey(id), 1) == Some(item)
    ensures !UpToDate(s, InstanceKey(id), 1)
  {
    assert InstanceKey(id) in s.registry.entries;
  }

  lemma CollidingPush(hash: Hash, id: Identity, ns: string, agent: string, data: string)
    requires AgentKey(id) == SlashKey(ns, agent) && (id.namespace, id.agent) != (ns, agent)
    ensures var s := Collided(hash, id, ns, agent, data);
            && Apply(hash, s, ListTargets(0)) == s.(pushes := map[])
            && Quiescent(s.(pushes := map[])) && !UpToDate(s.(pushes := map[]), InstanceKey(id), 1)
  {
    var s := Collided(hash, id, ns, agent, data);
    var item := CollidedFacts(hash, id, ns, agent, data);
    NobodyHosts(s, id, ns, agent);
    assert s.pushes - {0} == map[];
    NotUpToDate(s.(pushes := map[]), id, item);
  }

  /**
   A stream and a push whose different (namespace, agent) pairs share one agent key: the
   push replaces the stream's current config, and is never sent to it.
   */
  lemma CollisionLosesUpdate(names: Names, hash: Hash, id: Identity, ns: string, agent: string, data: string)
    returns (steps: seq<Step>)
    requires (id.namespace, id.agent) in names.claimed && (ns, agent) in names.pushed
    requires id.agent != "" && id.instance != "" && id.namespace != ""
    requires AgentKey(id) == SlashKey(ns, agent) && (id.namespace, id.agent) != (ns, agent)
    ensures NamedSteps(names, steps) && Quiescent(Run(hash, steps))
    ensures !UpToDate(Run(hash, steps), InstanceKey(id), 1)
  {
    steps := ConnectRun(names, hash, [], id);
    var s0 := WithStream(Connected(INIT, id), id, Receiving);
    assert AllCurrent(Run(hash, steps), AgentKey(id)) == {};
    steps := Extend(names, hash, steps, ReadSnapshots(0), s0);
    CollidingPush(hash, id, ns, agent, data);
    var s1 := Collided(hash, id, ns, agent, data);
    steps := Extend(names, hash, steps, BeginPush(0, ns, agent, 1, Some(data)), s1);
    steps := Extend(names, hash, steps, ListTargets(0), s1.(pushes := map[]));
  }

  /**
   For streams claiming and pushes naming pairs from two sets, every quiescent run leaves
   every registered connection up to date if and only if no pair a stream can connect with
   shares its key with another pair that is pushed to.
   */
  lemma NothingLostIff(hash: Hash, names: Names)
    ensures CollisionFree(names) <==>
              forall steps, key, t ::
                NamedSteps(names, steps) && Quiescent(Run(hash, steps)) ==> UpToDate(Run(hash, steps), key, t)
  {
    if CollisionFree(names) {
      forall steps, key, t: nat | NamedSteps(names, steps) && Quiescent(Run(hash, steps))
        ensures UpToDate(Run(hash, steps), key, t)
      {
        QuiescentMeansEnqueued(names, hash, steps, key, t);
      }
    } else {
      var p, q :| p in names.claimed && q in names.pushed && Collide(p, q) && p.0 != "" && p.1 != "";
      var id := Identity(p.0, p.1, "pod");
      var steps := CollisionLosesUpdate(names, hash, id, q.0, q.1, "");
      assert !UpToDate(Run(hash, steps), InstanceKey(id), 1);
    }
  }

  /** A claim and a push that collide. */
  lemma SlashesCollide()
    ensures !CollisionFree(Names(iset{("a/b", "c")}, iset{("a", "b/c")}))
  {
    SlashKeysCollide();
    assert Collide(("a/b", "c"), ("a", "b/c"));
  }
}
