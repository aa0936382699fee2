/**
 Whose configs reach a connection. A full sync looks its target up by namespace and
 instance alone, so a stream of another agent that takes the instance over receives them
 (internal/asdp/distributor.go, server.go).
 */
module DistributionOwners {
  import opened Text
  import opened Snapshots
  import opened Connections
  import opened Distribution
  import opened DistributionOrder
  import opened DistributionLimits

  /** The identities that streams claim, and the pairs that pushes name. */
  datatype Actors = Actors(claimed: iset<Identity>, pushed: Pairs)

  ghost predicate Acts(actors: Actors, step: Step) {
    match step
    case Open(_, id, _) => id in actors.claimed
    case BeginPush(_, ns, agent, _, _) => (ns, agent) in actors.pushed
    case _ => true
  }

  ghost predicate ActedSteps(actors: Actors, steps: seq<Step>) {
    forall i :: 0 <= i < |steps| ==> Acts(actors, steps[i])
  }

  /** A full sync for p reads configs pushed to r, and can find a stream of q, which is not r's. */
  predicate Misdirects(p: Identity, q: Identity, r: (string, string)) {
    InstanceKey(p) == InstanceKey(q) && SlashKey(r.0, r.1) == AgentKey(p) && PairOf(q) != r
  }

  ghost predicate NoneMisdirected(actors: Actors) {
    forall p, q, r :: p in actors.claimed && q in actors.claimed && r in actors.pushed && Misdirects(p, q, r) ==>
      !Complete(p) || !Complete(q)
  }

  // ----- The invariant -----

  ghost predicate StreamClaimed(actors: Actors, s: State, i: nat) {
    i in s.streams && !s.streams[i].phase.Ended? ==>
      s.streams[i].id in actors.claimed && Complete(s.streams[i].id)
  }

  ghost predicate AllClaimed(actors: Actors, s: State) {
    forall i :: StreamClaimed(actors, s, i)
  }

  /** The snapshot stored in a slot was pushed to a pair with the slot's key. */
  ghost predicate SlotPushed(actors: Actors, s: State, key: string, t: nat) {
    Lookup(s.store, key, t).Some? ==> PushedAs(actors, StampOf(s, key, t).pair, key)
  }

  ghost predicate PushedAs(actors: Actors, pair: (string, string), key: string) {
    pair in actors.pushed && SlashKey(pair.0, pair.1) == key
  }

  ghost predicate ItemsPushedAs(actors: Actors, items: set<Item>, key: string) {
    forall item :: item in items ==> item.key == key && PushedAs(actors, item.stamp.pair, key)
  }

  /** c is a stream of the agent that the config was pushed to, and the config is filed under its key. */
  predicate BelongsTo(s: State, c: nat, item: Item) {
    c in s.streams && PairOf(s.streams[c].id) == item.stamp.pair && AgentKey(s.streams[c].id) == item.key
  }

  ghost predicate ItemsFor(s: State, items: set<Item>, c: nat) {
    forall item :: item in items ==> BelongsTo(s, c, item)
  }

  /** What a full sync carries was pushed under its agent's key, and goes to a stream of the pushed agent. */
  ghost predicate SyncPhaseOwn(actors: Actors, s: State, phase: Phase, key: string) {
    match phase
    case SyncLooking(pending) => ItemsPushedAs(actors, pending, key)
    case SyncSending(target, pending) => ItemsFor(s, pending, target)
    case _ => true
  }

  ghost predicate SyncOwn(actors: Actors, s: State, i: nat) {
    i in s.streams ==> SyncPhaseOwn(actors, s, s.streams[i].phase, AgentKey(s.streams[i].id))
  }

  ghost predicate TargetsOwn(s: State, targets: set<nat>, item: Item) {
    forall c :: c in targets ==> BelongsTo(s, c, item)
  }

  /** A push carries a config of the pushed agent, to streams of that agent. */
  ghost predicate PushOwn(s: State, p: nat) {
    p in s.pushes ==>
      match s.pushes[p]
      case Listing(ns, agent, item) => item.stamp.pair == (ns, agent) && item.key == SlashKey(ns, agent)
      case Sending(item, targets) => TargetsOwn(s, targets, item)
  }

  /** Every config in c's queue was pushed to c's own agent. */
  ghost predicate QueueOwn(s: State, c: nat) {
    forall item :: Enqueued(s, c, item) ==> BelongsTo(s, c, item)
  }

  ghost predicate Own(actors: Actors, s: State) {
    && (forall key, t :: SlotPushed(actors, s, key, t))
    && (forall i :: SyncOwn(actors, s, i))
    && (forall p :: PushOwn(s, p))
    && (forall c :: QueueOwn(s, c))
  }

  // ----- Identities never change -----

  predicate IdKept(s: State, s': State, i: nat) {
    i in s.streams ==> i in s'.streams && s'.streams[i].id == s.streams[i].id
  }

  ghost predicate IdsKept(s: State, s': State) {
    forall i :: IdKept(s, s', i)
  }

  lemma HandshakeKeepsId(s: State, step: Step, i: nat)
    ensures IdKept(s, ApplyHandshake(s, step), i)
  {
  }

  lemma SyncKeepsId(s: State, step: Step, i: nat)
    ensures IdKept(s, ApplySync(s, step), i)
  {
  }

  lemma StreamKeepsId(s: State, step: Step, i: nat)
    ensures IdKept(s, ApplyStream(s, step), i)
  {
    match step
    case Disconnect(j) =>
      if j in s.streams { UnregisterKeepsStreams(s, InstanceKey(s.streams[j].id), j); }
    case _ =>
  }

  lemma StepKeepsIds(hash: Hash, s: State, step: Step)
    ensures IdsKept(s, Apply(hash, s, step))
  {
    forall i: nat ensures IdKept(s, Apply(hash, s, step), i) {
      HandshakeKeepsId(s, step, i);
      SyncKeepsId(s, step, i);
      StreamKeepsId(s, step, i);
      assert ApplyPush(hash, s, step).streams == s.streams;
    }
  }

  lemma BelongsKept(s: State, s': State, c: nat, item: Item)
    requires IdsKept(s, s') && BelongsTo(s, c, item)
    ensures BelongsTo(s', c, item)
  {
    assert IdKept(s, s', c);
  }

  lemma SyncPhaseKept(actors: Actors, s: State, s': State, phase: Phase, key: string)
    requires IdsKept(s, s') && SyncPhaseOwn(actors, s, phase, key)
    ensures SyncPhaseOwn(actors, s', phase, key)
  {
    if phase.SyncSending? {
      forall item | item in phase.pending ensures BelongsTo(s', phase.target, item) {
        BelongsKept(s, s', phase.target, item);
      }
    }
  }

  // ----- Syncs -----

  /** i's sync stands where it stood, or nowhere. */
  predicate SyncKept(s: State, s': State, i: nat) {
    i in s'.streams && (s'.streams[i].phase.SyncLooking? || s'.streams[i].phase.SyncSending?) ==>
      i in s.streams && s'.streams[i] == s.streams[i]
  }

  lemma KeptSyncIsOwn(actors: Actors, s: State, s': State, i: nat)
    requires IdsKept(s, s') && SyncOwn(actors, s, i) && SyncKept(s, s', i)
    ensures SyncOwn(actors, s', i)
  {
    if i in s'.streams && i in s.streams && s'.streams[i] == s.streams[i] {
      SyncPhaseKept(actors, s, s', s.streams[i].phase, AgentKey(s.streams[i].id));
    }
  }

  lemma HandshakeKeepsSync(s: State, step: Step, i: nat)
    ensures SyncKept(s, ApplyHandshake(s, step), i)
  {
  }

  lemma GotoKeepsSync(s: State, j: nat, phase: Phase, i: nat)
    requires j in s.streams && !phase.SyncLooking? && !phase.SyncSending?
    ensures SyncKept(s, Goto(s, j, phase), i)
  {
  }

  lemma DisconnectKeepsSync(s: State, j: nat, i: nat)
    ensures SyncKept(s, ApplyStream(s, Disconnect(j)), i)
  {
    if At(s, j, Disconnecting) {
      var s1 := UnregisterConn(s, InstanceKey(s.streams[j].id), j);
      UnregisterKeepsStreams(s, InstanceKey(s.streams[j].id), j);
      GotoKeepsSync(s1, j, Cancelling, i);
    }
  }

  lemma CancelOwnKeepsSync(s: State, j: nat, i: nat)
    ensures SyncKept(s, ApplyStream(s, CancelOwn(j)), i)
  {
    if At(s, j, Cancelling) { GotoKeepsSync(CancelConn(s, j), j, Ended, i); }
  }

  lemma ReceiveErrorKeepsSync(s: State, j: nat, i: nat)
    ensures SyncKept(s, ApplyStream(s, ReceiveError(j)), i)
  {
    if At(s, j, Receiving) { GotoKeepsSync(s, j, Disconnecting, i); }
  }

  lemma StreamKeepsSync(s: State, step: Step, i: nat)
    ensures SyncKept(s, ApplyStream(s, step), i)
  {
    match step
    case Disconnect(j) => DisconnectKeepsSync(s, j, i);
    case CancelOwn(j) => CancelOwnKeepsSync(s, j, i);
    case ReceiveError(j) => ReceiveErrorKeepsSync(s, j, i);
    case _ => assert ApplyStream(s, step).streams == s.streams;
  }

  lemma GotoOwn(actors: Actors, s: State, j: nat, phase: Phase, i: nat)
    requires SyncOwn(actors, s, i) && j in s.streams
    requires SyncPhaseOwn(actors, s, phase, AgentKey(s.streams[j].id))
    ensures SyncOwn(actors, Goto(s, j, phase), i)
  {
    var s' := Goto(s, j, phase);
    forall c: nat ensures IdKept(s, s', c) {}
    SyncPhaseKept(actors, s, s', phase, AgentKey(s.streams[j].id));
    if i in s.streams { SyncPhaseKept(actors, s, s', s.streams[i].phase, AgentKey(s.streams[i].id)); }
  }

  lemma AllCurrentPushed(actors: Actors, s: State, key: string)
    requires forall t :: SlotPushed(actors, s, key, t)
    ensures ItemsPushedAs(actors, AllCurrent(s, key), key)
  {
    forall item | item in AllCurrent(s, key) ensures item.key == key && PushedAs(actors, item.stamp.pair, key) {
      var t :| Current(s, key, t) == Some(item);
      assert SlotPushed(actors, s, key, t);
    }
  }

  /** What i's sync has read is for the stream its lookup finds. */
  lemma TargetIsOwn(actors: Actors, s: State, i: nat, pending: set<Item>)
    requires NoneMisdirected(actors) && AllClaimed(actors, s) && Filed(s)
    requires i in s.streams && !s.streams[i].phase.Ended? && InstanceKey(s.streams[i].id) in s.registry.entries
    requires ItemsPushedAs(actors, pending, AgentKey(s.streams[i].id))
    ensures ItemsFor(s, pending, s.registry.entries[InstanceKey(s.streams[i].id)])
  {
    var key := InstanceKey(s.streams[i].id);
    assert EntryMatches(s, key);
    var c := s.registry.entries[key];
    assert StreamClaimed(actors, s, i) && StreamClaimed(actors, s, c);
    forall item | item in pending ensures BelongsTo(s, c, item) {
      assert PushedAs(actors, item.stamp.pair, AgentKey(s.streams[i].id));
      assert !Misdirects(s.streams[i].id, s.streams[c].id, item.stamp.pair);
    }
  }

  lemma ReadOwn(actors: Actors, s: State, j: nat, i: nat)
    requires Own(actors, s)
    ensures SyncOwn(actors, ApplySync(s, ReadSnapshots(j)), i)
  {
    assert SyncOwn(actors, s, i);
    if At(s, j, SyncReading) {
      forall t: nat ensures SlotPushed(actors, s, AgentKey(s.streams[j].id), t) {}
      AllCurrentPushed(actors, s, AgentKey(s.streams[j].id));
      GotoOwn(actors, s, j, ApplySync(s, ReadSnapshots(j)).streams[j].phase, i);
    }
  }

  lemma LookUpOwn(actors: Actors, s: State, j: nat, i: nat)
    requires NoneMisdirected(actors) && AllClaimed(actors, s) && Filed(s) && Own(actors, s)
    ensures SyncOwn(actors, ApplySync(s, LookUpTarget(j)), i)
  {
    assert SyncOwn(actors, s, i) && SyncOwn(actors, s, j);
    if j in s.streams && s.streams[j].phase.SyncLooking? {
      if InstanceKey(s.streams[j].id) in s.registry.entries { TargetIsOwn(actors, s, j, s.streams[j].phase.pending); }
      GotoOwn(actors, s, j, ApplySync(s, LookUpTarget(j)).streams[j].phase, i);
    }
  }

  lemma SyncOneOwn(actors: Actors, s: State, j: nat, item: Item, i: nat)
    requires SyncOwn(actors, s, i) && SyncOwn(actors, s, j)
    ensures SyncOwn(actors, ApplySync(s, SyncOne(j, item)), i)
  {
    if j in s.streams && s.streams[j].phase.SyncSending? && item in s.streams[j].phase.pending {
      var s1 := SendTo(s, s.streams[j].phase.target, Config(item));
      assert s1.streams == s.streams;
      forall c: nat ensures IdKept(s, s1, c) {}
      KeptSyncIsOwn(actors, s, s1, i);
      KeptSyncIsOwn(actors, s, s1, j);
      GotoOwn(actors, s1, j, ApplySync(s, SyncOne(j, item)).streams[j].phase, i);
    }
  }

  lemma OtherStepKeepsSyncOwn(actors: Actors, hash: Hash, s: State, step: Step, i: nat)
    requires SyncOwn(actors, s, i) && !SyncStep(step)
    ensures SyncOwn(actors, Apply(hash, s, step), i)
  {
    StepKeepsIds(hash, s, step);
    HandshakeKeepsSync(s, step, i);
    StreamKeepsSync(s, step, i);
    assert ApplyPush(hash, s, step).streams == s.streams;
    KeptSyncIsOwn(actors, s, Apply(hash, s, step), i);
  }

  lemma SyncStepKeepsSyncOwn(actors: Actors, s: State, step: Step, i: nat)
    requires NoneMisdirected(actors) && AllClaimed(actors, s) && Filed(s) && Own(actors, s) && SyncStep(step)
    ensures SyncOwn(actors, ApplySync(s, step), i)
  {
    match step
    case ReadSnapshots(j) => ReadOwn(actors, s, j, i);
    case LookUpTarget(j) => LookUpOwn(actors, s, j, i);
    case SyncOne(j, item) =>
      assert SyncOwn(actors, s, i) && SyncOwn(actors, s, j);
      SyncOneOwn(actors, s, j, item, i);
  }

  lemma StepKeepsSyncOwn(actors: Actors, hash: Hash, s: State, step: Step, i: nat)
    requires NoneMisdirected(actors) && AllClaimed(actors, s) && Filed(s) && Own(actors, s)
    ensures SyncOwn(actors, Apply(hash, s, step), i)
  {
    assert SyncOwn(actors, s, i);
    if SyncStep(step) {
      SyncStepKeepsSyncOwn(actors, s, step, i);
    } else {
      OtherStepKeepsSyncOwn(actors, hash, s, step, i);
    }
  }

  // ----- The store -----

  lemma StepKeepsSlotPushed(actors: Actors, hash: Hash, s: State, step: Step, key: string, t: nat)
    requires SlotPushed(actors, s, key, t) && Acts(actors, step)
    ensures SlotPushed(actors, Apply(hash, s, step), key, t)
  {
    if PushStep(step) {
      PushStepApplies(hash, s, step);
      PushStepKeepsSlotPushed(actors, hash, s, step, key, t);
    } else {
      StoreUntouched(hash, s, step);
    }
  }

  lemma PushStepKeepsSlotPushed(actors: Actors, hash: Hash, s: State, step: Step, key: string, t: nat)
    requires SlotPushed(actors, s, key, t) && Acts(actors, step)
    ensures SlotPushed(actors, ApplyPush(hash, s, step), key, t)
  {
    if step.BeginPush? { BeginPushKeepsSlotPushed(actors, hash, s, step, key, t); }
  }

  lemma BeginPushKeepsSlotPushed(actors: Actors, hash: Hash, s: State, step: Step, key: string, t: nat)
    requires SlotPushed(actors, s, key, t) && Acts(actors, step) && step.BeginPush?
    ensures SlotPushed(actors, ApplyPush(hash, s, step), key, t)
  {
    if step.marshalled.Some? {
      UpdateAt(s.store, hash, SlashKey(step.namespace, step.agent), step.cfgType, step.marshalled.value, key, t);
    }
  }

  // ----- Pushes -----

  lemma TargetsKept(s: State, s': State, targets: set<nat>, item: Item)
    requires IdsKept(s, s') && TargetsOwn(s, targets, item)
    ensures TargetsOwn(s', targets, item)
  {
    forall c | c in targets ensures BelongsTo(s', c, item) { BelongsKept(s, s', c, item); }
  }

  lemma KeptPushIsOwn(s: State, s': State, p: nat)
    requires IdsKept(s, s') && PushOwn(s, p)
    requires p in s'.pushes ==> p in s.pushes && s'.pushes[p] == s.pushes[p]
    ensures PushOwn(s', p)
  {
    if p in s'.pushes && s.pushes[p].Sending? { TargetsKept(s, s', s.pushes[p].targets, s.pushes[p].item); }
  }

  lemma PushStepOwn(hash: Hash, s: State, step: Step, p: nat)
    requires PushOwn(s, p)
    requires PushStep(step)
    ensures PushOwn(ApplyPush(hash, s, step), p)
  {
    assert ApplyPush(hash, s, step).streams == s.streams;
  }

  lemma StepKeepsPushOwn(hash: Hash, s: State, step: Step, p: nat)
    requires PushOwn(s, p)
    ensures PushOwn(Apply(hash, s, step), p)
  {
    if PushStep(step) {
      PushStepOwn(hash, s, step, p);
    } else {
      StoreUntouched(hash, s, step);
      StepKeepsIds(hash, s, step);
      KeptPushIsOwn(s, Apply(hash, s, step), p);
    }
  }

  // ----- Queues -----

  lemma KeptQueueIsOwn(s: State, s': State, c: nat)
    requires IdsKept(s, s') && QueueOwn(s, c) && QueueKept(s, s', c)
    ensures QueueOwn(s', c)
  {
    forall item | Enqueued(s', c, item) ensures BelongsTo(s', c, item) {
      assert Enqueued(s, c, item);
      BelongsKept(s, s', c, item);
    }
  }

  lemma OfferKeepsQueueOwn(s: State, target: nat, m: Message, c: nat)
    requires QueueOwn(s, c) && (m.Config? ==> BelongsTo(s, target, m.item))
    ensures QueueOwn(SendTo(s, target, m), c)
  {
    var s' := SendTo(s, target, m);
    forall item | Enqueued(s', c, item) ensures BelongsTo(s', c, item) {
      assert Enqueued(s, c, item) || (c == target && m == Config(item));
    }
  }

  lemma SameQueuesOwn(s: State, s': State, c: nat)
    requires IdsKept(s, s') && QueueOwn(s, c) && s'.channels == s.channels
    ensures QueueOwn(s', c)
  {
    KeptQueueIsOwn(s, s', c);
  }

  lemma SyncOneKeepsQueueOwn(actors: Actors, hash: Hash, s: State, i: nat, item: Item, c: nat)
    requires QueueOwn(s, c) && SyncOwn(actors, s, i)
    ensures QueueOwn(Apply(hash, s, SyncOne(i, item)), c)
  {
    if i in s.streams && s.streams[i].phase.SyncSending? && item in s.streams[i].phase.pending {
      var s1 := SendTo(s, s.streams[i].phase.target, Config(item));
      OfferKeepsQueueOwn(s, s.streams[i].phase.target, Config(item), c);
      var s' := Apply(hash, s, SyncOne(i, item));
      forall j: nat ensures IdKept(s1, s', j) {}
      SameQueuesOwn(s1, s', c);
    }
  }

  lemma PushOneKeepsQueueOwn(hash: Hash, s: State, p: nat, target: nat, c: nat)
    requires QueueOwn(s, c) && PushOwn(s, p)
    ensures QueueOwn(Apply(hash, s, PushOne(p, target)), c)
  {
    if p in s.pushes && s.pushes[p].Sending? && target in s.pushes[p].targets {
      var s1 := SendTo(s, target, Config(s.pushes[p].item));
      OfferKeepsQueueOwn(s, target, Config(s.pushes[p].item), c);
      forall j: nat ensures IdKept(s1, Apply(hash, s, PushOne(p, target)), j) {}
      SameQueuesOwn(s1, Apply(hash, s, PushOne(p, target)), c);
    }
  }

  /** Apart from configs, steps only add other messages to queues, or start empty ones. */
  lemma OthersKeepQueueOwn(hash: Hash, s: State, step: Step, c: nat)
    requires QueueOwn(s, c) && !step.SyncOne? && !step.PushOne?
    ensures QueueOwn(Apply(hash, s, step), c)
  {
    StepKeepsIds(hash, s, step);
    match step
    case ReceiveHeartbeat(i, payload) => OfferKeepsQueueOwn(s, i, Other(payload), c);
    case SendOther(i, payload) => OfferKeepsQueueOwn(s, i, Other(payload), c);
    case _ =>
      HandshakeKeepsQueue(s, step, c);
      StreamKeepsQueue(s, step, c);
      OtherQueuesKept(hash, s, step, c);
      KeptQueueIsOwn(s, Apply(hash, s, step), c);
  }

  lemma OtherQueuesKept(hash: Hash, s: State, step: Step, c: nat)
    requires !step.SyncOne? && !step.PushOne?
    ensures QueueKept(s, ApplySync(s, step), c) && QueueKept(s, ApplyPush(hash, s, step), c)
    ensures QueueKept(s, ApplyStop(s), c)
  {
  }

  lemma StepKeepsQueueOwn(actors: Actors, hash: Hash, s: State, step: Step, c: nat)
    requires Own(actors, s)
    ensures QueueOwn(Apply(hash, s, step), c)
  {
    assert QueueOwn(s, c);
    match step
    case SyncOne(i, item) =>
      assert SyncOwn(actors, s, i);
      SyncOneKeepsQueueOwn(actors, hash, s, i, item, c);
    case PushOne(p, target) =>
      assert PushOwn(s, p);
      PushOneKeepsQueueOwn(hash, s, p, target, c);
    case _ => OthersKeepQueueOwn(hash, s, step, c);
  }

  // ----- Over whole runs -----

  lemma StepKeepsClaimed(actors: Actors, hash: Hash, s: State, step: Step, i: nat)
    requires StreamClaimed(actors, s, i) && Acts(actors, step)
    ensures StreamClaimed(actors, Apply(hash, s, step), i)
  {
    match step
    case Open(_, _, _) =>
    case _ => StepKeepsIdentity(hash, s, step, i);
  }

  lemma StepKeepsAllClaimed(actors: Actors, hash: Hash, s: State, step: Step)
    requires AllClaimed(actors, s) && Acts(actors, step)
    ensures AllClaimed(actors, Apply(hash, s, step))
  {
    forall i: nat ensures StreamClaimed(actors, Apply(hash, s, step), i) {
      assert StreamClaimed(actors, s, i);
      StepKeepsClaimed(actors, hash, s, step, i);
    }
  }

  lemma StepKeepsOwn(actors: Actors, hash: Hash, s: State, step: Step)
    requires NoneMisdirected(actors) && AllClaimed(actors, s) && Filed(s) && Own(actors, s)
    requires Acts(actors, step)
    ensures Own(actors, Apply(hash, s, step))
  {
    var s' := Apply(hash, s, step);
    forall key, t: nat ensures SlotPushed(actors, s', key, t) {
      assert SlotPushed(actors, s, key, t);
      StepKeepsSlotPushed(actors, hash, s, step, key, t);
    }
    forall i: nat ensures SyncOwn(actors, s', i) { StepKeepsSyncOwn(actors, hash, s, step, i); }
    forall p: nat ensures PushOwn(s', p) {
      assert PushOwn(s, p);
      StepKeepsPushOwn(hash, s, step, p);
    }
    forall c: nat ensures QueueOwn(s', c) { StepKeepsQueueOwn(actors, hash, s, step, c); }
  }

  lemma {:induction false} RunKeepsOwn(actors: Actors, hash: Hash, steps: seq<Step>)
    requires NoneMisdirected(actors) && ActedSteps(actors, steps)
    ensures AllClaimed(actors, Run(hash, steps)) && Own(actors, Run(hash, steps))
  {
    if steps != [] {
      var n := |steps| - 1;
      RunKeepsOwn(actors, hash, steps[..n]);
      RunKeepsFiled(hash, steps[..n]);
      StepKeepsAllClaimed(actors, hash, Run(hash, steps[..n]), steps[n]);
      StepKeepsOwn(actors, hash, Run(hash, steps[..n]), steps[n]);
    }
  }

  // ----- A misdirected config -----

  /** Stream 0 of p holds the configs it read, and stream 1 of q is in its handshake. */
  predicate Overtaking(s: State, p: Identity, pending: set<Item>, q: Identity, phase: Phase) {
    && 0 in s.streams && s.streams[0] == Stream(p, SyncLooking(pending))
    && 1 in s.streams && s.streams[1] == Stream(q, phase)
  }

  predicate Holds(s: State, id: Identity, c: nat) {
    InstanceKey(id) in s.registry.entries && s.registry.entries[InstanceKey(id)] == c
  }

  lemma SecondFinds(hash: Hash, s: State, p: Identity, pending: set<Item>, q: Identity)
    requires 0 in s.streams && s.streams[0] == Stream(p, SyncLooking(pending)) && 1 !in s.streams
    requires Complete(q) && Holds(s, q, 0)
    ensures Overtaking(Apply(hash, Apply(hash, s, Open(1, q, true)), LookUpExisting(1)), p, pending, q, Evicting(0))
    ensures Holds(Apply(hash, Apply(hash, s, Open(1, q, true)), LookUpExisting(1)), q, 0)
  {
    var s1 := Apply(hash, s, Open(1, q, true));
    assert Overtaking(s1, p, pending, q, LookingUp) && Holds(s1, q, 0);
  }

  lemma SecondEvicts(hash: Hash, s: State, p: Identity, pending: set<Item>, q: Identity)
    requires Overtaking(s, p, pending, q, Evicting(0))
    ensures Overtaking(Apply(hash, s, EvictExisting(1)), p, pending, q, Acking)
  {
    UnregisterKeepsStreams(s, InstanceKey(q), 0);
  }

  lemma SecondRegisters(hash: Hash, s: State, p: Identity, pending: set<Item>, q: Identity)
    requires Overtaking(s, p, pending, q, Acking)
    ensures var s2 := Apply(hash, Apply(hash, s, SendAck(1, true)), RegisterStream(1));
            && Overtaking(s2, p, pending, q, SyncReading) && Holds(s2, q, 1)
            && 1 in s2.channels && s2.channels[1] == NewChannel()
  {
    var s1 := Apply(hash, s, SendAck(1, true));
    assert Overtaking(s1, p, pending, q, Registering);
  }

  lemma SyncReachesSecond(hash: Hash, s: State, p: Identity, pending: set<Item>, item: Item, q: Identity)
    requires Overtaking(s, p, pending, q, SyncReading) && item in pending
    requires Holds(s, q, 1) && InstanceKey(p) == InstanceKey(q)
    requires 1 in s.channels && s.channels[1] == NewChannel()
    ensures var s2 := Apply(hash, Apply(hash, s, LookUpTarget(0)), SyncOne(0, item));
            Enqueued(s2, 1, item) && 1 in s2.streams && s2.streams[1].id == q
  {
    var s1 := Apply(hash, s, LookUpTarget(0));
    assert s1.streams[0] == Stream(p, SyncSending(1, pending)) && s1.channels == s.channels;
    assert TrySend(s.channels[1], Config(item)).enqueued == [Config(item)];
  }

  lemma OneMore(actors: Actors, hash: Hash, steps: seq<Step>, step: Step) returns (longer: seq<Step>)
    requires ActedSteps(actors, steps) && Acts(actors, step)
    ensures ActedSteps(actors, longer) && Run(hash, longer) == Apply(hash, Run(hash, steps), step)
  {
    longer := steps + [step];
    RunSnoc(hash, steps, step);
  }

  /** The server after a config has been pushed to r while nobody was connected. */
  predicate PushedTo(s: State, r: (string, string), item: Item) {
    && s.streams == map[] && s.channels == map[] && s.registry.entries == map[]
    && item.stamp.pair == r && item in AllCurrent(s, SlashKey(r.0, r.1))
  }

  lemma FirstUpdate(hash: Hash, r: (string, string), a: string) returns (item: Item)
    ensures var s := Apply(hash, INIT, BeginPush(0, r.0, r.1, 1, Some(a)));
            && s.streams == map[] && s.channels == map[] && s.registry.entries == map[]
            && s.pushes == map[0 := Listing(r.0, r.1, item)]
            && item.stamp.pair == r && Current(s, SlashKey(r.0, r.1), 1) == Some(item)
  {
    UpdateAt(EMPTY, hash, SlashKey(r.0, r.1), 1, a, SlashKey(r.0, r.1), 1);
    item := Current(Apply(hash, INIT, BeginPush(0, r.0, r.1, 1, Some(a))), SlashKey(r.0, r.1), 1).value;
  }

  lemma NobodyListed(hash: Hash, s: State, r: (string, string), item: Item)
    requires s.streams == map[] && s.registry.entries == map[] && s.pushes == map[0 := Listing(r.0, r.1, item)]
    ensures Apply(hash, s, ListTargets(0)) == s.(pushes := map[])
  {
    assert Hosting(s, r.0, r.1) == {} && s.pushes - {0} == map[];
  }

  lemma PushToNobody(hash: Hash, r: (string, string), a: string) returns (item: Item)
    ensures PushedTo(Apply(hash, Apply(hash, INIT, BeginPush(0, r.0, r.1, 1, Some(a))), ListTargets(0)), r, item)
  {
    item := FirstUpdate(hash, r, a);
    var s := Apply(hash, INIT, BeginPush(0, r.0, r.1, 1, Some(a)));
    NobodyListed(hash, s, r, item);
    SameStoreSameCurrent(s, s.(pushes := map[]), SlashKey(r.0, r.1));
  }

  lemma PushRun(actors: Actors, hash: Hash, r: (string, string), a: string) returns (steps: seq<Step>, item: Item)
    requires r in actors.pushed
    ensures ActedSteps(actors, steps) && PushedTo(Run(hash, steps), r, item)
  {
    item := PushToNobody(hash, r, a);
    TwoSteps(hash, BeginPush(0, r.0, r.1, 1, Some(a)), ListTargets(0));
    steps := [BeginPush(0, r.0, r.1, 1, Some(a)), ListTargets(0)];
  }

  lemma ReadsAll(hash: Hash, s: State, p: Identity, pending: set<Item>)
    requires s.streams == map[0 := Stream(p, SyncReading)] && pending == AllCurrent(s, AgentKey(p)) && pending != {}
    ensures Apply(hash, s, ReadSnapshots(0)) == s.(streams := map[0 := Stream(p, SyncLooking(pending))])
  {
    var reading := Stream(p, SyncLooking(pending));
    assert s.streams[0 := reading] == map[0 := reading];
  }

  /** A config is pushed to r, and p connects under its key. */
  lemma FirstConnects(actors: Actors, hash: Hash, p: Identity, r: (string, string), a: string)
    returns (steps: seq<Step>, item: Item)
    requires p in actors.claimed && r in actors.pushed && Complete(p) && SlashKey(r.0, r.1) == AgentKey(p)
    ensures ActedSteps(actors, steps) && item.stamp.pair == r
    ensures var s := Run(hash, steps);
            && s.streams == map[0 := Stream(p, SyncReading)] && Holds(s, p, 0)
            && item in AllCurrent(s, AgentKey(p))
  {
    steps, item := PushRun(actors, hash, r, a);
    var before := Run(hash, steps);
    var connecting := ConnectRun(Names(ANYONE, ANYONE), hash, steps, p);
    assert ActedSteps(actors, connecting);
    SameStoreSameCurrent(before, Run(hash, connecting), AgentKey(p));
    steps := connecting;
  }

  /** p connects and reads what was pushed to r. */
  lemma FirstReads(actors: Actors, hash: Hash, p: Identity, r: (string, string), a: string)
    returns (steps: seq<Step>, pending: set<Item>, item: Item)
    requires p in actors.claimed && r in actors.pushed && Complete(p) && SlashKey(r.0, r.1) == AgentKey(p)
    ensures ActedSteps(actors, steps) && item in pending && item.stamp.pair == r
    ensures var s := Run(hash, steps);
            s.streams == map[0 := Stream(p, SyncLooking(pending))] && Holds(s, p, 0)
  {
    var connecting;
    connecting, item := FirstConnects(actors, hash, p, r, a);
    var s := Run(hash, connecting);
    pending := AllCurrent(s, AgentKey(p));
    ReadsAll(hash, s, p, pending);
    steps := OneMore(actors, hash, connecting, ReadSnapshots(0));
  }

  lemma SecondTakesOver(actors: Actors, hash: Hash, before: seq<Step>, p: Identity, pending: set<Item>, q: Identity)
    returns (steps: seq<Step>)
    requires ActedSteps(actors, before) && q in actors.claimed && Complete(q)
    requires var s := Run(hash, before); s.streams == map[0 := Stream(p, SyncLooking(pending))] && Holds(s, q, 0)
    ensures ActedSteps(actors, steps)
    ensures var s := Run(hash, steps);
            && Overtaking(s, p, pending, q, SyncReading) && Holds(s, q, 1)
            && 1 in s.channels && s.channels[1] == NewChannel()
  {
    SecondFinds(hash, Run(hash, before), p, pending, q);
    steps := OneMore(actors, hash, before, Open(1, q, true));
    steps := OneMore(actors, hash, steps, LookUpExisting(1));
    SecondEvicts(hash, Run(hash, steps), p, pending, q);
    steps := OneMore(actors, hash, steps, EvictExisting(1));
    SecondRegisters(hash, Run(hash, steps), p, pending, q);
    steps := OneMore(actors, hash, steps, SendAck(1, true));
    steps := OneMore(actors, hash, steps, RegisterStream(1));
  }

  /**
   A stream of q that takes p's instance over during p's full sync receives what was pushed
   to r, though it is not r's.
   */
  lemma MisdirectedConfigArrives(actors: Actors, hash: Hash, p: Identity, q: Identity, r: (string, string), a: string)
    returns (steps: seq<Step>)
    requires p in actors.claimed && q in actors.claimed && r in actors.pushed && Misdirects(p, q, r)
    requires Complete(p) && Complete(q)
    ensures ActedSteps(actors, steps) && !QueueOwn(Run(hash, steps), 1)
  {
    var pending, item;
    steps, pending, item := FirstReads(actors, hash, p, r, a);
    steps := SecondTakesOver(actors, hash, steps, p, pending, q);
    SyncReachesSecond(hash, Run(hash, steps), p, pending, item, q);
    steps := OneMore(actors, hash, steps, LookUpTarget(0));
    steps := OneMore(actors, hash, steps, SyncOne(0, item));
    assert Enqueued(Run(hash, steps), 1, item);
  }

  /**
   On every run of these streams and pushes each queue holds only configs pushed to its own
   agent, if and only if no full sync can read what was pushed to one agent and find a
   stream of another.
   */
  lemma OnlyOwnConfigsIff(actors: Actors, hash: Hash)
    ensures NoneMisdirected(actors) <==>
              forall steps, c: nat :: ActedSteps(actors, steps) ==> QueueOwn(Run(hash, steps), c)
  {
    if NoneMisdirected(actors) {
      forall steps, c: nat | ActedSteps(actors, steps) ensures QueueOwn(Run(hash, steps), c) {
        RunKeepsOwn(actors, hash, steps);
      }
    } else {
      var p, q, r :| p in actors.claimed && q in actors.claimed && r in actors.pushed && Misdirects(p, q, r)
                     && Complete(p) && Complete(q);
      var steps := MisdirectedConfigArrives(actors, hash, p, q, r, "");
    }
  }

  /** Two streams of different agents, filed under one instance key. */
  predicate Rivals(p: Identity, q: Identity) {
    InstanceKey(p) == InstanceKey(q) && PairOf(p) != PairOf(q)
  }

  /** When every push names an object, the agents that are pushed to must not share instances with others. */
  lemma ObjectPushesMisdirectIff(actors: Actors)
    requires forall r :: r in actors.pushed ==> SlashFree(r.0) && SlashFree(r.1)
    ensures NoneMisdirected(actors) <==>
              forall p, q :: p in actors.claimed && q in actors.claimed && PairOf(p) in actors.pushed && Rivals(p, q)
                ==> !Complete(p) || !Complete(q)
  {
    forall p, q, r | p in actors.claimed && q in actors.claimed && r in actors.pushed
      ensures Misdirects(p, q, r) <==> r == PairOf(p) && Rivals(p, q)
    {
      if SlashKey(r.0, r.1) == AgentKey(p) { OneSlashSplits(p.namespace, p.agent, r.0, r.1); }
    }
    if NoneMisdirected(actors) {
      forall p, q | p in actors.claimed && q in actors.claimed && PairOf(p) in actors.pushed && Rivals(p, q)
        ensures !Complete(p) || !Complete(q)
      {
        assert Misdirects(p, q, PairOf(p));
      }
    }
  }

  /** One claim and one push with a shared key: that stream receives what was pushed to the other agent. */
  lemma SharedKeyMisdirects()
    ensures !NoneMisdirected(Actors(iset{Identity("a", "b/c", "i")}, iset{("a/b", "c")}))
  {
    SlashKeysCollide();
    assert Misdirects(Identity("a", "b/c", "i"), Identity("a", "b/c", "i"), ("a/b", "c"));
  }
}
