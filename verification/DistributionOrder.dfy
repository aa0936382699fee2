/**
 In which order a slot's configs reach a queue: serials identify store updates, and the
 newest config stays last exactly until a stale one is sent after it
 (internal/asdp/distributor.go).
 */
module DistributionOrder {
  import opened Text
  import opened Snapshots
  import opened Connections
  import opened Distribution

  // ----- Serials identify store updates -----

  predicate SlotKnown(s: State, key: string, t: nat) {
    Lookup(s.store, key, t).Some? ==> (key, t) in s.stamps && s.stamps[(key, t)].serial < s.clock
  }

  ghost predicate ChannelKnown(s: State, c: nat) {
    forall item :: Enqueued(s, c, item) ==> item.stamp.serial < s.clock
  }

  ghost predicate PhaseKnown(phase: Phase, clock: nat) {
    match phase
    case SyncLooking(pending) => forall item :: item in pending ==> item.stamp.serial < clock
    case SyncSending(_, pending) => forall item :: item in pending ==> item.stamp.serial < clock
    case _ => true
  }

  ghost predicate StreamKnown(s: State, i: nat) {
    i in s.streams ==> PhaseKnown(s.streams[i].phase, s.clock)
  }

  predicate PushKnown(s: State, p: nat) {
    p in s.pushes ==> s.pushes[p].item.stamp.serial < s.clock
  }

  ghost predicate Known(s: State) {
    && (forall key, t :: SlotKnown(s, key, t))
    && (forall c :: ChannelKnown(s, c))
    && (forall i :: StreamKnown(s, i))
    && (forall p :: PushKnown(s, p))
  }

  lemma AllCurrentKnown(s: State, key: string)
    requires Known(s)
    ensures forall item :: item in AllCurrent(s, key) ==> item.stamp.serial < s.clock
  {
    forall item | item in AllCurrent(s, key) ensures item.stamp.serial < s.clock {
      var t :| Current(s, key, t) == Some(item);
      assert SlotKnown(s, key, t);
    }
  }

  lemma BeginPushKeepsSlot(hash: Hash, s: State, step: Step, key: string, t: nat)
    requires SlotKnown(s, key, t) && step.BeginPush?
    ensures SlotKnown(ApplyPush(hash, s, step), key, t)
  {
    if step.marshalled.Some? {
      UpdateAt(s.store, hash, SlashKey(step.namespace, step.agent), step.cfgType, step.marshalled.value, key, t);
    }
  }

  lemma ForgetKeepsSlot(hash: Hash, s: State, step: Step, key: string, t: nat)
    requires SlotKnown(s, key, t) && step.Forget?
    ensures SlotKnown(ApplyPush(hash, s, step), key, t)
  {
  }

  lemma PushStepKeepsSlot(hash: Hash, s: State, step: Step, key: string, t: nat)
    requires SlotKnown(s, key, t)
    ensures SlotKnown(ApplyPush(hash, s, step), key, t)
  {
    match step
    case BeginPush(_, _, _, _, _) => BeginPushKeepsSlot(hash, s, step, key, t);
    case Forget(_, _) => ForgetKeepsSlot(hash, s, step, key, t);
    case _ =>
  }

  lemma StepKeepsSlot(hash: Hash, s: State, step: Step, key: string, t: nat)
    requires Known(s)
    ensures SlotKnown(Apply(hash, s, step), key, t)
  {
    assert SlotKnown(s, key, t);
    if PushStep(step) {
      PushStepApplies(hash, s, step);
      PushStepKeepsSlot(hash, s, step, key, t);
    } else {
      StoreUntouched(hash, s, step);
    }
  }

  lemma SendKeepsChannel(s: State, target: nat, m: Message, c: nat)
    requires ChannelKnown(s, c) && (m.Config? ==> m.item.stamp.serial < s.clock)
    ensures ChannelKnown(SendTo(s, target, m), c)
  {
  }

  /** c's queue is new or holds what it held. */
  predicate QueueKept(s: State, s': State, c: nat) {
    c in s'.channels ==>
      s'.channels[c].enqueued == [] || (c in s.channels && s'.channels[c].enqueued == s.channels[c].enqueued)
  }

  lemma KeptQueueIsKnown(s: State, s': State, c: nat)
    requires ChannelKnown(s, c) && QueueKept(s, s', c) && s.clock <= s'.clock
    ensures ChannelKnown(s', c)
  {
    forall item | Enqueued(s', c, item) ensures item.stamp.serial < s'.clock {
      assert Enqueued(s, c, item);
    }
  }

  lemma HandshakeKeepsQueue(s: State, step: Step, c: nat)
    ensures QueueKept(s, ApplyHandshake(s, step), c) && ApplyHandshake(s, step).clock == s.clock
  {
  }

  lemma StreamKeepsQueue(s: State, step: Step, c: nat)
    requires !step.ReceiveHeartbeat? && !step.SendOther?
    ensures QueueKept(s, ApplyStream(s, step), c) && ApplyStream(s, step).clock == s.clock
  {
  }

  lemma StreamKeepsChannel(s: State, step: Step, c: nat)
    requires ChannelKnown(s, c)
    ensures ChannelKnown(ApplyStream(s, step), c)
  {
    match step
    case ReceiveHeartbeat(i, payload) => SendKeepsChannel(s, i, Other(payload), c);
    case SendOther(i, payload) => SendKeepsChannel(s, i, Other(payload), c);
    case _ =>
      StreamKeepsQueue(s, step, c);
      KeptQueueIsKnown(s, ApplyStream(s, step), c);
  }

  lemma SyncKeepsChannel(s: State, step: Step, c: nat)
    requires Known(s)
    ensures ChannelKnown(ApplySync(s, step), c)
  {
    assert ChannelKnown(s, c);
    if step.SyncOne? {
      assert StreamKnown(s, step.stream);
      if step.stream in s.streams && s.streams[step.stream].phase.SyncSending? {
        SendKeepsChannel(s, s.streams[step.stream].phase.target,
                         if step.item in s.streams[step.stream].phase.pending then Config(step.item) else Other(""), c);
      }
    } else {
      assert ApplySync(s, step).channels == s.channels;
    }
  }

  lemma PushKeepsChannel(hash: Hash, s: State, step: Step, c: nat)
    requires Known(s)
    ensures ChannelKnown(ApplyPush(hash, s, step), c)
  {
    assert ChannelKnown(s, c);
    if step.PushOne? {
      assert PushKnown(s, step.push);
      if step.push in s.pushes { SendKeepsChannel(s, step.conn, Config(s.pushes[step.push].item), c); }
    } else {
      KeptQueueIsKnown(s, ApplyPush(hash, s, step), c);
    }
  }

  lemma StopKeepsChannel(s: State, c: nat)
    requires ChannelKnown(s, c)
    ensures ChannelKnown(ApplyStop(s), c)
  {
    KeptQueueIsKnown(s, ApplyStop(s), c);
  }

  lemma StepKeepsChannel(hash: Hash, s: State, step: Step, c: nat)
    requires Known(s)
    ensures ChannelKnown(Apply(hash, s, step), c)
  {
    assert ChannelKnown(s, c);
    HandshakeKeepsQueue(s, step, c);
    KeptQueueIsKnown(s, ApplyHandshake(s, step), c);
    StreamKeepsChannel(s, step, c);
    SyncKeepsChannel(s, step, c);
    PushKeepsChannel(hash, s, step, c);
    StopKeepsChannel(s, c);
  }

  lemma GotoKeepsKnown(s: State, j: nat, phase: Phase, i: nat)
    requires StreamKnown(s, i) && j in s.streams && PhaseKnown(phase, s.clock)
    ensures StreamKnown(Goto(s, j, phase), i)
  {
  }

  lemma HandshakeKeepsStreamKnown(s: State, step: Step, i: nat)
    requires StreamKnown(s, i)
    ensures StreamKnown(ApplyHandshake(s, step), i)
  {
  }

  lemma StreamKeepsStreamKnown(s: State, step: Step, i: nat)
    requires StreamKnown(s, i)
    ensures StreamKnown(ApplyStream(s, step), i)
  {
  }

  lemma ReadKeepsKnown(s: State, j: nat, i: nat)
    requires Known(s)
    ensures StreamKnown(ApplySync(s, ReadSnapshots(j)), i)
  {
    assert StreamKnown(s, i);
    if At(s, j, SyncReading) {
      AllCurrentKnown(s, AgentKey(s.streams[j].id));
      GotoKeepsKnown(s, j, ApplySync(s, ReadSnapshots(j)).streams[j].phase, i);
    }
  }

  lemma LookUpKeepsKnown(s: State, j: nat, i: nat)
    requires StreamKnown(s, i) && StreamKnown(s, j)
    ensures StreamKnown(ApplySync(s, LookUpTarget(j)), i)
  {
    if j in s.streams && s.streams[j].phase.SyncLooking? {
      GotoKeepsKnown(s, j, ApplySync(s, LookUpTarget(j)).streams[j].phase, i);
    }
  }

  lemma SyncOneKeepsKnown(s: State, j: nat, item: Item, i: nat)
    requires StreamKnown(s, i) && StreamKnown(s, j)
    ensures StreamKnown(ApplySync(s, SyncOne(j, item)), i)
  {
    if j in s.streams && s.streams[j].phase.SyncSending? && item in s.streams[j].phase.pending {
      var s1 := SendTo(s, s.streams[j].phase.target, Config(item));
      GotoKeepsKnown(s1, j, ApplySync(s, SyncOne(j, item)).streams[j].phase, i);
    }
  }

  lemma SyncKeepsStreamKnown(s: State, step: Step, i: nat)
    requires Known(s)
    ensures StreamKnown(ApplySync(s, step), i)
  {
    assert StreamKnown(s, i);
    match step
    case ReadSnapshots(j) => ReadKeepsKnown(s, j, i);
    case LookUpTarget(j) =>
      assert StreamKnown(s, j);
      LookUpKeepsKnown(s, j, i);
    case SyncOne(j, item) =>
      assert StreamKnown(s, j);
      SyncOneKeepsKnown(s, j, item, i);
    case _ =>
  }

  lemma PushKeepsStreamKnown(hash: Hash, s: State, step: Step, i: nat)
    requires StreamKnown(s, i)
    ensures StreamKnown(ApplyPush(hash, s, step), i)
  {
    var s' := ApplyPush(hash, s, step);
    assert s'.streams == s.streams && s'.clock >= s.clock;
  }

  lemma StepKeepsStream(hash: Hash, s: State, step: Step, i: nat)
    requires Known(s)
    ensures StreamKnown(Apply(hash, s, step), i)
  {
    assert StreamKnown(s, i);
    HandshakeKeepsStreamKnown(s, step, i);
    SyncKeepsStreamKnown(s, step, i);
    StreamKeepsStreamKnown(s, step, i);
    PushKeepsStreamKnown(hash, s, step, i);
  }

  lemma PushStepKeepsPushKnown(hash: Hash, s: State, step: Step, p: nat)
    requires PushKnown(s, p)
    ensures PushKnown(ApplyPush(hash, s, step), p)
  {
  }

  lemma StepKeepsPush(hash: Hash, s: State, step: Step, p: nat)
    requires PushKnown(s, p)
    ensures PushKnown(Apply(hash, s, step), p)
  {
    if PushStep(step) {
      PushStepApplies(hash, s, step);
      PushStepKeepsPushKnown(hash, s, step, p);
    } else {
      StoreUntouched(hash, s, step);
    }
  }

  lemma StepKeepsKnown(hash: Hash, s: State, step: Step)
    requires Known(s)
    ensures Known(Apply(hash, s, step))
  {
    var s' := Apply(hash, s, step);
    forall key, t: nat ensures SlotKnown(s', key, t) { StepKeepsSlot(hash, s, step, key, t); }
    forall c: nat ensures ChannelKnown(s', c) { StepKeepsChannel(hash, s, step, c); }
    forall i: nat ensures StreamKnown(s', i) { StepKeepsStream(hash, s, step, i); }
    forall p: nat ensures PushKnown(s', p) {
      assert PushKnown(s, p);
      StepKeepsPush(hash, s, step, p);
    }
  }

  lemma {:induction false} RunKnown(hash: Hash, steps: seq<Step>)
    ensures Known(Run(hash, steps))
  {
    if steps != [] {
      RunKnown(hash, steps[..|steps| - 1]);
      StepKeepsKnown(hash, Run(hash, steps[..|steps| - 1]), steps[|steps| - 1]);
    }
  }

  /** A changing push creates an item that no queue holds yet: "enqueued" later means this very update. */
  lemma ChangedConfigIsNew(hash: Hash, steps: seq<Step>, p: nat, ns: string, agent: string, t: nat, data: string,
                           c: nat)
    requires p !in Run(hash, steps).pushes
    requires !Unchanged(Run(hash, steps).store, hash, SlashKey(ns, agent), t, data)
    ensures var s' := Apply(hash, Run(hash, steps), BeginPush(p, ns, agent, t, Some(data)));
            var item := Current(s', SlashKey(ns, agent), t);
            && item.Some? && item.value.snapshot.resources == data
            && item.value.stamp.serial == Run(hash, steps).clock
            && !Enqueued(s', c, item.value)
            && PushOwes(s'.pushes[p], c, item.value)
  {
    var s := Run(hash, steps);
    RunKnown(hash, steps);
    assert ChannelKnown(s, c);
    UpdateAt(s.store, hash, SlashKey(ns, agent), t, data, SlashKey(ns, agent), t);
  }

  // ----- The newest config need not be the last one enqueued -----

  predicate ForSlot(m: Message, key: string, t: nat) {
    m.Config? && m.item.key == key && m.item.snapshot.cfgType == t
  }

  /** Once the current item of a slot is in the queue, nothing else for that slot follows it. */
  ghost predicate NewestLast(ms: seq<Message>, current: Item, t: nat) {
    forall i, j :: 0 <= i < j < |ms| && ms[i] == Config(current) && ForSlot(ms[j], current.key, t)
      ==> ms[j] == Config(current)
  }

  /**
   Sending an item keeps the newest config last exactly when the item is itself current,
   the current one has not been sent to this connection yet, or the queue refuses it.
   */
  lemma SendKeepsNewestLastIff(ch: Channel<Message>, item: Item, current: Item, t: nat)
    requires ForSlot(Config(item), current.key, t) && NewestLast(ch.enqueued, current, t)
    ensures NewestLast(TrySend(ch, Config(item)).enqueued, current, t)
            <==> item == current || Config(current) !in ch.enqueued || ch.Full()
  {
    var after := TrySend(ch, Config(item)).enqueued;
    if item != current && Config(current) in ch.enqueued && !ch.Full() {
      var i :| 0 <= i < |ch.enqueued| && ch.enqueued[i] == Config(current);
      assert after[i] == Config(current) && after[|ch.enqueued|] == Config(item);
    }
  }

  /** A message that is not for the slot, or a refused one, leaves the newest config last. */
  lemma OtherSendKeepsNewestLast(ch: Channel<Message>, m: Message, current: Item, t: nat)
    requires !ForSlot(m, current.key, t) && NewestLast(ch.enqueued, current, t)
    ensures NewestLast(TrySend(ch, m).enqueued, current, t)
  {
  }

  // ----- Over whole runs -----

  /** In c's queue the current config of the slot, once sent, is followed by no other of that slot. */
  ghost predicate NewestLastAt(s: State, c: nat, key: string, t: nat) {
    c in s.channels && Current(s, key, t).Some? ==>
      NewestLast(s.channels[c].enqueued, Current(s, key, t).value, t)
  }

  /** The connection a step offers a config to, with the config. */
  function Offers(s: State, step: Step): (r: Option<(nat, Item)>) {
    match step
    case SyncOne(i, item) =>
      if i in s.streams && s.streams[i].phase.SyncSending? && item in s.streams[i].phase.pending
      then Some((s.streams[i].phase.target, item)) else None
    case PushOne(p, c) =>
      if p in s.pushes && s.pushes[p].Sending? && c in s.pushes[p].targets
      then Some((c, s.pushes[p].item)) else None
    case _ => None
  }

  /**
   The step offers c another config of the slot than the current one, which c has already
   been sent, and c's queue has room for it.
   */
  predicate StaleSend(s: State, step: Step, c: nat, key: string, t: nat) {
    var offer, current := Offers(s, step), Current(s, key, t);
    && offer.Some? && offer.value.0 == c && ForSlot(Config(offer.value.1), key, t)
    && current.Some? && offer.value.1 != current.value
    && c in s.channels && Config(current.value) in s.channels[c].enqueued && !s.channels[c].Full()
  }

  lemma SameQueueKeepsNewest(s: State, s': State, c: nat, key: string, t: nat)
    requires NewestLastAt(s, c, key, t) && QueueKept(s, s', c)
    requires Current(s', key, t).Some? ==> Current(s', key, t) == Current(s, key, t)
    ensures NewestLastAt(s', c, key, t)
  {
  }

  /** A store update either leaves the slot alone or makes a config no queue holds. */
  lemma BeginPushKeepsNewest(hash: Hash, s: State, step: Step, c: nat, key: string, t: nat)
    requires ChannelKnown(s, c) && NewestLastAt(s, c, key, t) && step.BeginPush?
    ensures NewestLastAt(ApplyPush(hash, s, step), c, key, t)
  {
    if step.marshalled.Some? {
      var pushed := SlashKey(step.namespace, step.agent);
      UpdateAt(s.store, hash, pushed, step.cfgType, step.marshalled.value, key, t);
      var s' := ApplyPush(hash, s, step);
      if c in s'.channels && Current(s', key, t).Some? && Current(s', key, t) != Current(s, key, t) {
        assert !Enqueued(s, c, Current(s', key, t).value);
      }
    }
  }

  lemma ForgetKeepsNewest(hash: Hash, s: State, step: Step, c: nat, key: string, t: nat)
    requires NewestLastAt(s, c, key, t) && step.Forget?
    ensures NewestLastAt(ApplyPush(hash, s, step), c, key, t)
  {
    SameQueueKeepsNewest(s, ApplyPush(hash, s, step), c, key, t);
  }

  /** The effect of offering one config to one connection. */
  lemma OfferBreaksIff(s: State, target: nat, item: Item, c: nat, key: string, t: nat)
    requires NewestLastAt(s, c, key, t)
    ensures var current := Current(s, key, t);
            !NewestLastAt(SendTo(s, target, Config(item)), c, key, t) <==>
              && target == c && ForSlot(Config(item), key, t)
              && current.Some? && item != current.value
              && c in s.channels && Config(current.value) in s.channels[c].enqueued && !s.channels[c].Full()
  {
    var current := Current(s, key, t);
    if target == c && c in s.channels && current.Some? {
      if ForSlot(Config(item), key, t) {
        SendKeepsNewestLastIff(s.channels[c], item, current.value, t);
      } else {
        OtherSendKeepsNewestLast(s.channels[c], Config(item), current.value, t);
      }
    }
  }

  lemma SyncOneBreaksIff(s: State, i: nat, item: Item, c: nat, key: string, t: nat)
    requires NewestLastAt(s, c, key, t)
    ensures !NewestLastAt(ApplySync(s, SyncOne(i, item)), c, key, t) <==> StaleSend(s, SyncOne(i, item), c, key, t)
  {
    if Offers(s, SyncOne(i, item)).Some? {
      OfferBreaksIff(s, s.streams[i].phase.target, item, c, key, t);
      assert ApplySync(s, SyncOne(i, item)).channels == SendTo(s, s.streams[i].phase.target, Config(item)).channels;
    }
  }

  lemma PushOneBreaksIff(hash: Hash, s: State, p: nat, target: nat, c: nat, key: string, t: nat)
    requires NewestLastAt(s, c, key, t)
    ensures !NewestLastAt(ApplyPush(hash, s, PushOne(p, target)), c, key, t)
            <==> StaleSend(s, PushOne(p, target), c, key, t)
  {
    if Offers(s, PushOne(p, target)).Some? {
      OfferBreaksIff(s, target, s.pushes[p].item, c, key, t);
    }
  }

  lemma HandshakeKeepsNewest(s: State, step: Step, c: nat, key: string, t: nat)
    requires NewestLastAt(s, c, key, t)
    ensures NewestLastAt(ApplyHandshake(s, step), c, key, t)
  {
    HandshakeKeepsQueue(s, step, c);
    HandshakeLeavesStore(s, step);
    SameQueueKeepsNewest(s, ApplyHandshake(s, step), c, key, t);
  }

  lemma MessageKeepsNewest(s: State, target: nat, payload: string, c: nat, key: string, t: nat)
    requires NewestLastAt(s, c, key, t)
    ensures NewestLastAt(SendTo(s, target, Other(payload)), c, key, t)
  {
    if target == c && c in s.channels && Current(s, key, t).Some? {
      OtherSendKeepsNewestLast(s.channels[c], Other(payload), Current(s, key, t).value, t);
    }
  }

  lemma StreamKeepsNewest(s: State, step: Step, c: nat, key: string, t: nat)
    requires NewestLastAt(s, c, key, t)
    ensures NewestLastAt(ApplyStream(s, step), c, key, t)
  {
    match step
    case ReceiveHeartbeat(i, payload) => MessageKeepsNewest(s, i, payload, c, key, t);
    case SendOther(i, payload) => MessageKeepsNewest(s, i, payload, c, key, t);
    case _ =>
      StreamKeepsQueue(s, step, c);
      StreamLeavesStore(s, step);
      SameQueueKeepsNewest(s, ApplyStream(s, step), c, key, t);
  }

  lemma SyncStepKeepsNewest(s: State, step: Step, c: nat, key: string, t: nat)
    requires NewestLastAt(s, c, key, t) && !step.SyncOne?
    ensures NewestLastAt(ApplySync(s, step), c, key, t)
  {
    SyncLeavesStore(s, step);
    SameQueueKeepsNewest(s, ApplySync(s, step), c, key, t);
  }

  lemma ListTargetsKeepsNewest(hash: Hash, s: State, p: nat, c: nat, key: string, t: nat)
    requires NewestLastAt(s, c, key, t)
    ensures NewestLastAt(ApplyPush(hash, s, ListTargets(p)), c, key, t)
  {
    SameQueueKeepsNewest(s, ApplyPush(hash, s, ListTargets(p)), c, key, t);
  }

  lemma StopKeepsNewest(s: State, c: nat, key: string, t: nat)
    requires NewestLastAt(s, c, key, t)
    ensures NewestLastAt(ApplyStop(s), c, key, t)
  {
    SameQueueKeepsNewest(s, ApplyStop(s), c, key, t);
  }

  lemma PushStepKeepsNewest(hash: Hash, s: State, step: Step, c: nat, key: string, t: nat)
    requires ChannelKnown(s, c) && NewestLastAt(s, c, key, t) && !step.PushOne?
    ensures NewestLastAt(ApplyPush(hash, s, step), c, key, t)
  {
    match step
    case BeginPush(_, _, _, _, _) => BeginPushKeepsNewest(hash, s, step, c, key, t);
    case Forget(_, _) => ForgetKeepsNewest(hash, s, step, c, key, t);
    case ListTargets(p) => ListTargetsKeepsNewest(hash, s, p, c, key, t);
    case _ =>
  }

  lemma OthersKeepNewest(hash: Hash, s: State, step: Step, c: nat, key: string, t: nat)
    requires ChannelKnown(s, c) && NewestLastAt(s, c, key, t) && !step.SyncOne? && !step.PushOne?
    ensures NewestLastAt(Apply(hash, s, step), c, key, t)
  {
    HandshakeKeepsNewest(s, step, c, key, t);
    SyncStepKeepsNewest(s, step, c, key, t);
    StreamKeepsNewest(s, step, c, key, t);
    PushStepKeepsNewest(hash, s, step, c, key, t);
    StopKeepsNewest(s, c, key, t);
  }

  /** From a state in which it holds, the next step breaks it if and only if it is a stale send. */
  lemma StepBreaksIff(hash: Hash, s: State, step: Step, c: nat, key: string, t: nat)
    requires Known(s) && NewestLastAt(s, c, key, t)
    ensures !NewestLastAt(Apply(hash, s, step), c, key, t) <==> StaleSend(s, step, c, key, t)
  {
    match step
    case SyncOne(i, item) => SyncOneBreaksIff(s, i, item, c, key, t);
    case PushOne(p, target) => PushOneBreaksIff(hash, s, p, target, c, key, t);
    case _ =>
      assert ChannelKnown(s, c);
      OthersKeepNewest(hash, s, step, c, key, t);
  }

  /** It holds after the first k steps. */
  ghost predicate HoldsAfter(hash: Hash, steps: seq<Step>, k: nat, c: nat, key: string, t: nat)
    requires k <= |steps|
  {
    NewestLastAt(Run(hash, steps[..k]), c, key, t)
  }

  /** Step k is a stale send. */
  ghost predicate StaleStep(hash: Hash, steps: seq<Step>, k: nat, c: nat, key: string, t: nat)
    requires k < |steps|
  {
    StaleSend(Run(hash, steps[..k]), steps[k], c, key, t)
  }

  /**
   Along a run the newest config of the slot stays last in c's queue after every step if
   and only if no step sends a stale one.
   */
  lemma {:induction false} NewestStaysLastIff(hash: Hash, steps: seq<Step>, n: nat, c: nat, key: string, t: nat)
    requires n <= |steps|
    ensures (forall k :: 0 <= k <= n ==> HoldsAfter(hash, steps, k, c, key, t))
            <==> (forall k :: 0 <= k < n ==> !StaleStep(hash, steps, k, c, key, t))
  {
    if n == 0 {
      assert steps[..0] == [];
      assert HoldsAfter(hash, steps, 0, c, key, t);
    } else {
      NewestStaysLastIff(hash, steps, n - 1, c, key, t);
      OneMoreStep(hash, steps, n - 1, c, key, t);
    }
  }

  lemma OneMoreStep(hash: Hash, steps: seq<Step>, k: nat, c: nat, key: string, t: nat)
    requires k < |steps|
    ensures HoldsAfter(hash, steps, k, c, key, t) ==>
              (!HoldsAfter(hash, steps, k + 1, c, key, t) <==> StaleStep(hash, steps, k, c, key, t))
  {
    if HoldsAfter(hash, steps, k, c, key, t) {
      RunKnown(hash, steps[..k]);
      assert steps[..k + 1][..k] == steps[..k];
      StepBreaksIff(hash, Run(hash, steps[..k]), steps[k], c, key, t);
    }
  }

  /** The current config of the slot is in the queue, and nothing else of the slot follows it. */
  ghost predicate EndsWithNewest(s: State, key: string, t: nat) {
    key in s.registry.entries ==>
      var c := s.registry.entries[key];
      && c in s.streams && c in s.channels
      && var item := Current(s, AgentKey(s.streams[c].id), t);
         item.Some? && !s.channels[c].cancelled ==>
           Config(item.value) in s.channels[c].enqueued && NewestLast(s.channels[c].enqueued, item.value, t)
  }

  /** No step of the run sends any connection a stale config of any slot. */
  ghost predicate NeverStale(hash: Hash, steps: seq<Step>) {
    forall k, c, key, t: nat :: 0 <= k < |steps| ==> !StaleStep(hash, steps, k, c, key, t)
  }

  /** A quiescent run without stale sends leaves every connection with its newest configs last. */
  lemma QuiescentEndsWithNewest(names: Names, hash: Hash, steps: seq<Step>, key: string, t: nat)
    requires CollisionFree(names) && NamedSteps(names, steps)
    requires Quiescent(Run(hash, steps)) && NeverStale(hash, steps)
    ensures EndsWithNewest(Run(hash, steps), key, t)
  {
    var s := Run(hash, steps);
    QuiescentMeansEnqueued(names, hash, steps, key, t);
    if key in s.registry.entries {
      var c := s.registry.entries[key];
      var agent := AgentKey(s.streams[c].id);
      NewestStaysLastIff(hash, steps, |steps|, c, agent, t);
      assert HoldsAfter(hash, steps, |steps|, c, agent, t);
      assert steps[..|steps|] == steps;
    }
  }

  // ----- A schedule without stale sends -----

  /** The configs a stream's full sync still carries. */
  predicate Carries(phase: Phase, item: Item) {
    match phase
    case SyncLooking(pending) => item in pending
    case SyncSending(_, pending) => item in pending
    case _ => false
  }

  predicate SyncCarries(s: State, i: nat, item: Item) {
    i in s.streams && Carries(s.streams[i].phase, item)
  }

  predicate PushCarries(s: State, p: nat, item: Item) {
    p in s.pushes && s.pushes[p].item == item
  }

  /** Some push or full sync in flight carries a config of the slot. */
  ghost predicate SlotBusy(s: State, key: string, t: nat) {
    || (exists i, item :: SyncCarries(s, i, item) && ForSlot(Config(item), key, t))
    || (exists p, item :: PushCarries(s, p, item) && ForSlot(Config(item), key, t))
  }

  /** The step stores an update of a slot only while nothing in flight carries an older one. */
  ghost predicate Unhurried(hash: Hash, s: State, step: Step) {
    match step
    case BeginPush(p, ns, agent, t, Some(data)) =>
      p !in s.pushes && !Unchanged(s.store, hash, SlashKey(ns, agent), t, data) ==> !SlotBusy(s, SlashKey(ns, agent), t)
    case _ => true
  }

  ghost predicate UnhurriedSteps(hash: Hash, steps: seq<Step>) {
    forall k :: 0 <= k < |steps| ==> Unhurried(hash, Run(hash, steps[..k]), steps[k])
  }

  /** A config is current for its slot, or its slot has been forgotten. */
  predicate IsCurrent(s: State, item: Item) {
    var current := Current(s, item.key, item.snapshot.cfgType);
    current.Some? ==> current.value == item
  }

  ghost predicate SyncCurrent(s: State, i: nat) {
    forall item :: SyncCarries(s, i, item) ==> IsCurrent(s, item)
  }

  predicate PushCurrent(s: State, p: nat) {
    p in s.pushes ==> IsCurrent(s, s.pushes[p].item)
  }

  /** A slot holds a snapshot of its own type. */
  predicate SlotTyped(s: State, key: string, t: nat) {
    Lookup(s.store, key, t).Some? ==> Lookup(s.store, key, t).value.cfgType == t
  }

  ghost predicate InFlightCurrent(s: State) {
    && (forall i :: SyncCurrent(s, i))
    && (forall p :: PushCurrent(s, p))
    && (forall key, t :: SlotTyped(s, key, t))
  }

  lemma BeginPushKeepsCurrent(hash: Hash, s: State, step: Step, item: Item)
    requires step.BeginPush? && Unhurried(hash, s, step) && IsCurrent(s, item)
    requires (exists i :: SyncCarries(s, i, item)) || (exists p :: PushCarries(s, p, item))
    ensures IsCurrent(ApplyPush(hash, s, step), item)
  {
    if step.marshalled.Some? {
      var pushed := SlashKey(step.namespace, step.agent);
      UpdateAt(s.store, hash, pushed, step.cfgType, step.marshalled.value, item.key, item.snapshot.cfgType);
      if ForSlot(Config(item), pushed, step.cfgType) { assert SlotBusy(s, pushed, step.cfgType); }
    }
  }

  lemma NewPushIsCurrent(hash: Hash, s: State, step: Step)
    requires step.BeginPush? && step.push !in s.pushes
    ensures PushCurrent(ApplyPush(hash, s, step), step.push)
  {
    if step.marshalled.Some? {
      var pushed := SlashKey(step.namespace, step.agent);
      UpdateAt(s.store, hash, pushed, step.cfgType, step.marshalled.value, pushed, step.cfgType);
    }
  }

  lemma BeginPushKeepsTyped(hash: Hash, s: State, step: Step, key: string, t: nat)
    requires step.BeginPush? && SlotTyped(s, key, t)
    ensures SlotTyped(ApplyPush(hash, s, step), key, t)
  {
    if step.marshalled.Some? {
      UpdateAt(s.store, hash, SlashKey(step.namespace, step.agent), step.cfgType, step.marshalled.value, key, t);
    }
  }

  lemma ForgetKeepsCurrent(hash: Hash, s: State, step: Step, item: Item)
    requires step.Forget? && IsCurrent(s, item)
    ensures IsCurrent(ApplyPush(hash, s, step), item)
  {
  }

  lemma SameStoreKeepsCurrent(s: State, s': State, item: Item)
    requires s'.store == s.store && s'.stamps == s.stamps && IsCurrent(s, item)
    ensures IsCurrent(s', item)
  {
  }

  /** What was in flight before a push step and is still there stays current. */
  lemma PushStepKeepsCurrent(hash: Hash, s: State, step: Step, item: Item)
    requires Unhurried(hash, s, step) && IsCurrent(s, item)
    requires (exists i :: SyncCarries(s, i, item)) || (exists p :: PushCarries(s, p, item))
    ensures IsCurrent(ApplyPush(hash, s, step), item)
  {
    match step
    case BeginPush(_, _, _, _, _) => BeginPushKeepsCurrent(hash, s, step, item);
    case Forget(_, _) => ForgetKeepsCurrent(hash, s, step, item);
    case _ => SameStoreKeepsCurrent(s, ApplyPush(hash, s, step), item);
  }

  lemma PushStepKeepsPush(hash: Hash, s: State, step: Step, p: nat)
    requires Unhurried(hash, s, step) && PushCurrent(s, p)
    ensures PushCurrent(ApplyPush(hash, s, step), p)
  {
    var s' := ApplyPush(hash, s, step);
    if p in s.pushes {
      assert PushCarries(s, p, s.pushes[p].item);
      PushStepKeepsCurrent(hash, s, step, s.pushes[p].item);
      assert p in s'.pushes ==> s'.pushes[p].item == s.pushes[p].item;
    } else if step.BeginPush? {
      if step.push == p { NewPushIsCurrent(hash, s, step); }
    }
  }

  lemma PushStepKeepsSync(hash: Hash, s: State, step: Step, i: nat)
    requires Unhurried(hash, s, step) && SyncCurrent(s, i)
    ensures SyncCurrent(ApplyPush(hash, s, step), i)
  {
    var s' := ApplyPush(hash, s, step);
    assert s'.streams == s.streams;
    forall item | SyncCarries(s', i, item) ensures IsCurrent(s', item) {
      assert SyncCarries(s, i, item);
      PushStepKeepsCurrent(hash, s, step, item);
    }
  }

  /** The step lets i's sync carry nothing it did not carry. */
  ghost predicate CarriesNoMore(s: State, s': State, i: nat) {
    forall item :: SyncCarries(s', i, item) ==> SyncCarries(s, i, item)
  }

  lemma NoMoreKeepsSync(s: State, s': State, i: nat)
    requires SyncCurrent(s, i) && CarriesNoMore(s, s', i) && s'.store == s.store && s'.stamps == s.stamps
    ensures SyncCurrent(s', i)
  {
    forall item | SyncCarries(s', i, item) ensures IsCurrent(s', item) {
      SameStoreKeepsCurrent(s, s', item);
    }
  }

  lemma GotoCarriesNoMore(s: State, j: nat, phase: Phase, i: nat)
    requires j in s.streams && forall item :: Carries(phase, item) ==> Carries(s.streams[j].phase, item)
    ensures CarriesNoMore(s, Goto(s, j, phase), i)
  {
  }

  lemma HandshakeCarriesNoMore(s: State, step: Step, i: nat)
    ensures CarriesNoMore(s, ApplyHandshake(s, step), i)
  {
  }

  lemma StreamCarriesNoMore(s: State, step: Step, i: nat)
    ensures CarriesNoMore(s, ApplyStream(s, step), i)
  {
    match step
    case Disconnect(j) =>
      if At(s, j, Disconnecting) {
        UnregisterKeepsStreams(s, InstanceKey(s.streams[j].id), j);
        GotoCarriesNoMore(UnregisterConn(s, InstanceKey(s.streams[j].id), j), j, Cancelling, i);
      }
    case CancelOwn(j) => if At(s, j, Cancelling) { GotoCarriesNoMore(CancelConn(s, j), j, Ended, i); }
    case ReceiveError(j) => if At(s, j, Receiving) { GotoCarriesNoMore(s, j, Disconnecting, i); }
    case _ => assert ApplyStream(s, step).streams == s.streams;
  }

  lemma SyncStepCarriesNoMore(s: State, step: Step, i: nat)
    requires !step.ReadSnapshots?
    ensures CarriesNoMore(s, ApplySync(s, step), i)
  {
    match step
    case LookUpTarget(j) =>
      if j in s.streams && s.streams[j].phase.SyncLooking? {
        GotoCarriesNoMore(s, j, ApplySync(s, step).streams[j].phase, i);
      }
    case SyncOne(j, item) =>
      if j in s.streams && s.streams[j].phase.SyncSending? && item in s.streams[j].phase.pending {
        var s1 := SendTo(s, s.streams[j].phase.target, Config(item));
        GotoCarriesNoMore(s1, j, ApplySync(s, step).streams[j].phase, i);
      }
    case _ =>
  }

  /** What a sync reads is current. */
  lemma ReadKeepsSync(s: State, j: nat, i: nat)
    requires InFlightCurrent(s)
    ensures SyncCurrent(ApplySync(s, ReadSnapshots(j)), i)
  {
    assert SyncCurrent(s, i);
    var s' := ApplySync(s, ReadSnapshots(j));
    forall item | SyncCarries(s', i, item) ensures IsCurrent(s', item) {
      if !SyncCarries(s, i, item) {
        assert i == j && item in AllCurrent(s, AgentKey(s.streams[j].id));
        var t :| Current(s, AgentKey(s.streams[j].id), t) == Some(item);
        assert SlotTyped(s, AgentKey(s.streams[j].id), t);
      }
      SameStoreKeepsCurrent(s, s', item);
    }
  }

  lemma StepKeepsSyncCurrent(hash: Hash, s: State, step: Step, i: nat)
    requires InFlightCurrent(s) && Unhurried(hash, s, step)
    ensures SyncCurrent(Apply(hash, s, step), i)
  {
    assert SyncCurrent(s, i);
    if PushStep(step) {
      PushStepApplies(hash, s, step);
      PushStepKeepsSync(hash, s, step, i);
    } else if step.ReadSnapshots? {
      ReadKeepsSync(s, step.stream, i);
    } else {
      OtherStepKeepsSync(hash, s, step, i);
    }
  }

  lemma OtherStepKeepsSync(hash: Hash, s: State, step: Step, i: nat)
    requires SyncCurrent(s, i) && !step.ReadSnapshots? && !PushStep(step)
    ensures SyncCurrent(Apply(hash, s, step), i)
  {
    StoreUntouched(hash, s, step);
    HandshakeCarriesNoMore(s, step, i);
    StreamCarriesNoMore(s, step, i);
    SyncStepCarriesNoMore(s, step, i);
    assert ApplyStop(s).streams == s.streams;
    NoMoreKeepsSync(s, Apply(hash, s, step), i);
  }

  lemma StepKeepsPushCurrent(hash: Hash, s: State, step: Step, p: nat)
    requires PushCurrent(s, p) && Unhurried(hash, s, step)
    ensures PushCurrent(Apply(hash, s, step), p)
  {
    if PushStep(step) {
      PushStepApplies(hash, s, step);
      PushStepKeepsPush(hash, s, step, p);
    } else {
      StoreUntouched(hash, s, step);
      if p in s.pushes { SameStoreKeepsCurrent(s, Apply(hash, s, step), s.pushes[p].item); }
    }
  }

  lemma PushStepKeepsTyped(hash: Hash, s: State, step: Step, key: string, t: nat)
    requires SlotTyped(s, key, t)
    ensures SlotTyped(ApplyPush(hash, s, step), key, t)
  {
    if step.BeginPush? { BeginPushKeepsTyped(hash, s, step, key, t); }
  }

  lemma StepKeepsTyped(hash: Hash, s: State, step: Step, key: string, t: nat)
    requires SlotTyped(s, key, t)
    ensures SlotTyped(Apply(hash, s, step), key, t)
  {
    if PushStep(step) {
      PushStepApplies(hash, s, step);
      PushStepKeepsTyped(hash, s, step, key, t);
    } else {
      StoreUntouched(hash, s, step);
    }
  }

  lemma {:induction false} RunTyped(hash: Hash, steps: seq<Step>, key: string, t: nat)
    ensures SlotTyped(Run(hash, steps), key, t)
  {
    if steps != [] {
      RunTyped(hash, steps[..|steps| - 1], key, t);
      StepKeepsTyped(hash, Run(hash, steps[..|steps| - 1]), steps[|steps| - 1], key, t);
    }
  }

  lemma {:induction false} UnhurriedKeepsCurrent(hash: Hash, steps: seq<Step>, n: nat)
    requires UnhurriedSteps(hash, steps) && n <= |steps|
    ensures InFlightCurrent(Run(hash, steps[..n]))
  {
    if n > 0 {
      var s := Run(hash, steps[..n - 1]);
      UnhurriedKeepsCurrent(hash, steps, n - 1);
      assert steps[..n][..n - 1] == steps[..n - 1];
      assert Unhurried(hash, s, steps[n - 1]);
      forall i: nat ensures SyncCurrent(Run(hash, steps[..n]), i) { StepKeepsSyncCurrent(hash, s, steps[n - 1], i); }
      forall p: nat ensures PushCurrent(Run(hash, steps[..n]), p) {
        assert PushCurrent(s, p);
        StepKeepsPushCurrent(hash, s, steps[n - 1], p);
      }
      forall key, t: nat ensures SlotTyped(Run(hash, steps[..n]), key, t) {
        assert SlotTyped(s, key, t);
        StepKeepsTyped(hash, s, steps[n - 1], key, t);
      }
    }
  }

  /** What is offered was in flight, and if that is current the send is not stale. */
  lemma CurrentSendIsFresh(s: State, step: Step, c: nat, key: string, t: nat)
    requires InFlightCurrent(s)
    ensures !StaleSend(s, step, c, key, t)
  {
    match step
    case SyncOne(i, item) =>
      assert SyncCurrent(s, i);
      if Offers(s, step).Some? { assert SyncCarries(s, i, item); }
    case PushOne(p, _) => assert PushCurrent(s, p);
    case _ =>
  }

  /** If no update of a slot is stored while a push or a full sync still carries an older one, no send is ever stale. */
  lemma UnhurriedIsNeverStale(hash: Hash, steps: seq<Step>)
    requires UnhurriedSteps(hash, steps)
    ensures NeverStale(hash, steps)
  {
    forall k, c, key, t: nat | 0 <= k < |steps| ensures !StaleStep(hash, steps, k, c, key, t) {
      UnhurriedKeepsCurrent(hash, steps, k);
      CurrentSendIsFresh(Run(hash, steps[..k]), steps[k], c, key, t);
    }
  }
}
