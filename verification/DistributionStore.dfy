/**
 The snapshot store and the configs in flight over every concurrent run: the store is that
 of the updates and deletes in the order they took the lock, and whatever is carried or
 queued was stored once (internal/asdp/distributor.go, snapshot.go).
 */
module DistributionStore {
  import opened Text
  import opened Snapshots
  import opened Connections
  import opened Distribution
  import H = SnapshotHistory

  // ----- The store as a history -----

  /** What a step does to the snapshot store; a push id in use makes a push a non-step. */
  function StoreOp(s: State, step: Step): (r: seq<H.Op>) {
    match step
    case BeginPush(p, ns, agent, t, Some(data)) =>
      if p in s.pushes then [] else [H.UpdateOp(SlashKey(ns, agent), t, Some(data))]
    case Forget(ns, agent) => [H.DeleteOp(SlashKey(ns, agent))]
    case _ => []
  }

  /** The updates and deletes of a run, in the order they happened. */
  function StoreOps(hash: Hash, steps: seq<Step>): (ops: seq<H.Op>) {
    if steps == [] then [] else
    var n := |steps| - 1;
    StoreOps(hash, steps[..n]) + StoreOp(Run(hash, steps[..n]), steps[n])
  }

  lemma HistorySnoc(hash: Hash, ops: seq<H.Op>, more: seq<H.Op>)
    requires |more| <= 1
    ensures H.Run(hash, ops + more) == if more == [] then H.Run(hash, ops) else H.Apply(hash, H.Run(hash, ops), more[0])
  {
    if more == [] {
      assert ops + more == ops;
    } else {
      assert (ops + more)[..|ops|] == ops && (ops + more)[|ops|] == more[0];
    }
  }

  lemma PushStepStores(hash: Hash, s: State, step: Step)
    requires PushStep(step)
    ensures var more := StoreOp(s, step);
            ApplyPush(hash, s, step).store == if more == [] then s.store else H.Apply(hash, s.store, more[0])
  {
  }

  /** The store of a concurrent run is the sequential store of its updates and deletes. */
  lemma {:induction false} StoreIsHistory(hash: Hash, steps: seq<Step>)
    ensures Run(hash, steps).store == H.Run(hash, StoreOps(hash, steps))
  {
    if steps != [] {
      var n := |steps| - 1;
      var s := Run(hash, steps[..n]);
      StoreIsHistory(hash, steps[..n]);
      HistorySnoc(hash, StoreOps(hash, steps[..n]), StoreOp(s, steps[n]));
      if PushStep(steps[n]) {
        PushStepApplies(hash, s, steps[n]);
        PushStepStores(hash, s, steps[n]);
      } else {
        StoreUntouched(hash, s, steps[n]);
      }
    }
  }

  /** The contents pushed to a slot since its agent was last forgotten. */
  function PushedContents(hash: Hash, steps: seq<Step>, key: string, t: nat): (r: seq<string>) {
    H.Contents(StoreOps(hash, steps), key, t)
  }

  /**
   In every reachable state a slot is current exactly if something was pushed to it since
   its agent was last forgotten, and then it holds what the history of those pushes makes.
   */
  lemma CurrentIsLastPushed(hash: Hash, steps: seq<Step>, key: string, t: nat)
    ensures HoldsLast(hash, Run(hash, steps), key, t, PushedContents(hash, steps, key, t))
  {
    StoreIsHistory(hash, steps);
    SlotHoldsLast(hash, Run(hash, steps), key, t, StoreOps(hash, steps));
  }

  /** The slot holds what pushing those contents makes of it: the last of them, under the number of changes. */
  predicate HoldsLast(hash: Hash, s: State, key: string, t: nat, xs: seq<string>) {
    var item := Current(s, key, t);
    && (item.Some? <==> xs != [])
    && (item.Some? ==> hash(item.value.snapshot.resources) == hash(xs[|xs| - 1])
                       && item.value.snapshot.version == "v" + Decimal(|H.Dedup(hash, xs)|))
  }

  lemma SlotHoldsLast(hash: Hash, s: State, key: string, t: nat, ops: seq<H.Op>)
    requires s.store == H.Run(hash, ops)
    ensures HoldsLast(hash, s, key, t, H.Contents(ops, key, t))
  {
    H.StoreEqualsHistory(hash, ops, key, t);
    if H.Contents(ops, key, t) != [] { H.DedupLast(hash, H.Contents(ops, key, t)); }
  }

  lemma OpsSnoc(hash: Hash, steps: seq<Step>, step: Step)
    ensures StoreOps(hash, steps + [step]) == StoreOps(hash, steps) + StoreOp(Run(hash, steps), step)
    ensures Run(hash, steps + [step]) == Apply(hash, Run(hash, steps), step)
  {
    assert (steps + [step])[..|steps|] == steps;
  }

  /** Forgetting an agent leaves no type of it current, and every other agent what it was. */
  lemma ForgetClears(hash: Hash, steps: seq<Step>, namespace: string, agent: string, key: string, t: nat)
    ensures var s, s' := Run(hash, steps), Run(hash, steps + [Forget(namespace, agent)]);
            Current(s', key, t) == if key == SlashKey(namespace, agent) then None else Current(s, key, t)
  {
    var forget := Forget(namespace, agent);
    OpsSnoc(hash, steps, forget);
    var ops := StoreOps(hash, steps);
    CurrentIsLastPushed(hash, steps + [forget], key, t);
    assert (ops + [H.DeleteOp(SlashKey(namespace, agent))])[..|ops|] == ops;
  }

  /** Nothing the agent's instances can be sent by a full sync that starts now. */
  lemma ForgottenAgentSyncsNothing(hash: Hash, steps: seq<Step>, i: nat)
    requires At(Run(hash, steps), i, SyncReading)
    requires forall t: nat :: PushedContents(hash, steps, AgentKey(Run(hash, steps).streams[i].id), t) == []
    ensures At(Run(hash, steps + [ReadSnapshots(i)]), i, Receiving)
  {
    var s := Run(hash, steps);
    var key := AgentKey(s.streams[i].id);
    OpsSnoc(hash, steps, ReadSnapshots(i));
    forall t: nat ensures Current(s, key, t).None? { CurrentIsLastPushed(hash, steps, key, t); }
    assert AllCurrent(s, key) == {};
  }

  /** A push whose content has the digest of the last one pushed changes nothing and sends nothing. */
  lemma UnchangedPushIsSilent(hash: Hash, steps: seq<Step>, p: nat, namespace: string, agent: string, t: nat,
                              data: string)
    requires var xs := PushedContents(hash, steps, SlashKey(namespace, agent), t);
             xs != [] && hash(data) == hash(xs[|xs| - 1])
    ensures Run(hash, steps + [BeginPush(p, namespace, agent, t, Some(data))]) == Run(hash, steps)
  {
    OpsSnoc(hash, steps, BeginPush(p, namespace, agent, t, Some(data)));
    CurrentIsLastPushed(hash, steps, SlashKey(namespace, agent), t);
  }

  // ----- Configs in flight -----

  /** A full sync has read the config and may still send it. */
  predicate SyncCarries(s: State, i: nat, item: Item) {
    i in s.streams &&
    match s.streams[i].phase
    case SyncLooking(pending) => item in pending
    case SyncSending(_, pending) => item in pending
    case _ => false
  }

  predicate PushCarries(s: State, p: nat, item: Item) {
    p in s.pushes && s.pushes[p].item == item
  }

  /** The config is in somebody's queue, or a full sync or a push carries it. */
  ghost predicate InFlight(s: State, item: Item) {
    || (exists c :: Enqueued(s, c, item))
    || (exists i :: SyncCarries(s, i, item))
    || (exists p :: PushCarries(s, p, item))
  }

  ghost predicate IsCurrent(s: State, item: Item) {
    exists t :: Current(s, item.key, t) == Some(item)
  }

  lemma SendCarriesOver(s: State, target: nat, m: Message, c: nat, item: Item)
    requires Enqueued(SendTo(s, target, m), c, item)
    ensures Enqueued(s, c, item) || m == Config(item)
  {
  }

  lemma HandshakeQueues(s: State, step: Step, c: nat, item: Item)
    requires Enqueued(ApplyHandshake(s, step), c, item)
    ensures Enqueued(s, c, item)
  {
  }

  lemma StreamQueues(s: State, step: Step, c: nat, item: Item)
    requires Enqueued(ApplyStream(s, step), c, item)
    ensures Enqueued(s, c, item)
  {
    match step
    case ReceiveHeartbeat(i, payload) =>
      if At(s, i, Receiving) { SendCarriesOver(s, i, Other(payload), c, item); }
    case SendOther(i, payload) => SendCarriesOver(s, i, Other(payload), c, item);
    case _ =>
  }

  lemma SyncQueues(s: State, step: Step, c: nat, item: Item)
    requires Enqueued(ApplySync(s, step), c, item)
    ensures Enqueued(s, c, item) || exists i :: SyncCarries(s, i, item)
  {
    if step.SyncOne? && SyncCarries(s, step.stream, step.item) && s.streams[step.stream].phase.SyncSending? {
      SendCarriesOver(s, s.streams[step.stream].phase.target, Config(step.item), c, item);
    }
  }

  lemma PushQueues(hash: Hash, s: State, step: Step, c: nat, item: Item)
    requires Enqueued(ApplyPush(hash, s, step), c, item)
    ensures Enqueued(s, c, item) || exists p :: PushCarries(s, p, item)
  {
    if step.PushOne? && step.push in s.pushes {
      assert PushCarries(s, step.push, s.pushes[step.push].item);
      if !Enqueued(s, c, item) { SendCarriesOver(s, step.conn, Config(s.pushes[step.push].item), c, item); }
    }
  }

  lemma StepQueues(hash: Hash, s: State, step: Step, c: nat, item: Item)
    requires Enqueued(Apply(hash, s, step), c, item)
    ensures InFlight(s, item)
  {
    if PushStep(step) {
      PushQueues(hash, s, step, c, item);
    } else if SyncStep(step) {
      SyncQueues(s, step, c, item);
    } else if step.Stop? {
      assert Enqueued(s, c, item);
    } else if Enqueued(ApplyHandshake(s, step), c, item) {
      HandshakeQueues(s, step, c, item);
    } else {
      StreamQueues(s, step, c, item);
    }
  }

  lemma HandshakeSyncs(s: State, step: Step, i: nat, item: Item)
    requires SyncCarries(ApplyHandshake(s, step), i, item)
    ensures SyncCarries(s, i, item)
  {
  }

  lemma StreamSyncs(s: State, step: Step, i: nat, item: Item)
    requires SyncCarries(ApplyStream(s, step), i, item)
    ensures SyncCarries(s, i, item)
  {
    match step
    case Disconnect(j) => if j in s.streams { UnregisterKeepsStreams(s, InstanceKey(s.streams[j].id), j); }
    case _ =>
  }

  lemma SyncSyncs(s: State, step: Step, i: nat, item: Item)
    requires SyncCarries(ApplySync(s, step), i, item)
    ensures SyncCarries(s, i, item) || IsCurrent(ApplySync(s, step), item)
  {
    if step.ReadSnapshots? && step.stream == i && At(s, i, SyncReading) {
      var key := AgentKey(s.streams[i].id);
      var t :| Current(s, key, t) == Some(item);
      assert Current(ApplySync(s, step), item.key, t) == Some(item);
    }
  }

  lemma StepSyncs(hash: Hash, s: State, step: Step, i: nat, item: Item)
    requires SyncCarries(Apply(hash, s, step), i, item)
    ensures SyncCarries(s, i, item) || IsCurrent(Apply(hash, s, step), item)
  {
    if PushStep(step) {
      assert ApplyPush(hash, s, step).streams == s.streams;
    } else if SyncStep(step) {
      SyncSyncs(s, step, i, item);
    } else if !step.Stop? && SyncCarries(ApplyHandshake(s, step), i, item) {
      HandshakeSyncs(s, step, i, item);
    } else if !step.Stop? {
      StreamSyncs(s, step, i, item);
    }
  }

  lemma PushPushes(hash: Hash, s: State, step: Step, p: nat, item: Item)
    requires PushStep(step) && PushCarries(ApplyPush(hash, s, step), p, item)
    ensures PushCarries(s, p, item) || IsCurrent(ApplyPush(hash, s, step), item)
  {
    var s' := ApplyPush(hash, s, step);
    if step.BeginPush? && !PushCarries(s, p, item) {
      assert Current(s', SlashKey(step.namespace, step.agent), step.cfgType) == Some(item);
    }
  }

  lemma StepPushes(hash: Hash, s: State, step: Step, p: nat, item: Item)
    requires PushCarries(Apply(hash, s, step), p, item)
    ensures PushCarries(s, p, item) || IsCurrent(Apply(hash, s, step), item)
  {
    if PushStep(step) {
      PushStepApplies(hash, s, step);
      PushPushes(hash, s, step, p, item);
    } else {
      StoreUntouched(hash, s, step);
    }
  }

  /** No step invents a config: what it puts in flight was in flight, or is current. */
  lemma NoConfigIsInvented(hash: Hash, s: State, step: Step, item: Item)
    requires InFlight(Apply(hash, s, step), item)
    ensures InFlight(s, item) || IsCurrent(Apply(hash, s, step), item)
  {
    var s' := Apply(hash, s, step);
    if c :| Enqueued(s', c, item) {
      StepQueues(hash, s, step, c, item);
    } else if i :| SyncCarries(s', i, item) {
      StepSyncs(hash, s, step, i, item);
    } else {
      var p :| PushCarries(s', p, item);
      StepPushes(hash, s, step, p, item);
    }
  }

  /** The config was its slot's current one after some prefix of the run. */
  ghost predicate WasCurrent(hash: Hash, steps: seq<Step>, item: Item) {
    exists k, t: nat :: CurrentAfter(hash, steps, k, item, t)
  }

  predicate CurrentAfter(hash: Hash, steps: seq<Step>, k: nat, item: Item, t: nat) {
    k <= |steps| && Current(Run(hash, steps[..k]), item.key, t) == Some(item)
  }

  /** Everything in flight was stored under its key at some moment of the run. */
  lemma {:induction false} InFlightWasCurrent(hash: Hash, steps: seq<Step>, item: Item)
    requires InFlight(Run(hash, steps), item)
    ensures WasCurrent(hash, steps, item)
  {
    if steps != [] {
      var n := |steps| - 1;
      NoConfigIsInvented(hash, Run(hash, steps[..n]), steps[n], item);
      if InFlight(Run(hash, steps[..n]), item) {
        InFlightWasCurrent(hash, steps[..n], item);
        var k: nat, t: nat :| CurrentAfter(hash, steps[..n], k, item, t);
        assert steps[..n][..k] == steps[..k];
        assert CurrentAfter(hash, steps, k, item, t);
      } else {
        var t :| Current(Run(hash, steps), item.key, t) == Some(item);
        assert steps[..|steps|] == steps;
        assert CurrentAfter(hash, steps, |steps|, item, t);
      }
    }
  }

  // ----- Nonces in flight -----

  predicate OpsExtend(hash: Hash, steps: seq<Step>, longer: seq<Step>) {
    StoreOps(hash, steps) <= StoreOps(hash, longer)
  }

  lemma LastExtends(hash: Hash, steps: seq<Step>)
    requires steps != []
    ensures OpsExtend(hash, steps[..|steps| - 1], steps)
  {
  }

  lemma ExtendTwice(a: seq<H.Op>, b: seq<H.Op>, c: seq<H.Op>)
    requires a <= b <= c
    ensures a <= c
  {
  }

  lemma {:induction false} OpsPrefix(hash: Hash, steps: seq<Step>, k: nat)
    requires k <= |steps|
    ensures OpsExtend(hash, steps[..k], steps)
  {
    if k < |steps| {
      var n := |steps| - 1;
      assert steps[..n][..k] == steps[..k];
      OpsPrefix(hash, steps[..n], k);
      LastExtends(hash, steps);
      ExtendTwice(StoreOps(hash, steps[..k]), StoreOps(hash, steps[..n]), StoreOps(hash, steps));
    } else {
      assert steps[..k] == steps;
    }
  }

  /** No step forgets the agent of that key. */
  predicate NeverForgotten(steps: seq<Step>, key: string) {
    forall i :: 0 <= i < |steps| && steps[i].Forget? ==> SlashKey(steps[i].namespace, steps[i].agent) != key
  }

  lemma {:induction false} NoDeletes(hash: Hash, steps: seq<Step>, key: string)
    requires NeverForgotten(steps, key)
    ensures H.DeleteOp(key) !in StoreOps(hash, steps)
  {
    if steps != [] {
      NoDeletes(hash, steps[..|steps| - 1], key);
    }
  }

  /** A config of the run as a snapshot of its store's history. */
  lemma AsHistory(hash: Hash, steps: seq<Step>, item: Item) returns (ops: seq<H.Op>, t: nat)
    requires WasCurrent(hash, steps, item)
    ensures ops <= StoreOps(hash, steps) && H.SlotAfter(hash, ops, item.key, t) == Some(item.snapshot)
    ensures item.snapshot.cfgType == t
  {
    var k: nat, u: nat :| CurrentAfter(hash, steps, k, item, u);
    ops, t := StoreOps(hash, steps[..k]), u;
    OpsPrefix(hash, steps, k);
    assert OpsExtend(hash, steps[..k], steps);
    StoreIsHistory(hash, steps[..k]);
    H.StoredSnapshot(hash, ops, item.key, t);
  }

  lemma SameVersionSameSnapshot(hash: Hash, all: seq<H.Op>, ops: seq<H.Op>, ops': seq<H.Op>, key: string, t: nat)
    requires ops <= ops' <= all && H.DeleteOp(key) !in all
    requires H.SlotAfter(hash, ops, key, t).Some? && H.SlotAfter(hash, ops', key, t).Some?
    requires H.SlotAfter(hash, ops, key, t).value.version == H.SlotAfter(hash, ops', key, t).value.version
    ensures H.SlotAfter(hash, ops, key, t) == H.SlotAfter(hash, ops', key, t)
  {
    assert ops'[..|ops|] == ops;
    forall x | x in ops'[|ops|..] ensures x in all {}
    H.VersionIdentifiesContent(hash, ops', |ops|, key, t);
  }

  /**
   With a collision-free digest, two configs in flight anywhere have the same nonce only if
   agent key, config type and version agree; and then they are the same snapshot, unless
   their agent was forgotten meanwhile.
   */
  lemma NonceNamesConfig(hash: Hash, steps: seq<Step>, x: Item, y: Item)
    requires H.Injective(hash) && WasCurrent(hash, steps, x) && WasCurrent(hash, steps, y)
    ensures x.snapshot.nonce == y.snapshot.nonce
            <==> && x.key == y.key && x.snapshot.cfgType == y.snapshot.cfgType
                 && x.snapshot.version == y.snapshot.version
    ensures x.snapshot.nonce == y.snapshot.nonce && NeverForgotten(steps, x.key) ==> x.snapshot == y.snapshot
  {
    var ops, t := AsHistory(hash, steps, x);
    var ops', t' := AsHistory(hash, steps, y);
    H.NonceNamesVersion(hash, ops, x.key, t, ops', y.key, t');
    if x.snapshot.nonce == y.snapshot.nonce && NeverForgotten(steps, x.key) {
      NoDeletes(hash, steps, x.key);
      var all := StoreOps(hash, steps);
      if |ops| <= |ops'| {
        assert ops <= ops';
        SameVersionSameSnapshot(hash, all, ops, ops', x.key, t);
      } else {
        assert ops' <= ops;
        SameVersionSameSnapshot(hash, all, ops', ops, x.key, t);
      }
    }
  }
}
