/**
 The connection registry over every run: lookups, teardowns, the gauge, and how a
 connection leaves (internal/asdp/server.go, connect_handler.go, service.go).
 */
module DistributionRegistry {
  import opened Text
  import opened Snapshots
  import opened Connections
  import opened Distribution

  // ----- Lookups and teardowns -----

  /** Streams whose namespace holds no '/'. */
  predicate ClaimsSlashFree(steps: seq<Step>) {
    forall i :: 0 <= i < |steps| && steps[i].Open? ==> SlashFree(steps[i].id.namespace)
  }

  ghost predicate IdentitySlashFree(s: State, i: nat) {
    i in s.streams && !s.streams[i].phase.Ended? ==> SlashFree(s.streams[i].id.namespace)
  }

  lemma {:induction false} RunKeepsSlashFree(hash: Hash, steps: seq<Step>, i: nat)
    requires ClaimsSlashFree(steps)
    ensures IdentitySlashFree(Run(hash, steps), i)
  {
    if steps != [] {
      var n := |steps| - 1;
      RunKeepsSlashFree(hash, steps[..n], i);
      if !steps[n].Open? { StepKeepsIdentity(hash, Run(hash, steps[..n]), steps[n], i); }
    }
  }

  /** After the run, a lookup of this instance finds its own connection or none. */
  predicate FindsOwn(hash: Hash, steps: seq<Step>, namespace: string, instance: string) {
    var s := Run(hash, steps);
    var key := SlashKey(namespace, instance);
    key in s.registry.entries ==>
      var c := s.registry.entries[key];
      c in s.streams && s.streams[c].id.namespace == namespace && s.streams[c].id.instance == instance
  }

  /** A lookup never returns another instance's connection. */
  lemma LookupFindsOwnInstance(hash: Hash, steps: seq<Step>, namespace: string, instance: string)
    requires ClaimsSlashFree(steps) && SlashFree(namespace)
    ensures FindsOwn(hash, steps, namespace, instance)
  {
    var s := Run(hash, steps);
    RunKeepsFiled(hash, steps);
    var key := SlashKey(namespace, instance);
    if key in s.registry.entries {
      assert EntryMatches(s, key);
      RunKeepsSlashFree(hash, steps, s.registry.entries[key]);
      var id := s.streams[s.registry.entries[key]].id;
      SlashKeyInjective(namespace, instance, id.namespace, id.instance);
    }
  }

  /** From s to s', exactly the entries holding i go, and the gauge falls with the size. */
  predicate RemovesOnly(s: State, s': State, i: nat, k: string) {
    && (k in s'.registry.entries <==> k in s.registry.entries && s.registry.entries[k] != i)
    && (k in s'.registry.entries ==> s'.registry.entries[k] == s.registry.entries[k])
    && s.registry.gauge - s'.registry.gauge == |s.registry.entries| - |s'.registry.entries|
  }

  lemma DisconnectGauge(s: State, i: nat)
    requires At(s, i, Disconnecting)
    ensures var s' := ApplyStream(s, Disconnect(i));
            s.registry.gauge - s'.registry.gauge == |s.registry.entries| - |s'.registry.entries|
  {
    UnregisterIsExact(s.registry, InstanceKey(s.streams[i].id), i);
  }

  /** If the run leaves stream i about to be torn down, the teardown removes its own entry and no other. */
  predicate TeardownIsExact(hash: Hash, steps: seq<Step>, i: nat, k: string) {
    var s := Run(hash, steps);
    At(s, i, Disconnecting) ==> RemovesOnly(s, ApplyStream(s, Disconnect(i)), i, k)
  }

  /** Tearing down stream i leaves exactly the other connections registered, each under its key. */
  lemma TeardownRemovesOnlyOwn(hash: Hash, steps: seq<Step>, i: nat, k: string)
    ensures TeardownIsExact(hash, steps, i, k)
  {
    var s := Run(hash, steps);
    RunKeepsFiled(hash, steps);
    assert EntryMatches(s, k);
    if At(s, i, Disconnecting) {
      DisconnectGauge(s, i);
      DisconnectKeepsEntry(s, i, k);
    }
  }

  // ----- The gauge -----

  ghost predicate GaugeLaw(s: State) {
    s.registry.gauge == |s.registry.entries| + s.overwritten + s.cleared
  }

  lemma SizeOfUpdate(m: map<string, nat>, key: string, c: nat)
    ensures |m[key := c]| == |m| + if key in m then 0 else 1
  {
    assert m[key := c].Keys == m.Keys + {key};
    assert |m[key := c]| == |m[key := c].Keys| && |m| == |m.Keys|;
  }

  lemma RegisterGauge(s: State, step: Step)
    requires GaugeLaw(s)
    ensures GaugeLaw(ApplyHandshake(s, step))
  {
    match step
    case RegisterStream(i) =>
      if At(s, i, Registering) { SizeOfUpdate(s.registry.entries, InstanceKey(s.streams[i].id), i); }
    case _ =>
  }

  lemma StreamGauge(s: State, step: Step)
    requires GaugeLaw(s)
    ensures GaugeLaw(ApplyStream(s, step))
  {
    if step.Disconnect? && At(s, step.stream, Disconnecting) { DisconnectGauge(s, step.stream); }
  }

  lemma StepGauge(hash: Hash, s: State, step: Step)
    requires GaugeLaw(s)
    ensures GaugeLaw(Apply(hash, s, step))
  {
    RegisterGauge(s, step);
    StreamGauge(s, step);
    assert ApplySync(s, step).registry == s.registry;
    assert ApplyPush(hash, s, step).registry == s.registry;
  }

  /** gauge = registered + overwriting registrations + entries cleared by Stop, in every reachable state. */
  lemma {:induction false} GaugeAlways(hash: Hash, steps: seq<Step>)
    ensures GaugeLaw(Run(hash, steps))
  {
    if steps != [] {
      var s := Run(hash, steps[..|steps| - 1]);
      GaugeAlways(hash, steps[..|steps| - 1]);
      StepGauge(hash, s, steps[|steps| - 1]);
    }
  }

  // ----- Leaving the registry -----

  predicate Registered(s: State, c: nat) {
    c in s.streams && InstanceKey(s.streams[c].id) in s.registry.entries
    && s.registry.entries[InstanceKey(s.streams[c].id)] == c
  }

  /** A connection is registered, or has been closed, or another registration overwrote it. */
  predicate Accounted(s: State, c: nat) {
    c in s.channels ==> c in s.streams && (Registered(s, c) || s.channels[c].cancelled || c in s.orphans)
  }

  ghost predicate AllAccounted(s: State) {
    && (forall k :: EntryMatches(s, k))
    && (forall c :: Accounted(s, c))
  }

  lemma UnregisterAccounts(s: State, key: string, conn: nat, c: nat)
    requires Accounted(s, c) && EntryMatches(s, key)
    ensures Accounted(UnregisterConn(s, key, conn), c)
  {
  }

  lemma GotoAccounts(s: State, i: nat, phase: Phase, c: nat)
    requires Accounted(s, c) && i in s.streams
    ensures Accounted(Goto(s, i, phase), c)
  {
  }

  lemma HandshakeAccounts(s: State, step: Step, c: nat)
    requires AllAccounted(s)
    ensures Accounted(ApplyHandshake(s, step), c)
  {
    assert Accounted(s, c);
    match step
    case EvictExisting(i) =>
      if i in s.streams && s.streams[i].phase.Evicting? {
        var key := InstanceKey(s.streams[i].id);
        assert EntryMatches(s, key);
        UnregisterAccounts(s, key, s.streams[i].phase.existing, c);
        GotoAccounts(UnregisterConn(s, key, s.streams[i].phase.existing), i, Acking, c);
      }
    case RegisterStream(i) =>
      if i in s.streams { assert EntryMatches(s, InstanceKey(s.streams[i].id)); }
    case _ =>
  }

  lemma ChannelAccounts(s: State, target: nat, m: Message, c: nat)
    requires Accounted(s, c)
    ensures Accounted(SendTo(s, target, m), c) && Accounted(CancelConn(s, target), c)
  {
  }

  lemma StreamAccounts(s: State, step: Step, c: nat)
    requires AllAccounted(s)
    ensures Accounted(ApplyStream(s, step), c)
  {
    assert Accounted(s, c);
    match step
    case ReceiveHeartbeat(i, payload) => ChannelAccounts(s, i, Other(payload), c);
    case SendOther(i, payload) => ChannelAccounts(s, i, Other(payload), c);
    case CancelContext(i) => ChannelAccounts(s, i, Other(""), c);
    case CloseRefused(i) => ChannelAccounts(s, i, Other(""), c);
    case CancelOwn(i) => ChannelAccounts(s, i, Other(""), c);
    case Disconnect(i) =>
      if At(s, i, Disconnecting) {
        var key := InstanceKey(s.streams[i].id);
        assert EntryMatches(s, key);
        UnregisterAccounts(s, key, i, c);
        GotoAccounts(UnregisterConn(s, key, i), i, Cancelling, c);
      }
    case _ =>
  }

  lemma SyncAccounts(s: State, step: Step, c: nat)
    requires AllAccounted(s)
    ensures Accounted(ApplySync(s, step), c)
  {
    assert Accounted(s, c);
    if step.SyncOne? && step.stream in s.streams && s.streams[step.stream].phase.SyncSending? {
      ChannelAccounts(s, s.streams[step.stream].phase.target, Config(step.item), c);
    }
  }

  lemma PushAccounts(hash: Hash, s: State, step: Step, c: nat)
    requires AllAccounted(s)
    ensures Accounted(ApplyPush(hash, s, step), c)
  {
    assert Accounted(s, c);
    if step.PushOne? && step.push in s.pushes {
      ChannelAccounts(s, step.conn, Config(s.pushes[step.push].item), c);
    }
  }

  lemma StopAccounts(s: State, c: nat)
    requires AllAccounted(s)
    ensures Accounted(ApplyStop(s), c)
  {
    assert Accounted(s, c);
  }

  lemma StepAccounts(hash: Hash, s: State, step: Step, c: nat)
    requires AllAccounted(s)
    ensures Accounted(Apply(hash, s, step), c)
  {
    match step
    case Stop => StopAccounts(s, c);
    case _ =>
      HandshakeAccounts(s, step, c);
      StreamAccounts(s, step, c);
      SyncAccounts(s, step, c);
      PushAccounts(hash, s, step, c);
  }

  /** After the run, c is registered, closed or overwritten. */
  predicate AccountedAfter(hash: Hash, steps: seq<Step>, c: nat) {
    Accounted(Run(hash, steps), c)
  }

  /** No connection silently falls out of the registry: it is closed first, or it was overwritten. */
  lemma LeavingMeansClosed(hash: Hash, steps: seq<Step>, c: nat)
    ensures AccountedAfter(hash, steps, c)
  {
    RunAccounts(hash, steps);
  }

  lemma {:induction false} RunAccounts(hash: Hash, steps: seq<Step>)
    ensures forall c :: Accounted(Run(hash, steps), c)
  {
    if steps != [] {
      var n := |steps| - 1;
      var s := Run(hash, steps[..n]);
      RunAccounts(hash, steps[..n]);
      RunKeepsFiled(hash, steps[..n]);
      forall c: nat ensures Accounted(Run(hash, steps), c) { StepAccounts(hash, s, steps[n], c); }
    }
  }

  // ----- How a registration ends -----

  /** The steps that end c's registration: exactly these, when enabled. */
  predicate EndsRegistration(s: State, step: Step, c: nat)
    requires c in s.streams
  {
    match step
    case Stop => true
    case Disconnect(i) => i == c && At(s, c, Disconnecting)
    case EvictExisting(i) =>
      At(s, i, Evicting(c)) && InstanceKey(s.streams[i].id) == InstanceKey(s.streams[c].id)
    case RegisterStream(i) => At(s, i, Registering) && InstanceKey(s.streams[i].id) == InstanceKey(s.streams[c].id)
    case _ => false
  }

  /** c is registered after the run, and the next step ends that if and only if it is one of those. */
  predicate EndsExactly(hash: Hash, steps: seq<Step>, step: Step, c: nat) {
    var s := Run(hash, steps);
    Registered(s, c) ==> (!Registered(Apply(hash, s, step), c) <==> EndsRegistration(s, step, c))
  }

  lemma EvictEndsExactly(hash: Hash, s: State, i: nat, c: nat)
    requires Filed(s) && Registered(s, c)
    ensures !Registered(Apply(hash, s, EvictExisting(i)), c) <==> EndsRegistration(s, EvictExisting(i), c)
  {
    assert EntryMatches(s, InstanceKey(s.streams[c].id));
  }

  lemma RegisterEndsExactly(hash: Hash, s: State, i: nat, c: nat)
    requires Filed(s) && Registered(s, c)
    ensures !Registered(Apply(hash, s, RegisterStream(i)), c) <==> EndsRegistration(s, RegisterStream(i), c)
  {
    assert EntryMatches(s, InstanceKey(s.streams[c].id)) && StreamOk(s, c);
  }

  lemma DisconnectEndsExactly(hash: Hash, s: State, i: nat, c: nat)
    requires Filed(s) && Registered(s, c)
    ensures !Registered(Apply(hash, s, Disconnect(i)), c) <==> EndsRegistration(s, Disconnect(i), c)
  {
    assert EntryMatches(s, InstanceKey(s.streams[c].id));
    if At(s, i, Disconnecting) { assert EntryMatches(s, InstanceKey(s.streams[i].id)); }
  }

  predicate MayEndRegistration(step: Step) {
    step.Stop? || step.Disconnect? || step.EvictExisting? || step.RegisterStream?
  }

  lemma HandshakeKeepsRegistered(s: State, step: Step, c: nat)
    requires Registered(s, c) && !MayEndRegistration(step)
    ensures Registered(ApplyHandshake(s, step), c)
  {
  }

  lemma StreamKeepsRegistered(s: State, step: Step, c: nat)
    requires Registered(s, c) && !MayEndRegistration(step)
    ensures Registered(ApplyStream(s, step), c)
  {
  }

  lemma SyncKeepsRegistered(s: State, step: Step, c: nat)
    requires Registered(s, c)
    ensures Registered(ApplySync(s, step), c)
  {
  }

  lemma PushKeepsRegistered(hash: Hash, s: State, step: Step, c: nat)
    requires Registered(s, c)
    ensures Registered(ApplyPush(hash, s, step), c)
  {
  }

  lemma OthersKeepRegistered(hash: Hash, s: State, step: Step, c: nat)
    requires Registered(s, c) && !MayEndRegistration(step)
    ensures Registered(Apply(hash, s, step), c)
  {
    HandshakeKeepsRegistered(s, step, c);
    SyncKeepsRegistered(s, step, c);
    StreamKeepsRegistered(s, step, c);
    PushKeepsRegistered(hash, s, step, c);
  }

  lemma StepEndsExactly(hash: Hash, s: State, step: Step, c: nat)
    requires Filed(s) && Registered(s, c)
    ensures !Registered(Apply(hash, s, step), c) <==> EndsRegistration(s, step, c)
  {
    if MayEndRegistration(step) {
      match step
      case EvictExisting(i) => EvictEndsExactly(hash, s, i, c);
      case RegisterStream(i) => RegisterEndsExactly(hash, s, i, c);
      case Disconnect(i) => DisconnectEndsExactly(hash, s, i, c);
      case _ =>
    } else {
      OthersKeepRegistered(hash, s, step, c);
    }
  }

  /**
   In every reachable state a registration ends exactly by Stop, by the stream's own
   teardown, by an eviction that found it, or by another registration under its key.
   */
  lemma RegistrationEndsIff(hash: Hash, steps: seq<Step>, step: Step, c: nat)
    ensures EndsExactly(hash, steps, step, c)
  {
    RunKeepsFiled(hash, steps);
    if Registered(Run(hash, steps), c) { StepEndsExactly(hash, Run(hash, steps), step, c); }
  }
}
