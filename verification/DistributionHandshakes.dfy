/**
 The life of a stream: who may connect, what a handshake does to the connection it finds,
 and how full syncs and streams end. Every run evicts the stale connection of a
 reconnecting instance, and only a competing handshake can leave one overwritten
 (internal/asdp/connect_handler.go, service.go).
 */
module DistributionHandshakes {
  import opened Text
  import opened Snapshots
  import opened Connections
  import opened Distribution
  import opened DistributionRegistry

  // ----- Who may register -----

  /** What a handshake demands: a complete identity, and a certificate that authorises it if there is one. */
  predicate OpenedAs(steps: seq<Step>, i: nat, id: Identity) {
    Open(i, id, true) in steps && id.namespace != "" && id.agent != "" && id.instance != ""
  }

  /** A stream past its checks was opened as what it claims to be, and registers only after its ack was sent. */
  predicate Authorised(s: State, steps: seq<Step>, i: nat) {
    && (i in s.streams && !s.streams[i].phase.Ended? ==> OpenedAs(steps, i, s.streams[i].id))
    && (i in s.channels ==> i in s.streams && OpenedAs(steps, i, s.streams[i].id) && SendAck(i, true) in steps)
    && (At(s, i, Registering) ==> SendAck(i, true) in steps)
  }

  lemma HistoryKeepsAuthorised(s: State, before: seq<Step>, step: Step, i: nat)
    requires Authorised(s, before, i)
    ensures Authorised(s, before + [step], i)
  {
    forall x | x in before ensures x in before + [step] {}
  }

  /** Moving on within a handshake, or out of it, keeps a stream authorised. */
  lemma GotoKeepsAuthorised(s: State, s1: State, steps: seq<Step>, j: nat, phase: Phase, i: nat)
    requires Authorised(s, steps, i) && s1.streams == s.streams && s1.channels.Keys == s.channels.Keys
    requires j in s.streams && !s.streams[j].phase.Ended?
    requires phase.Registering? ==> SendAck(j, true) in steps
    ensures Authorised(Goto(s1, j, phase), steps, i)
  {
  }

  lemma OpenKeepsAuthorised(s: State, steps: seq<Step>, step: Step, i: nat)
    requires StreamOk(s, i) && Authorised(s, steps, i) && step.Open? && step in steps
    ensures Authorised(ApplyHandshake(s, step), steps, i)
  {
  }

  lemma RegisterKeepsAuthorised(s: State, steps: seq<Step>, j: nat, i: nat)
    requires Authorised(s, steps, i)
    ensures Authorised(ApplyHandshake(s, RegisterStream(j)), steps, i)
  {
  }

  lemma UnregisterKeepsKeys(s: State, key: string, conn: nat)
    ensures UnregisterConn(s, key, conn).channels.Keys == s.channels.Keys
  {
  }

  lemma HandshakeKeepsAuthorised(s: State, steps: seq<Step>, step: Step, i: nat)
    requires StreamOk(s, i) && Authorised(s, steps, i) && step in steps
    ensures Authorised(ApplyHandshake(s, step), steps, i)
  {
    match step
    case Open(_, _, _) => OpenKeepsAuthorised(s, steps, step, i);
    case LookUpExisting(j) =>
      if At(s, j, LookingUp) {
        GotoKeepsAuthorised(s, s, steps, j, ApplyHandshake(s, step).streams[j].phase, i);
      }
    case EvictExisting(j) =>
      if j in s.streams && s.streams[j].phase.Evicting? {
        var key, c := InstanceKey(s.streams[j].id), s.streams[j].phase.existing;
        UnregisterKeepsStreams(s, key, c);
        UnregisterKeepsKeys(s, key, c);
        GotoKeepsAuthorised(s, UnregisterConn(s, key, c), steps, j, Acking, i);
      }
    case SendAck(j, sent) =>
      if At(s, j, Acking) { GotoKeepsAuthorised(s, s, steps, j, if sent then Registering else Ended, i); }
    case RegisterStream(j) => RegisterKeepsAuthorised(s, steps, j, i);
    case _ =>
  }

  /** From s to s', i keeps its identity, and its phase unless it moves on past its registration. */
  predicate KeepsHandshake(s: State, s': State, i: nat) {
    && s'.channels.Keys == s.channels.Keys && (i in s'.streams <==> i in s.streams)
    && (i in s.streams ==> s'.streams[i].id == s.streams[i].id)
    && (i in s.streams && s'.streams[i].phase != s.streams[i].phase ==>
          !BeforeConnection(s'.streams[i].phase) && !BeforeConnection(s.streams[i].phase)
          && !s.streams[i].phase.Ended?)
  }

  lemma SyncKeepsHandshake(s: State, step: Step, i: nat)
    ensures KeepsHandshake(s, ApplySync(s, step), i)
  {
  }

  lemma GotoKeepsHandshake(s: State, s1: State, j: nat, phase: Phase, i: nat)
    requires s1.streams == s.streams && s1.channels.Keys == s.channels.Keys && j in s.streams
    requires !BeforeConnection(phase) && !BeforeConnection(s.streams[j].phase) && !s.streams[j].phase.Ended?
    ensures KeepsHandshake(s, Goto(s1, j, phase), i)
  {
  }

  lemma StreamKeepsHandshake(s: State, step: Step, i: nat)
    ensures KeepsHandshake(s, ApplyStream(s, step), i)
  {
    match step
    case Disconnect(j) =>
      if At(s, j, Disconnecting) {
        var key := InstanceKey(s.streams[j].id);
        UnregisterKeepsStreams(s, key, j);
        UnregisterKeepsKeys(s, key, j);
        GotoKeepsHandshake(s, UnregisterConn(s, key, j), j, Cancelling, i);
      }
    case ReceiveError(j) => if At(s, j, Receiving) { GotoKeepsHandshake(s, s, j, Disconnecting, i); }
    case CancelOwn(j) => if At(s, j, Cancelling) { GotoKeepsHandshake(s, CancelConn(s, j), j, Ended, i); }
    case _ =>
  }

  lemma PushKeepsHandshake(hash: Hash, s: State, step: Step, i: nat)
    ensures KeepsHandshake(s, ApplyPush(hash, s, step), i)
  {
  }

  /** Only a stream's own handshake steps change where it stands in its handshake. */
  lemma OthersKeepHandshake(hash: Hash, s: State, step: Step, i: nat)
    requires !step.Open? && !step.LookUpExisting? && !step.EvictExisting? && !step.SendAck? && !step.RegisterStream?
    ensures KeepsHandshake(s, Apply(hash, s, step), i)
  {
    SyncKeepsHandshake(s, step, i);
    StreamKeepsHandshake(s, step, i);
    PushKeepsHandshake(hash, s, step, i);
  }

  lemma StepKeepsAuthorised(hash: Hash, s: State, before: seq<Step>, step: Step, i: nat)
    requires StreamOk(s, i) && Authorised(s, before, i)
    ensures Authorised(Apply(hash, s, step), before + [step], i)
  {
    HistoryKeepsAuthorised(s, before, step, i);
    assert (before + [step])[|before|] == step;
    if step.Open? || step.LookUpExisting? || step.EvictExisting? || step.SendAck? || step.RegisterStream? {
      HandshakeKeepsAuthorised(s, before + [step], step, i);
    } else {
      OthersKeepHandshake(hash, s, step, i);
    }
  }

  lemma {:induction false} RunAuthorised(hash: Hash, steps: seq<Step>, i: nat)
    ensures Authorised(Run(hash, steps), steps, i)
  {
    if steps != [] {
      var n := |steps| - 1;
      RunAuthorised(hash, steps[..n], i);
      RunKeepsFiled(hash, steps[..n]);
      assert StreamOk(Run(hash, steps[..n]), i);
      StepKeepsAuthorised(hash, Run(hash, steps[..n]), steps[..n], steps[n], i);
      assert steps[..n] + [steps[n]] == steps;
    }
  }

  /** Only streams that passed every check ever have a connection or an entry. */
  lemma OnlyAuthorisedConnect(hash: Hash, steps: seq<Step>, c: nat)
    requires c in Run(hash, steps).channels || c in Run(hash, steps).registry.entries.Values
    ensures c in Run(hash, steps).streams && OpenedAs(steps, c, Run(hash, steps).streams[c].id)
    ensures SendAck(c, true) in steps
  {
    var s := Run(hash, steps);
    RunAuthorised(hash, steps, c);
    RunKeepsFiled(hash, steps);
    if c in s.registry.entries.Values {
      var k :| k in s.registry.entries && s.registry.entries[k] == c;
      assert EntryMatches(s, k);
    }
  }

  // ----- What one step does to an entry and to an eviction -----

  /** The step registers d under the key. */
  predicate RegistersUnder(s: State, step: Step, d: nat, key: string) {
    step == RegisterStream(d) && At(s, d, Registering) && InstanceKey(s.streams[d].id) == key
  }

  /** An entry stays, goes, or is replaced by the stream that registers under the key. */
  predicate EntryMoves(s: State, s': State, step: Step, key: string) {
    key in s'.registry.entries ==>
      || (key in s.registry.entries && s'.registry.entries[key] == s.registry.entries[key])
      || RegistersUnder(s, step, s'.registry.entries[key], key)
  }

  lemma HandshakeMovesEntry(s: State, step: Step, key: string)
    ensures EntryMoves(s, ApplyHandshake(s, step), step, key)
  {
  }

  lemma StreamMovesEntry(s: State, step: Step, key: string)
    ensures EntryMoves(s, ApplyStream(s, step), step, key)
  {
  }

  lemma StepMovesEntry(hash: Hash, s: State, step: Step, key: string)
    ensures EntryMoves(s, Apply(hash, s, step), step, key)
  {
    HandshakeMovesEntry(s, step, key);
    StreamMovesEntry(s, step, key);
    assert ApplySync(s, step).registry == s.registry;
    assert ApplyPush(hash, s, step).registry == s.registry;
  }

  /** Stream i has found that connection and is about to evict it. */
  predicate AboutToEvict(s: State, i: nat, c: nat) {
    At(s, i, Evicting(c))
  }

  lemma HandshakeKeepsEviction(s: State, step: Step, i: nat, c: nat)
    requires AboutToEvict(s, i, c) && step != EvictExisting(i)
    ensures AboutToEvict(ApplyHandshake(s, step), i, c)
  {
    if step.EvictExisting? && step.stream in s.streams && s.streams[step.stream].phase.Evicting? {
      UnregisterKeepsStreams(s, InstanceKey(s.streams[step.stream].id), s.streams[step.stream].phase.existing);
    }
  }

  /** Nothing but its own next step takes a stream out of its eviction. */
  lemma StepKeepsEviction(hash: Hash, s: State, step: Step, i: nat, c: nat)
    requires AboutToEvict(s, i, c) && step != EvictExisting(i)
    ensures AboutToEvict(Apply(hash, s, step), i, c)
  {
    if step.Open? || step.LookUpExisting? || step.EvictExisting? || step.SendAck? || step.RegisterStream? {
      HandshakeKeepsEviction(s, step, i, c);
    } else {
      OthersKeepHandshake(hash, s, step, i);
    }
  }

  /** Evicting c leaves the key free unless somebody else holds it. */
  lemma EvictionFreesKey(hash: Hash, s: State, i: nat, c: nat)
    requires AboutToEvict(s, i, c)
    ensures var key := InstanceKey(s.streams[i].id);
            var s' := Apply(hash, s, EvictExisting(i));
            key in s'.registry.entries ==> s'.registry.entries[key] != c
  {
  }

  lemma HandshakeKeepsId(s: State, step: Step, i: nat)
    requires i in s.streams
    ensures i in ApplyHandshake(s, step).streams && ApplyHandshake(s, step).streams[i].id == s.streams[i].id
    ensures ApplyHandshake(s, step).streams[i].phase != LookingUp || s.streams[i].phase == LookingUp
  {
  }

  lemma StepKeepsId(hash: Hash, s: State, step: Step, i: nat)
    requires i in s.streams
    ensures i in Apply(hash, s, step).streams && Apply(hash, s, step).streams[i].id == s.streams[i].id
    ensures Apply(hash, s, step).streams[i].phase != LookingUp || s.streams[i].phase == LookingUp
  {
    if step.Open? || step.LookUpExisting? || step.EvictExisting? || step.SendAck? || step.RegisterStream? {
      HandshakeKeepsId(s, step, i);
    } else {
      OthersKeepHandshake(hash, s, step, i);
    }
  }

  // ----- From a lookup on -----

  /** Step j is stream i's lookup of an existing connection. */
  predicate LooksUpAt(hash: Hash, steps: seq<Step>, j: nat, i: nat) {
    j < |steps| && steps[j] == LookUpExisting(i) && At(Run(hash, steps[..j]), i, LookingUp)
  }

  /** Step k registers d under the key. */
  predicate RegistersAt(hash: Hash, steps: seq<Step>, k: nat, d: nat, key: string) {
    k < |steps| && RegistersUnder(Run(hash, steps[..k]), steps[k], d, key)
  }

  /** d registered under the key after step j. */
  ghost predicate RegisteredSince(hash: Hash, steps: seq<Step>, j: nat, d: nat, key: string) {
    exists k :: j < k < |steps| && RegistersAt(hash, steps, k, d, key)
  }

  /** The holder of the key, if any, registered after step j. */
  ghost predicate HolderIsNewer(hash: Hash, steps: seq<Step>, j: nat, key: string) {
    HolderSince(hash, steps, Run(hash, steps), j, key)
  }

  ghost predicate HolderSince(hash: Hash, steps: seq<Step>, s: State, j: nat, key: string) {
    key in s.registry.entries ==> RegisteredSince(hash, steps, j, s.registry.entries[key], key)
  }

  /** i's lookup has passed: whoever holds its key is newer, or is what i found and is about to evict. */
  ghost predicate LookedUp(hash: Hash, steps: seq<Step>, j: nat, i: nat, key: string) {
    var s := Run(hash, steps);
    && i in s.streams && InstanceKey(s.streams[i].id) == key && !s.streams[i].phase.LookingUp?
    && (HolderIsNewer(hash, steps, j, key)
        || (key in s.registry.entries && AboutToEvict(s, i, s.registry.entries[key])))
  }

  lemma RegistersLater(hash: Hash, steps: seq<Step>, n: nat, k: nat, d: nat, key: string)
    requires k < n <= |steps|
    ensures RegistersAt(hash, steps[..n], k, d, key) == RegistersAt(hash, steps, k, d, key)
  {
    assert steps[..n][..k] == steps[..k] && steps[..n][k] == steps[k];
  }

  lemma SinceLasts(hash: Hash, steps: seq<Step>, j: nat, d: nat, key: string)
    requires steps != [] && RegisteredSince(hash, steps[..|steps| - 1], j, d, key)
    ensures RegisteredSince(hash, steps, j, d, key)
  {
    var n := |steps| - 1;
    var k :| j < k < n && RegistersAt(hash, steps[..n], k, d, key);
    RegistersLater(hash, steps, n, k, d, key);
  }

  lemma SinceNow(hash: Hash, steps: seq<Step>, j: nat, d: nat, key: string)
    requires steps != [] && j < |steps| - 1
    requires RegistersUnder(Run(hash, steps[..|steps| - 1]), steps[|steps| - 1], d, key)
    ensures RegisteredSince(hash, steps, j, d, key)
  {
    assert RegistersAt(hash, steps, |steps| - 1, d, key);
  }

  lemma NewerAfterMove(hash: Hash, steps: seq<Step>, j: nat, key: string, s: State, s': State)
    requires steps != [] && j < |steps| - 1 && s == Run(hash, steps[..|steps| - 1])
    requires EntryMoves(s, s', steps[|steps| - 1], key)
    requires || HolderSince(hash, steps[..|steps| - 1], s, j, key)
             || (key in s.registry.entries && key in s'.registry.entries
                 && s'.registry.entries[key] != s.registry.entries[key])
    ensures HolderSince(hash, steps, s', j, key)
  {
    if key in s'.registry.entries {
      var d := s'.registry.entries[key];
      if key in s.registry.entries && d == s.registry.entries[key] {
        SinceLasts(hash, steps, j, d, key);
      } else {
        SinceNow(hash, steps, j, d, key);
      }
    }
  }

  lemma NewerStaysNewer(hash: Hash, steps: seq<Step>, j: nat, key: string)
    requires steps != [] && j < |steps| - 1
    requires var s, s' := Run(hash, steps[..|steps| - 1]), Run(hash, steps);
             || HolderIsNewer(hash, steps[..|steps| - 1], j, key)
             || (key in s.registry.entries && key in s'.registry.entries
                 && s'.registry.entries[key] != s.registry.entries[key])
    ensures HolderIsNewer(hash, steps, j, key)
  {
    var n := |steps| - 1;
    var s, s' := Run(hash, steps[..n]), Run(hash, steps);
    StepMovesEntry(hash, s, steps[n], key);
    NewerAfterMove(hash, steps, j, key, s, s');
  }

  lemma AfterLookup(hash: Hash, steps: seq<Step>, j: nat, i: nat)
    requires LooksUpAt(hash, steps, j, i) && |steps| == j + 1
    ensures LookedUp(hash, steps, j, i, InstanceKey(Run(hash, steps[..j]).streams[i].id))
  {
  }

  lemma {:induction false} LookupLasts(hash: Hash, steps: seq<Step>, j: nat, i: nat)
    requires LooksUpAt(hash, steps, j, i)
    ensures LookedUp(hash, steps, j, i, InstanceKey(Run(hash, steps[..j]).streams[i].id))
  {
    var n := |steps| - 1;
    if n == j {
      AfterLookup(hash, steps, j, i);
    } else {
      assert steps[..n][..j] == steps[..j];
      LookupLasts(hash, steps[..n], j, i);
      var s, s' := Run(hash, steps[..n]), Run(hash, steps);
      var key := InstanceKey(s.streams[i].id);
      StepKeepsId(hash, s, steps[n], i);
      if HolderIsNewer(hash, steps[..n], j, key) {
        NewerStaysNewer(hash, steps, j, key);
      } else {
        var c := s.registry.entries[key];
        if steps[n] == EvictExisting(i) {
          EvictionFreesKey(hash, s, i, c);
        } else {
          StepKeepsEviction(hash, s, steps[n], i, c);
        }
        if key in s'.registry.entries && s'.registry.entries[key] != c { NewerStaysNewer(hash, steps, j, key); }
      }
    }
  }

  // ----- When a registration overwrites -----

  predicate HoldsKey(s: State, d: nat, key: string) {
    key in s.registry.entries && s.registry.entries[key] == d
  }

  /** A stream registered under i's key after i's lookup, and still holds the key. */
  ghost predicate Competes(hash: Hash, steps: seq<Step>, j: nat, key: string) {
    exists d :: RegisteredSince(hash, steps, j, d, key) && HoldsKey(Run(hash, steps), d, key)
  }

  /**
   A registration overwrites an entry if and only if a competitor registered under the key
   after this stream's own lookup and still holds it.
   */
  lemma OverwritesIff(hash: Hash, steps: seq<Step>, j: nat, i: nat)
    requires LooksUpAt(hash, steps, j, i) && At(Run(hash, steps), i, Registering)
    ensures var s := Run(hash, steps);
            var s' := Apply(hash, s, RegisterStream(i));
            var competes := Competes(hash, steps, j, InstanceKey(s.streams[i].id));
            && s'.overwritten == s.overwritten + (if competes then 1 else 0)
            && (!competes ==> s'.orphans == s.orphans)
  {
    RegistrationEffect(hash, Run(hash, steps), i);
    KeyTakenIffCompetes(hash, steps, j, i);
  }

  lemma KeyTakenIffCompetes(hash: Hash, steps: seq<Step>, j: nat, i: nat)
    requires LooksUpAt(hash, steps, j, i) && At(Run(hash, steps), i, Registering)
    ensures var key := InstanceKey(Run(hash, steps).streams[i].id);
            key in Run(hash, steps).registry.entries <==> Competes(hash, steps, j, key)
  {
    var s := Run(hash, steps);
    var key := InstanceKey(s.streams[i].id);
    LookupLasts(hash, steps, j, i);
    if key in s.registry.entries {
      assert HolderSince(hash, steps, s, j, key) && HoldsKey(s, s.registry.entries[key], key);
    }
  }

  lemma RegistrationEffect(hash: Hash, s: State, i: nat)
    requires At(s, i, Registering)
    ensures var s' := Apply(hash, s, RegisterStream(i));
            var taken := InstanceKey(s.streams[i].id) in s.registry.entries;
            && s'.overwritten == s.overwritten + (if taken then 1 else 0)
            && (!taken ==> s'.orphans == s.orphans)
  {
  }

  // ----- What becomes of the connection that was found -----

  /** c has a connection, and no entry holds it. */
  predicate Unregistered(s: State, c: nat) {
    c in s.streams && c in s.channels && !Registered(s, c)
  }

  /** c is closed and holds no entry. */
  predicate Gone(s: State, c: nat) {
    Unregistered(s, c) && s.channels[c].cancelled
  }

  /** From s to s', c stays out of the registry, and closed if it is. */
  predicate StaysOut(s: State, s': State, c: nat)
    requires c in s.streams && c in s.channels
  {
    && c in s'.streams && c in s'.channels && s'.streams[c].id == s.streams[c].id
    && (Unregistered(s, c) ==> Unregistered(s', c))
    && (s.channels[c].cancelled ==> s'.channels[c].cancelled)
  }

  lemma RegisterKeepsOut(s: State, i: nat, c: nat)
    requires StreamOk(s, c) && c in s.streams && c in s.channels
    ensures StaysOut(s, ApplyHandshake(s, RegisterStream(i)), c)
  {
  }

  lemma EvictKeepsOut(s: State, i: nat, c: nat)
    requires c in s.streams && c in s.channels
    ensures StaysOut(s, ApplyHandshake(s, EvictExisting(i)), c)
  {
  }

  lemma OpenKeepsOut(s: State, step: Step, c: nat)
    requires c in s.streams && c in s.channels && step.Open?
    ensures StaysOut(s, ApplyHandshake(s, step), c)
  {
  }

  lemma GotoKeepsOut(s: State, i: nat, phase: Phase, c: nat)
    requires c in s.streams && c in s.channels && i in s.streams
    ensures StaysOut(s, Goto(s, i, phase), c)
  {
  }

  lemma HandshakeKeepsOut(s: State, step: Step, c: nat)
    requires StreamOk(s, c) && c in s.streams && c in s.channels
    ensures StaysOut(s, ApplyHandshake(s, step), c)
  {
    match step
    case Open(_, _, _) => OpenKeepsOut(s, step, c);
    case LookUpExisting(i) =>
      if At(s, i, LookingUp) { GotoKeepsOut(s, i, ApplyHandshake(s, step).streams[i].phase, c); }
    case RegisterStream(i) => RegisterKeepsOut(s, i, c);
    case EvictExisting(i) => EvictKeepsOut(s, i, c);
    case SendAck(i, sent) => if At(s, i, Acking) { GotoKeepsOut(s, i, if sent then Registering else Ended, c); }
    case _ =>
  }

  lemma DisconnectKeepsOut(s: State, i: nat, c: nat)
    requires c in s.streams && c in s.channels
    ensures StaysOut(s, ApplyStream(s, Disconnect(i)), c)
  {
  }

  lemma ChannelKeepsOut(s: State, i: nat, m: Message, c: nat)
    requires c in s.streams && c in s.channels
    ensures StaysOut(s, SendTo(s, i, m), c) && StaysOut(s, CancelConn(s, i), c)
  {
  }

  lemma CancelOwnKeepsOut(s: State, i: nat, c: nat)
    requires c in s.streams && c in s.channels
    ensures StaysOut(s, ApplyStream(s, CancelOwn(i)), c)
  {
  }

  lemma WriterTakeKeepsOut(s: State, i: nat, c: nat)
    requires c in s.streams && c in s.channels
    ensures StaysOut(s, ApplyStream(s, WriterTake(i)), c)
  {
  }

  lemma ChannelStepKeepsOut(s: State, step: Step, c: nat)
    requires c in s.streams && c in s.channels && ChannelStep(step)
    ensures StaysOut(s, ApplyStream(s, step), c)
  {
    match step
    case ReceiveHeartbeat(i, payload) => ChannelKeepsOut(s, i, Other(payload), c);
    case SendOther(i, payload) => ChannelKeepsOut(s, i, Other(payload), c);
    case CancelContext(i) => ChannelKeepsOut(s, i, Other(""), c);
    case CloseRefused(i) => ChannelKeepsOut(s, i, Other(""), c);
    case WriterTake(i) => WriterTakeKeepsOut(s, i, c);
  }

  lemma StreamKeepsOut(s: State, step: Step, c: nat)
    requires c in s.streams && c in s.channels
    ensures StaysOut(s, ApplyStream(s, step), c)
  {
    if ChannelStep(step) {
      ChannelStepKeepsOut(s, step, c);
    } else {
      match step
      case Disconnect(i) => DisconnectKeepsOut(s, i, c);
      case CancelOwn(i) => CancelOwnKeepsOut(s, i, c);
      case _ =>
    }
  }

  lemma SyncKeepsOut(s: State, step: Step, c: nat)
    requires c in s.streams && c in s.channels
    ensures StaysOut(s, ApplySync(s, step), c)
  {
  }

  lemma PushKeepsOut(hash: Hash, s: State, step: Step, c: nat)
    requires c in s.streams && c in s.channels
    ensures StaysOut(s, ApplyPush(hash, s, step), c)
  {
  }

  /** A connection that is out of the registry, or closed, never comes back. */
  lemma StepKeepsOut(hash: Hash, s: State, step: Step, c: nat)
    requires StreamOk(s, c) && c in s.streams && c in s.channels
    ensures StaysOut(s, Apply(hash, s, step), c)
  {
    HandshakeKeepsOut(s, step, c);
    StreamKeepsOut(s, step, c);
    SyncKeepsOut(s, step, c);
    PushKeepsOut(hash, s, step, c);
  }

  lemma {:induction false} GoneForGood(hash: Hash, steps: seq<Step>, m: nat, c: nat)
    requires m <= |steps| && Gone(Run(hash, steps[..m]), c)
    ensures Gone(Run(hash, steps), c)
  {
    if m < |steps| {
      var n := |steps| - 1;
      assert steps[..n][..m] == steps[..m];
      GoneForGood(hash, steps[..n], m, c);
      RunKeepsFiled(hash, steps[..n]);
      assert StreamOk(Run(hash, steps[..n]), c);
      StepKeepsOut(hash, Run(hash, steps[..n]), steps[n], c);
    } else {
      assert steps[..m] == steps;
    }
  }

  /** What i's lookup at step j found. */
  function FoundAt(hash: Hash, steps: seq<Step>, j: nat, i: nat): (r: Option<nat>)
    requires LooksUpAt(hash, steps, j, i)
  {
    var s := Run(hash, steps[..j]);
    var key := InstanceKey(s.streams[i].id);
    if key in s.registry.entries then Some(s.registry.entries[key]) else None
  }

  /** Somebody registered under the key after step j. */
  ghost predicate Contested(hash: Hash, steps: seq<Step>, j: nat, key: string) {
    exists d :: RegisteredSince(hash, steps, j, d, key)
  }

  /** The found connection is about to be evicted, or no longer registered; then it is closed, or lost the key. */
  ghost predicate FoundIsHandled(hash: Hash, steps: seq<Step>, j: nat, i: nat, c: nat, key: string) {
    var s := Run(hash, steps);
    && c in s.streams && c in s.channels && InstanceKey(s.streams[c].id) == key
    && (Registered(s, c) ==> AboutToEvict(s, i, c))
    && (Registered(s, c) || s.channels[c].cancelled || Contested(hash, steps, j, key))
  }

  /** Whoever ends a registration closes the connection, unless it takes the key over. */
  lemma EndingCloses(hash: Hash, s: State, step: Step, c: nat)
    requires Filed(s) && Registered(s, c) && !Registered(Apply(hash, s, step), c)
    ensures Cancelled(Apply(hash, s, step), c)
            || exists d :: RegistersUnder(s, step, d, InstanceKey(s.streams[c].id))
  {
    assert EntryMatches(s, InstanceKey(s.streams[c].id));
    StepEndsExactly(hash, s, step, c);
    match step
    case RegisterStream(d) => assert RegistersUnder(s, step, d, InstanceKey(s.streams[c].id));
    case _ =>
  }

  lemma ContestLasts(hash: Hash, steps: seq<Step>, j: nat, key: string)
    requires steps != [] && Contested(hash, steps[..|steps| - 1], j, key)
    ensures Contested(hash, steps, j, key)
  {
    var d :| RegisteredSince(hash, steps[..|steps| - 1], j, d, key);
    SinceLasts(hash, steps, j, d, key);
  }

  /** Step j is i's lookup under the key, and finds c. */
  predicate FindsAt(hash: Hash, steps: seq<Step>, j: nat, i: nat, c: nat, key: string) {
    && LooksUpAt(hash, steps, j, i) && FoundAt(hash, steps, j, i) == Some(c)
    && InstanceKey(Run(hash, steps[..j]).streams[i].id) == key
  }

  lemma FindsEarlier(hash: Hash, steps: seq<Step>, j: nat, i: nat, c: nat, key: string)
    requires FindsAt(hash, steps, j, i, c, key) && j < |steps| - 1
    ensures FindsAt(hash, steps[..|steps| - 1], j, i, c, key)
  {
    assert steps[..|steps| - 1][..j] == steps[..j];
  }

  lemma AfterFinding(hash: Hash, steps: seq<Step>, j: nat, i: nat, c: nat, key: string)
    requires FindsAt(hash, steps, j, i, c, key) && |steps| == j + 1
    ensures FoundIsHandled(hash, steps, j, i, c, key)
  {
    RunKeepsFiled(hash, steps[..j]);
    assert EntryMatches(Run(hash, steps[..j]), key);
  }

  lemma EvictsUnderKey(hash: Hash, steps: seq<Step>, j: nat, i: nat, c: nat, key: string)
    requires FindsAt(hash, steps, j, i, c, key) && AboutToEvict(Run(hash, steps), i, c)
    ensures InstanceKey(Run(hash, steps).streams[i].id) == key
  {
    LookupLasts(hash, steps, j, i);
  }

  lemma StepHandlesFound(hash: Hash, steps: seq<Step>, j: nat, i: nat, c: nat, key: string)
    requires steps != [] && j < |steps| - 1
    requires FoundIsHandled(hash, steps[..|steps| - 1], j, i, c, key)
    requires AboutToEvict(Run(hash, steps[..|steps| - 1]), i, c) ==>
               InstanceKey(Run(hash, steps[..|steps| - 1]).streams[i].id) == key
    ensures FoundIsHandled(hash, steps, j, i, c, key)
  {
    var n := |steps| - 1;
    var s, s' := Run(hash, steps[..n]), Run(hash, steps);
    RunKeepsFiled(hash, steps[..n]);
    assert StreamOk(s, c);
    StepKeepsOut(hash, s, steps[n], c);
    if Contested(hash, steps[..n], j, key) { ContestLasts(hash, steps, j, key); }
    if Registered(s, c) {
      if steps[n] == EvictExisting(i) {
        EvictionFreesKey(hash, s, i, c);
      } else {
        StepKeepsEviction(hash, s, steps[n], i, c);
      }
      if !Registered(s', c) {
        EndingCloses(hash, s, steps[n], c);
        if !s'.channels[c].cancelled {
          var d :| RegistersUnder(s, steps[n], d, key);
          SinceNow(hash, steps, j, d, key);
        }
      }
    }
  }

  lemma {:induction false} FoundStaysHandled(hash: Hash, steps: seq<Step>, j: nat, i: nat, c: nat, key: string)
    requires FindsAt(hash, steps, j, i, c, key)
    ensures FoundIsHandled(hash, steps, j, i, c, key)
  {
    if |steps| == j + 1 {
      AfterFinding(hash, steps, j, i, c, key);
    } else {
      var before := steps[..|steps| - 1];
      FindsEarlier(hash, steps, j, i, c, key);
      FoundStaysHandled(hash, before, j, i, c, key);
      if AboutToEvict(Run(hash, before), i, c) { EvictsUnderKey(hash, before, j, i, c, key); }
      StepHandlesFound(hash, steps, j, i, c, key);
    }
  }

  function KeyAt(hash: Hash, steps: seq<Step>, j: nat, i: nat): (key: string)
    requires LooksUpAt(hash, steps, j, i)
  {
    InstanceKey(Run(hash, steps[..j]).streams[i].id)
  }

  lemma EvictionCloses(hash: Hash, s: State, i: nat, c: nat)
    requires AboutToEvict(s, i, c) && Registered(s, c) && c in s.channels
    requires InstanceKey(s.streams[i].id) == InstanceKey(s.streams[c].id)
    ensures Gone(Apply(hash, s, EvictExisting(i)), c)
  {
  }

  lemma AtEviction(hash: Hash, steps: seq<Step>, j: nat, i: nat, c: nat)
    requires LooksUpAt(hash, steps, j, i) && FoundAt(hash, steps, j, i) == Some(c) && Registered(Run(hash, steps), c)
    ensures Gone(Apply(hash, Run(hash, steps), EvictExisting(i)), c)
  {
    FoundStaysHandled(hash, steps, j, i, c, KeyAt(hash, steps, j, i));
    EvictsUnderKey(hash, steps, j, i, c, KeyAt(hash, steps, j, i));
    EvictionCloses(hash, Run(hash, steps), i, c);
  }

  lemma RunPrefix(hash: Hash, steps: seq<Step>, m: nat)
    requires m < |steps|
    ensures Run(hash, steps[..m + 1]) == Apply(hash, Run(hash, steps[..m]), steps[m])
  {
    assert steps[..m + 1][..m] == steps[..m];
  }

  lemma LookupInPrefix(hash: Hash, steps: seq<Step>, j: nat, m: nat, i: nat)
    requires LooksUpAt(hash, steps, j, i) && j < m <= |steps|
    ensures LooksUpAt(hash, steps[..m], j, i) && FoundAt(hash, steps[..m], j, i) == FoundAt(hash, steps, j, i)
  {
    assert steps[..m][..j] == steps[..j];
  }

  lemma GoneOnceEvicted(hash: Hash, steps: seq<Step>, m: nat, i: nat, c: nat)
    requires m < |steps| && steps[m] == EvictExisting(i)
    requires Gone(Apply(hash, Run(hash, steps[..m]), EvictExisting(i)), c)
    ensures Gone(Run(hash, steps), c)
  {
    RunPrefix(hash, steps, m);
    GoneForGood(hash, steps, m + 1, c);
  }

  // ----- Main results -----

  /** A stream past its eviction never leaves what it found registered, on any run. */
  lemma PastEvictionNothingFoundRemains(hash: Hash, steps: seq<Step>, j: nat, i: nat, c: nat)
    requires LooksUpAt(hash, steps, j, i) && FoundAt(hash, steps, j, i) == Some(c)
    requires i in Run(hash, steps).streams && !Run(hash, steps).streams[i].phase.Evicting?
    ensures Unregistered(Run(hash, steps), c)
  {
    FoundStaysHandled(hash, steps, j, i, c, KeyAt(hash, steps, j, i));
  }

  /**
   If the connection that i's lookup found still holds the key when i evicts it, it is
   closed and out of the registry from then on, whatever follows.
   */
  lemma EvictionIsFinal(hash: Hash, steps: seq<Step>, j: nat, m: nat, i: nat, c: nat)
    requires LooksUpAt(hash, steps, j, i) && FoundAt(hash, steps, j, i) == Some(c)
    requires j < m < |steps| && steps[m] == EvictExisting(i) && Registered(Run(hash, steps[..m]), c)
    ensures Gone(Run(hash, steps), c)
  {
    LookupInPrefix(hash, steps, j, m, i);
    AtEviction(hash, steps[..m], j, i, c);
    GoneOnceEvicted(hash, steps, m, i, c);
  }

  /**
   A handshake that nobody competes with evicts what it found, closing it, and then
   registers without overwriting anybody.
   */
  lemma QuietReconnectEvicts(hash: Hash, steps: seq<Step>, j: nat, i: nat)
    requires LooksUpAt(hash, steps, j, i) && At(Run(hash, steps), i, Registering)
    requires !Contested(hash, steps, j, InstanceKey(Run(hash, steps).streams[i].id))
    ensures var s := Run(hash, steps);
            var s' := Apply(hash, s, RegisterStream(i));
            && s'.overwritten == s.overwritten && s'.orphans == s.orphans && Registered(s', i)
            && (FoundAt(hash, steps, j, i).Some? ==> Gone(s, FoundAt(hash, steps, j, i).value))
  {
    LookupLasts(hash, steps, j, i);
    OverwritesIff(hash, steps, j, i);
    if FoundAt(hash, steps, j, i).Some? {
      FoundStaysHandled(hash, steps, j, i, FoundAt(hash, steps, j, i).value, KeyAt(hash, steps, j, i));
    }
  }

  // ----- Bookkeeping -----

  /** Step k registers a stream over c's entry. */
  predicate OverwritesAt(hash: Hash, steps: seq<Step>, k: nat, c: nat) {
    k < |steps| && steps[k].RegisterStream? && Overwrites(Run(hash, steps[..k]), steps[k].stream, c)
  }

  predicate Overwrites(s: State, i: nat, c: nat) {
    At(s, i, Registering) && InstanceKey(s.streams[i].id) in s.registry.entries
    && s.registry.entries[InstanceKey(s.streams[i].id)] == c
  }

  lemma HandshakeOrphansNobody(s: State, step: Step)
    requires !step.RegisterStream?
    ensures ApplyHandshake(s, step).orphans == s.orphans
  {
  }

  lemma StreamOrphansNobody(s: State, step: Step)
    ensures ApplyStream(s, step).orphans == s.orphans
  {
  }

  lemma OthersOrphanNobody(hash: Hash, s: State, step: Step)
    requires !step.RegisterStream?
    ensures Apply(hash, s, step).orphans == s.orphans
  {
    HandshakeOrphansNobody(s, step);
    StreamOrphansNobody(s, step);
    assert ApplySync(s, step).orphans == s.orphans && ApplyPush(hash, s, step).orphans == s.orphans;
  }

  lemma RegistrationOrphansIff(s: State, i: nat, c: nat)
    ensures c in ApplyHandshake(s, RegisterStream(i)).orphans <==> c in s.orphans || Overwrites(s, i, c)
  {
  }

  lemma StepOrphansIff(hash: Hash, s: State, step: Step, c: nat)
    ensures c in Apply(hash, s, step).orphans
            <==> c in s.orphans || (step.RegisterStream? && Overwrites(s, step.stream, c))
  {
    if step.RegisterStream? { RegistrationOrphansIff(s, step.stream, c); } else { OthersOrphanNobody(hash, s, step); }
  }

  ghost predicate WasOverwritten(hash: Hash, steps: seq<Step>, c: nat) {
    exists k :: OverwritesAt(hash, steps, k, c)
  }

  lemma OneMoreOverwrites(hash: Hash, steps: seq<Step>, c: nat)
    requires steps != []
    ensures var n := |steps| - 1;
            WasOverwritten(hash, steps, c)
            <==> WasOverwritten(hash, steps[..n], c)
                 || (steps[n].RegisterStream? && Overwrites(Run(hash, steps[..n]), steps[n].stream, c))
  {
    var n := |steps| - 1;
    forall k: nat | k < n ensures OverwritesAt(hash, steps, k, c) == OverwritesAt(hash, steps[..n], k, c) {
      assert steps[..n][..k] == steps[..k];
    }
    assert OverwritesAt(hash, steps, n, c)
           <==> steps[n].RegisterStream? && Overwrites(Run(hash, steps[..n]), steps[n].stream, c);
    if WasOverwritten(hash, steps[..n], c) {
      var k :| OverwritesAt(hash, steps[..n], k, c);
      assert OverwritesAt(hash, steps, k, c);
    }
  }

  /** The orphans are exactly the connections whose entry a registration overwrote. */
  lemma {:induction false} OrphansWereOverwritten(hash: Hash, steps: seq<Step>, c: nat)
    ensures c in Run(hash, steps).orphans <==> WasOverwritten(hash, steps, c)
  {
    if steps != [] {
      var n := |steps| - 1;
      OrphansWereOverwritten(hash, steps[..n], c);
      StepOrphansIff(hash, Run(hash, steps[..n]), steps[n], c);
      OneMoreOverwrites(hash, steps, c);
    }
  }

  /** How many registrations of the run overwrote an entry. */
  function Overwritings(hash: Hash, steps: seq<Step>): (n: nat) {
    if steps == [] then 0 else
    var n := |steps| - 1;
    Overwritings(hash, steps[..n]) + if OverwritesAny(Run(hash, steps[..n]), steps[n]) then 1 else 0
  }

  predicate OverwritesAny(s: State, step: Step) {
    && step.RegisterStream? && At(s, step.stream, Registering)
    && InstanceKey(s.streams[step.stream].id) in s.registry.entries
  }

  lemma HandshakeCounts(s: State, step: Step)
    ensures ApplyHandshake(s, step).overwritten == s.overwritten + if OverwritesAny(s, step) then 1 else 0
  {
  }

  lemma StreamCounts(s: State, step: Step)
    ensures ApplyStream(s, step).overwritten == s.overwritten
  {
  }

  lemma StepCounts(hash: Hash, s: State, step: Step)
    ensures Apply(hash, s, step).overwritten == s.overwritten + if OverwritesAny(s, step) then 1 else 0
  {
    HandshakeCounts(s, step);
    StreamCounts(s, step);
    assert ApplySync(s, step).overwritten == s.overwritten && ApplyPush(hash, s, step).overwritten == s.overwritten;
  }

  /** The count that the gauge law speaks of is the number of overwriting registrations. */
  lemma {:induction false} OverwrittenCounts(hash: Hash, steps: seq<Step>)
    ensures Run(hash, steps).overwritten == Overwritings(hash, steps)
  {
    if steps != [] {
      var n := |steps| - 1;
      OverwrittenCounts(hash, steps[..n]);
      StepCounts(hash, Run(hash, steps[..n]), steps[n]);
    }
  }

  // ----- Full syncs come to an end -----

  /** A stream's own steps of its full sync. */
  predicate OwnSync(steps: seq<Step>, i: nat) {
    forall k :: 0 <= k < |steps| ==> SyncStep(steps[k]) && steps[k].stream == i
  }

  predicate LooksFor(s: State, i: nat, pending: set<Item>) {
    At(s, i, SyncLooking(pending)) && pending != {}
  }

  predicate Sends(s: State, i: nat, target: nat, pending: set<Item>) {
    At(s, i, SyncSending(target, pending)) && pending != {}
  }

  /** The state after some more steps. */
  function RunFrom(hash: Hash, s: State, steps: seq<Step>): (r: State)
    decreases |steps|
  {
    if steps == [] then s else RunFrom(hash, Apply(hash, s, steps[0]), steps[1..])
  }

  lemma {:induction false} RunContinues(hash: Hash, steps: seq<Step>, more: seq<Step>)
    ensures Run(hash, steps + more) == RunFrom(hash, Run(hash, steps), more)
    decreases |more|
  {
    if more == [] {
      assert steps + more == steps;
    } else {
      var next := steps + [more[0]];
      assert next[..|steps|] == steps && steps + more == next + more[1..];
      RunContinues(hash, next, more[1..]);
    }
  }

  lemma ReadMoves(hash: Hash, s: State, i: nat)
    requires At(s, i, SyncReading)
    ensures var s' := Apply(hash, s, ReadSnapshots(i));
            At(s', i, Receiving) || exists pending :: LooksFor(s', i, pending)
  {
    var all := AllCurrent(s, AgentKey(s.streams[i].id));
    if all != {} { assert LooksFor(Apply(hash, s, ReadSnapshots(i)), i, all); }
  }

  lemma LookupMoves(hash: Hash, s: State, i: nat, pending: set<Item>)
    requires LooksFor(s, i, pending)
    ensures var s' := Apply(hash, s, LookUpTarget(i));
            At(s', i, Receiving) || exists target :: Sends(s', i, target, pending)
  {
    var key := InstanceKey(s.streams[i].id);
    if key in s.registry.entries {
      assert Sends(Apply(hash, s, LookUpTarget(i)), i, s.registry.entries[key], pending);
    }
  }

  lemma SendMoves(hash: Hash, s: State, i: nat, target: nat, pending: set<Item>, item: Item)
    requires Sends(s, i, target, pending) && item in pending
    ensures var s' := Apply(hash, s, SyncOne(i, item));
            if pending == {item} then At(s', i, Receiving) else Sends(s', i, target, pending - {item})
  {
    if pending - {item} == {} { assert pending == {item}; }
  }

  lemma {:induction false} SendingFinishes(hash: Hash, s: State, i: nat, target: nat, pending: set<Item>)
    returns (more: seq<Step>)
    requires Sends(s, i, target, pending)
    ensures OwnSync(more, i) && At(RunFrom(hash, s, more), i, Receiving)
    decreases |pending|
  {
    var item :| item in pending;
    var s' := Apply(hash, s, SyncOne(i, item));
    SendMoves(hash, s, i, target, pending, item);
    var rest: seq<Step> := [];
    if pending != {item} { rest := SendingFinishes(hash, s', i, target, pending - {item}); }
    more := [SyncOne(i, item)] + rest;
  }

  lemma LookupFinishes(hash: Hash, s: State, i: nat, pending: set<Item>) returns (more: seq<Step>)
    requires LooksFor(s, i, pending)
    ensures OwnSync(more, i) && At(RunFrom(hash, s, more), i, Receiving)
  {
    var s' := Apply(hash, s, LookUpTarget(i));
    LookupMoves(hash, s, i, pending);
    var rest: seq<Step> := [];
    if !At(s', i, Receiving) {
      var target :| Sends(s', i, target, pending);
      rest := SendingFinishes(hash, s', i, target, pending);
    }
    more := [LookUpTarget(i)] + rest;
  }

  lemma ReadFinishes(hash: Hash, s: State, i: nat) returns (more: seq<Step>)
    requires At(s, i, SyncReading)
    ensures OwnSync(more, i) && At(RunFrom(hash, s, more), i, Receiving)
  {
    var s' := Apply(hash, s, ReadSnapshots(i));
    ReadMoves(hash, s, i);
    var rest: seq<Step> := [];
    if !At(s', i, Receiving) {
      var pending :| LooksFor(s', i, pending);
      rest := LookupFinishes(hash, s', i, pending);
    }
    more := [ReadSnapshots(i)] + rest;
  }

  /** After any run, a stream that has just registered reaches its receive loop by its own steps alone. */
  lemma SyncCanFinish(hash: Hash, steps: seq<Step>, i: nat) returns (more: seq<Step>)
    requires At(Run(hash, steps), i, SyncReading)
    ensures OwnSync(more, i) && At(Run(hash, steps + more), i, Receiving)
  {
    more := ReadFinishes(hash, Run(hash, steps), i);
    RunContinues(hash, steps, more);
  }

  // ----- The end of a stream -----

  /** A stream that has ended has no entry, and its connection, if it had one, is closed. */
  predicate EndedIsClosed(s: State, i: nat) {
    At(s, i, Ended) ==> !Registered(s, i) && (i in s.channels ==> s.channels[i].cancelled)
  }

  lemma OpenEndsClosed(s: State, step: Step, i: nat)
    requires StreamOk(s, i) && EndedIsClosed(s, i) && step.Open? && EntryMatches(s, InstanceKey(step.id))
    ensures EndedIsClosed(ApplyHandshake(s, step), i)
  {
  }

  lemma AckingHasNothing(s: State, i: nat)
    requires Filed(s) && At(s, i, Acking)
    ensures !Registered(s, i) && i !in s.channels
  {
    assert StreamOk(s, i) && EntryMatches(s, InstanceKey(s.streams[i].id));
  }

  lemma AckEndsClosed(s: State, j: nat, sent: bool, i: nat)
    requires EndedIsClosed(s, i) && (At(s, i, Acking) ==> !Registered(s, i) && i !in s.channels)
    ensures EndedIsClosed(ApplyHandshake(s, SendAck(j, sent)), i)
  {
  }

  lemma RegisterEndsClosed(s: State, j: nat, i: nat)
    requires EndedIsClosed(s, i)
    ensures EndedIsClosed(ApplyHandshake(s, RegisterStream(j)), i)
  {
  }

  lemma HandshakeEndsClosed(s: State, step: Step, i: nat)
    requires Filed(s) && EndedIsClosed(s, i)
    ensures EndedIsClosed(ApplyHandshake(s, step), i)
  {
    match step
    case Open(_, id, _) =>
      assert StreamOk(s, i) && EntryMatches(s, InstanceKey(id));
      OpenEndsClosed(s, step, i);
    case SendAck(j, sent) =>
      if At(s, i, Acking) { AckingHasNothing(s, i); }
      AckEndsClosed(s, j, sent, i);
    case RegisterStream(j) => RegisterEndsClosed(s, j, i);
    case _ =>
  }

  lemma DisconnectEndsClosed(s: State, j: nat, i: nat)
    requires EndedIsClosed(s, i)
    ensures EndedIsClosed(ApplyStream(s, Disconnect(j)), i)
  {
    if At(s, j, Disconnecting) { UnregisterKeepsStreams(s, InstanceKey(s.streams[j].id), j); }
  }

  lemma CancelOwnEndsClosed(s: State, j: nat, i: nat)
    requires EndedIsClosed(s, i) && (i in s.streams ==> EntryMatches(s, InstanceKey(s.streams[i].id)))
    ensures EndedIsClosed(ApplyStream(s, CancelOwn(j)), i)
  {
  }

  lemma StreamEndsClosed(s: State, step: Step, i: nat)
    requires Filed(s) && EndedIsClosed(s, i)
    ensures EndedIsClosed(ApplyStream(s, step), i)
  {
    if i in s.streams { assert EntryMatches(s, InstanceKey(s.streams[i].id)); }
    match step
    case Disconnect(j) => DisconnectEndsClosed(s, j, i);
    case CancelOwn(j) => CancelOwnEndsClosed(s, j, i);
    case _ =>
  }

  lemma SyncEndsClosed(s: State, step: Step, i: nat)
    requires EndedIsClosed(s, i)
    ensures EndedIsClosed(ApplySync(s, step), i)
  {
  }

  lemma PushEndsClosed(hash: Hash, s: State, step: Step, i: nat)
    requires EndedIsClosed(s, i)
    ensures EndedIsClosed(ApplyPush(hash, s, step), i)
  {
  }

  lemma {:induction false} EndedStreamsAreClosed(hash: Hash, steps: seq<Step>, i: nat)
    ensures EndedIsClosed(Run(hash, steps), i)
  {
    if steps != [] {
      var n := |steps| - 1;
      var s := Run(hash, steps[..n]);
      EndedStreamsAreClosed(hash, steps[..n], i);
      RunKeepsFiled(hash, steps[..n]);
      HandshakeEndsClosed(s, steps[n], i);
      StreamEndsClosed(s, steps[n], i);
      SyncEndsClosed(s, steps[n], i);
      PushEndsClosed(hash, s, steps[n], i);
    }
  }

  /** The three steps that end the stream serving connection i. */
  function Teardown(i: nat): (steps: seq<Step>) {
    [ReceiveError(i), Disconnect(i), CancelOwn(i)]
  }

  /** From s to s', stream i has ended: its connection is closed, and its entry, if it had one, is all that went. */
  ghost predicate TornDown(s: State, s': State, i: nat) {
    && At(s', i, Ended) && Cancelled(s', i)
    && (forall k :: RemovesOnly(s, s', i, k))
    && (forall c :: OthersKept(s, s', i, c))
  }

  predicate OthersKept(s: State, s': State, i: nat, c: nat) {
    c in s.channels && c != i ==> c in s'.channels && s'.channels[c] == s.channels[c]
  }

  lemma ReceiveErrorLeaves(hash: Hash, s: State, i: nat)
    requires At(s, i, Receiving)
    ensures Apply(hash, s, ReceiveError(i)) == Goto(s, i, Disconnecting)
  {
  }

  lemma DisconnectLeaves(hash: Hash, s: State, i: nat, k: string, c: nat)
    requires At(s, i, Disconnecting) && EntryMatches(s, k) && i in s.channels
    ensures var s' := Apply(hash, s, Disconnect(i));
            At(s', i, Cancelling) && i in s'.channels && RemovesOnly(s, s', i, k) && OthersKept(s, s', i, c)
  {
    DisconnectKeepsEntry(s, i, k);
  }

  lemma CancelOwnLeaves(hash: Hash, s: State, i: nat, c: nat)
    requires At(s, i, Cancelling) && i in s.channels
    ensures var s' := Apply(hash, s, CancelOwn(i));
            At(s', i, Ended) && Cancelled(s', i) && s'.registry == s.registry && OthersKept(s, s', i, c)
  {
  }

  /** A stream in its receive loop ends in three steps, and takes nothing but its own registration with it. */
  lemma TeardownEndsOwnStream(hash: Hash, steps: seq<Step>, i: nat)
    requires At(Run(hash, steps), i, Receiving)
    ensures TornDown(Run(hash, steps), Run(hash, steps + Teardown(i)), i)
  {
    var s := Run(hash, steps);
    var failed, left := steps + [ReceiveError(i)], steps + [ReceiveError(i)] + [Disconnect(i)];
    assert failed[..|steps|] == steps && left[..|failed|] == failed;
    assert steps + Teardown(i) == left + [CancelOwn(i)] && (steps + Teardown(i))[..|left|] == left;
    ReceiveErrorLeaves(hash, s, i);
    RunKeepsFiled(hash, steps);
    RunKeepsFiled(hash, failed);
    assert StreamOk(s, i);
    TeardownFrom(hash, s, Run(hash, failed), Run(hash, left), i);
  }

  lemma TeardownFrom(hash: Hash, s: State, s1: State, s2: State, i: nat)
    requires At(s, i, Receiving) && i in s.channels && Filed(s1)
    requires s1 == Goto(s, i, Disconnecting) && s2 == Apply(hash, s1, Disconnect(i))
    ensures TornDown(s, Apply(hash, s2, CancelOwn(i)), i)
  {
    var s' := Apply(hash, s2, CancelOwn(i));
    forall k ensures RemovesOnly(s, s', i, k) { TeardownAt(hash, s, s1, s2, i, k, i); }
    forall c ensures OthersKept(s, s', i, c) { TeardownAt(hash, s, s1, s2, i, "", c); }
    TeardownAt(hash, s, s1, s2, i, "", i);
  }

  lemma TeardownAt(hash: Hash, s: State, s1: State, s2: State, i: nat, k: string, c: nat)
    requires At(s, i, Receiving) && i in s.channels && EntryMatches(s1, k)
    requires s1 == Goto(s, i, Disconnecting) && s2 == Apply(hash, s1, Disconnect(i))
    ensures var s' := Apply(hash, s2, CancelOwn(i));
            At(s', i, Ended) && Cancelled(s', i) && RemovesOnly(s, s', i, k) && OthersKept(s, s', i, c)
  {
    DisconnectLeaves(hash, s1, i, k, c);
    DisconnectLeaves(hash, s1, i, k, i);
    CancelOwnLeaves(hash, s2, i, c);
  }
}
