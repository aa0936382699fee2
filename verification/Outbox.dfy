/**
 The team message outbox: every replica reconciles every message and records the outcome
 of its delivery attempt by a conditional status update
 (internal/controller/teamevent_watcher.go).
 */
module Outbox {
  import opened Text
  import opened ObjectStore
  import opened Connections

  const MAX_ATTEMPTS: nat := 5

  datatype Message = Message(to: string, delivered: bool, attempts: nat)

  /**
   What one reconcile meets: whether this replica can deliver, how many sessions host the
   recipient, whether its agent is connected here, and what the deliver call finds.
   */
  datatype Attempt = Attempt(hasDeliverer: bool, sessions: nat, connected: bool, delivery: Delivery)

  /** The deliver call returns no error, as it also does when the instance has gone. */
  predicate Succeeds(a: Attempt) {
    !a.delivery.Refused?
  }

  /** The deliver call really queues the message. */
  predicate Enqueues(a: Attempt) {
    a.delivery.Queued?
  }

  predicate Delivers(a: Attempt, msg: Message) {
    && !msg.delivered && msg.attempts < MAX_ATTEMPTS
    && a.hasDeliverer && msg.to != "" && a.sessions > 0 && a.connected
  }

  /** The status a reconcile records; None when it stops before the deliver call. */
  function Outcome(a: Attempt, msg: Message): (r: Option<Message>) {
    if !Delivers(a, msg) then None
    else if Succeeds(a) then Some(msg.(delivered := true, attempts := msg.attempts + 1))
    else Some(msg.(attempts := msg.attempts + 1))
  }

  /** One reconcile on a possibly stale copy; `called` says whether the deliver call was made. */
  method Reconcile(obj: StoredObject<Message>, version: nat, a: Attempt) returns (called: bool, recorded: bool)
    requires version < |obj.log|
    modifies obj
    ensures called <==> Delivers(a, old(obj.log)[version])
    ensures recorded <==> called && version + 1 == |old(obj.log)|
    ensures obj.log == if recorded then old(obj.log) + [Outcome(a, old(obj.log)[version]).value] else old(obj.log)
  {
    var msg := obj.Get(version);
    if msg.delivered {
      return false, false;
    }
    if msg.attempts >= 5 {
      return false, false;
    }
    if !a.hasDeliverer {
      return false, false;
    }
    if msg.to == "" {
      return false, false;
    }
    if a.sessions == 0 {
      return false, false;
    }
    if !a.connected {
      return false, false;
    }
    called := true;
    if !Succeeds(a) {
      msg := msg.(attempts := msg.attempts + 1);
      recorded := obj.Update(version, msg);
      return;
    }
    msg := msg.(delivered := true);
    msg := msg.(attempts := msg.attempts + 1);
    recorded := obj.Update(version, msg);
  }

  type History = State<Message, Attempt>

  ghost function Runs(to: string, steps: seq<Step<Attempt>>): (s: History) {
    Run(Outcome, Message(to, false, 0), steps)
  }

  /** The i-th recorded outcome is a deliver call made on version i, whose result it records. */
  lemma OutcomeRecorded(to: string, steps: seq<Step<Attempt>>, i: nat)
    requires i < |Runs(to, steps).committed|
    ensures var s := Runs(to, steps);
            && |s.log| == |s.committed| + 1
            && Delivers(s.committed[i], s.log[i]) && Outcome(s.committed[i], s.log[i]) == Some(s.log[i + 1])
  {
    WritesAreAtomic(Outcome, Message(to, false, 0), steps);
    var s := Runs(to, steps);
    assert Outcome(s.committed[i], s.log[i]) == Some(s.log[i + 1]);
  }

  /** Attempts counts the recorded outcomes and never exceeds five. */
  lemma {:induction false} AttemptsCountOutcomes(to: string, steps: seq<Step<Attempt>>, n: nat)
    requires n <= |Runs(to, steps).committed|
    ensures |Runs(to, steps).log| == |Runs(to, steps).committed| + 1
    ensures Runs(to, steps).log[n].attempts == n <= 5
  {
    WritesAreAtomic(Outcome, Message(to, false, 0), steps);
    if n > 0 {
      AttemptsCountOutcomes(to, steps, n - 1);
      OutcomeRecorded(to, steps, n - 1);
    }
  }

  /** Delivered is recorded only by a reconcile whose deliver call returned no error, and never withdrawn. */
  lemma {:induction false} DeliveredIsFinal(to: string, steps: seq<Step<Attempt>>, i: nat, j: nat)
    requires i <= j < |Runs(to, steps).log| && Runs(to, steps).log[i].delivered
    ensures j == i && i == |Runs(to, steps).committed| && i > 0
    ensures Runs(to, steps).log[j].delivered && Succeeds(Runs(to, steps).committed[i - 1])
  {
    WritesAreAtomic(Outcome, Message(to, false, 0), steps);
    var s := Runs(to, steps);
    if i < |s.committed| {
      OutcomeRecorded(to, steps, i);
    }
    OutcomeRecorded(to, steps, i - 1);
  }

  /** At most one reconcile ever records delivery, whatever the replicas read. */
  lemma DeliveredRecordedOnce(to: string, steps: seq<Step<Attempt>>, i: nat, j: nat)
    requires i < |Runs(to, steps).committed| && j < |Runs(to, steps).committed|
    requires Succeeds(Runs(to, steps).committed[i]) && Succeeds(Runs(to, steps).committed[j])
    ensures i == j
  {
    OutcomeRecorded(to, steps, i);
    OutcomeRecorded(to, steps, j);
    DeliveredIsFinal(to, steps, i + 1, i + 1);
    DeliveredIsFinal(to, steps, j + 1, j + 1);
  }

  // ----- Handing over and recording -----

  /** A kind of call that returns no error. */
  ghost predicate Successful(kind: Attempt -> bool) {
    forall a :: kind(a) ==> Succeeds(a)
  }

  /** The step makes a deliver call of that kind. */
  function Calls(kind: Attempt -> bool, s: History, step: Step<Attempt>): (n: nat) {
    match step
    case Begin(_, a, version) => if version < |s.log| && Delivers(a, s.log[version]) && kind(a) then 1 else 0
    case Commit(_) => 0
  }

  /** The step throws away the record of such a call: another read replaces it, or the write is refused. */
  function Drops(kind: Attempt -> bool, s: History, step: Step<Attempt>): (n: nat) {
    match step
    case Begin(c, _, version) => if version < |s.log| && c in Pending(kind, s) then 1 else 0
    case Commit(c) => if c in Pending(kind, s) && s.drafts[c].base + 1 != |s.log| then 1 else 0
  }

  /** The clients whose record of such a call is still to be written. */
  function Pending(kind: Attempt -> bool, s: History): (r: set<nat>) {
    set c | c in s.drafts && kind(s.drafts[c].op)
  }

  ghost function Made(kind: Attempt -> bool, to: string, steps: seq<Step<Attempt>>): (n: nat) {
    if steps == [] then 0 else
    var before := steps[..|steps| - 1];
    Made(kind, to, before) + Calls(kind, Runs(to, before), steps[|steps| - 1])
  }

  ghost function Dropped(kind: Attempt -> bool, to: string, steps: seq<Step<Attempt>>): (n: nat) {
    if steps == [] then 0 else
    var before := steps[..|steps| - 1];
    Dropped(kind, to, before) + Drops(kind, Runs(to, before), steps[|steps| - 1])
  }

  predicate Delivered(s: History) {
    s.log != [] && s.log[|s.log| - 1].delivered
  }

  /** Whether a call of that kind is recorded as the delivery. */
  function Recorded(kind: Attempt -> bool, s: History): (n: nat) {
    if Delivered(s) && s.committed != [] && kind(s.committed[|s.committed| - 1]) then 1 else 0
  }

  lemma PendingAfterBegin(kind: Attempt -> bool, s: History, c: nat, a: Attempt, version: nat)
    requires version < |s.log|
    ensures Pending(kind, Apply(Outcome, s, Begin(c, a, version)))
            == Pending(kind, s) - {c} + if Calls(kind, s, Begin(c, a, version)) == 1 then {c} else {}
  {
    if Delivers(a, s.log[version]) {
      assert Outcome(a, s.log[version]).Some?;
    }
  }

  lemma SwapOne(clients: set<nat>, c: nat, more: set<nat>)
    requires more == {c} || more == {}
    ensures |clients - {c} + more| + (if c in clients then 1 else 0) == |clients| + |more|
  {
    assert (clients - {c}) !! more;
  }

  lemma BeginBalances(kind: Attempt -> bool, s: History, c: nat, a: Attempt, version: nat)
    ensures var s' := Apply(Outcome, s, Begin(c, a, version));
            && Recorded(kind, s') == Recorded(kind, s)
            && |Pending(kind, s')| + Drops(kind, s, Begin(c, a, version))
               == |Pending(kind, s)| + Calls(kind, s, Begin(c, a, version))
  {
    if version < |s.log| {
      PendingAfterBegin(kind, s, c, a, version);
      SwapOne(Pending(kind, s), c, if Calls(kind, s, Begin(c, a, version)) == 1 then {c} else {});
    }
  }

  lemma PendingAfterCommit(kind: Attempt -> bool, s: History, c: nat)
    requires c in s.drafts
    ensures Pending(kind, Apply(Outcome, s, Commit(c))) == Pending(kind, s) - {c}
  {
  }

  /** A write records the delivery exactly when its call was successful. */
  lemma RecordedAfterCommit(kind: Attempt -> bool, s: History, c: nat)
    requires Successful(kind) && Serial(Outcome, s) && DraftsHonest(Outcome, s)
    requires c in s.drafts && s.drafts[c].base + 1 == |s.log|
    ensures Recorded(kind, s) == 0
    ensures Recorded(kind, Apply(Outcome, s, Commit(c))) == if c in Pending(kind, s) then 1 else 0
  {
    var d := s.drafts[c];
    assert Outcome(d.op, s.log[d.base]) == Some(d.value);
  }

  lemma CommitBalances(kind: Attempt -> bool, s: History, c: nat)
    requires Successful(kind) && Serial(Outcome, s) && DraftsHonest(Outcome, s)
    ensures var s' := Apply(Outcome, s, Commit(c));
            Recorded(kind, s') + |Pending(kind, s')| + Drops(kind, s, Commit(c))
            == Recorded(kind, s) + |Pending(kind, s)|
  {
    if c in s.drafts {
      PendingAfterCommit(kind, s, c);
      SwapOne(Pending(kind, s), c, {});
      assert Pending(kind, s) - {c} + {} == Pending(kind, s) - {c};
      if s.drafts[c].base + 1 == |s.log| { RecordedAfterCommit(kind, s, c); }
    }
  }

  /**
   Every successful call is recorded as the delivery, or its record is still to be written,
   or has been dropped.
   */
  lemma {:induction false} CallsAreAccountedFor(kind: Attempt -> bool, to: string, steps: seq<Step<Attempt>>)
    requires Successful(kind)
    ensures Made(kind, to, steps)
            == Recorded(kind, Runs(to, steps)) + |Pending(kind, Runs(to, steps))| + Dropped(kind, to, steps)
  {
    if steps != [] {
      var n := |steps| - 1;
      var s := Runs(to, steps[..n]);
      CallsAreAccountedFor(kind, to, steps[..n]);
      RunIsSerial(Outcome, Message(to, false, 0), steps[..n]);
      match steps[n]
      case Begin(c, a, version) => BeginBalances(kind, s, c, a, version);
      case Commit(c) => CommitBalances(kind, s, c);
    }
  }

  /**
   A delivered message was handed over more than once exactly when the record of some
   successful call is still to be written or was dropped.
   */
  lemma HandedOverTwiceIff(to: string, steps: seq<Step<Attempt>>)
    requires Delivered(Runs(to, steps))
    ensures Made(Succeeds, to, steps) >= 1
    ensures Made(Succeeds, to, steps) > 1
            <==> Pending(Succeeds, Runs(to, steps)) != {} || Dropped(Succeeds, to, steps) > 0
  {
    var s := Runs(to, steps);
    CallsAreAccountedFor(Succeeds, to, steps);
    WritesAreAtomic(Outcome, Message(to, false, 0), steps);
    DeliveredIsFinal(to, steps, |s.log| - 1, |s.log| - 1);
  }

  /**
   A delivered message was never queued anywhere exactly when the recorded call found no
   connection, and no other call whose record is missing queued it.
   */
  lemma NeverQueuedIff(to: string, steps: seq<Step<Attempt>>)
    requires Delivered(Runs(to, steps))
    ensures Runs(to, steps).committed != []
    ensures Made(Enqueues, to, steps) == 0
            <==> && Runs(to, steps).committed[|Runs(to, steps).committed| - 1].delivery.Absent?
                 && Pending(Enqueues, Runs(to, steps)) == {} && Dropped(Enqueues, to, steps) == 0
  {
    var s := Runs(to, steps);
    CallsAreAccountedFor(Enqueues, to, steps);
    WritesAreAtomic(Outcome, Message(to, false, 0), steps);
    DeliveredIsFinal(to, steps, |s.log| - 1, |s.log| - 1);
  }

  lemma {:induction false} RecipientKept(to: string, steps: seq<Step<Attempt>>, n: nat)
    requires n < |Runs(to, steps).log|
    ensures Runs(to, steps).log[n].to == to
  {
    WritesAreAtomic(Outcome, Message(to, false, 0), steps);
    if n > 0 {
      RecipientKept(to, steps, n - 1);
      OutcomeRecorded(to, steps, n - 1);
    }
  }

  predicate CanDeliver(a: Attempt, to: string) {
    a.hasDeliverer && a.sessions > 0 && a.connected && to != ""
  }

  /**
   When the next reconcile makes a deliver call: it can deliver, read one of the first five
   versions, and read either a version that is no longer the newest or a message that is
   not recorded as delivered.
   */
  lemma NextCallIff(to: string, steps: seq<Step<Attempt>>, a: Attempt, version: nat)
    requires version < |Runs(to, steps).log|
    ensures var s := Runs(to, steps);
            Delivers(a, s.log[version])
            <==> CanDeliver(a, to) && version < 5 && (version + 1 < |s.log| || !Delivered(s))
  {
    var s := Runs(to, steps);
    WritesAreAtomic(Outcome, Message(to, false, 0), steps);
    AttemptsCountOutcomes(to, steps, version);
    RecipientKept(to, steps, version);
    if s.log[version].delivered { DeliveredIsFinal(to, steps, version, version); }
  }

  // ----- Concrete runs -----

  lemma RunThree(to: string, x: Step<Attempt>, y: Step<Attempt>, z: Step<Attempt>)
    ensures Runs(to, [x]) == Apply(Outcome, State([Message(to, false, 0)], [], map[]), x)
    ensures Runs(to, [x, y]) == Apply(Outcome, Runs(to, [x]), y)
    ensures Runs(to, [x, y, z]) == Apply(Outcome, Runs(to, [x, y]), z)
    ensures Made(Succeeds, to, [x, y, z])
            == Calls(Succeeds, State([Message(to, false, 0)], [], map[]), x)
               + Calls(Succeeds, Runs(to, [x]), y) + Calls(Succeeds, Runs(to, [x, y]), z)
  {
    assert [x][..0] == [] && [x, y][..1] == [x] && [x, y, z][..2] == [x, y];
    assert Runs(to, []) == State([Message(to, false, 0)], [], map[]);
    assert Made(Succeeds, to, []) == 0;
    assert Made(Succeeds, to, [x]) == Calls(Succeeds, Runs(to, []), x);
    assert Made(Succeeds, to, [x, y]) == Made(Succeeds, to, [x]) + Calls(Succeeds, Runs(to, [x]), y);
  }

  /** Two replicas both hand the message over before the first of them records it. */
  lemma TwoReplicasMayBothDeliver(to: string)
    requires to != ""
    ensures var a := Attempt(true, 1, true, Queued);
            var steps := [Begin(0, a, 0), Begin(1, a, 0), Commit(0)];
            Made(Succeeds, to, steps) == 2 && Delivered(Runs(to, steps))
  {
    var a := Attempt(true, 1, true, Queued);
    RunThree(to, Begin(0, a, 0), Begin(1, a, 0), Commit(0));
  }

  /** One replica alone does so too, if its first record is lost. */
  lemma OneReplicaMayDeliverTwice(to: string)
    requires to != ""
    ensures var a := Attempt(true, 1, true, Queued);
            var steps := [Begin(0, a, 0), Begin(0, a, 0), Commit(0)];
            Made(Succeeds, to, steps) == 2 && Delivered(Runs(to, steps))
  {
    var a := Attempt(true, 1, true, Queued);
    RunThree(to, Begin(0, a, 0), Begin(0, a, 0), Commit(0));
  }
}
