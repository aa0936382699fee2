/**
 The bounded revision history kept on an agent, with pushes and rollbacks
 (internal/httpapi/agent_handler.go). JSON encoding is taken to be lossless.
 */
module Revisions {
  import opened Text

  const MAX_HISTORY: nat := 20
  const MAX_SNAPSHOTS: nat := 5

  /** An agent's spec, up to its JSON encoding. */
  type AgentSpec = string

  datatype Entry = Entry(revision: string, message: string, snapshot: Option<AgentSpec>)

  /** The revisions annotation: missing or empty, decodable, or not. */
  datatype Annotation = Absent | Encoded(entries: seq<Entry>) | Malformed

  function Read(a: Annotation): (r: seq<Entry>) {
    if a.Encoded? then a.entries else []
  }

  function Last<T>(n: nat, xs: seq<T>): (r: seq<T>) {
    if |xs| > n then xs[|xs| - n..] else xs
  }

  function Strip(e: Entry): (r: Entry) {
    e.(snapshot := None)
  }

  /** Snapshots stay on the newest MAX_SNAPSHOTS entries only. */
  function Prune(entries: seq<Entry>): (r: seq<Entry>)
    ensures |r| == |entries|
  {
    seq(|entries|, i requires 0 <= i < |entries| =>
      if i + MAX_SNAPSHOTS < |entries| then Strip(entries[i]) else entries[i])
  }

  function Append(entries: seq<Entry>, e: Entry): (r: seq<Entry>) {
    Prune(Last(MAX_HISTORY, entries + [e]))
  }

  /** The first entry of that revision, or the number of entries. */
  function Find(entries: seq<Entry>, revision: string): (i: nat)
    ensures i <= |entries|
    ensures i < |entries| ==> entries[i].revision == revision
    ensures forall j :: 0 <= j < i ==> entries[j].revision != revision
  {
    if entries == [] || entries[0].revision == revision then 0 else 1 + Find(entries[1..], revision)
  }

  datatype Agent = Agent(spec: AgentSpec, annotation: Annotation, statusRevision: string)

  datatype RollbackError = AgentNotFound | RevisionNotFound | NoSnapshot

  function PushNew(revision: string, spec: AgentSpec): (r: Agent) {
    Agent(spec, Encoded(Append([], Entry(revision, "push", Some(spec)))), "")
  }

  function PushOver(a: Agent, revision: string, spec: AgentSpec): (r: Agent) {
    Agent(spec, Encoded(Append(Read(a.annotation), Entry(revision, "push", Some(spec)))), revision)
  }

  function RollbackRefusal(a: Agent, target: string): (r: Option<RollbackError>) {
    var entries := Read(a.annotation);
    var i := Find(entries, target);
    if i == |entries| then Some(RevisionNotFound)
    else if entries[i].snapshot.None? then Some(NoSnapshot)
    else None
  }

  /** The new revision snapshots the spec being replaced, not the restored one. */
  function RollbackTo(a: Agent, target: string, revision: string): (r: Agent)
    requires RollbackRefusal(a, target).None?
  {
    var entries := Read(a.annotation);
    Agent(entries[Find(entries, target)].snapshot.value,
          Encoded(Append(entries, Entry(revision, "rollback to " + target, Some(a.spec)))),
          revision)
  }

  // ----- The agent object, updated in place -----

  class AgentObject {
    var spec: AgentSpec
    var annotation: Annotation
    var statusRevision: string

    ghost function Model(): Agent
      reads this
    {
      Agent(spec, annotation, statusRevision)
    }

    constructor (spec: AgentSpec)
      ensures Model() == Agent(spec, Absent, "")
    {
      this.spec, annotation, statusRevision := spec, Absent, "";
    }

    method ReadRevisions() returns (entries: seq<Entry>)
      ensures entries == Read(annotation)
    {
      match annotation
      case Encoded(decoded) => entries := decoded;
      case _ => entries := [];
    }

    method AppendRevision(revision: string, message: string, snapshot: Option<AgentSpec>)
      modifies this`annotation
      ensures annotation == Encoded(Append(Read(old(annotation)), Entry(revision, message, snapshot)))
    {
      var entries := ReadRevisions();
      entries := entries + [Entry(revision, message, snapshot)];
      if |entries| > MAX_HISTORY {
        entries := entries[|entries| - MAX_HISTORY..];
      }
      ghost var kept := entries;
      if |entries| > MAX_SNAPSHOTS {
        for i := 0 to |entries| - MAX_SNAPSHOTS
          invariant |entries| == |kept|
          invariant forall j :: 0 <= j < |kept| ==> entries[j] == if j < i then Strip(kept[j]) else kept[j]
        {
          entries := entries[i := entries[i].(snapshot := None)];
        }
      }
      assert entries == Prune(kept);
      annotation := Encoded(entries);
    }

    /** A push onto an existing agent. */
    method Push(revision: string, desired: AgentSpec)
      modifies this
      ensures Model() == PushOver(old(Model()), revision, desired)
    {
      spec := desired;
      AppendRevision(revision, "push", Some(spec));
      statusRevision := revision;
    }

    method Rollback(target: string, revision: string) returns (err: Option<RollbackError>)
      modifies this
      ensures err == RollbackRefusal(old(Model()), target)
      ensures Model() == if err.None? then RollbackTo(old(Model()), target, revision) else old(Model())
    {
      var entries := ReadRevisions();
      var i := 0;
      while i < |entries| && entries[i].revision != target
        invariant 0 <= i <= |entries|
        invariant forall j :: 0 <= j < i ==> entries[j].revision != target
      {
        i := i + 1;
      }
      if i == |entries| {
        return Some(RevisionNotFound);
      }
      if entries[i].snapshot.None? {
        return Some(NoSnapshot);
      }
      var restored := entries[i].snapshot.value;
      AppendRevision(revision, "rollback to " + target, Some(spec));
      spec := restored;
      statusRevision := revision;
      err := None;
    }
  }

  // ----- The window -----

  /** What is kept of a full log: the newest 20 entries, with snapshots on the newest 5. */
  function Window(log: seq<Entry>): (r: seq<Entry>) {
    Prune(Last(MAX_HISTORY, log))
  }

  lemma AppendSlidesWindow(log: seq<Entry>, e: Entry)
    ensures Append(Window(log), e) == Window(log + [e])
  {
    var a, b := Append(Window(log), e), Window(log + [e]);
    assert |a| == |b|;
    forall i | 0 <= i < |a| ensures a[i] == b[i] {
    }
  }

  function AppendAll(log: seq<Entry>): (r: Annotation) {
    if log == [] then Absent
    else Encoded(Append(Read(AppendAll(log[..|log| - 1])), log[|log| - 1]))
  }

  /** After any appends, the stored history is the window of the full log. */
  lemma {:induction false} HistoryIsWindow(log: seq<Entry>)
    ensures Read(AppendAll(log)) == Window(log)
  {
    if log != [] {
      var n := |log| - 1;
      HistoryIsWindow(log[..n]);
      AppendSlidesWindow(log[..n], log[n]);
      assert log[..n] + [log[n]] == log;
    }
  }

  /**
   The last min(20, n) entries are listed, in order, and of those exactly the last min(5, n)
   keep their snapshot: a revision stays listed through 19 later appends, restorable through 4.
   */
  lemma WindowContents(log: seq<Entry>)
    ensures var w := Window(log);
            && |w| == (if |log| < 20 then |log| else 20)
            && forall i :: 0 <= i < |w| ==>
                 var original := log[|log| - |w| + i];
                 && w[i].revision == original.revision && w[i].message == original.message
                 && w[i].snapshot == (if i + 5 >= |w| then original.snapshot else None)
  {
  }

  predicate DistinctRevisions(log: seq<Entry>) {
    forall i, j :: 0 <= i < j < |log| ==> log[i].revision != log[j].revision
  }

  lemma FindInWindow(log: seq<Entry>, k: nat)
    requires DistinctRevisions(log) && k < |log|
    ensures var w := Window(log);
            var i := Find(w, log[k].revision);
            && (i < |w| <==> |log| - 1 - k <= 19)
            && (i < |w| ==> w[i].snapshot == if |log| - 1 - k <= 4 then log[k].snapshot else None)
  {
    var w := Window(log);
    WindowContents(log);
    var i := Find(w, log[k].revision);
    var shift := |log| - |w|;
    assert i < |w| ==> w[i].revision == log[shift + i].revision;
    if k >= shift {
      assert w[k - shift].revision == log[k].revision;
      assert i == k - shift by {
        assert i <= k - shift;
        assert w[i].revision == log[shift + i].revision;
      }
    }
  }

  /** Without a readable history nothing can be rolled back to, and the next push starts a new one. */
  lemma UnreadableHistoryStartsOver(a: Agent, revision: string, spec: AgentSpec, target: string)
    requires !a.annotation.Encoded?
    ensures RollbackRefusal(a, target) == Some(RevisionNotFound)
    ensures PushOver(a, revision, spec)
            == Agent(spec, Encoded([Entry(revision, "push", Some(spec))]), revision)
  {
    var e := Entry(revision, "push", Some(spec));
    assert [] + [e] == [e] && Prune([e]) == [e];
  }

  // ----- Runs of pushes, rollbacks and direct edits -----

  datatype Op =
    | PushOp(revision: string, spec: AgentSpec)
    | RollbackOp(target: string, revision: string)
    | PatchOp(spec: AgentSpec)                      // a spec change that records no revision
    | CreateOp(spec: AgentSpec)                     // a creation by another client: no revision either

  /** The agent, if it exists, with the full log of every revision ever recorded. */
  datatype World = World(agent: Option<Agent>, log: seq<Entry>)

  function Apply(w: World, op: Op): (r: World) {
    match op
    case PushOp(revision, spec) =>
      World(Some(if w.agent.None? then PushNew(revision, spec) else PushOver(w.agent.value, revision, spec)),
            w.log + [Entry(revision, "push", Some(spec))])
    case RollbackOp(target, revision) =>
      if w.agent.None? || RollbackRefusal(w.agent.value, target).Some? then w
      else World(Some(RollbackTo(w.agent.value, target, revision)),
                 w.log + [Entry(revision, "rollback to " + target, Some(w.agent.value.spec))])
    case PatchOp(spec) =>
      if w.agent.None? then w else w.(agent := Some(w.agent.value.(spec := spec)))
    case CreateOp(spec) => if w.agent.None? then w.(agent := Some(Agent(spec, Absent, ""))) else w
  }

  function Run(ops: seq<Op>): (w: World) {
    if ops == [] then World(None, []) else Apply(Run(ops[..|ops| - 1]), ops[|ops| - 1])
  }

  /** The operation records a revision. */
  predicate Recording(op: Op) {
    op.PushOp? || op.RollbackOp?
  }

  /** Generated revision ids are pairwise different: the hash behind them has not collided. */
  predicate FreshIds(ops: seq<Op>) {
    forall i, j :: 0 <= i < j < |ops| && Recording(ops[i]) && Recording(ops[j]) ==> ops[i].revision != ops[j].revision
  }

  predicate Introduced(ops: seq<Op>, revision: string) {
    exists i :: 0 <= i < |ops| && Recording(ops[i]) && ops[i].revision == revision
  }

  ghost predicate Inv(ops: seq<Op>) {
    var w := Run(ops);
    && DistinctRevisions(w.log)
    && (forall k :: 0 <= k < |w.log| ==> w.log[k].snapshot.Some? && Introduced(ops, w.log[k].revision))
    && (if w.agent.None? then w.log == [] else Read(w.agent.value.annotation) == Window(w.log))
  }

  /** A recorded revision was introduced before the last operation, and that one brings another. */
  lemma OlderRevision(ops: seq<Op>, k: nat)
    requires FreshIds(ops) && ops != [] && Inv(ops[..|ops| - 1]) && k < |Run(ops[..|ops| - 1]).log|
    ensures var revision := Run(ops[..|ops| - 1]).log[k].revision;
            Introduced(ops, revision) && (Recording(ops[|ops| - 1]) ==> revision != ops[|ops| - 1].revision)
  {
    var n := |ops| - 1;
    var revision := Run(ops[..n]).log[k].revision;
    var i :| 0 <= i < n && Recording(ops[..n][i]) && ops[..n][i].revision == revision;
    assert ops[i] == ops[..n][i];
  }

  /** One more record keeps the history the window of its log. */
  lemma RecordKeepsWindow(w: World, op: Op)
    requires if w.agent.None? then w.log == [] else Read(w.agent.value.annotation) == Window(w.log)
    ensures var w' := Apply(w, op);
            if w'.agent.None? then w'.log == [] else Read(w'.agent.value.annotation) == Window(w'.log)
  {
    var w' := Apply(w, op);
    if |w'.log| > |w.log| {
      AppendSlidesWindow(w.log, w'.log[|w.log|]);
      assert w'.log == w.log + [w'.log[|w.log|]];
    }
  }

  lemma RecordKeepsDistinct(w: World, op: Op)
    requires DistinctRevisions(w.log)
    requires Recording(op) ==> forall k :: 0 <= k < |w.log| ==> w.log[k].revision != op.revision
    ensures DistinctRevisions(Apply(w, op).log)
  {
  }

  lemma {:induction false} RunKeepsInv(ops: seq<Op>)
    requires FreshIds(ops)
    ensures Inv(ops)
  {
    if ops != [] {
      var n := |ops| - 1;
      RunKeepsInv(ops[..n]);
      forall k | 0 <= k < |Run(ops[..n]).log|
        ensures Introduced(ops, Run(ops[..n]).log[k].revision)
        ensures Recording(ops[n]) ==> Run(ops[..n]).log[k].revision != ops[n].revision
      {
        OlderRevision(ops, k);
      }
      RecordKeepsWindow(Run(ops[..n]), ops[n]);
      RecordKeepsDistinct(Run(ops[..n]), ops[n]);
      assert Recording(ops[n]) ==> Introduced(ops, ops[n].revision);
    }
  }

  /** A history kept as the window of its log, every entry of which was recorded with a snapshot. */
  predicate KeepsLog(a: Agent, log: seq<Entry>) {
    && DistinctRevisions(log) && Read(a.annotation) == Window(log)
    && forall k :: 0 <= k < |log| ==> log[k].snapshot.Some?
  }

  lemma RollbackToEntry(a: Agent, log: seq<Entry>, k: nat, revision: string)
    requires KeepsLog(a, log) && k < |log|
    ensures RollbackRefusal(a, log[k].revision).None? <==> |log| - 5 <= k
    ensures |log| - 5 <= k ==> log[k].snapshot == Some(RollbackTo(a, log[k].revision, revision).spec)
  {
    FindInWindow(log, k);
  }

  lemma AcceptedIsLogged(a: Agent, log: seq<Entry>, target: string) returns (k: nat)
    requires KeepsLog(a, log) && RollbackRefusal(a, target).None?
    ensures k < |log| && log[k].revision == target
  {
    WindowContents(log);
    k := |log| - |Window(log)| + Find(Window(log), target);
  }

  /** Entry k of the log records that revision and is one of the last five. */
  predicate AmongLastFive(log: seq<Entry>, k: int, revision: string) {
    0 <= k < |log| && |log| - 5 <= k && log[k].revision == revision
  }

  /** A rollback is accepted exactly when its target is among the last five recorded revisions. */
  lemma RollbackIff(ops: seq<Op>, target: string)
    requires FreshIds(ops) && Run(ops).agent.Some?
    ensures RollbackRefusal(Run(ops).agent.value, target).None?
            <==> exists k :: AmongLastFive(Run(ops).log, k, target)
  {
    var w := Run(ops);
    RunKeepsInv(ops);
    if RollbackRefusal(w.agent.value, target).None? {
      var k := AcceptedIsLogged(w.agent.value, w.log, target);
      RollbackToEntry(w.agent.value, w.log, k, "");
      assert AmongLastFive(w.log, k, target);
    } else if k :| AmongLastFive(w.log, k, target) {
      RollbackToEntry(w.agent.value, w.log, k, "");
    }
  }

  /** Entry k of the log records that revision and is one of the last twenty. */
  predicate AmongLastTwenty(log: seq<Entry>, k: int, revision: string) {
    0 <= k < |log| && |log| - 20 <= k && log[k].revision == revision
  }

  lemma ListedIff(a: Agent, log: seq<Entry>, target: string)
    requires KeepsLog(a, log)
    ensures Find(Read(a.annotation), target) < |Read(a.annotation)| <==> exists k :: AmongLastTwenty(log, k, target)
  {
    WindowContents(log);
    var w := Window(log);
    if Find(w, target) < |w| {
      assert AmongLastTwenty(log, |log| - |w| + Find(w, target), target);
    } else if k :| AmongLastTwenty(log, k, target) {
      FindInWindow(log, k);
      assert false;
    }
  }

  /**
   Why a rollback is refused: the revision is unknown exactly if it is not among the last
   twenty recorded, and without a snapshot exactly if it is, but not among the last five.
   */
  lemma RollbackErrorIff(ops: seq<Op>, target: string)
    requires FreshIds(ops) && Run(ops).agent.Some?
    ensures var refusal := RollbackRefusal(Run(ops).agent.value, target);
            var listed := exists k :: AmongLastTwenty(Run(ops).log, k, target);
            && (refusal == Some(RevisionNotFound) <==> !listed)
            && (refusal == Some(NoSnapshot) <==>
                  listed && !exists k :: AmongLastFive(Run(ops).log, k, target))
            && refusal != Some(AgentNotFound)
  {
    RunKeepsInv(ops);
    ListedIff(Run(ops).agent.value, Run(ops).log, target);
    RollbackIff(ops, target);
    if k :| AmongLastFive(Run(ops).log, k, target) { assert AmongLastTwenty(Run(ops).log, k, target); }
  }

  /** An accepted rollback restores the spec its target recorded. */
  lemma RollbackRestoresRecorded(ops: seq<Op>, k: int, target: string, revision: string)
    requires FreshIds(ops) && Run(ops).agent.Some? && AmongLastFive(Run(ops).log, k, target)
    ensures RollbackRefusal(Run(ops).agent.value, target).None?
    ensures Run(ops).log[k].snapshot == Some(RollbackTo(Run(ops).agent.value, target, revision).spec)
  {
    RunKeepsInv(ops);
    RollbackToEntry(Run(ops).agent.value, Run(ops).log, k, revision);
  }

  /** Later operations only extend the log. */
  lemma {:induction false} LogGrows(ops: seq<Op>, i: nat)
    requires i <= |ops|
    ensures Run(ops[..i]).log <= Run(ops).log
  {
    if i < |ops| {
      assert ops[..|ops| - 1][..i] == ops[..i];
      LogGrows(ops[..|ops| - 1], i);
    } else {
      assert ops[..i] == ops;
    }
  }

  lemma RunSnoc(ops: seq<Op>, op: Op)
    ensures Run(ops + [op]) == Apply(Run(ops), op)
  {
    assert (ops + [op])[..|ops|] == ops;
  }

  /** A push's entry stays in the full log, where that push put it. */
  lemma PushIsLogged(ops: seq<Op>, i: nat)
    requires i < |ops| && ops[i].PushOp?
    ensures var k := |Run(ops[..i]).log|;
            k < |Run(ops).log| && Run(ops).log[k] == Entry(ops[i].revision, "push", Some(ops[i].spec))
  {
    assert ops[..i + 1] == ops[..i] + [ops[i]];
    RunSnoc(ops[..i], ops[i]);
    LogGrows(ops, i + 1);
  }

  /** After the operations, an accepted rollback to the target restores that spec. */
  predicate RestoresIfAccepted(ops: seq<Op>, target: string, revision: string, spec: AgentSpec) {
    var w := Run(ops);
    w.agent.Some? && RollbackRefusal(w.agent.value, target).None? ==>
      RollbackTo(w.agent.value, target, revision).spec == spec
  }

  /** An accepted rollback to a push revision restores exactly the spec that push applied. */
  lemma RollbackRestoresPush(ops: seq<Op>, i: nat, revision: string)
    requires FreshIds(ops) && i < |ops| && ops[i].PushOp?
    ensures RestoresIfAccepted(ops, ops[i].revision, revision, ops[i].spec)
  {
    var w := Run(ops);
    RunKeepsInv(ops);
    PushIsLogged(ops, i);
    FindInWindow(w.log, |Run(ops[..i]).log|);
  }

  /**
   Rolling back and then rolling back to the revision that rollback returned restores the
   spec that was live before, and both rollbacks are accepted.
   */
  lemma RollbackRoundTrip(ops: seq<Op>, target: string, r1: string, r2: string)
    requires FreshIds(ops + [RollbackOp(target, r1), RollbackOp(r1, r2)])
    requires Run(ops).agent.Some? && RollbackRefusal(Run(ops).agent.value, target).None?
    ensures var w1 := Run(ops + [RollbackOp(target, r1)]);
            var w2 := Run(ops + [RollbackOp(target, r1)] + [RollbackOp(r1, r2)]);
            && w1.agent.Some? && RollbackRefusal(w1.agent.value, r1).None?
            && w1.agent.value.statusRevision == r1
            && w2.agent.Some? && w2.agent.value.spec == Run(ops).agent.value.spec
            && w2.agent.value.statusRevision == r2
  {
    var all := ops + [RollbackOp(target, r1), RollbackOp(r1, r2)];
    var ops1 := ops + [RollbackOp(target, r1)];
    RunSnoc(ops, RollbackOp(target, r1));
    assert ops1 + [RollbackOp(r1, r2)] == all;
    forall i, j | 0 <= i < j < |ops1| && Recording(ops1[i]) && Recording(ops1[j])
      ensures ops1[i].revision != ops1[j].revision
    {
      assert all[i] == ops1[i] && all[j] == ops1[j];
    }
    RunKeepsInv(ops1);
    var w1 := Run(ops1);
    FindInWindow(w1.log, |Run(ops).log|);
    RunSnoc(ops1, RollbackOp(r1, r2));
  }

  // ----- What the status names -----

  /** The revision named by the status is listed and records the live spec. */
  predicate StatusHoldsLive(a: Agent) {
    var entries := Read(a.annotation);
    var i := Find(entries, a.statusRevision);
    i < |entries| && entries[i].snapshot == Some(a.spec)
  }

  /** A rollback's own revision, which the status then names, records the spec it replaced. */
  lemma RollbackRecordsReplaced(ops: seq<Op>, target: string, r1: string)
    requires FreshIds(ops + [RollbackOp(target, r1)])
    requires Run(ops).agent.Some? && RollbackRefusal(Run(ops).agent.value, target).None?
    ensures var before := Run(ops).agent.value;
            var after := RollbackTo(before, target, r1);
            var entries := Read(after.annotation);
            var i := Find(entries, after.statusRevision);
            i < |entries| && entries[i].snapshot == Some(before.spec)
  {
    var ops1 := ops + [RollbackOp(target, r1)];
    RunSnoc(ops, RollbackOp(target, r1));
    RunKeepsInv(ops1);
    FindInWindow(Run(ops1).log, |Run(ops).log|);
  }

  /** Generated revision ids are never empty. */
  predicate RealIds(ops: seq<Op>) {
    forall i :: 0 <= i < |ops| && Recording(ops[i]) ==> ops[i].revision != ""
  }

  /** A creation leaves the status empty; every later record is the one the status names. */
  predicate StatusNamesLast(w: World) {
    && (forall k :: 0 <= k < |w.log| ==> w.log[k].revision != "")
    && (w.agent.Some? && w.agent.value.statusRevision != "" ==>
          w.log != [] && w.agent.value.statusRevision == w.log[|w.log| - 1].revision)
  }

  lemma {:induction false} RunNamesLast(ops: seq<Op>)
    requires RealIds(ops)
    ensures StatusNamesLast(Run(ops))
  {
    if ops != [] {
      RunNamesLast(ops[..|ops| - 1]);
    }
  }

  /** The newest record of a log. */
  function Newest(log: seq<Entry>): (r: Option<AgentSpec>) {
    if log == [] then None else log[|log| - 1].snapshot
  }

  /**
   After any operations, the revision named by the status records the live spec exactly
   when the status names one and the newest record is of the live spec.
   */
  lemma StatusHoldsLiveIff(ops: seq<Op>)
    requires FreshIds(ops) && RealIds(ops) && Run(ops).agent.Some?
    ensures StatusHoldsLive(Run(ops).agent.value)
            <==> Run(ops).agent.value.statusRevision != "" && Newest(Run(ops).log) == Some(Run(ops).agent.value.spec)
  {
    var w := Run(ops);
    RunKeepsInv(ops);
    RunNamesLast(ops);
    if w.agent.value.statusRevision != "" {
      FindInWindow(w.log, |w.log| - 1);
    } else {
      WindowContents(w.log);
    }
  }

  /** Whether the status will name the live spec after one more operation. */
  predicate WillHoldLive(w: World, op: Op) {
    w.agent.Some? &&
    match op
    case PushOp(_, _) => true
    case RollbackOp(target, _) =>
      if RollbackRefusal(w.agent.value, target).Some? then StatusHoldsLive(w.agent.value)
      else
        var entries := Read(w.agent.value.annotation);
        entries[Find(entries, target)].snapshot == Some(w.agent.value.spec)
    case PatchOp(spec) => w.agent.value.statusRevision != "" && Newest(w.log) == Some(spec)
    case CreateOp(_) => StatusHoldsLive(w.agent.value)
  }

  /**
   The status names the live spec after a push if and only if the agent existed, after an
   accepted rollback if and only if it restores the spec that was live anyway, and after a
   direct edit if and only if the status names a revision and the edit sets the spec
   recorded last.
   */
  lemma NextStatusHoldsLiveIff(ops: seq<Op>, op: Op)
    requires FreshIds(ops + [op]) && RealIds(ops + [op]) && Run(ops + [op]).agent.Some?
    ensures StatusHoldsLive(Run(ops + [op]).agent.value) <==> WillHoldLive(Run(ops), op)
  {
    RunSnoc(ops, op);
    FreshIdsPrefix(ops, op);
    RunNamesLast(ops);
    StatusHoldsLiveIff(ops + [op]);
    if Run(ops).agent.Some? { StatusHoldsLiveIff(ops); }
  }

  lemma FreshIdsPrefix(ops: seq<Op>, op: Op)
    requires FreshIds(ops + [op]) && RealIds(ops + [op])
    ensures FreshIds(ops) && RealIds(ops)
  {
    assert forall i :: 0 <= i < |ops| ==> (ops + [op])[i] == ops[i];
  }

  // ----- Three ways for the status to miss the live spec -----

  predicate StatusMissesLive(ops: seq<Op>) {
    Run(ops).agent.Some? && !StatusHoldsLive(Run(ops).agent.value)
  }

  lemma CreationMissesLive(revision: string, a: AgentSpec)
    requires revision != ""
    ensures StatusMissesLive([PushOp(revision, a)])
  {
    RunSnoc([], PushOp(revision, a));
    assert [] + [PushOp(revision, a)] == [PushOp(revision, a)];
    NextStatusHoldsLiveIff([], PushOp(revision, a));
  }

  function TwoPushes(a: AgentSpec, b: AgentSpec): (ops: seq<Op>) {
    [PushOp("1", a), PushOp("2", b)]
  }

  lemma AfterTwoPushes(a: AgentSpec, b: AgentSpec)
    ensures Run(TwoPushes(a, b)).agent.Some? && Run(TwoPushes(a, b)).agent.value.spec == b
    ensures Run(TwoPushes(a, b)).log == [Entry("1", "push", Some(a)), Entry("2", "push", Some(b))]
  {
    assert TwoPushes(a, b)[..1] == [PushOp("1", a)] && [PushOp("1", a)][..0] == [];
    assert Run([PushOp("1", a)]) == Apply(World(None, []), PushOp("1", a));
  }

  lemma EditMissesLive(a: AgentSpec, b: AgentSpec)
    requires a != b
    ensures StatusMissesLive(TwoPushes(a, b) + [PatchOp(a)])
  {
    AfterTwoPushes(a, b);
    RunSnoc(TwoPushes(a, b), PatchOp(a));
    NextStatusHoldsLiveIff(TwoPushes(a, b), PatchOp(a));
  }

  lemma RollbackMissesLive(a: AgentSpec, b: AgentSpec)
    requires a != b
    ensures StatusMissesLive(TwoPushes(a, b) + [RollbackOp("1", "3")])
  {
    var ops := TwoPushes(a, b);
    AfterTwoPushes(a, b);
    RunKeepsInv(ops);
    FindInWindow(Run(ops).log, 0);
    RunSnoc(ops, RollbackOp("1", "3"));
    NextStatusHoldsLiveIff(ops, RollbackOp("1", "3"));
  }
}
