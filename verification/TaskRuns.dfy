/**
 Runs of the in-memory task store: dependency safety and stale claims
 (internal/team/task_store.go, lifecycle.go).
 */
module TaskRuns {
  import opened Text
  import opened Tasks

  function Run(ops: seq<Op>): (s: Store) {
    if ops == [] then EMPTY else Apply(Run(ops[..|ops| - 1]), ops[|ops| - 1])
  }

  // ----- Dependency safety -----

  predicate Active(t: Task) {
    t.state == InProgress || t.state == Completed
  }

  /** A task that has been started has no unfinished dependency. */
  predicate TaskSafe(tasks: TaskMap, id: string) {
    id in tasks && Active(tasks[id]) ==> !IsBlocked(tasks, tasks[id])
  }

  ghost predicate TeamSafe(tasks: TaskMap) {
    forall id :: TaskSafe(tasks, id)
  }

  ghost predicate Safe(s: Store) {
    forall key :: TeamSafe(TeamTasks(s, key))
  }

  /** No other started task depends on id. */
  predicate Unneeded(tasks: TaskMap, id: string) {
    forall other :: other in tasks && other != id && Active(tasks[other]) ==> id !in tasks[other].blockedBy
  }

  /**
   The exact guard: a new task must not take an id that a started task already names, and
   a released task must not be a dependency of another started task.
   */
  predicate Allowed(s: Store, op: Op) {
    match op
    case CreateOp(key, _, _, _, _) => Unneeded(TeamTasks(s, key), TaskId(Number(s, key) + 1))
    case UnclaimOp(key, id) => id in TeamTasks(s, key) ==> Unneeded(TeamTasks(s, key), id)
    case _ => true
  }

  /** Ids in use were handed out before. */
  ghost predicate Numbered(s: Store) {
    forall key, n :: n > Number(s, key) ==> TaskId(n) !in TeamTasks(s, key)
  }

  lemma {:induction false} IdsAreNumbered(ops: seq<Op>)
    ensures Numbered(Run(ops))
  {
    if ops != [] {
      IdsAreNumbered(ops[..|ops| - 1]);
      StepKeepsNumbered(Run(ops[..|ops| - 1]), ops[|ops| - 1]);
    }
  }

  lemma StepKeepsNumbered(s: Store, op: Op)
    requires Numbered(s)
    ensures Numbered(Apply(s, op))
  {
    forall key, n | n > Number(Apply(s, op), key) ensures TaskId(n) !in TeamTasks(Apply(s, op), key) {
      assert key == op.key || TeamTasks(Apply(s, op), key) == TeamTasks(s, key);
      if op.CreateOp? && key == op.key && TaskId(n) == TaskId(Number(s, key) + 1) {
        TaskIdInjective(n, Number(s, key) + 1);
      }
    }
  }

  /** How many tasks the team has been given since it was last deleted. */
  function Creations(ops: seq<Op>, key: string): (n: nat) {
    if ops == [] then 0 else
    var n, op := Creations(ops[..|ops| - 1], key), ops[|ops| - 1];
    if op.key != key then n else if op.CreateOp? then n + 1 else if op.DeleteTeamOp? then 0 else n
  }

  /** The id is one of the first n. */
  predicate HandedOut(n: nat, id: string) {
    exists k :: 1 <= k <= n && id == TaskId(k)
  }

  lemma OneMoreHandedOut(n: nat, id: string)
    ensures HandedOut(n + 1, id) <==> HandedOut(n, id) || id == TaskId(n + 1)
  {
    if id == TaskId(n + 1) { assert 1 <= n + 1 <= n + 1; }
  }

  lemma ApplyKeysIff(s: Store, op: Op, key: string, id: string)
    ensures var s' := Apply(s, op);
            && (id in TeamTasks(s', key) <==>
                  if op.key != key then id in TeamTasks(s, key)
                  else if op.DeleteTeamOp? then false
                  else id in TeamTasks(s, key) || (op.CreateOp? && id == TaskId(Number(s, key) + 1)))
            && Number(s', key) == if op.key != key then Number(s, key)
                                  else if op.DeleteTeamOp? then 0
                                  else Number(s, key) + if op.CreateOp? then 1 else 0
  {
  }

  /**
   In every reachable state the ids in use are exactly task-1 to task-n, n being the number of
   tasks created since the team was last deleted: none is skipped, reused or lost, and a
   team created again starts at task-1.
   */
  lemma {:induction false} IdsCountCreations(ops: seq<Op>, key: string, id: string)
    ensures Number(Run(ops), key) == Creations(ops, key)
    ensures id in TeamTasks(Run(ops), key) <==> HandedOut(Creations(ops, key), id)
  {
    if ops != [] {
      var before := ops[..|ops| - 1];
      IdsCountCreations(before, key, id);
      ApplyKeysIff(Run(before), ops[|ops| - 1], key, id);
      OneMoreHandedOut(Creations(before, key), id);
    }
  }

  /** The accepted changes of a task since it was created. */
  function Changes(ops: seq<Op>, key: string, id: string): (n: nat) {
    if ops == [] then 0 else
    var before, op := ops[..|ops| - 1], ops[|ops| - 1];
    if op.key != key || Refusal(Run(before), op).Some? then Changes(before, key, id)
    else match op
         case CreateOp(_, _, _, _, _) =>
           if id == TaskId(Number(Run(before), key) + 1) then 0 else Changes(before, key, id)
         case DeleteTeamOp(_) => 0
         case _ => Changes(before, key, id) + if op.id == id then 1 else 0
  }

  lemma VersionAfter(s: Store, op: Op, key: string, id: string)
    requires id in TeamTasks(Apply(s, op), key)
    ensures var version := TeamTasks(Apply(s, op), key)[id].version;
            if op.key == key && op.CreateOp? && id == TaskId(Number(s, key) + 1) then version == 1
            else
              && id in TeamTasks(s, key)
              && version == TeamTasks(s, key)[id].version
                            + if op.key == key && !op.CreateOp? && !op.DeleteTeamOp? && op.id == id
                                 && Refusal(s, op).None? then 1 else 0
  {
  }

  /** In every reachable state a task's version is one more than the number of its accepted changes. */
  lemma {:induction false} VersionCountsChanges(ops: seq<Op>, key: string, id: string)
    requires id in TeamTasks(Run(ops), key)
    ensures TeamTasks(Run(ops), key)[id].version == 1 + Changes(ops, key, id)
  {
    if ops != [] {
      var before := ops[..|ops| - 1];
      VersionAfter(Run(before), ops[|ops| - 1], key, id);
      if id in TeamTasks(Run(before), key) { VersionCountsChanges(before, key, id); }
    }
  }

  lemma SetTaskSafeIff(tasks: TaskMap, id: string, t: Task)
    requires TeamSafe(tasks)
    requires Active(t) ==> !IsBlocked(tasks[id := t], t)
    ensures TeamSafe(tasks[id := t]) <==> t.state == Completed || Unneeded(tasks, id)
  {
    var tasks' := tasks[id := t];
    if t.state == Completed || Unneeded(tasks, id) {
      forall other ensures TaskSafe(tasks', other) {
        assert TaskSafe(tasks, other);
        if other in tasks && other != id && Active(tasks[other]) {
          assert forall i :: 0 <= i < |tasks[other].blockedBy| ==>
              !Waits(tasks, tasks[other].blockedBy[i]) && !Waits(tasks', tasks[other].blockedBy[i]);
        }
      }
    } else {
      var other :| other in tasks && other != id && Active(tasks[other]) && id in tasks[other].blockedBy;
      var i :| 0 <= i < |tasks[other].blockedBy| && tasks[other].blockedBy[i] == id;
      assert Waits(tasks', tasks'[other].blockedBy[i]);
      assert !TaskSafe(tasks', other);
    }
  }

  /** A claim cannot break safety: nothing started depends on a pending task. */
  lemma PendingIsUnneeded(tasks: TaskMap, id: string)
    requires TeamSafe(tasks) && id in tasks && tasks[id].state != Completed
    ensures Unneeded(tasks, id)
  {
    forall other | other in tasks && other != id && Active(tasks[other]) ensures id !in tasks[other].blockedBy {
      assert TaskSafe(tasks, other);
      assert forall i :: 0 <= i < |tasks[other].blockedBy| ==> !Waits(tasks, tasks[other].blockedBy[i]);
    }
  }

  lemma ClaimedStaysUnblocked(tasks: TaskMap, id: string, t: Task)
    requires id in tasks && tasks[id].state != Completed && t.blockedBy == tasks[id].blockedBy
    requires !IsBlocked(tasks, tasks[id])
    ensures !IsBlocked(tasks[id := t], t)
  {
    var tasks' := tasks[id := t];
    forall i | 0 <= i < |t.blockedBy| ensures !Waits(tasks', t.blockedBy[i]) {
      assert !Waits(tasks, tasks[id].blockedBy[i]);
    }
  }

  /** From a safe state, an operation keeps its team safe if and only if it is allowed. */
  lemma StepSafeIff(s: Store, op: Op)
    requires Safe(s)
    ensures TeamSafe(TeamTasks(Apply(s, op), op.key)) <==> Allowed(s, op)
    ensures forall key :: key != op.key ==> TeamTasks(Apply(s, op), key) == TeamTasks(s, key)
  {
    var tasks := TeamTasks(s, op.key);
    assert TeamSafe(tasks);
    if Refusal(s, op).None? {
      match op
      case CreateOp(_, teamName, subject, description, blockedBy) =>
        var n := Number(s, op.key) + 1;
        SetTaskSafeIff(tasks, TaskId(n), NewTask(n, teamName, subject, description, blockedBy));
      case UnclaimOp(_, id) =>
        SetTaskSafeIff(tasks, id, Released(tasks[id]));
      case ClaimOp(_, id, claimant, _) =>
        PendingIsUnneeded(tasks, id);
        ClaimedStaysUnblocked(tasks, id, Claimed(tasks[id], claimant));
        SetTaskSafeIff(tasks, id, Claimed(tasks[id], claimant));
      case CompleteOp(_, id, result) =>
        assert TaskSafe(tasks, id);
        ClaimedStaysUnblocked(tasks, id, Finished(tasks[id], result));
        SetTaskSafeIff(tasks, id, Finished(tasks[id], result));
      case DeleteTeamOp(_) =>
        assert TeamTasks(Apply(s, op), op.key) == map[];
    }
  }

  lemma {:induction false} AllowedRunsAreSafe(ops: seq<Op>)
    requires forall i :: 0 <= i < |ops| ==> Allowed(Run(ops[..i]), ops[i])
    ensures Safe(Run(ops))
  {
    if ops == [] {
      forall key ensures TeamSafe(TeamTasks(EMPTY, key)) {
        assert forall id :: TaskSafe(TeamTasks(EMPTY, key), id);
      }
    } else {
      var n := |ops| - 1;
      forall i | 0 <= i < n ensures Allowed(Run(ops[..n][..i]), ops[..n][i]) {
        assert ops[..n][..i] == ops[..i];
      }
      AllowedRunsAreSafe(ops[..n]);
      StepSafeIff(Run(ops[..n]), ops[n]);
    }
  }

  /** In every reachable state a pending task has no owner, and a task is filed under its own id. */
  lemma {:induction false} PendingTasksAreUnowned(ops: seq<Op>, key: string, id: string)
    ensures var tasks := TeamTasks(Run(ops), key);
            id in tasks ==>
              && tasks[id].state != Unset
              && (tasks[id].state == Pending ==> tasks[id].owner == "")
              && tasks[id].id == id
  {
    if ops != [] {
      PendingTasksAreUnowned(ops[..|ops| - 1], key, id);
      var op := ops[|ops| - 1];
      if !op.CreateOp? && !op.DeleteTeamOp? && Refusal(Run(ops[..|ops| - 1]), op).None? {
        PendingTasksAreUnowned(ops[..|ops| - 1], op.key, op.id);
      }
    }
  }

  // ----- Optimistic claims -----

  /** Every accepted change of a task raises its version, so a claim expecting the old one is refused. */
  lemma AcceptedChangeRefusesStaleClaim(s: Store, op: Op, claimant: string, expected: int)
    requires op.ClaimOp? || op.CompleteOp? || op.UnclaimOp?
    requires Refusal(s, op).None?
    ensures op.id in TeamTasks(s, op.key) && op.id in TeamTasks(Apply(s, op), op.key)
    ensures 0 < expected <= TeamTasks(s, op.key)[op.id].version ==>
              Refusal(Apply(s, op), ClaimOp(op.key, op.id, claimant, expected)).Some?
    ensures op.UnclaimOp? && 0 < expected == TeamTasks(s, op.key)[op.id].version
            && !IsBlocked(TeamTasks(Apply(s, op), op.key), Released(TeamTasks(s, op.key)[op.id])) ==>
              Refusal(Apply(s, op), ClaimOp(op.key, op.id, claimant, expected)) == Some(Conflict)
  {
  }

  // ----- Backward dependencies -----

  /**
   The calling discipline: a created task names no id that is yet to be handed out, and
   only in-progress tasks are released.
   */
  ghost predicate Disciplined(s: Store, op: Op) {
    match op
    case CreateOp(key, _, _, _, blockedBy) => forall n :: n > Number(s, key) ==> TaskId(n) !in blockedBy
    case UnclaimOp(key, id) => id in TeamTasks(s, key) ==> TeamTasks(s, key)[id].state == InProgress
    case _ => true
  }

  /** Every id in use has a number below the counter, and dependencies have lower numbers than their task. */
  ghost predicate BackwardTask(tasks: TaskMap, last: nat, id: string) {
    id in tasks ==>
      exists n :: 1 <= n <= last && id == TaskId(n) && forall m :: m >= n ==> TaskId(m) !in tasks[id].blockedBy
  }

  ghost predicate Backward(tasks: TaskMap, last: nat) {
    forall id :: BackwardTask(tasks, last, id)
  }

  lemma FreshIdIsUnneeded(tasks: TaskMap, last: nat)
    requires Backward(tasks, last)
    ensures Unneeded(tasks, TaskId(last + 1)) && TaskId(last + 1) !in tasks
  {
    var next := TaskId(last + 1);
    forall other | other in tasks ensures next !in tasks[other].blockedBy && other != next {
      assert BackwardTask(tasks, last, other);
      var n :| 1 <= n <= last && other == TaskId(n) && forall m :: m >= n ==> TaskId(m) !in tasks[other].blockedBy;
      if other == next { TaskIdInjective(n, last + 1); }
    }
  }

  lemma StepKeepsBackward(s: Store, op: Op, key: string)
    requires Backward(TeamTasks(s, key), Number(s, key)) && (op.CreateOp? ==> Disciplined(s, op))
    ensures Backward(TeamTasks(Apply(s, op), key), Number(Apply(s, op), key))
  {
    var tasks, last := TeamTasks(s, key), Number(s, key);
    var tasks', last' := TeamTasks(Apply(s, op), key), Number(Apply(s, op), key);
    forall id ensures BackwardTask(tasks', last', id) {
      assert BackwardTask(tasks, last, id);
      if id in tasks' && op.CreateOp? && op.key == key && id == TaskId(last + 1) {
        assert 1 <= last + 1 <= last' && id == TaskId(last + 1);
      } else if id in tasks' {
        assert id in tasks && tasks'[id].blockedBy == tasks[id].blockedBy && last <= last';
      }
    }
  }

  ghost predicate AllBackward(s: Store) {
    forall key :: Backward(TeamTasks(s, key), Number(s, key))
  }

  /** The calling discipline implies the exact guard. */
  lemma DisciplinedIsAllowed(s: Store, op: Op)
    requires Safe(s) && AllBackward(s) && Disciplined(s, op)
    ensures Allowed(s, op)
  {
    var tasks := TeamTasks(s, op.key);
    assert Backward(tasks, Number(s, op.key)) && TeamSafe(tasks);
    FreshIdIsUnneeded(tasks, Number(s, op.key));
    if op.UnclaimOp? && op.id in tasks { PendingIsUnneeded(tasks, op.id); }
  }

  lemma DisciplinedStep(s: Store, op: Op)
    requires Safe(s) && AllBackward(s) && Disciplined(s, op)
    ensures Safe(Apply(s, op)) && AllBackward(Apply(s, op))
  {
    DisciplinedIsAllowed(s, op);
    StepSafeIff(s, op);
    forall key ensures Backward(TeamTasks(Apply(s, op), key), Number(Apply(s, op), key)) {
      StepKeepsBackward(s, op, key);
    }
  }

  /** Under the calling discipline every reachable state is dependency safe, and ids are never reused. */
  lemma {:induction false} DisciplinedRunsAreSafe(ops: seq<Op>)
    requires forall i :: 0 <= i < |ops| ==> Disciplined(Run(ops[..i]), ops[i])
    ensures Safe(Run(ops)) && AllBackward(Run(ops))
  {
    if ops == [] {
      forall key ensures TeamSafe(TeamTasks(EMPTY, key)) && Backward(TeamTasks(EMPTY, key), Number(EMPTY, key)) {
        assert forall id :: TaskSafe(TeamTasks(EMPTY, key), id) && BackwardTask(TeamTasks(EMPTY, key), 0, id);
      }
    } else {
      var n := |ops| - 1;
      forall i | 0 <= i < n ensures Disciplined(Run(ops[..n][..i]), ops[..n][i]) {
        assert ops[..n][..i] == ops[..i];
      }
      DisciplinedRunsAreSafe(ops[..n]);
      DisciplinedStep(Run(ops[..n]), ops[n]);
    }
  }

  // ----- A run that Unclaim makes unsafe -----

  lemma RunSnoc(ops: seq<Op>, op: Op)
    ensures Run(ops + [op]) == Apply(Run(ops), op)
  {
    assert (ops + [op])[..|ops|] == ops;
  }

  /** The store of one team, filed under "k", after it was given n ids. */
  function OneTeam(tasks: TaskMap, n: nat): (s: Store) {
    Store(map["k" := tasks], map["k" := n])
  }

  function Creation(blockedBy: seq<string>): (op: Op) {
    CreateOp("k", "t", "", "", blockedBy)
  }

  lemma FirstCreation(blockedBy: seq<string>)
    ensures Apply(EMPTY, Creation(blockedBy)) == OneTeam(map[TaskId(1) := NewTask(1, "t", "", "", blockedBy)], 1)
  {
    assert TeamTasks(EMPTY, "k") == map[];
  }

  lemma NextCreation(tasks: TaskMap, n: nat, blockedBy: seq<string>)
    ensures Apply(OneTeam(tasks, n), Creation(blockedBy))
            == OneTeam(tasks[TaskId(n + 1) := NewTask(n + 1, "t", "", "", blockedBy)], n + 1)
  {
  }

  lemma Change(tasks: TaskMap, n: nat, op: Op)
    requires op.ClaimOp? || op.CompleteOp? || op.UnclaimOp?
    requires op.key == "k" && Refusal(OneTeam(tasks, n), op).None?
    ensures op.id in tasks
    ensures Apply(OneTeam(tasks, n), op)
            == OneTeam(tasks[op.id := match op
                                      case ClaimOp(_, id, claimant, _) => Claimed(tasks[id], claimant)
                                      case CompleteOp(_, id, result) => Finished(tasks[id], result)
                                      case UnclaimOp(_, id) => Released(tasks[id])], n)
  {
  }

  /** A task done by "a", and one that depends on it. */
  function Done(): (t: Task) {
    Finished(Claimed(NewTask(1, "t", "", "", []), "a"), "")
  }

  function Dependent(): (t: Task) {
    NewTask(2, "t", "", "", [TaskId(1)])
  }

  /** One task, just created. */
  lemma AfterFirst(blockedBy: seq<string>)
    ensures Run([Creation(blockedBy)]) == OneTeam(map[TaskId(1) := NewTask(1, "t", "", "", blockedBy)], 1)
  {
    FirstCreation(blockedBy);
    RunSnoc([], Creation(blockedBy));
    assert [] + [Creation(blockedBy)] == [Creation(blockedBy)];
  }

  /** One task is changed. */
  lemma AfterChange(ops: seq<Op>, task: Task, op: Op, task': Task)
    requires Run(ops) == OneTeam(map[TaskId(1) := task], 1)
    requires op.key == "k" && op != DeleteTeamOp("k") && !op.CreateOp? && op.id == TaskId(1)
    requires Refusal(OneTeam(map[TaskId(1) := task], 1), op).None?
    requires match op
             case ClaimOp(_, _, claimant, _) => task' == Claimed(task, claimant)
             case CompleteOp(_, _, result) => task' == Finished(task, result)
             case _ => task' == Released(task)
    ensures Run(ops + [op]) == OneTeam(map[TaskId(1) := task'], 1)
  {
    Change(map[TaskId(1) := task], 1, op);
    RunSnoc(ops, op);
    assert map[TaskId(1) := task][TaskId(1) := task'] == map[TaskId(1) := task'];
  }

  /** The first task is created, claimed and completed. */
  function FirstDone(): (ops: seq<Op>) {
    [Creation([])] + [ClaimOp("k", TaskId(1), "a", 0)] + [CompleteOp("k", TaskId(1), "")]
  }

  lemma FirstTaskDone()
    ensures Run(FirstDone()) == OneTeam(map[TaskId(1) := Done()], 1)
  {
    var task := NewTask(1, "t", "", "", []);
    var claim, complete := ClaimOp("k", TaskId(1), "a", 0), CompleteOp("k", TaskId(1), "");
    AfterFirst([]);
    AfterChange([Creation([])], task, claim, Claimed(task, "a"));
    AfterChange([Creation([])] + [claim], Claimed(task, "a"), complete, Done());
  }

  /** Then the second is created, naming the first, and claimed. */
  function Stranding(): (ops: seq<Op>) {
    FirstDone() + [Creation([TaskId(1)])] + [ClaimOp("k", TaskId(2), "b", 0)]
  }

  lemma DependentIsClaimable(tasks: TaskMap)
    requires tasks == map[TaskId(1) := Done()][TaskId(2) := Dependent()]
    ensures Refusal(OneTeam(tasks, 2), ClaimOp("k", TaskId(2), "b", 0)).None?
  {
    if TaskId(1) == TaskId(2) { TaskIdInjective(1, 2); }
    assert !Waits(tasks, TaskId(1));
  }

  lemma SecondTaskCreated()
    ensures Run(FirstDone() + [Creation([TaskId(1)])])
            == OneTeam(map[TaskId(1) := Done()][TaskId(2) := Dependent()], 2)
  {
    FirstTaskDone();
    NextCreation(map[TaskId(1) := Done()], 1, [TaskId(1)]);
    RunSnoc(FirstDone(), Creation([TaskId(1)]));
  }

  lemma SecondTaskStarted()
    ensures Run(Stranding()) == OneTeam(map[TaskId(1) := Done()][TaskId(2) := Claimed(Dependent(), "b")], 2)
  {
    var both := map[TaskId(1) := Done()][TaskId(2) := Dependent()];
    var claim := ClaimOp("k", TaskId(2), "b", 0);
    SecondTaskCreated();
    DependentIsClaimable(both);
    Change(both, 2, claim);
    RunSnoc(FirstDone() + [Creation([TaskId(1)])], claim);
    assert both[TaskId(2) := Claimed(Dependent(), "b")]
           == map[TaskId(1) := Done()][TaskId(2) := Claimed(Dependent(), "b")];
  }

  lemma StrandedIsSafe(tasks: TaskMap)
    requires tasks == map[TaskId(1) := Done()][TaskId(2) := Claimed(Dependent(), "b")]
    ensures Safe(OneTeam(tasks, 2))
  {
    if TaskId(1) == TaskId(2) { TaskIdInjective(1, 2); }
    forall key ensures TeamSafe(TeamTasks(OneTeam(tasks, 2), key)) {
      forall id ensures TaskSafe(TeamTasks(OneTeam(tasks, 2), key), id) {
        assert id in TeamTasks(OneTeam(tasks, 2), key) ==>
            forall i :: 0 <= i < |tasks[id].blockedBy| ==> !Waits(tasks, tasks[id].blockedBy[i]);
      }
    }
  }

  /** On a safe run, releasing a completed task, as Unclaim allows, strands a started dependent. */
  lemma ReleasingCompletedBreaksSafety()
    ensures Safe(Run(Stranding())) && !Safe(Run(Stranding() + [UnclaimOp("k", TaskId(1))]))
  {
    var tasks := map[TaskId(1) := Done()][TaskId(2) := Claimed(Dependent(), "b")];
    if TaskId(1) == TaskId(2) { TaskIdInjective(1, 2); }
    SecondTaskStarted();
    StrandedIsSafe(tasks);
    RunSnoc(Stranding(), UnclaimOp("k", TaskId(1)));
    StepSafeIff(OneTeam(tasks, 2), UnclaimOp("k", TaskId(1)));
    assert TaskId(1) in tasks[TaskId(2)].blockedBy;
    assert !Unneeded(tasks, TaskId(1));
  }
}
