/**
 The lock-based in-memory task list of internal/team/task_store.go.
 */
module Tasks {
  import opened Text

  /** Unset is the empty state a CRD carries before its first status write; the in-memory store never uses it. */
  datatype TaskState = Unset | Pending | InProgress | Completed

  datatype Task = Task(
    id: string, teamName: string, subject: string, description: string,
    state: TaskState, owner: string, blockedBy: seq<string>, version: nat, result: string)

  type TaskMap = map<string, Task>

  datatype Store = Store(tasks: map<string, TaskMap>, numbers: map<string, nat>)

  const EMPTY := Store(map[], map[])

  datatype Error = TeamNotFound | TaskNotFound | NotPending | Blocked | Conflict | NotInProgress

  datatype Result = Ok(task: Task) | Err(error: Error)

  function TaskId(n: nat): (id: string) {
    "task-" + Decimal(n)
  }

  lemma TaskIdInjective(m: nat, n: nat)
    requires TaskId(m) == TaskId(n)
    ensures m == n
  {
    assert Decimal(m) == TaskId(m)[5..] && Decimal(n) == TaskId(n)[5..];
    DecimalInjective(m, n);
  }

  function TeamTasks(s: Store, key: string): (r: TaskMap) {
    if key in s.tasks then s.tasks[key] else map[]
  }

  function Number(s: Store, key: string): (n: nat) {
    if key in s.numbers then s.numbers[key] else 0
  }

  // ----- Effects on one task -----

  function NewTask(n: nat, teamName: string, subject: string, description: string, blockedBy: seq<string>): (t: Task) {
    Task(TaskId(n), teamName, subject, description, Pending, "", blockedBy, 1, "")
  }

  function Claimed(t: Task, claimant: string): (r: Task) {
    t.(state := InProgress, owner := claimant, version := t.version + 1)
  }

  function Finished(t: Task, result: string): (r: Task) {
    t.(state := Completed, result := result, version := t.version + 1)
  }

  function Released(t: Task): (r: Task) {
    t.(state := Pending, owner := "", version := t.version + 1)
  }

  // ----- Dependencies -----

  predicate Waits(tasks: TaskMap, dep: string) {
    dep in tasks && tasks[dep].state != Completed
  }

  /** A missing dependency does not block. */
  predicate IsBlocked(tasks: TaskMap, t: Task) {
    exists i :: 0 <= i < |t.blockedBy| && Waits(tasks, t.blockedBy[i])
  }

  predicate Claimable(tasks: TaskMap, id: string) {
    id in tasks && tasks[id].state == Pending && !IsBlocked(tasks, tasks[id])
  }

  // ----- Operations on the store -----

  datatype Op =
    | CreateOp(key: string, teamName: string, subject: string, description: string, blockedBy: seq<string>)
    | ClaimOp(key: string, id: string, claimant: string, expected: int)
    | CompleteOp(key: string, id: string, result: string)
    | UnclaimOp(key: string, id: string)
    | DeleteTeamOp(key: string)

  function CheckClaim(tasks: TaskMap, t: Task, expected: int): (r: Option<Error>) {
    if t.state != Pending then Some(NotPending)
    else if IsBlocked(tasks, t) then Some(Blocked)
    else if expected > 0 && t.version != expected then Some(Conflict)
    else None
  }

  /** Why the store refuses an operation, if it does. */
  function Refusal(s: Store, op: Op): (r: Option<Error>) {
    if op.CreateOp? || op.DeleteTeamOp? then None
    else if op.key !in s.tasks then Some(TeamNotFound)
    else if op.id !in s.tasks[op.key] then Some(TaskNotFound)
    else
      var t := s.tasks[op.key][op.id];
      if op.ClaimOp? then CheckClaim(s.tasks[op.key], t, op.expected)
      else if op.CompleteOp? && t.state != InProgress then Some(NotInProgress)
      else None
  }

  /** Why exactly an operation is refused, the first reason that applies in the order of the checks. */
  lemma RefusalReasons(s: Store, op: Op)
    ensures op.CreateOp? || op.DeleteTeamOp? ==> Refusal(s, op).None?
    ensures op.ClaimOp? || op.CompleteOp? || op.UnclaimOp? ==>
              && (Refusal(s, op) == Some(TeamNotFound) <==> op.key !in s.tasks)
              && (Refusal(s, op) == Some(TaskNotFound) <==> op.key in s.tasks && op.id !in s.tasks[op.key])
    ensures op.UnclaimOp? && op.id in TeamTasks(s, op.key) ==> Refusal(s, op).None?
    ensures op.CompleteOp? && op.id in TeamTasks(s, op.key) ==>
              (Refusal(s, op) == if TeamTasks(s, op.key)[op.id].state == InProgress then None else Some(NotInProgress))
    ensures op.ClaimOp? && op.id in TeamTasks(s, op.key) ==>
              var t := TeamTasks(s, op.key)[op.id];
              && (Refusal(s, op) == Some(NotPending) <==> t.state != Pending)
              && (Refusal(s, op) == Some(Blocked) <==> t.state == Pending && IsBlocked(TeamTasks(s, op.key), t))
              && (Refusal(s, op) == Some(Conflict) <==>
                    && t.state == Pending && !IsBlocked(TeamTasks(s, op.key), t)
                    && op.expected > 0 && t.version != op.expected)
              && (Refusal(s, op).None? <==> Claimable(TeamTasks(s, op.key), op.id)
                                            && (op.expected <= 0 || t.version == op.expected))
  {
  }

  function SetTask(s: Store, key: string, t: string, task: Task): (r: Store) {
    s.(tasks := s.tasks[key := TeamTasks(s, key)[t := task]])
  }

  /** A refused operation leaves the store as it was. */
  function Apply(s: Store, op: Op): (r: Store) {
    if Refusal(s, op).Some? then s else
    match op
    case CreateOp(key, teamName, subject, description, blockedBy) =>
      var n := Number(s, key) + 1;
      SetTask(s, key, TaskId(n), NewTask(n, teamName, subject, description, blockedBy)).(numbers := s.numbers[key := n])
    case ClaimOp(key, id, claimant, _) => SetTask(s, key, id, Claimed(s.tasks[key][id], claimant))
    case CompleteOp(key, id, result) => SetTask(s, key, id, Finished(s.tasks[key][id], result))
    case UnclaimOp(key, id) => SetTask(s, key, id, Released(s.tasks[key][id]))
    case DeleteTeamOp(key) => Store(s.tasks - {key}, s.numbers - {key})
  }

  // ----- Counting -----

  function InState(tasks: TaskMap, state: TaskState): (r: set<string>) {
    set id | id in tasks && tasks[id].state == state
  }

  function Unblocked(tasks: TaskMap): (r: set<string>) {
    set id | id in tasks && Claimable(tasks, id)
  }

  lemma InStateUpdate(tasks: TaskMap, id: string, t: Task, state: TaskState)
    ensures InState(tasks[id := t], state)
            == if t.state == state then InState(tasks, state) + {id} else InState(tasks, state) - {id}
  {
  }

  /** One more task adds one to its own state's count and nothing to the others. */
  lemma CountUpdate(tasks: TaskMap, id: string, t: Task, state: TaskState)
    requires id !in tasks
    ensures |InState(tasks[id := t], state)| == |InState(tasks, state)| + if t.state == state then 1 else 0
  {
    InStateUpdate(tasks, id, t, state);
    assert id !in InState(tasks, state);
  }

  // ----- The store object -----

  class TaskStore {
    var tasks: map<string, TaskMap>
    var numbers: map<string, nat>

    ghost function Model(): Store
      reads this
    {
      Store(tasks, numbers)
    }

    constructor ()
      ensures Model() == EMPTY
    {
      tasks, numbers := map[], map[];
    }

    method Create(namespace: string, teamName: string, subject: string, description: string, blockedBy: seq<string>)
      returns (task: Task)
      modifies this
      ensures var key := SlashKey(namespace, teamName);
              && Model() == Apply(old(Model()), CreateOp(key, teamName, subject, description, blockedBy))
              && task.id in TeamTasks(Model(), key) && TeamTasks(Model(), key)[task.id] == task
              && task.state == Pending && task.owner == "" && task.blockedBy == blockedBy
    {
      var key := SlashKey(namespace, teamName);
      if key !in tasks {
        tasks := tasks[key := map[]];
      }
      assert tasks[key] == TeamTasks(old(Model()), key);
      var n := (if key in numbers then numbers[key] else 0) + 1;
      numbers := numbers[key := n];
      task := Task(TaskId(n), teamName, subject, description, Pending, "", blockedBy, 1, "");
      tasks := tasks[key := tasks[key][task.id := task]];
    }

    /** The dependency loop, over tasks the lock already protects. */
    method BlockedNow(key: string, task: Task) returns (blocked: bool)
      ensures blocked == IsBlocked(TeamTasks(Model(), key), task)
    {
      var teamTasks: TaskMap := if key in tasks then tasks[key] else map[];
      for i := 0 to |task.blockedBy|
        invariant forall j :: 0 <= j < i ==> !Waits(teamTasks, task.blockedBy[j])
      {
        if task.blockedBy[i] !in teamTasks {
          continue;
        }
        if teamTasks[task.blockedBy[i]].state != Completed {
          return true;
        }
      }
      return false;
    }

    method Claim(namespace: string, teamName: string, taskID: string, claimedBy: string, expectedVersion: int)
      returns (r: Result)
      modifies this
      ensures var op := ClaimOp(SlashKey(namespace, teamName), taskID, claimedBy, expectedVersion);
              && Model() == Apply(old(Model()), op)
              && match Refusal(old(Model()), op) {
                   case Some(e) => r == Err(e)
                   case None => op.id in TeamTasks(Model(), op.key) && r == Ok(TeamTasks(Model(), op.key)[op.id])
                                && r.task.state == InProgress && r.task.owner == claimedBy
                 }
    {
      var key := SlashKey(namespace, teamName);
      if key !in tasks {
        return Err(TeamNotFound);
      }
      if taskID !in tasks[key] {
        return Err(TaskNotFound);
      }
      var task := tasks[key][taskID];
      if task.state != Pending {
        return Err(NotPending);
      }
      var blocked := BlockedNow(key, task);
      if blocked {
        return Err(Blocked);
      }
      if expectedVersion > 0 && task.version != expectedVersion {
        return Err(Conflict);
      }
      task := task.(state := InProgress);
      task := task.(owner := claimedBy);
      task := task.(version := task.version + 1);
      tasks := tasks[key := tasks[key][taskID := task]];
      r := Ok(task);
    }

    method Complete(namespace: string, teamName: string, taskID: string, result: string) returns (r: Result)
      modifies this
      ensures var op := CompleteOp(SlashKey(namespace, teamName), taskID, result);
              && Model() == Apply(old(Model()), op)
              && match Refusal(old(Model()), op) {
                   case Some(e) => r == Err(e)
                   case None => op.id in TeamTasks(Model(), op.key) && r == Ok(TeamTasks(Model(), op.key)[op.id])
                                && r.task.state == Completed && r.task.result == result
                 }
    {
      var key := SlashKey(namespace, teamName);
      if key !in tasks {
        return Err(TeamNotFound);
      }
      if taskID !in tasks[key] {
        return Err(TaskNotFound);
      }
      var task := tasks[key][taskID];
      if task.state != InProgress {
        return Err(NotInProgress);
      }
      task := task.(state := Completed);
      task := task.(result := result);
      task := task.(version := task.version + 1);
      tasks := tasks[key := tasks[key][taskID := task]];
      r := Ok(task);
    }

    method Unclaim(namespace: string, teamName: string, taskID: string) returns (r: Result)
      modifies this
      ensures var op := UnclaimOp(SlashKey(namespace, teamName), taskID);
              && Model() == Apply(old(Model()), op)
              && match Refusal(old(Model()), op) {
                   case Some(e) => r == Err(e)
                   case None => op.id in TeamTasks(Model(), op.key) && r == Ok(TeamTasks(Model(), op.key)[op.id])
                                && r.task.state == Pending && r.task.owner == ""
                 }
    {
      var key := SlashKey(namespace, teamName);
      if key !in tasks {
        return Err(TeamNotFound);
      }
      if taskID !in tasks[key] {
        return Err(TaskNotFound);
      }
      var task := tasks[key][taskID];
      task := task.(state := Pending);
      task := task.(owner := "");
      task := task.(version := task.version + 1);
      tasks := tasks[key := tasks[key][taskID := task]];
      r := Ok(task);
    }

    method DeleteTeam(namespace: string, teamName: string)
      modifies this
      ensures Model() == Apply(old(Model()), DeleteTeamOp(SlashKey(namespace, teamName)))
      ensures tasks == old(tasks) - {SlashKey(namespace, teamName)}
      ensures numbers == old(numbers) - {SlashKey(namespace, teamName)}
    {
      var key := SlashKey(namespace, teamName);
      tasks := tasks - {key};
      numbers := numbers - {key};
    }

    method GetUnblockedPending(namespace: string, teamName: string) returns (result: seq<string>)
      ensures forall id :: id in result <==> Claimable(TeamTasks(Model(), SlashKey(namespace, teamName)), id)
      ensures |result| == |Unblocked(TeamTasks(Model(), SlashKey(namespace, teamName)))|
    {
      var key := SlashKey(namespace, teamName);
      var teamTasks: TaskMap := if key in tasks then tasks[key] else map[];
      result := [];
      var rest := teamTasks.Keys;
      ghost var found: set<string> := {};
      while rest != {}
        invariant rest <= teamTasks.Keys
        invariant found == set id | id in teamTasks && id !in rest && Claimable(teamTasks, id)
        invariant forall id :: id in result <==> id in found
        invariant |result| == |found|
      {
        var id :| id in rest;
        var blocked := BlockedNow(key, teamTasks[id]);
        rest := rest - {id};
        if teamTasks[id].state == Pending && !blocked {
          result := result + [id];
          found := found + {id};
        }
      }
      assert found == Unblocked(teamTasks);
    }

    method GetSummary(namespace: string, teamName: string)
      returns (total: nat, pending: nat, inProgress: nat, completed: nat)
      ensures var t := TeamTasks(Model(), SlashKey(namespace, teamName));
              && total == |t| && pending == |InState(t, Pending)|
              && inProgress == |InState(t, InProgress)| && completed == |InState(t, Completed)|
    {
      var key := SlashKey(namespace, teamName);
      total, pending, inProgress, completed := CountStates(if key in tasks then tasks[key] else map[]);
    }
  }

  /** The counting loop both stores share. */
  method CountStates(tasks: TaskMap) returns (total: nat, pending: nat, inProgress: nat, completed: nat)
    ensures total == |tasks| && pending == |InState(tasks, Pending)|
    ensures inProgress == |InState(tasks, InProgress)| && completed == |InState(tasks, Completed)|
  {
    total, pending, inProgress, completed := 0, 0, 0, 0;
    var rest := tasks.Keys;
    ghost var seen: TaskMap := map[];
    while rest != {}
      invariant rest <= tasks.Keys
      invariant seen == map id | id in tasks && id !in rest :: tasks[id]
      invariant total + |rest| == |tasks|
      invariant pending == |InState(seen, Pending)|
      invariant inProgress == |InState(seen, InProgress)| && completed == |InState(seen, Completed)|
    {
      var id :| id in rest;
      rest := rest - {id};
      CountUpdate(seen, id, tasks[id], Pending);
      CountUpdate(seen, id, tasks[id], InProgress);
      CountUpdate(seen, id, tasks[id], Completed);
      seen := seen[id := tasks[id]];
      total := total + 1;
      match tasks[id].state
      case Pending => pending := pending + 1;
      case InProgress => inProgress := inProgress + 1;
      case Completed => completed := completed + 1;
      case Unset =>
    }
    assert seen == tasks;
  }
}
