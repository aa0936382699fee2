/**
 The CRD-backed task list of internal/team/task_store_k8s.go: every change is a Get
 followed by a conditional status update, run by any number of replicas.
 */
module CrdTasks {
  import opened Text
  import opened Tasks
  import opened ObjectStore

  datatype CrdTask = CrdTask(
    teamRef: string, subject: string, description: string, blockedBy: seq<string>,
    state: TaskState, owner: string, result: string)

  function ToTeamTask(name: string, t: CrdTask): (r: Task) {
    Task(name, t.teamRef, t.subject, t.description, t.state, t.owner, t.blockedBy, 0, t.result)
  }

  datatype TaskOp =
    | MarkPending                // Create's own status write, on the object Create returned
    | Claim(claimant: string)
    | Complete(result: string)
    | Unclaim

  /** What each operation does to the copy it fetched. */
  function EditTask(op: TaskOp, t: CrdTask): (r: Option<CrdTask>) {
    match op
    case MarkPending => if t.state == Unset then Some(t.(state := Pending)) else None
    case Claim(claimant) =>
      if t.state == Pending then Some(t.(state := InProgress, owner := claimant)) else None
    case Complete(result) => Some(t.(state := Completed, result := result))
    case Unclaim => Some(t.(state := Pending, owner := ""))
  }

  /** The log after a read-modify-write that read the given version. */
  function ReadModifyWrite(log: seq<CrdTask>, version: nat, op: TaskOp): (r: seq<CrdTask>)
    requires version < |log|
  {
    match EditTask(op, log[version])
    case Some(v) => if version + 1 == |log| then log + [v] else log
    case None => log
  }

  datatype Outcome = Written(task: Task) | NotPendingErr(task: Task) | ConflictErr(task: Task) | UpdateErr

  /** `statusWritten` is false when the second write of Create fails, which Create ignores. */
  method Create(name: string, teamName: string, subject: string, description: string, blockedBy: seq<string>,
                statusWritten: bool)
    returns (obj: StoredObject<CrdTask>, created: Task)
    ensures fresh(obj) && |obj.log| > 0
    ensures obj.log[0] == CrdTask(teamName, subject, description, blockedBy, Unset, "", "")
    ensures obj.log == if statusWritten then ReadModifyWrite([obj.log[0]], 0, MarkPending) else [obj.log[0]]
    ensures created == ToTeamTask(name, obj.log[0]).(state := Pending)
  {
    var task := CrdTask(teamName, subject, description, blockedBy, Unset, "", "");
    obj := new StoredObject(task);
    task := task.(state := Pending);
    if statusWritten {
      var _ := obj.Update(0, task);
    }
    created := ToTeamTask(name, task);
  }

  method ClaimTask(name: string, obj: StoredObject<CrdTask>, version: nat, claimedBy: string) returns (r: Outcome)
    requires version < |obj.log|
    modifies obj
    ensures obj.log == ReadModifyWrite(old(obj.log), version, Claim(claimedBy))
    ensures r.Written? <==> |obj.log| > |old(obj.log)|
    ensures r.NotPendingErr? <==> old(obj.log)[version].state != Pending
    ensures r.ConflictErr? <==> old(obj.log)[version].state == Pending && version + 1 != |old(obj.log)|
    ensures r.Written? ==>
              && r.task.state == InProgress && r.task.owner == claimedBy
              && obj.log == old(obj.log) + [old(obj.log)[version].(state := InProgress, owner := claimedBy)]
  {
    var task := obj.Get(version);
    if task.state != Pending {
      return NotPendingErr(ToTeamTask(name, task));
    }
    task := task.(state := InProgress);
    task := task.(owner := claimedBy);
    var ok := obj.Update(version, task);
    r := if ok then Written(ToTeamTask(name, task)) else ConflictErr(ToTeamTask(name, task));
  }

  method CompleteTask(name: string, obj: StoredObject<CrdTask>, version: nat, result: string) returns (r: Outcome)
    requires version < |obj.log|
    modifies obj
    ensures obj.log == ReadModifyWrite(old(obj.log), version, Complete(result))
    ensures r.Written? <==> |obj.log| > |old(obj.log)|
    ensures r.UpdateErr? <==> version + 1 != |old(obj.log)|
    ensures r.Written? ==>
              && r.task.state == Completed && r.task.result == result
              && obj.log == old(obj.log) + [old(obj.log)[version].(state := Completed, result := result)]
  {
    var task := obj.Get(version);
    task := task.(state := Completed);
    task := task.(result := result);
    var ok := obj.Update(version, task);
    r := if ok then Written(ToTeamTask(name, task)) else UpdateErr;
  }

  method UnclaimTask(name: string, obj: StoredObject<CrdTask>, version: nat) returns (r: Outcome)
    requires version < |obj.log|
    modifies obj
    ensures obj.log == ReadModifyWrite(old(obj.log), version, Unclaim)
    ensures r.Written? <==> |obj.log| > |old(obj.log)|
    ensures r.UpdateErr? <==> version + 1 != |old(obj.log)|
    ensures r.Written? ==>
              && r.task.state == Pending && r.task.owner == ""
              && obj.log == old(obj.log) + [old(obj.log)[version].(state := Pending, owner := "")]
  {
    var task := obj.Get(version);
    task := task.(state := Pending);
    task := task.(owner := "");
    var ok := obj.Update(version, task);
    r := if ok then Written(ToTeamTask(name, task)) else UpdateErr;
  }

  /** A method's read-modify-write is one Begin and one Commit of a client with nothing else pending. */
  lemma MethodsAreSteps(s: State<CrdTask, TaskOp>, client: nat, version: nat, op: TaskOp)
    requires version < |s.log|
    ensures ObjectStore.Apply(EditTask, ObjectStore.Apply(EditTask, s, Begin(client, op, version)), Commit(client)).log
            == ReadModifyWrite(s.log, version, op)
  {
  }

  // ----- Mutual exclusion of claims -----

  type History = State<CrdTask, TaskOp>

  ghost function Runs(task: CrdTask, steps: seq<Step<TaskOp>>): (s: History) {
    Run(EditTask, task, steps)
  }

  /** After the i-th accepted write, a claim, nobody else owns the task until a release is accepted. */
  lemma {:induction false} HeldUntilUnclaim(s: History, i: nat, m: nat)
    requires Serial(EditTask, s) && i < m <= |s.committed| && s.committed[i].Claim?
    requires forall k :: i < k < m ==> !s.committed[k].Unclaim?
    ensures s.log[m].state == InProgress || s.log[m].state == Completed
    ensures s.log[m].owner == s.committed[i].claimant
  {
    if m > i + 1 {
      HeldUntilUnclaim(s, i, m - 1);
      assert EditTask(s.committed[m - 1], s.log[m - 1]) == Some(s.log[m]);
    } else {
      assert EditTask(s.committed[i], s.log[i]) == Some(s.log[m]);
    }
  }

  /**
   With any number of replicas and stale reads, between any two successful claims of a
   task there is a successful release of it.
   */
  lemma ClaimsAreExclusive(task: CrdTask, steps: seq<Step<TaskOp>>, i: nat, j: nat)
    requires var s := Runs(task, steps);
             i < j < |s.committed| && s.committed[i].Claim? && s.committed[j].Claim?
    ensures exists k :: i < k < j && Runs(task, steps).committed[k].Unclaim?
  {
    var s := Runs(task, steps);
    RunIsSerial(EditTask, task, steps);
    assert EditTask(s.committed[j], s.log[j]) == Some(s.log[j + 1]);
    if forall k :: i < k < j ==> !s.committed[k].Unclaim? {
      HeldUntilUnclaim(s, i, j);
      assert false;
    }
  }

  /** Two replicas that both read the task as pending: only the first write is accepted. */
  lemma RacingClaims(task: CrdTask, a: string, b: string)
    requires task.state == Pending
    ensures var s := Runs(task, [Begin(0, Claim(a), 0), Begin(1, Claim(b), 0), Commit(0), Commit(1)]);
            s.committed == [Claim(a)] && s.log == [task, task.(state := InProgress, owner := a)]
  {
    var da := Draft(0, Claim(a), task.(state := InProgress, owner := a));
    var db := Draft(0, Claim(b), task.(state := InProgress, owner := b));
    var s0 := [Begin(0, Claim(a), 0)];
    var s1 := s0 + [Begin(1, Claim(b), 0)];
    var s2 := s1 + [Commit(0)];
    assert s0[..0] == [] && s1[..1] == s0 && s2[..2] == s1;
    assert Run(EditTask, task, s0[..0]) == State([task], [], map[]);
    assert Runs(task, s0) == State([task], [], map[0 := da]);
    assert Runs(task, s1) == State([task], [], map[0 := da, 1 := db]);
    assert Runs(task, s2) == State([task, da.value], [Claim(a)], map[1 := db]);
    assert [Begin(0, Claim(a), 0), Begin(1, Claim(b), 0), Commit(0), Commit(1)][..3] == s2;
  }
}
