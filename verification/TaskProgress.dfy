/**
 Progress of a task list whose dependencies point backward: no deadlock, and repeated
 claim-then-complete drains it in dependency order (internal/team/task_store.go).
 */
module TaskProgress {
  import opened Text
  import opened Tasks
  import opened TaskRuns

  /** Nothing is in progress and every task is in one of the in-memory states. */
  predicate Idle(tasks: TaskMap) {
    forall id :: id in tasks ==> tasks[id].state == Pending || tasks[id].state == Completed
  }

  /** Some pending task numbered n or lower is unblocked. */
  lemma {:induction false} SomeTaskIsClaimable(tasks: TaskMap, last: nat, n: nat) returns (id: string)
    requires Backward(tasks, last) && Idle(tasks)
    requires TaskId(n) in tasks && tasks[TaskId(n)].state == Pending
    ensures Claimable(tasks, id)
    decreases n
  {
    id := TaskId(n);
    if IsBlocked(tasks, tasks[id]) {
      var i :| 0 <= i < |tasks[id].blockedBy| && Waits(tasks, tasks[id].blockedBy[i]);
      var dep := tasks[id].blockedBy[i];
      assert BackwardTask(tasks, last, id) && BackwardTask(tasks, last, dep);
      var own :| 1 <= own <= last && id == TaskId(own) && forall m :: m >= own ==> TaskId(m) !in tasks[id].blockedBy;
      var m :| 1 <= m <= last && dep == TaskId(m);
      TaskIdInjective(n, own);
      id := SomeTaskIsClaimable(tasks, last, m);
    }
  }

  /** Whenever something is pending and nothing is in progress, an unblocked pending task exists. */
  lemma NoDeadlock(tasks: TaskMap, last: nat)
    requires Backward(tasks, last) && Idle(tasks)
    ensures InState(tasks, Pending) != {} ==> Unblocked(tasks) != {}
  {
    if InState(tasks, Pending) != {} {
      var id :| id in InState(tasks, Pending);
      assert BackwardTask(tasks, last, id);
      var n :| 1 <= n <= last && id == TaskId(n);
      var free := SomeTaskIsClaimable(tasks, last, n);
      assert free in Unblocked(tasks);
    }
  }

  // ----- Forward dependencies -----

  /** The first two tasks of the team wait for each other. */
  predicate WaitForEachOther(tasks: TaskMap) {
    && TaskId(1) in tasks && tasks[TaskId(1)].state == Pending && tasks[TaskId(1)].blockedBy == [TaskId(2)]
    && TaskId(2) in tasks && tasks[TaskId(2)].state == Pending && tasks[TaskId(2)].blockedBy == [TaskId(1)]
  }

  lemma WaitingIsBlocked(tasks: TaskMap)
    requires WaitForEachOther(tasks)
    ensures !Claimable(tasks, TaskId(1)) && !Claimable(tasks, TaskId(2))
  {
    assert Waits(tasks, tasks[TaskId(1)].blockedBy[0]) && Waits(tasks, tasks[TaskId(2)].blockedBy[0]);
  }

  lemma StepKeepsWaiting(s: Store, op: Op)
    requires WaitForEachOther(TeamTasks(s, "k")) && Number(s, "k") >= 2 && op != DeleteTeamOp("k")
    ensures WaitForEachOther(TeamTasks(Apply(s, op), "k")) && Number(Apply(s, op), "k") >= 2
  {
    WaitingIsBlocked(TeamTasks(s, "k"));
    if op.CreateOp? && op.key == "k" {
      var n := Number(s, "k") + 1;
      if TaskId(n) == TaskId(1) { TaskIdInjective(n, 1); }
      if TaskId(n) == TaskId(2) { TaskIdInjective(n, 2); }
    }
  }

  /** Two tasks are created, the first naming the second in advance. */
  function Cycle(): (ops: seq<Op>) {
    [Creation([TaskId(2)])] + [Creation([TaskId(1)])]
  }

  lemma CycleWaits()
    ensures WaitForEachOther(TeamTasks(Run(Cycle()), "k")) && Number(Run(Cycle()), "k") == 2
  {
    var first := map[TaskId(1) := NewTask(1, "t", "", "", [TaskId(2)])];
    if TaskId(1) == TaskId(2) { TaskIdInjective(1, 2); }
    AfterFirst([TaskId(2)]);
    NextCreation(first, 1, [TaskId(1)]);
    RunSnoc([Creation([TaskId(2)])], Creation([TaskId(1)]));
  }

  /** Forward dependencies can deadlock for good: unless the team is deleted, neither task is ever claimable. */
  lemma {:induction false} CyclicDependenciesDeadlock(more: seq<Op>)
    requires DeleteTeamOp("k") !in more
    ensures var s := Run(Cycle() + more);
            && WaitForEachOther(TeamTasks(s, "k")) && Number(s, "k") >= 2
            && !Claimable(TeamTasks(s, "k"), TaskId(1)) && !Claimable(TeamTasks(s, "k"), TaskId(2))
  {
    if more == [] {
      CycleWaits();
      assert Cycle() + more == Cycle();
    } else {
      var n := |more| - 1;
      CyclicDependenciesDeadlock(more[..n]);
      assert Cycle() + more == Cycle() + more[..n] + [more[n]];
      RunSnoc(Cycle() + more[..n], more[n]);
      StepKeepsWaiting(Run(Cycle() + more[..n]), more[n]);
    }
    WaitingIsBlocked(TeamTasks(Run(Cycle() + more), "k"));
  }

  // ----- Draining -----

  /** One round: claim an unblocked pending task, then complete it. */
  datatype Round = Round(id: string, claimant: string, result: string)

  function After(tasks: TaskMap, r: Round): (t: TaskMap) {
    if r.id in tasks then tasks[r.id := Finished(Claimed(tasks[r.id], r.claimant), r.result)] else tasks
  }

  /** A round on a claimable task is exactly a successful Claim followed by a successful Complete. */
  lemma RoundIsClaimThenComplete(s: Store, key: string, r: Round)
    ensures var claim := ClaimOp(key, r.id, r.claimant, 0);
            Refusal(s, claim).None? <==> Claimable(TeamTasks(s, key), r.id)
    ensures Claimable(TeamTasks(s, key), r.id) ==>
              var s1 := Apply(s, ClaimOp(key, r.id, r.claimant, 0));
              var complete := CompleteOp(key, r.id, r.result);
              && Refusal(s1, complete).None?
              && TeamTasks(Apply(s1, complete), key) == After(TeamTasks(s, key), r)
  {
  }

  function Play(tasks: TaskMap, rounds: seq<Round>): (r: TaskMap) {
    if rounds == [] then tasks else After(Play(tasks, rounds[..|rounds| - 1]), rounds[|rounds| - 1])
  }

  /** Every round of the schedule finds its task claimable. */
  predicate Playable(tasks: TaskMap, rounds: seq<Round>) {
    rounds == []
    || (Playable(tasks, rounds[..|rounds| - 1])
        && Claimable(Play(tasks, rounds[..|rounds| - 1]), rounds[|rounds| - 1].id))
  }

  lemma RoundEffect(tasks: TaskMap, r: Round)
    requires Idle(tasks) && Claimable(tasks, r.id)
    ensures var t := After(tasks, r);
            && Idle(t) && t.Keys == tasks.Keys
            && InState(t, Pending) == InState(tasks, Pending) - {r.id}
            && r.id in InState(tasks, Pending)
            && forall id :: id in tasks ==> t[id].blockedBy == tasks[id].blockedBy
  {
    InStateUpdate(tasks, r.id, Finished(Claimed(tasks[r.id], r.claimant), r.result), Pending);
  }

  function Ids(rounds: seq<Round>): (r: set<string>) {
    set i | 0 <= i < |rounds| :: rounds[i].id
  }

  lemma IdsOfExtended(rounds: seq<Round>)
    requires rounds != []
    ensures Ids(rounds) == Ids(rounds[..|rounds| - 1]) + {rounds[|rounds| - 1].id}
  {
  }

  lemma RemoveOneMore(all: set<string>, gone: set<string>, id: string)
    requires id in all - gone && gone <= all
    ensures all - gone - {id} == all - (gone + {id}) && gone + {id} <= all
    ensures |all - (gone + {id})| + 1 == |all - gone|
  {
    assert all - gone - {id} == all - (gone + {id});
  }

  /** Each round finishes one pending task for good: no task is done twice. */
  lemma {:induction false} EachRoundFinishesOne(tasks: TaskMap, rounds: seq<Round>)
    requires Idle(tasks) && Playable(tasks, rounds)
    ensures var t := Play(tasks, rounds);
            && Idle(t) && t.Keys == tasks.Keys
            && (forall id :: id in tasks ==> t[id].blockedBy == tasks[id].blockedBy)
            && InState(t, Pending) == InState(tasks, Pending) - Ids(rounds)
            && Ids(rounds) <= InState(tasks, Pending)
            && |InState(t, Pending)| + |rounds| == |InState(tasks, Pending)|
  {
    if rounds == [] {
      assert Ids(rounds) == {};
    } else {
      var n := |rounds| - 1;
      EachRoundFinishesOne(tasks, rounds[..n]);
      RoundEffect(Play(tasks, rounds[..n]), rounds[n]);
      IdsOfExtended(rounds);
      RemoveOneMore(InState(tasks, Pending), Ids(rounds[..n]), rounds[n].id);
    }
  }

  /** A schedule that has run as many rounds as there were pending tasks has finished everything. */
  lemma DrainedAfterPendingRounds(tasks: TaskMap, rounds: seq<Round>)
    requires Idle(tasks) && Playable(tasks, rounds)
    ensures |rounds| <= |InState(tasks, Pending)|
    ensures |rounds| == |InState(tasks, Pending)| <==>
              forall id :: id in Play(tasks, rounds) ==> Play(tasks, rounds)[id].state == Completed
  {
    var t := Play(tasks, rounds);
    EachRoundFinishesOne(tasks, rounds);
    assert |InState(t, Pending)| == 0 <==> InState(t, Pending) == {};
    assert forall id :: id in t ==> (t[id].state == Completed <==> id !in InState(t, Pending));
  }

  lemma BackwardSurvives(tasks: TaskMap, t: TaskMap, last: nat)
    requires Backward(tasks, last) && t.Keys == tasks.Keys
    requires forall id :: id in tasks ==> t[id].blockedBy == tasks[id].blockedBy
    ensures Backward(t, last)
  {
    forall id ensures BackwardTask(t, last, id) {
      assert BackwardTask(tasks, last, id);
    }
  }

  /** No schedule gets stuck early: while something is pending it can be continued. */
  lemma UnfinishedScheduleContinues(tasks: TaskMap, last: nat, rounds: seq<Round>)
    requires Backward(tasks, last) && Idle(tasks) && Playable(tasks, rounds)
    requires |rounds| < |InState(tasks, Pending)|
    ensures exists id :: Claimable(Play(tasks, rounds), id)
    ensures forall id, claimant, result :: Claimable(Play(tasks, rounds), id) ==>
              Playable(tasks, rounds + [Round(id, claimant, result)])
  {
    EachRoundFinishesOne(tasks, rounds);
    BackwardSurvives(tasks, Play(tasks, rounds), last);
    NoDeadlock(Play(tasks, rounds), last);
    var id :| id in Unblocked(Play(tasks, rounds));
    assert Claimable(Play(tasks, rounds), id);
    forall id, claimant, result | Claimable(Play(tasks, rounds), id)
      ensures Playable(tasks, rounds + [Round(id, claimant, result)])
    {
      assert (rounds + [Round(id, claimant, result)])[..|rounds|] == rounds;
    }
  }

  /** A full draining schedule exists. */
  lemma {:induction false} DrainingScheduleExists(tasks: TaskMap, last: nat, n: nat) returns (rounds: seq<Round>)
    requires Backward(tasks, last) && Idle(tasks) && n <= |InState(tasks, Pending)|
    ensures Playable(tasks, rounds) && |rounds| == n
  {
    rounds := [];
    if n > 0 {
      rounds := DrainingScheduleExists(tasks, last, n - 1);
      UnfinishedScheduleContinues(tasks, last, rounds);
      var id :| Claimable(Play(tasks, rounds), id);
      rounds := rounds + [Round(id, "", "")];
    }
  }

  /** Every schedule is a topological order: an existing dependency was complete before or ran earlier. */
  lemma {:induction false} ScheduleIsTopological(tasks: TaskMap, rounds: seq<Round>, k: nat, dep: string)
    requires Idle(tasks) && Playable(tasks, rounds) && k < |rounds|
    requires rounds[k].id in tasks && dep in tasks[rounds[k].id].blockedBy && dep in tasks
    ensures tasks[dep].state == Completed || exists j :: 0 <= j < k && rounds[j].id == dep
  {
    var n := |rounds| - 1;
    if k < n {
      ScheduleIsTopological(tasks, rounds[..n], k, dep);
      if tasks[dep].state != Completed {
        var j :| 0 <= j < k && rounds[..n][j].id == dep;
        assert rounds[j].id == dep;
      }
    } else {
      EachRoundFinishesOne(tasks, rounds[..n]);
      var t := Play(tasks, rounds[..n]);
      var i :| 0 <= i < |t[rounds[k].id].blockedBy| && t[rounds[k].id].blockedBy[i] == dep;
      assert !Waits(t, t[rounds[k].id].blockedBy[i]);
      if tasks[dep].state != Completed {
        assert dep in InState(tasks, Pending) && dep !in InState(t, Pending);
        assert dep in Ids(rounds[..n]);
        var j :| 0 <= j < |rounds[..n]| && rounds[..n][j].id == dep;
        assert rounds[j].id == dep;
      }
    }
  }

  // ----- When a task list can be drained -----

  /** Every unfinished dependency of a pending task ranks lower than the task. */
  ghost predicate Ranks(tasks: TaskMap, rank: map<string, nat>) {
    forall id, dep :: MustWait(tasks, id, dep) ==> id in rank && dep in rank && rank[dep] < rank[id]
  }

  predicate MustWait(tasks: TaskMap, id: string, dep: string) {
    id in tasks && tasks[id].state == Pending && dep in tasks[id].blockedBy && Waits(tasks, dep)
  }

  function Level(rank: map<string, nat>, id: string): (n: nat) {
    if id in rank then rank[id] else 0
  }

  /** Going down the ranks from any pending task leads to a claimable one. */
  lemma {:induction false} RankedIsClaimable(tasks: TaskMap, rank: map<string, nat>, id: string) returns (free: string)
    requires Idle(tasks) && Ranks(tasks, rank) && id in tasks && tasks[id].state == Pending
    ensures Claimable(tasks, free)
    decreases Level(rank, id)
  {
    free := id;
    if IsBlocked(tasks, tasks[id]) {
      var i :| 0 <= i < |tasks[id].blockedBy| && Waits(tasks, tasks[id].blockedBy[i]);
      assert MustWait(tasks, id, tasks[id].blockedBy[i]);
      free := RankedIsClaimable(tasks, rank, tasks[id].blockedBy[i]);
    }
  }

  lemma RoundKeepsRanks(tasks: TaskMap, r: Round, rank: map<string, nat>)
    requires Ranks(tasks, rank)
    ensures Ranks(After(tasks, r), rank)
  {
    forall id, dep | MustWait(After(tasks, r), id, dep) ensures id in rank && dep in rank && rank[dep] < rank[id] {
      assert MustWait(tasks, id, dep);
    }
  }

  lemma {:induction false} PlayKeepsRanks(tasks: TaskMap, rounds: seq<Round>, rank: map<string, nat>)
    requires Ranks(tasks, rank)
    ensures Ranks(Play(tasks, rounds), rank)
  {
    if rounds != [] {
      PlayKeepsRanks(tasks, rounds[..|rounds| - 1], rank);
      RoundKeepsRanks(Play(tasks, rounds[..|rounds| - 1]), rounds[|rounds| - 1], rank);
    }
  }

  lemma {:induction false} RankedScheduleExists(tasks: TaskMap, rank: map<string, nat>, n: nat)
    returns (rounds: seq<Round>)
    requires Idle(tasks) && Ranks(tasks, rank) && n <= |InState(tasks, Pending)|
    ensures Playable(tasks, rounds) && |rounds| == n
  {
    rounds := [];
    if n > 0 {
      rounds := RankedScheduleExists(tasks, rank, n - 1);
      var now := Play(tasks, rounds);
      EachRoundFinishesOne(tasks, rounds);
      PlayKeepsRanks(tasks, rounds, rank);
      var id :| id in InState(now, Pending);
      var free := RankedIsClaimable(now, rank, id);
      var longer := rounds + [Round(free, "", "")];
      assert longer[..|rounds|] == rounds;
      rounds := longer;
    }
  }

  /** The first round that does the task, or the number of rounds. */
  function FirstRound(rounds: seq<Round>, id: string): (i: nat)
    ensures i <= |rounds|
    ensures i < |rounds| ==> rounds[i].id == id
    ensures forall j :: 0 <= j < i ==> rounds[j].id != id
  {
    if rounds == [] || rounds[0].id == id then 0 else 1 + FirstRound(rounds[1..], id)
  }

  /** A schedule ranks its tasks by the round that does them. */
  function RoundRank(tasks: TaskMap, rounds: seq<Round>): (rank: map<string, nat>) {
    map id | id in tasks :: FirstRound(rounds, id)
  }

  ghost predicate Drains(tasks: TaskMap, rounds: seq<Round>) {
    Playable(tasks, rounds) && |rounds| == |InState(tasks, Pending)|
  }

  lemma ScheduleRanks(tasks: TaskMap, rounds: seq<Round>)
    requires Idle(tasks) && Drains(tasks, rounds)
    ensures Ranks(tasks, RoundRank(tasks, rounds))
  {
    EachRoundFinishesOne(tasks, rounds);
    assert InState(tasks, Pending) - Ids(rounds) == {};
    forall id, dep | MustWait(tasks, id, dep) ensures FirstRound(rounds, dep) < FirstRound(rounds, id) {
      assert id in InState(tasks, Pending) && id in Ids(rounds);
      var k := FirstRound(rounds, id);
      ScheduleIsTopological(tasks, rounds, k, dep);
    }
  }

  /**
   A task list in which nothing is in progress can be drained if and only if its pending
   tasks can be ranked with every unfinished dependency below its task.
   */
  lemma DrainableIff(tasks: TaskMap)
    requires Idle(tasks)
    ensures (exists rounds :: Drains(tasks, rounds)) <==> (exists rank :: Ranks(tasks, rank))
  {
    if rounds :| Drains(tasks, rounds) {
      ScheduleRanks(tasks, rounds);
    }
    if rank :| Ranks(tasks, rank) {
      var rounds := RankedScheduleExists(tasks, rank, |InState(tasks, Pending)|);
      assert Drains(tasks, rounds);
    }
  }
}
