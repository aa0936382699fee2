/**
 What rescheduling a failed member does to the task list: its in-progress tasks go back
 to pending and its completed ones become the recovery context
 (internal/team/lifecycle.go, on the in-memory store).
 */
module Rescheduling {
  import opened Text
  import opened Tasks

  datatype CompletedTask = CompletedTask(id: string, subject: string, result: string)

  predicate OwnedIn(tasks: TaskMap, id: string, member: string, state: TaskState) {
    id in tasks && tasks[id].owner == member && tasks[id].state == state
  }

  function Owned(tasks: TaskMap, member: string, state: TaskState): (r: set<string>) {
    set id | id in tasks && OwnedIn(tasks, id, member, state)
  }

  /** The task list with the given tasks released. */
  function ReleaseSet(tasks: TaskMap, ids: set<string>): (r: TaskMap) {
    map id | id in tasks :: if id in ids then Released(tasks[id]) else tasks[id]
  }

  function ReleaseInStore(s: Store, key: string, ids: set<string>): (r: Store) {
    if key in s.tasks then s.(tasks := s.tasks[key := ReleaseSet(s.tasks[key], ids)]) else s
  }

  predicate Records(tasks: TaskMap, c: CompletedTask) {
    c.id in tasks && c.subject == tasks[c.id].subject && c.result == tasks[c.id].result
  }

  lemma ReleaseOneMore(s: Store, key: string, ids: set<string>, id: string)
    requires key in s.tasks && id in s.tasks[key] && id !in ids
    ensures Refusal(ReleaseInStore(s, key, ids), UnclaimOp(key, id)).None?
    ensures Apply(ReleaseInStore(s, key, ids), UnclaimOp(key, id)) == ReleaseInStore(s, key, ids + {id})
  {
    var tasks := s.tasks[key];
    assert ReleaseSet(tasks, ids)[id := Released(tasks[id])] == ReleaseSet(tasks, ids + {id});
  }

  lemma ReleaseNone(s: Store, key: string)
    ensures ReleaseInStore(s, key, {}) == s
  {
    if key in s.tasks { assert ReleaseSet(s.tasks[key], {}) == s.tasks[key]; }
  }

  /** The member's tasks in a state, among those already visited. */
  function Seen(tasks: TaskMap, rest: set<string>, member: string, state: TaskState): (r: set<string>) {
    set id | id in tasks && id !in rest && OwnedIn(tasks, id, member, state)
  }

  lemma SeeOne(tasks: TaskMap, rest: set<string>, id: string, member: string, state: TaskState)
    requires id in rest && id in tasks
    ensures id !in Seen(tasks, rest, member, state)
    ensures Seen(tasks, rest - {id}, member, state)
            == Seen(tasks, rest, member, state) + if OwnedIn(tasks, id, member, state) then {id} else {}
  {
  }

  lemma SeeAll(tasks: TaskMap, member: string, state: TaskState)
    ensures Seen(tasks, {}, member, state) == Owned(tasks, member, state)
    ensures Seen(tasks, tasks.Keys, member, state) == {}
  {
  }

  /** The list holds exactly one record for each of the tasks. */
  ghost predicate Gathered(tasks: TaskMap, ids: set<string>, completed: seq<CompletedTask>) {
    |completed| == |ids| && forall c :: c in completed <==> c.id in ids && Records(tasks, c)
  }

  /** A member of the set, or None when the set is empty. */
  predicate PointsInto(x: Option<string>, ids: set<string>) {
    match x
    case None => ids == {}
    case Some(id) => id in ids
  }

  function RecordsOf(tasks: TaskMap, id: string, member: string): (r: seq<CompletedTask>) {
    if OwnedIn(tasks, id, member, Completed) then [CompletedTask(id, tasks[id].subject, tasks[id].result)] else []
  }

  lemma GatherOne(tasks: TaskMap, rest: set<string>, id: string, member: string, completed: seq<CompletedTask>)
    requires id in rest && id in tasks && Gathered(tasks, Seen(tasks, rest, member, Completed), completed)
    ensures Gathered(tasks, Seen(tasks, rest - {id}, member, Completed), completed + RecordsOf(tasks, id, member))
  {
    SeeOne(tasks, rest, id, member, Completed);
    var more := completed + RecordsOf(tasks, id, member);
    forall c ensures c in more <==> c.id in Seen(tasks, rest - {id}, member, Completed) && Records(tasks, c) {
      assert c in more <==> c in completed || c in RecordsOf(tasks, id, member);
    }
  }

  /** One iteration of the pass, on the task as it is now. */
  method Visit(store: TaskStore, namespace: string, teamName: string, id: string, member: string)
    returns (completed: seq<CompletedTask>, released: bool)
    requires id in TeamTasks(store.Model(), SlashKey(namespace, teamName))
    modifies store
    ensures var key := SlashKey(namespace, teamName);
            var tasks := TeamTasks(old(store.Model()), key);
            && released == OwnedIn(tasks, id, member, InProgress)
            && store.Model() == (if released then Apply(old(store.Model()), UnclaimOp(key, id)) else old(store.Model()))
            && completed == RecordsOf(tasks, id, member)
  {
    var t := store.tasks[SlashKey(namespace, teamName)][id];
    completed, released := [], false;
    if t.owner == member && t.state == Completed {
      completed := [CompletedTask(id, t.subject, t.result)];
    }
    if t.owner == member && t.state == InProgress {
      released := true;
      var _ := store.Unclaim(namespace, teamName, id);
    }
  }

  lemma StartPass(s: Store, key: string, member: string)
    requires key in s.tasks
    ensures var all := s.tasks[key].Keys;
            && ReleaseInStore(s, key, Seen(s.tasks[key], all, member, InProgress)) == s
            && Gathered(s.tasks[key], Seen(s.tasks[key], all, member, Completed), [])
            && PointsInto(None, Seen(s.tasks[key], all, member, InProgress))
  {
    SeeAll(s.tasks[key], member, InProgress);
    SeeAll(s.tasks[key], member, Completed);
    ReleaseNone(s, key);
  }

  lemma AtVisit(s: Store, key: string, rest: set<string>, id: string, member: string)
    requires key in s.tasks && id in s.tasks[key] && id in rest
    ensures var now := TeamTasks(ReleaseInStore(s, key, Seen(s.tasks[key], rest, member, InProgress)), key);
            id in now && now[id] == s.tasks[key][id]
  {
    SeeOne(s.tasks[key], rest, id, member, InProgress);
  }

  /** What one visit adds to the three things the pass maintains. */
  lemma PassOne(s: Store, key: string, rest: set<string>, id: string, member: string,
                completed: seq<CompletedTask>, interrupted: Option<string>)
    requires key in s.tasks && id in s.tasks[key] && id in rest
    requires Gathered(s.tasks[key], Seen(s.tasks[key], rest, member, Completed), completed)
    requires PointsInto(interrupted, Seen(s.tasks[key], rest, member, InProgress))
    ensures var tasks := s.tasks[key];
            var now := ReleaseInStore(s, key, Seen(tasks, rest, member, InProgress));
            var mine := OwnedIn(tasks, id, member, InProgress);
            && (if mine then Apply(now, UnclaimOp(key, id)) else now)
               == ReleaseInStore(s, key, Seen(tasks, rest - {id}, member, InProgress))
            && Gathered(tasks, Seen(tasks, rest - {id}, member, Completed), completed + RecordsOf(tasks, id, member))
            && PointsInto(if mine then Some(id) else interrupted, Seen(tasks, rest - {id}, member, InProgress))
  {
    var tasks := s.tasks[key];
    GatherOne(tasks, rest, id, member, completed);
    SeeOne(tasks, rest, id, member, InProgress);
    ReleaseOneMore(s, key, Seen(tasks, rest, member, InProgress), id);
    assert Seen(tasks, rest, member, InProgress) + {} == Seen(tasks, rest, member, InProgress);
  }

  /** The task part of reschedMember: one pass over the team's list, releasing as it goes. */
  method GatherAndRelease(store: TaskStore, namespace: string, teamName: string, member: string)
    returns (completed: seq<CompletedTask>, interrupted: Option<string>)
    modifies store
    ensures var key := SlashKey(namespace, teamName);
            var before := TeamTasks(old(store.Model()), key);
            && store.Model() == ReleaseInStore(old(store.Model()), key, Owned(before, member, InProgress))
            && Gathered(before, Owned(before, member, Completed), completed)
            && PointsInto(interrupted, Owned(before, member, InProgress))
  {
    var key := SlashKey(namespace, teamName);
    completed, interrupted := [], None;
    if key !in store.tasks {
      return;
    }
    ghost var s0 := store.Model();
    ghost var before := TeamTasks(s0, key);
    var rest := store.tasks[key].Keys;
    StartPass(s0, key, member);
    while rest != {}
      invariant rest <= before.Keys
      invariant store.Model() == ReleaseInStore(s0, key, Seen(before, rest, member, InProgress))
      invariant Gathered(before, Seen(before, rest, member, Completed), completed)
      invariant PointsInto(interrupted, Seen(before, rest, member, InProgress))
    {
      var id :| id in rest;
      var done, released := Visit(store, namespace, teamName, id, member) by { AtVisit(s0, key, rest, id, member); }
      PassOne(s0, key, rest, id, member, completed, interrupted);
      rest := rest - {id};
      completed := completed + done;
      interrupted := if released then Some(id) else interrupted;
    }
    SeeAll(before, member, InProgress);
    SeeAll(before, member, Completed);
  }

  lemma ReleaseCounts(tasks: TaskMap, mine: set<string>)
    requires mine <= InState(tasks, InProgress)
    ensures var after := ReleaseSet(tasks, mine);
            && |InState(after, Pending)| == |InState(tasks, Pending)| + |mine|
            && |InState(after, InProgress)| == |InState(tasks, InProgress)| - |mine|
            && InState(after, Completed) == InState(tasks, Completed)
  {
    var after := ReleaseSet(tasks, mine);
    assert InState(after, Pending) == InState(tasks, Pending) + mine;
    assert InState(tasks, Pending) !! mine;
    assert InState(after, InProgress) == InState(tasks, InProgress) - mine;
  }

  /**
   After the release the failed member owns nothing in progress, nobody else's task and no
   completed task has changed, the total is the same, and pending has grown by exactly the
   number released.
   */
  lemma ReleaseConserves(tasks: TaskMap, member: string)
    ensures var mine := Owned(tasks, member, InProgress);
            var after := ReleaseSet(tasks, mine);
            && after.Keys == tasks.Keys && |after| == |tasks|
            && Owned(after, member, InProgress) == {}
            && (forall id :: id in tasks && (tasks[id].owner != member || tasks[id].state == Completed) ==>
                  after[id] == tasks[id])
            && (forall id :: id in mine ==> after[id].state == Pending && after[id].owner == "")
            && |InState(after, Pending)| == |InState(tasks, Pending)| + |mine|
            && |InState(after, InProgress)| == |InState(tasks, InProgress)| - |mine|
            && InState(after, Completed) == InState(tasks, Completed)
  {
    var mine := Owned(tasks, member, InProgress);
    var after := ReleaseSet(tasks, mine);
    assert after.Keys == tasks.Keys;
    assert mine <= InState(tasks, InProgress);
    ReleaseCounts(tasks, mine);
  }
}
