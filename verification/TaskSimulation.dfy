/**
 The two task stores side by side: the CRD store, run serially without API errors,
 accepts whatever the in-memory store accepts and reaches the same states
 (internal/team/task_store.go, internal/team/task_store_k8s.go).
 */
module TaskSimulation {
  import opened Text
  import opened Tasks
  import TaskRuns
  import opened CrdTasks

  /** The TeamTask objects of one namespace, by name. */
  type CrdMap = map<string, CrdTask>

  /** The objects carrying the team's label, as List converts them. */
  function ListTeam(c: CrdMap, team: string): (r: TaskMap) {
    map name | name in c && c[name].teamRef == team :: ToTeamTask(name, c[name])
  }

  // ----- Unblocked tasks, two readings of the same list -----

  /** Here a missing dependency does block. */
  predicate CrdClaimable(tasks: TaskMap, id: string) {
    id in tasks && tasks[id].state == Pending
    && forall i :: 0 <= i < |tasks[id].blockedBy| ==>
         tasks[id].blockedBy[i] in tasks && tasks[tasks[id].blockedBy[i]].state == Completed
  }

  function CrdUnblocked(tasks: TaskMap): (r: set<string>) {
    set id | id in tasks && CrdClaimable(tasks, id)
  }

  method GetUnblockedPending(c: CrdMap, teamName: string) returns (result: seq<string>)
    ensures forall id :: id in result <==> id in CrdUnblocked(ListTeam(c, teamName))
    ensures |result| == |CrdUnblocked(ListTeam(c, teamName))|
  {
    var all := ListTeam(c, teamName);
    var completedIDs: set<string> := {};
    var rest := all.Keys;
    while rest != {}
      invariant rest <= all.Keys
      invariant completedIDs == set id | id in all && id !in rest && all[id].state == Completed
    {
      var id :| id in rest;
      rest := rest - {id};
      if all[id].state == Completed {
        completedIDs := completedIDs + {id};
      }
    }
    result := [];
    rest := all.Keys;
    ghost var found: set<string> := {};
    while rest != {}
      invariant rest <= all.Keys
      invariant found == set id | id in all && id !in rest && CrdClaimable(all, id)
      invariant forall id :: id in result <==> id in found
      invariant |result| == |found|
    {
      var id :| id in rest;
      rest := rest - {id};
      if all[id].state != Pending {
        continue;
      }
      var t := all[id];
      var blocked := false;
      for i := 0 to |t.blockedBy|
        invariant !blocked && forall j :: 0 <= j < i ==> t.blockedBy[j] in completedIDs
      {
        if t.blockedBy[i] !in completedIDs {
          blocked := true;
          break;
        }
      }
      if !blocked {
        result := result + [id];
        found := found + {id};
      }
    }
    assert found == CrdUnblocked(all);
  }

  method GetSummary(c: CrdMap, teamName: string) returns (total: nat, pending: nat, inProgress: nat, completed: nat)
    ensures var t := ListTeam(c, teamName);
            && total == |t| && pending == |InState(t, Pending)|
            && inProgress == |InState(t, InProgress)| && completed == |InState(t, Completed)|
  {
    total, pending, inProgress, completed := CountStates(ListTeam(c, teamName));
  }

  predicate MissesDependency(tasks: TaskMap, t: Task) {
    exists i :: 0 <= i < |t.blockedBy| && t.blockedBy[i] !in tasks
  }

  /**
   On equal tasks the CRD store offers fewer: exactly the tasks whose existing
   dependencies are all complete but which also name a missing one are withheld.
   */
  lemma UnblockedGap(tasks: TaskMap)
    ensures CrdUnblocked(tasks) <= Unblocked(tasks)
    ensures Unblocked(tasks) - CrdUnblocked(tasks)
            == set id | id in tasks && Claimable(tasks, id) && MissesDependency(tasks, tasks[id])
  {
    forall id | id in tasks
      ensures CrdClaimable(tasks, id) <==> Claimable(tasks, id) && !MissesDependency(tasks, tasks[id])
    {
      var deps := tasks[id].blockedBy;
      if CrdClaimable(tasks, id) {
        assert forall i :: 0 <= i < |deps| ==> !Waits(tasks, deps[i]);
      } else if Claimable(tasks, id) {
        var i :| 0 <= i < |deps| && !(deps[i] in tasks && tasks[deps[i]].state == Completed);
        assert !Waits(tasks, deps[i]);
      }
    }
  }

  // ----- Serial operations -----

  datatype CrdOp =
    | CrdCreate(team: string, subject: string, description: string, blockedBy: seq<string>, name: string)
    | CrdEdit(team: string, name: string, op: TaskOp)   // the object is looked up by name alone
    | CrdDeleteTeam(team: string)

  predicate Accepts(c: CrdMap, op: CrdOp) {
    match op
    case CrdCreate(_, _, _, _, name) => name !in c
    case CrdEdit(_, name, edit) => name in c && EditTask(edit, c[name]).Some?
    case CrdDeleteTeam(_) => true
  }

  function ApplyCrd(c: CrdMap, op: CrdOp): (r: CrdMap) {
    if !Accepts(c, op) then c else
    match op
    case CrdCreate(team, subject, description, blockedBy, name) =>
      c[name := CrdTask(team, subject, description, blockedBy, Pending, "", "")]
    case CrdEdit(_, name, edit) => c[name := EditTask(edit, c[name]).value]
    case CrdDeleteTeam(team) => map name | name in c && c[name].teamRef != team :: c[name]
  }

  /** A serial edit is a read-modify-write that reads the newest version. */
  lemma SerialEditIsReadModifyWrite(c: CrdMap, team: string, name: string, op: TaskOp, log: seq<CrdTask>)
    requires name in c && log != [] && log[|log| - 1] == c[name]
    ensures var log' := ReadModifyWrite(log, |log| - 1, op);
            var c' := ApplyCrd(c, CrdEdit(team, name, op));
            name in c' && log' != [] && log'[|log'| - 1] == c'[name]
  {
  }

  // ----- The simulation -----

  /** Which CRD object stands for which in-memory task: (team key, task id) to object name. */
  type IdMap = map<(string, string), string>

  /**
   One call, on both stores: the in-memory operation on the given team, the name the API
   server generates for a created object, and the dependency names passed to it.
   */
  datatype Call = Call(team: string, op: Op, name: string, blockedBy: seq<string>)

  predicate ForTeam(namespace: string, call: Call) {
    call.op.key == SlashKey(namespace, call.team) && (call.op.CreateOp? ==> call.op.teamName == call.team)
  }

  predicate ChangesTask(op: Op) {
    op.ClaimOp? || op.CompleteOp? || op.UnclaimOp?
  }

  /** The CRD store drops the expected version. */
  function ToTaskOp(op: Op): (r: TaskOp)
    requires ChangesTask(op)
  {
    match op
    case ClaimOp(_, _, claimant, _) => Claim(claimant)
    case CompleteOp(_, _, result) => Complete(result)
    case UnclaimOp(_, _) => Unclaim
  }

  function Translate(ids: IdMap, call: Call): (r: CrdOp)
    requires call.op.CreateOp? || call.op.DeleteTeamOp? || (call.op.key, call.op.id) in ids
  {
    match call.op
    case CreateOp(_, _, subject, description, _) =>
      CrdCreate(call.team, subject, description, call.blockedBy, call.name)
    case DeleteTeamOp(_) => CrdDeleteTeam(call.team)
    case _ => CrdEdit(call.team, ids[(call.op.key, call.op.id)], ToTaskOp(call.op))
  }

  function UpdateIds(s: Store, ids: IdMap, call: Call): (r: IdMap) {
    match call.op
    case CreateOp(key, _, _, _, _) => ids[(key, TaskId(Number(s, key) + 1)) := call.name]
    case DeleteTeamOp(key) => map p | p in ids && p.0 != key :: ids[p]
    case _ => ids
  }

  /** The fields the two stores share. */
  predicate Agree(t: Task, c: CrdTask) {
    && t.teamName == c.teamRef && t.subject == c.subject && t.description == c.description
    && t.state == c.state && t.owner == c.owner && t.result == c.result
  }

  predicate PairOk(namespace: string, s: Store, c: CrdMap, ids: IdMap, p: (string, string)) {
    && (p in ids <==> p.1 in TeamTasks(s, p.0))
    && (p in ids ==> ids[p] in c && Agree(TeamTasks(s, p.0)[p.1], c[ids[p]])
                     && p.0 == SlashKey(namespace, c[ids[p]].teamRef))
  }

  /** The stores hold the same tasks up to the bijection ids. */
  ghost predicate Related(namespace: string, s: Store, c: CrdMap, ids: IdMap) {
    && (forall p :: PairOk(namespace, s, c, ids, p))
    && (forall p, q :: p in ids && q in ids && ids[p] == ids[q] ==> p == q)
    && (forall name :: name in c ==> name in ids.Values)
  }

  lemma CreateKeepsRelated(namespace: string, s: Store, c: CrdMap, ids: IdMap, call: Call)
    requires Related(namespace, s, c, ids) && ForTeam(namespace, call) && call.op.CreateOp?
    requires TaskRuns.Numbered(s) && call.name !in c
    ensures Accepts(c, Translate(ids, call))
    ensures Related(namespace, Apply(s, call.op), ApplyCrd(c, Translate(ids, call)), UpdateIds(s, ids, call))
  {
    var s', c', ids' := Apply(s, call.op), ApplyCrd(c, Translate(ids, call)), UpdateIds(s, ids, call);
    var p0 := (call.op.key, TaskId(Number(s, call.op.key) + 1));
    forall p ensures PairOk(namespace, s', c', ids', p) {
      assert PairOk(namespace, s, c, ids, p);
    }
    assert PairOk(namespace, s, c, ids, p0) && p0 !in ids;
    forall p | p in ids ensures ids[p] in c {
      assert PairOk(namespace, s, c, ids, p);
    }
    forall name | name in c' ensures name in ids'.Values {
      if name in c {
        var p :| p in ids && ids[p] == name;
        assert p in ids' && ids'[p] == name;
      } else {
        assert p0 in ids' && ids'[p0] == name;
      }
    }
  }

  lemma EditKeepsRelated(namespace: string, s: Store, c: CrdMap, ids: IdMap, call: Call)
    requires Related(namespace, s, c, ids) && Refusal(s, call.op).None?
    requires ChangesTask(call.op)
    ensures (call.op.key, call.op.id) in ids && Accepts(c, Translate(ids, call))
    ensures Related(namespace, Apply(s, call.op), ApplyCrd(c, Translate(ids, call)), ids)
  {
    var p0 := (call.op.key, call.op.id);
    assert PairOk(namespace, s, c, ids, p0);
    var s', c' := Apply(s, call.op), ApplyCrd(c, Translate(ids, call));
    forall p ensures PairOk(namespace, s', c', ids, p) {
      assert PairOk(namespace, s, c, ids, p);
    }
  }

  lemma DeleteKeepsRelated(namespace: string, s: Store, c: CrdMap, ids: IdMap, call: Call)
    requires Related(namespace, s, c, ids) && ForTeam(namespace, call) && call.op.DeleteTeamOp?
    ensures Related(namespace, Apply(s, call.op), ApplyCrd(c, Translate(ids, call)), UpdateIds(s, ids, call))
  {
    var s', c', ids' := Apply(s, call.op), ApplyCrd(c, Translate(ids, call)), UpdateIds(s, ids, call);
    forall p ensures PairOk(namespace, s', c', ids', p) {
      assert PairOk(namespace, s, c, ids, p);
    }
    forall name | name in c' ensures name in ids'.Values {
      var p :| p in ids && ids[p] == name;
      assert PairOk(namespace, s, c, ids, p);
      if p.0 == call.op.key { SlashKeySameScope(namespace, c[name].teamRef, call.team); }
      assert p in ids' && ids'[p] == name;
    }
  }

  /** What the in-memory store accepts, the CRD store accepts too, and the stores stay related. */
  lemma StepSimulates(namespace: string, s: Store, c: CrdMap, ids: IdMap, call: Call)
    requires Related(namespace, s, c, ids) && ForTeam(namespace, call)
    requires TaskRuns.Numbered(s) && (call.op.CreateOp? ==> call.name !in c)
    requires Refusal(s, call.op).None?
    ensures call.op.CreateOp? || call.op.DeleteTeamOp? || (call.op.key, call.op.id) in ids
    ensures Accepts(c, Translate(ids, call))
    ensures Related(namespace, Apply(s, call.op), ApplyCrd(c, Translate(ids, call)), UpdateIds(s, ids, call))
  {
    if call.op.CreateOp? {
      CreateKeepsRelated(namespace, s, c, ids, call);
    } else if call.op.DeleteTeamOp? {
      DeleteKeepsRelated(namespace, s, c, ids, call);
    } else {
      EditKeepsRelated(namespace, s, c, ids, call);
    }
  }

  datatype Both = Both(store: Store, crd: CrdMap, ids: IdMap)

  function RunBoth(calls: seq<Call>): (b: Both) {
    if calls == [] then Both(EMPTY, map[], map[]) else
    var b := RunBoth(calls[..|calls| - 1]);
    var call := calls[|calls| - 1];
    if call.op.CreateOp? || call.op.DeleteTeamOp? || (call.op.key, call.op.id) in b.ids
    then Both(Apply(b.store, call.op), ApplyCrd(b.crd, Translate(b.ids, call)), UpdateIds(b.store, b.ids, call))
    else Both(Apply(b.store, call.op), b.crd, b.ids)
  }

  /** The in-memory store accepts every call, and the API server never generates a name in use. */
  ghost predicate Accepted(namespace: string, calls: seq<Call>) {
    forall i :: 0 <= i < |calls| ==>
      && ForTeam(namespace, calls[i])
      && Refusal(RunBoth(calls[..i]).store, calls[i].op).None?
      && (calls[i].op.CreateOp? ==> calls[i].name !in RunBoth(calls[..i]).crd)
  }

  lemma {:induction false} HistoriesStayRelated(namespace: string, calls: seq<Call>)
    requires Accepted(namespace, calls)
    ensures var b := RunBoth(calls); Related(namespace, b.store, b.crd, b.ids) && TaskRuns.Numbered(b.store)
  {
    if calls == [] {
      assert forall p :: PairOk(namespace, EMPTY, map[], map[], p);
    } else {
      var n := |calls| - 1;
      forall i | 0 <= i < n ensures calls[..n][..i] == calls[..i] {}
      HistoriesStayRelated(namespace, calls[..n]);
      var b := RunBoth(calls[..n]);
      StepSimulates(namespace, b.store, b.crd, b.ids, calls[n]);
      TaskRuns.StepKeepsNumbered(b.store, calls[n].op);
    }
  }

  /** Every history the in-memory store accepts is accepted call by call by the CRD store. */
  lemma HistoriesAreSimulated(namespace: string, calls: seq<Call>, i: nat)
    requires Accepted(namespace, calls) && i < |calls|
    ensures var b := RunBoth(calls[..i]);
            && (calls[i].op.CreateOp? || calls[i].op.DeleteTeamOp? || (calls[i].op.key, calls[i].op.id) in b.ids)
            && Accepts(b.crd, Translate(b.ids, calls[i]))
  {
    forall j | 0 <= j < i ensures calls[..i][..j] == calls[..j] {}
    HistoriesStayRelated(namespace, calls[..i]);
    var b := RunBoth(calls[..i]);
    StepSimulates(namespace, b.store, b.crd, b.ids, calls[i]);
  }

  // ----- Summaries agree -----

  lemma {:induction false} InjectiveImageSize(domain: set<string>, f: map<string, string>, image: set<string>)
    requires domain <= f.Keys && image == set x | x in domain :: f[x]
    requires forall x, y :: x in domain && y in domain && f[x] == f[y] ==> x == y
    ensures |image| == |domain|
    decreases domain
  {
    if domain != {} {
      var x :| x in domain;
      InjectiveImageSize(domain - {x}, f, image - {f[x]});
    }
  }

  /** One team's part of the bijection maps its tasks onto the team's listed objects. */
  lemma TeamBijection(namespace: string, s: Store, c: CrdMap, ids: IdMap, team: string) returns (f: map<string, string>)
    requires Related(namespace, s, c, ids)
    ensures var tasks := TeamTasks(s, SlashKey(namespace, team));
            && f.Keys == tasks.Keys
            && (forall id :: id in tasks ==>
                  f[id] in ListTeam(c, team) && ListTeam(c, team)[f[id]].state == tasks[id].state)
            && (forall name :: name in ListTeam(c, team) ==> exists id :: id in tasks && f[id] == name)
            && (forall x, y :: x in f && y in f && f[x] == f[y] ==> x == y)
  {
    var key := SlashKey(namespace, team);
    var tasks := TeamTasks(s, key);
    forall id | id in tasks ensures (key, id) in ids && ids[(key, id)] in c && c[ids[(key, id)]].teamRef == team
                                    && c[ids[(key, id)]].state == tasks[id].state {
      assert PairOk(namespace, s, c, ids, (key, id));
      SlashKeySameScope(namespace, c[ids[(key, id)]].teamRef, team);
    }
    f := map id | id in tasks :: ids[(key, id)];
    forall name | name in ListTeam(c, team) ensures exists id :: id in tasks && f[id] == name {
      var p :| p in ids && ids[p] == name;
      assert PairOk(namespace, s, c, ids, p);
      assert f[p.1] == name;
    }
    forall x, y | x in f && y in f && f[x] == f[y] ensures x == y {
      assert ids[(key, x)] == ids[(key, y)];
    }
  }

  /** What List shows of a team in the CRD store is what the in-memory store holds, but for ids and versions. */
  lemma ListsAgree(namespace: string, s: Store, c: CrdMap, ids: IdMap, team: string, id: string)
    requires Related(namespace, s, c, ids) && id in TeamTasks(s, SlashKey(namespace, team))
    ensures var t := TeamTasks(s, SlashKey(namespace, team))[id];
            && (SlashKey(namespace, team), id) in ids
            && var name := ids[(SlashKey(namespace, team), id)];
               && name in ListTeam(c, team)
               && var listed := ListTeam(c, team)[name];
                  && listed.id == name && listed.teamName == t.teamName == team
                  && listed.subject == t.subject && listed.description == t.description
                  && listed.state == t.state && listed.owner == t.owner && listed.result == t.result
                  && listed.version == 0
  {
    ListedAs(namespace, s, c, ids, team, id);
    assert PairOk(namespace, s, c, ids, (SlashKey(namespace, team), id));
    SlashKeySameScope(namespace, c[ids[(SlashKey(namespace, team), id)]].teamRef, team);
  }

  /** A state-preserving bijection preserves every count. */
  lemma CountsAgree(f: map<string, string>, domain: set<string>, image: set<string>)
    requires domain <= f.Keys
    requires forall x, y :: x in f && y in f && f[x] == f[y] ==> x == y
    requires forall id :: id in domain ==> f[id] in image
    requires forall name :: name in image ==> exists id :: id in domain && f[id] == name
    ensures |domain| == |image|
  {
    forall name ensures name in image <==> name in (set x | x in domain :: f[x]) {
      if name in image {
        var id :| id in domain && f[id] == name;
      }
    }
    InjectiveImageSize(domain, f, image);
  }

  /** Both stores report the same counts for a team. */
  lemma SummariesAgree(namespace: string, s: Store, c: CrdMap, ids: IdMap, team: string, state: TaskState)
    requires Related(namespace, s, c, ids)
    ensures var tasks := TeamTasks(s, SlashKey(namespace, team));
            && |tasks| == |ListTeam(c, team)|
            && |InState(tasks, state)| == |InState(ListTeam(c, team), state)|
  {
    var tasks, listed := TeamTasks(s, SlashKey(namespace, team)), ListTeam(c, team);
    var f := TeamBijection(namespace, s, c, ids, team);
    CountsAgree(f, tasks.Keys, listed.Keys);
    forall name | name in InState(listed, state) ensures exists id :: id in InState(tasks, state) && f[id] == name {
      var id :| id in tasks && f[id] == name;
      assert id in InState(tasks, state);
    }
    CountsAgree(f, InState(tasks, state), InState(listed, state));
  }

  // ----- Unblocked sets agree -----

  /** The object's dependencies are the task's: renamed if they exist, and not of the team if they do not. */
  ghost predicate DependencyRenamed(c: CrdMap, ids: IdMap, team: string, key: string, dep: string, name: string) {
    if (key, dep) in ids then name == ids[(key, dep)] else name !in ListTeam(c, team)
  }

  ghost predicate DependenciesRenamed(s: Store, c: CrdMap, ids: IdMap, team: string, key: string, id: string) {
    id in TeamTasks(s, key) && (key, id) in ids && ids[(key, id)] in c ==>
      var deps, names := TeamTasks(s, key)[id].blockedBy, c[ids[(key, id)]].blockedBy;
      |names| == |deps| && forall i :: 0 <= i < |deps| ==> DependencyRenamed(c, ids, team, key, deps[i], names[i])
  }

  /** A task and its object, seen from their team's lists. */
  lemma ListedAs(namespace: string, s: Store, c: CrdMap, ids: IdMap, team: string, id: string)
    requires Related(namespace, s, c, ids)
    ensures var key := SlashKey(namespace, team);
            && ((key, id) in ids <==> id in TeamTasks(s, key))
            && ((key, id) in ids ==>
                  && ids[(key, id)] in c && ids[(key, id)] in ListTeam(c, team)
                  && ListTeam(c, team)[ids[(key, id)]].state == TeamTasks(s, key)[id].state
                  && ListTeam(c, team)[ids[(key, id)]].blockedBy == c[ids[(key, id)]].blockedBy)
  {
    var key := SlashKey(namespace, team);
    assert PairOk(namespace, s, c, ids, (key, id));
    if (key, id) in ids { SlashKeySameScope(namespace, c[ids[(key, id)]].teamRef, team); }
  }

  /** One dependency: complete in the CRD list exactly when it exists and is complete in memory. */
  lemma DependencyAgrees(namespace: string, s: Store, c: CrdMap, ids: IdMap, team: string, dep: string, name: string)
    requires Related(namespace, s, c, ids)
    requires DependencyRenamed(c, ids, team, SlashKey(namespace, team), dep, name)
    ensures var tasks, listed := TeamTasks(s, SlashKey(namespace, team)), ListTeam(c, team);
            && (name in listed && listed[name].state == Completed <==> dep in tasks && tasks[dep].state == Completed)
            && (name in listed <==> dep in tasks)
  {
    ListedAs(namespace, s, c, ids, team, dep);
  }

  /**
   On related stores with renamed dependencies, an object is unblocked in the CRD store
   exactly when its task is unblocked in memory and names no missing dependency.
   */
  lemma UnblockedAgrees(namespace: string, s: Store, c: CrdMap, ids: IdMap, team: string, id: string)
    requires Related(namespace, s, c, ids) && id in TeamTasks(s, SlashKey(namespace, team))
    requires DependenciesRenamed(s, c, ids, team, SlashKey(namespace, team), id)
    ensures var key := SlashKey(namespace, team);
            var tasks := TeamTasks(s, key);
            && (key, id) in ids
            && (ids[(key, id)] in CrdUnblocked(ListTeam(c, team))
                <==> id in Unblocked(tasks) && !MissesDependency(tasks, tasks[id]))
  {
    var key := SlashKey(namespace, team);
    var tasks, listed := TeamTasks(s, key), ListTeam(c, team);
    ListedAs(namespace, s, c, ids, team, id);
    var name := ids[(key, id)];
    var deps, names := tasks[id].blockedBy, listed[name].blockedBy;
    forall i | 0 <= i < |deps|
      ensures names[i] in listed && listed[names[i]].state == Completed
              <==> deps[i] in tasks && !Waits(tasks, deps[i])
    {
      assert DependencyRenamed(c, ids, team, key, deps[i], names[i]);
      DependencyAgrees(namespace, s, c, ids, team, deps[i], names[i]);
    }
    AllComplete(tasks, listed, deps, names);
  }

  lemma AllComplete(tasks: TaskMap, listed: TaskMap, deps: seq<string>, names: seq<string>)
    requires |names| == |deps|
    requires forall i :: 0 <= i < |deps| ==>
               (names[i] in listed && listed[names[i]].state == Completed
                <==> deps[i] in tasks && !Waits(tasks, deps[i]))
    ensures (forall i :: 0 <= i < |names| ==> names[i] in listed && listed[names[i]].state == Completed)
            <==> !(exists i :: 0 <= i < |deps| && Waits(tasks, deps[i]))
                 && !(exists i :: 0 <= i < |deps| && deps[i] !in tasks)
  {
    if forall i :: 0 <= i < |names| ==> names[i] in listed && listed[names[i]].state == Completed {
      forall i | 0 <= i < |deps| ensures deps[i] in tasks && !Waits(tasks, deps[i]) {
        assert names[i] in listed;
      }
    }
  }

  // ----- Histories keep dependencies renamed -----

  /** No object names this one as a dependency. */
  predicate Unreferenced(c: CrdMap, name: string) {
    forall other :: other in c ==> name !in c[other].blockedBy
  }

  /**
   The calling discipline for creations: the task names no id that is yet to be handed out,
   the object names its dependencies as the task does, and nothing already names the object.
   */
  ghost predicate RenamedCall(b: Both, call: Call) {
    call.op.CreateOp? ==>
      && TaskRuns.Disciplined(b.store, call.op)
      && |call.blockedBy| == |call.op.blockedBy|
      && (forall i :: 0 <= i < |call.blockedBy| ==>
            DependencyRenamed(b.crd, b.ids, call.team, call.op.key, call.op.blockedBy[i], call.blockedBy[i]))
      && Unreferenced(b.crd, call.name) && call.name !in call.blockedBy
  }

  /** Task p and its object name corresponding dependencies. */
  ghost predicate PairRenamed(s: Store, c: CrdMap, ids: IdMap, p: (string, string)) {
    p in ids && ids[p] in c && p.1 in TeamTasks(s, p.0) ==>
      DependenciesRenamed(s, c, ids, c[ids[p]].teamRef, p.0, p.1)
  }

  ghost predicate AllRenamed(s: Store, c: CrdMap, ids: IdMap) {
    forall p :: PairRenamed(s, c, ids, p)
  }

  lemma EditKeepsDependency(c: CrdMap, c': CrdMap, ids: IdMap, team: string, key: string, dep: string, name: string)
    requires DependencyRenamed(c, ids, team, key, dep, name)
    requires forall other :: other in c' ==> other in c && c'[other].teamRef == c[other].teamRef
    ensures DependencyRenamed(c', ids, team, key, dep, name)
  {
  }

  lemma EditKeepsRenamed(namespace: string, s: Store, c: CrdMap, ids: IdMap, call: Call, p: (string, string))
    requires Related(namespace, s, c, ids) && PairRenamed(s, c, ids, p) && ChangesTask(call.op)
    requires Refusal(s, call.op).None?
    ensures (call.op.key, call.op.id) in ids
    ensures PairRenamed(Apply(s, call.op), ApplyCrd(c, Translate(ids, call)), ids, p)
  {
    assert PairOk(namespace, s, c, ids, (call.op.key, call.op.id)) && PairOk(namespace, s, c, ids, p);
    var c' := ApplyCrd(c, Translate(ids, call));
    if p in ids {
      var deps, names := TeamTasks(s, p.0)[p.1].blockedBy, c[ids[p]].blockedBy;
      forall i | 0 <= i < |deps| ensures DependencyRenamed(c', ids, c[ids[p]].teamRef, p.0, deps[i], names[i]) {
        EditKeepsDependency(c, c', ids, c[ids[p]].teamRef, p.0, deps[i], names[i]);
      }
    }
  }

  /** A new task and its object leave every other dependency what it was. */
  lemma CreateKeepsDependency(c: CrdMap, c': CrdMap, ids: IdMap, ids': IdMap, p0: (string, string), name0: string,
                              team: string, key: string, dep: string, name: string)
    requires DependencyRenamed(c, ids, team, key, dep, name) && p0 !in ids
    requires ids' == ids[p0 := name0] && (key, dep) != p0 && name != name0
    requires forall other :: other in c' && other != name0 ==> other in c && c'[other].teamRef == c[other].teamRef
    ensures DependencyRenamed(c', ids', team, key, dep, name)
  {
  }

  lemma OldTaskStaysRenamed(namespace: string, s: Store, c: CrdMap, ids: IdMap, call: Call, p: (string, string))
    requires Related(namespace, s, c, ids) && PairRenamed(s, c, ids, p)
    requires TaskRuns.AllBackward(s) && TaskRuns.Numbered(s) && call.op.CreateOp? && call.name !in c
    requires RenamedCall(Both(s, c, ids), call) && p in ids
    ensures PairRenamed(Apply(s, call.op), ApplyCrd(c, Translate(ids, call)), UpdateIds(s, ids, call), p)
  {
    var s', c', ids' := Apply(s, call.op), ApplyCrd(c, Translate(ids, call)), UpdateIds(s, ids, call);
    var last := Number(s, call.op.key);
    var p0 := (call.op.key, TaskId(last + 1));
    assert PairOk(namespace, s, c, ids, p) && PairOk(namespace, s, c, ids, p0);
    var deps, names := TeamTasks(s, p.0)[p.1].blockedBy, c[ids[p]].blockedBy;
    forall i | 0 <= i < |deps| ensures DependencyRenamed(c', ids', c[ids[p]].teamRef, p.0, deps[i], names[i]) {
      if p.0 == call.op.key { NextIdUnnamed(TeamTasks(s, p.0), last, p.1); }
      assert names[i] in c[ids[p]].blockedBy;
      CreateKeepsDependency(c, c', ids, ids', p0, call.name, c[ids[p]].teamRef, p.0, deps[i], names[i]);
    }
  }

  /** No task names the id that comes next. */
  lemma NextIdUnnamed(tasks: TaskMap, last: nat, id: string)
    requires TaskRuns.Backward(tasks, last) && id in tasks
    ensures TaskId(last + 1) !in tasks[id].blockedBy
  {
    assert TaskRuns.BackwardTask(tasks, last, id);
  }

  lemma NewTaskIsRenamed(namespace: string, s: Store, c: CrdMap, ids: IdMap, call: Call)
    requires Related(namespace, s, c, ids) && ForTeam(namespace, call) && call.op.CreateOp?
    requires TaskRuns.Numbered(s) && call.name !in c && RenamedCall(Both(s, c, ids), call)
    ensures PairRenamed(Apply(s, call.op), ApplyCrd(c, Translate(ids, call)), UpdateIds(s, ids, call),
                        (call.op.key, TaskId(Number(s, call.op.key) + 1)))
  {
    var c', ids' := ApplyCrd(c, Translate(ids, call)), UpdateIds(s, ids, call);
    var p0 := (call.op.key, TaskId(Number(s, call.op.key) + 1));
    assert PairOk(namespace, s, c, ids, p0);
    var deps, names := call.op.blockedBy, call.blockedBy;
    forall i | 0 <= i < |deps| ensures DependencyRenamed(c', ids', call.team, call.op.key, deps[i], names[i]) {
      assert deps[i] in deps && names[i] in names;
      assert TaskId(Number(s, call.op.key) + 1) !in deps;
      CreateKeepsDependency(c, c', ids, ids', p0, call.name, call.team, call.op.key, deps[i], names[i]);
    }
  }

  lemma DeleteKeepsRenamed(namespace: string, s: Store, c: CrdMap, ids: IdMap, call: Call, p: (string, string))
    requires Related(namespace, s, c, ids) && PairRenamed(s, c, ids, p)
    requires ForTeam(namespace, call) && call.op.DeleteTeamOp?
    ensures PairRenamed(Apply(s, call.op), ApplyCrd(c, Translate(ids, call)), UpdateIds(s, ids, call), p)
  {
    var c', ids' := ApplyCrd(c, Translate(ids, call)), UpdateIds(s, ids, call);
    assert PairOk(namespace, s, c, ids, p);
    if p in ids' && ids'[p] in c' {
      var team := c[ids[p]].teamRef;
      var deps, names := TeamTasks(s, p.0)[p.1].blockedBy, c[ids[p]].blockedBy;
      forall i | 0 <= i < |deps| ensures DependencyRenamed(c', ids', team, p.0, deps[i], names[i]) {
        assert DependencyRenamed(c, ids, team, p.0, deps[i], names[i]);
      }
    }
  }

  lemma StepKeepsRenamed(namespace: string, s: Store, c: CrdMap, ids: IdMap, call: Call)
    requires Related(namespace, s, c, ids) && ForTeam(namespace, call) && AllRenamed(s, c, ids)
    requires TaskRuns.Numbered(s) && TaskRuns.AllBackward(s)
    requires call.op.CreateOp? ==> call.name !in c
    requires Refusal(s, call.op).None? && RenamedCall(Both(s, c, ids), call)
    ensures call.op.CreateOp? || call.op.DeleteTeamOp? || (call.op.key, call.op.id) in ids
    ensures AllRenamed(Apply(s, call.op), ApplyCrd(c, Translate(ids, call)), UpdateIds(s, ids, call))
  {
    StepSimulates(namespace, s, c, ids, call);
    forall p ensures PairRenamed(Apply(s, call.op), ApplyCrd(c, Translate(ids, call)), UpdateIds(s, ids, call), p) {
      assert PairRenamed(s, c, ids, p);
      match call.op
      case CreateOp(_, _, _, _, _) =>
        if p in ids {
          OldTaskStaysRenamed(namespace, s, c, ids, call, p);
        } else if p == (call.op.key, TaskId(Number(s, call.op.key) + 1)) {
          NewTaskIsRenamed(namespace, s, c, ids, call);
        }
      case DeleteTeamOp(_) => DeleteKeepsRenamed(namespace, s, c, ids, call, p);
      case _ => EditKeepsRenamed(namespace, s, c, ids, call, p);
    }
  }

  ghost predicate RenamedCalls(calls: seq<Call>) {
    forall i :: 0 <= i < |calls| ==> RenamedCall(RunBoth(calls[..i]), calls[i])
  }

  lemma {:induction false} HistoriesStayRenamed(namespace: string, calls: seq<Call>)
    requires Accepted(namespace, calls) && RenamedCalls(calls)
    ensures var b := RunBoth(calls); AllRenamed(b.store, b.crd, b.ids) && TaskRuns.AllBackward(b.store)
  {
    if calls == [] {
      forall key ensures TaskRuns.Backward(TeamTasks(EMPTY, key), Number(EMPTY, key)) {
        assert forall id :: TaskRuns.BackwardTask(TeamTasks(EMPTY, key), 0, id);
      }
      assert forall p :: PairRenamed(EMPTY, map[], map[], p);
    } else {
      var n := |calls| - 1;
      forall i | 0 <= i < n ensures calls[..n][..i] == calls[..i] {}
      HistoriesStayRenamed(namespace, calls[..n]);
      HistoriesStayRelated(namespace, calls[..n]);
      var b := RunBoth(calls[..n]);
      assert RenamedCall(b, calls[n]);
      StepKeepsRenamed(namespace, b.store, b.crd, b.ids, calls[n]);
      var s' := Apply(b.store, calls[n].op);
      forall key ensures TaskRuns.Backward(TeamTasks(s', key), Number(s', key)) {
        TaskRuns.StepKeepsBackward(b.store, calls[n].op, key);
      }
    }
  }

  /** After every such history the two stores offer the same tasks, but for those that name a missing dependency. */
  lemma HistoriesUnblockAlike(namespace: string, calls: seq<Call>, team: string, id: string)
    requires Accepted(namespace, calls) && RenamedCalls(calls)
    requires id in TeamTasks(RunBoth(calls).store, SlashKey(namespace, team))
    ensures var b := RunBoth(calls);
            var key := SlashKey(namespace, team);
            var tasks := TeamTasks(b.store, key);
            && (key, id) in b.ids
            && (b.ids[(key, id)] in CrdUnblocked(ListTeam(b.crd, team))
                <==> id in Unblocked(tasks) && !MissesDependency(tasks, tasks[id]))
  {
    var b := RunBoth(calls);
    var key := SlashKey(namespace, team);
    HistoriesStayRelated(namespace, calls);
    HistoriesStayRenamed(namespace, calls);
    assert PairOk(namespace, b.store, b.crd, b.ids, (key, id)) && PairRenamed(b.store, b.crd, b.ids, (key, id));
    SlashKeySameScope(namespace, b.crd[b.ids[(key, id)]].teamRef, team);
    UnblockedAgrees(namespace, b.store, b.crd, b.ids, team, id);
  }

  // ----- What the CRD store accepts beyond -----

  /** The team named in the call has a task of that id, and the in-memory store refuses the change of it. */
  predicate OtherRefuses(tasks: TaskMap, op: Op)
    requires ChangesTask(op)
  {
    op.id in tasks &&
    match op
    case ClaimOp(_, id, _, expected) =>
      tasks[id].state != Pending || IsBlocked(tasks, tasks[id]) || (expected > 0 && tasks[id].version != expected)
    case CompleteOp(_, id, _) => tasks[id].state != InProgress
    case UnclaimOp(_, _) => false
  }

  /** The CRD store finds the object whatever team the call names. */
  predicate CrdAccepts(c: CrdMap, ids: IdMap, p: (string, string), team: string, op: Op)
    requires ChangesTask(op) && p in ids
  {
    Accepts(c, CrdEdit(team, ids[p], ToTaskOp(op)))
  }

  /**
   A change of the task p, in a call that names any team. The CRD store refuses only claims
   of tasks that are not pending. It accepts what the in-memory store refuses exactly when
   the call names p's own team and claims a blocked task, or with another version, or
   completes a task that is not in progress; or when the call names another team, which
   does not have the task, or has another one of that number and refuses to change it.
   */
  lemma AcceptanceGap(namespace: string, s: Store, c: CrdMap, ids: IdMap, p: (string, string), team: string, op: Op)
    requires Related(namespace, s, c, ids) && p in ids
    requires ChangesTask(op) && op.key == SlashKey(namespace, team) && op.id == p.1
    ensures p.1 in TeamTasks(s, p.0)
    ensures var t := TeamTasks(s, p.0)[p.1];
            && (CrdAccepts(c, ids, p, team, op) <==> (op.ClaimOp? ==> t.state == Pending))
            && (CrdAccepts(c, ids, p, team, op) && Refusal(s, op).Some? <==>
                  && CrdAccepts(c, ids, p, team, op)
                  && if op.key == p.0 then
                       || (op.ClaimOp? && (IsBlocked(TeamTasks(s, p.0), t)
                                           || (op.expected > 0 && t.version != op.expected)))
                       || (op.CompleteOp? && t.state != InProgress)
                     else op.id !in TeamTasks(s, op.key) || OtherRefuses(TeamTasks(s, op.key), op))
  {
    assert PairOk(namespace, s, c, ids, p);
  }

  /** A call that names another team than the object's own: the CRD store changes the object all the same. */
  lemma WrongTeamIsAccepted(namespace: string, s: Store, c: CrdMap, ids: IdMap, p: (string, string), team: string)
    requires Related(namespace, s, c, ids) && p in ids && SlashKey(namespace, team) !in s.tasks
    ensures Refusal(s, UnclaimOp(SlashKey(namespace, team), p.1)) == Some(TeamNotFound)
    ensures var crd := CrdEdit(team, ids[p], Unclaim);
            && Accepts(c, crd) && ids[p] in ApplyCrd(c, crd)
            && ApplyCrd(c, crd)[ids[p]].state == Pending && ApplyCrd(c, crd)[ids[p]].owner == ""
  {
    assert PairOk(namespace, s, c, ids, p);
  }
}
