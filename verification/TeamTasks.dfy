/**
 What the task summary in a team's status means for its end: the counts that the task store
 reports, and the all-complete check that reads them (internal/team/lifecycle.go,
 internal/controller/team_sink.go, agentteam_controller.go).
 */
module TeamTasks {
  import opened Text
  import opened ObjectStore
  import opened Teams
  import opened TeamRuns
  import Tasks

  /** What GetSummary reports of a team's tasks. */
  function SummaryOf(tasks: Tasks.TaskMap): (r: Summary) {
    Summary(|tasks|, |Tasks.InState(tasks, Tasks.Pending)|, |Tasks.InState(tasks, Tasks.InProgress)|,
            |Tasks.InState(tasks, Tasks.Completed)|)
  }

  /** There are tasks, and every one of them is completed. */
  predicate AllTasksComplete(tasks: Tasks.TaskMap) {
    tasks != map[] && forall id :: id in tasks ==> tasks[id].state == Tasks.Completed
  }

  lemma SubsetOfSameSize(xs: set<string>, ys: set<string>)
    requires xs <= ys && |xs| == |ys|
    ensures xs == ys
  {
    assert ys == xs + (ys - xs);
  }

  lemma SizeOfMap(tasks: Tasks.TaskMap)
    ensures |tasks| == |tasks.Keys| && (|tasks| == 0 <==> tasks == map[])
  {
    if tasks.Keys == {} { assert tasks == map[]; }
  }

  /** The status says all complete exactly if there are tasks and all of them are. */
  lemma SummarySaysAllComplete(st: Status, tasks: Tasks.TaskMap)
    requires st.tasks == Some(SummaryOf(tasks))
    ensures AllComplete(st) <==> AllTasksComplete(tasks)
  {
    var done := Tasks.InState(tasks, Tasks.Completed);
    SizeOfMap(tasks);
    if |done| == |tasks| { SubsetOfSameSize(done, tasks.Keys); }
    if AllTasksComplete(tasks) { assert done == tasks.Keys; }
  }

  // ----- Where a version's summary comes from -----

  /** The summary after a write that found this one: the last it set, or the empty one of a start. */
  function ReportedBy(es: TeamWrite, found: Option<Summary>): (r: Option<Summary>) {
    if es == [] then found else
    match es[|es| - 1]
    case SetSummary(summary) => Some(summary)
    case Start(_) => Some(Summary(0, 0, 0, 0))
    case LegacyStart => Some(Summary(0, 0, 0, 0))
    case _ => ReportedBy(es[..|es| - 1], found)
  }

  /** The summary after those writes to a new team. */
  function LastReport(writes: seq<TeamWrite>): (r: Option<Summary>) {
    if writes == [] then None else ReportedBy(writes[|writes| - 1], LastReport(writes[..|writes| - 1]))
  }

  lemma EditReports(spec: Spec, e: Edit, st: Status)
    requires EditTeam(spec, e, st).Some?
    ensures EditTeam(spec, e, st).value.tasks == ReportedBy([e], st.tasks)
  {
    assert [e][..0] == [];
  }

  lemma {:induction false} WriteReports(spec: Spec, es: TeamWrite, st: Status)
    requires EditAll(spec, es, st).Some?
    ensures EditAll(spec, es, st).value.tasks == ReportedBy(es, st.tasks)
  {
    if es != [] {
      var n := |es| - 1;
      WriteReports(spec, es[..n], st);
      EditReports(spec, es[n], EditAll(spec, es[..n], st).value);
      assert [es[n]][..0] == [];
    }
  }

  /** On every run the summary of a version is the last one reported before it, or a start's empty one. */
  lemma {:induction false} SummaryIsLastReport(spec: Spec, steps: seq<Step<TeamWrite>>, i: nat)
    requires i < |Runs(spec, NEW_TEAM, steps).log|
    ensures i <= |Runs(spec, NEW_TEAM, steps).committed|
    ensures Runs(spec, NEW_TEAM, steps).log[i].tasks == LastReport(Runs(spec, NEW_TEAM, steps).committed[..i])
    decreases i
  {
    WritesAreAtomic(Editor(spec), NEW_TEAM, steps);
    if i > 0 {
      var s := Runs(spec, NEW_TEAM, steps);
      SummaryIsLastReport(spec, steps, i - 1);
      VersionFollows(spec, NEW_TEAM, steps, i);
      WriteReports(spec, s.committed[i - 1], s.log[i - 1]);
      assert s.committed[..i][..i - 1] == s.committed[..i - 1];
    }
  }

  // ----- Finishing -----

  /** The writes of the two all-complete checks. */
  predicate Finishes(e: Edit) {
    e.FinishAll? || e.LegacyFinish?
  }

  /** Only the legacy check asks for the policy. */
  predicate PolicyAllows(spec: Spec, e: Edit) {
    e.LegacyFinish? ==> spec.shutdownPolicy == Some("all-complete")
  }

  lemma OneEdit(spec: Spec, e: Edit, st: Status)
    ensures EditAll(spec, [e], st) == EditTeam(spec, e, st)
  {
    assert [e][..0] == [];
    assert EditAll(spec, [], st) == Some(st);
  }

  /**
   On every run, an all-complete check on a version whose last reported summary is that of
   some tasks completes the team exactly if it is running, there are tasks, and all of them
   are completed, and the policy allows it if it is the legacy check; nothing else changes.
   */
  lemma FinishesIffTasksComplete(spec: Spec, steps: seq<Step<TeamWrite>>, i: nat, e: Edit, tasks: Tasks.TaskMap)
    requires i < |Runs(spec, NEW_TEAM, steps).log| && i <= |Runs(spec, NEW_TEAM, steps).committed|
    requires LastReport(Runs(spec, NEW_TEAM, steps).committed[..i]) == Some(SummaryOf(tasks)) && Finishes(e)
    ensures var st := Runs(spec, NEW_TEAM, steps).log[i];
            EditAll(spec, [e], st) == if st.phase == Running && AllTasksComplete(tasks) && PolicyAllows(spec, e)
                                      then Some(st.(phase := CompletedPhase)) else None
  {
    var st := Runs(spec, NEW_TEAM, steps).log[i];
    SummaryIsLastReport(spec, steps, i);
    SummarySaysAllComplete(st, tasks);
    OneEdit(spec, e, st);
  }

  /** On every run, a team that an all-complete check completed had tasks, all of them complete when last reported. */
  lemma FinishedTeamsHadCompleteTasks(spec: Spec, steps: seq<Step<TeamWrite>>, i: nat, tasks: Tasks.TaskMap)
    requires var s := Runs(spec, NEW_TEAM, steps);
             i < |s.committed| && |s.committed[i]| == 1 && Finishes(s.committed[i][0])
    requires LastReport(Runs(spec, NEW_TEAM, steps).committed[..i]) == Some(SummaryOf(tasks))
    ensures AllTasksComplete(tasks) && PolicyAllows(spec, Runs(spec, NEW_TEAM, steps).committed[i][0])
    ensures i + 1 < |Runs(spec, NEW_TEAM, steps).log|
    ensures Runs(spec, NEW_TEAM, steps).log[i].phase == Running
    ensures Runs(spec, NEW_TEAM, steps).log[i + 1].phase == CompletedPhase
  {
    var s := Runs(spec, NEW_TEAM, steps);
    WritesAreAtomic(Editor(spec), NEW_TEAM, steps);
    VersionFollows(spec, NEW_TEAM, steps, i + 1);
    assert s.committed[i] == [s.committed[i][0]];
    FinishesIffTasksComplete(spec, steps, i, s.committed[i][0], tasks);
  }

  /** Before any report an all-complete check never completes a team: a start reports no tasks. */
  lemma UnreportedTeamsNeverFinish(spec: Spec, steps: seq<Step<TeamWrite>>, i: nat, e: Edit)
    requires i < |Runs(spec, NEW_TEAM, steps).log| && i <= |Runs(spec, NEW_TEAM, steps).committed|
    requires LastReport(Runs(spec, NEW_TEAM, steps).committed[..i]) in {None, Some(Summary(0, 0, 0, 0))}
    requires Finishes(e)
    ensures EditAll(spec, [e], Runs(spec, NEW_TEAM, steps).log[i]).None?
  {
    SummaryIsLastReport(spec, steps, i);
    OneEdit(spec, e, Runs(spec, NEW_TEAM, steps).log[i]);
  }
}
