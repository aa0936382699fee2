/**
 Any number of reconcilers, event sinks and REST handlers writing one team's status from
 possibly stale copies: phases, membership and recovery over every run.
 */
module TeamRuns {
  import opened Text
  import opened ObjectStore
  import opened Teams

  /** One write: the edits made to one fetched copy before it was written back. */
  type TeamWrite = seq<Edit>

  type History = State<Status, TeamWrite>

  function Editor(spec: Spec): (r: EditFn<Status, TeamWrite>) {
    (es: TeamWrite, st: Status) => EditAll(spec, es, st)
  }

  const NEW_TEAM := Status(Unstarted, [], None)

  function Runs(spec: Spec, initial: Status, steps: seq<Step<TeamWrite>>): (s: History) {
    Run(Editor(spec), initial, steps)
  }

  /** Version i of the status was made from version i - 1 by the i-th accepted write. */
  lemma VersionFollows(spec: Spec, initial: Status, steps: seq<Step<TeamWrite>>, i: nat)
    requires 0 < i < |Runs(spec, initial, steps).log|
    ensures var s := Runs(spec, initial, steps);
            && |s.log| == |s.committed| + 1 && s.log[0] == initial
            && EditAll(spec, s.committed[i - 1], s.log[i - 1]) == Some(s.log[i])
  {
    WritesAreAtomic(Editor(spec), initial, steps);
    var s := Runs(spec, initial, steps);
    assert Editor(spec)(s.committed[i - 1], s.log[i - 1]) == Some(s.log[i - 1 + 1]);
  }

  // ----- Phases -----

  predicate Terminal(phase: TeamPhase) {
    phase == CompletedPhase || phase == FailedPhase
  }

  function Rank(phase: TeamPhase): (n: nat) {
    match phase
    case Unstarted => 0
    case PendingPhase => 0
    case Running => 1
    case CompletedPhase => 2
    case FailedPhase => 2
  }

  lemma {:induction false} WritesNeverLowerRank(spec: Spec, es: TeamWrite, st: Status)
    requires EditAll(spec, es, st).Some?
    ensures Rank(st.phase) <= Rank(EditAll(spec, es, st).value.phase)
  {
    if es != [] {
      WritesNeverLowerRank(spec, es[..|es| - 1], st);
    }
  }

  /**
   Under every interleaving of stale reads and versioned writes the phase only moves
   forward: no team leaves Completed or Failed for Pending or Running, and none returns
   from Running to Pending.
   */
  lemma {:induction false} PhasesMoveForward(spec: Spec, initial: Status, steps: seq<Step<TeamWrite>>, i: nat, j: nat)
    requires i <= j < |Runs(spec, initial, steps).log|
    ensures var log := Runs(spec, initial, steps).log;
            && Rank(log[i].phase) <= Rank(log[j].phase)
            && (Terminal(log[i].phase) ==> Terminal(log[j].phase))
    decreases j - i
  {
    if i < j {
      var s := Runs(spec, initial, steps);
      VersionFollows(spec, initial, steps, j);
      PhasesMoveForward(spec, initial, steps, i, j - 1);
      WritesNeverLowerRank(spec, s.committed[j - 1], s.log[j - 1]);
    }
  }

  /** Exactly which edit moves a team into which phase, and from where. */
  lemma PhaseChangeIff(spec: Spec, e: Teams.Edit, st: Status)
    requires EditTeam(spec, e, st).Some?
    ensures var phase := EditTeam(spec, e, st).value.phase;
            && (phase == Running && st.phase != Running <==> e.Start? || e.LegacyStart?)
            && (phase == CompletedPhase && st.phase != CompletedPhase <==>
                  st.phase != CompletedPhase && (e.FinishAll? || e.LegacyFinish? || e.Finalize? || e.LeadCompletes?))
            && (phase == FailedPhase && st.phase != FailedPhase <==>
                  st.phase != FailedPhase && (e.TimeoutFail? || e.LegacyTimeout?))
            && (e.FinishAll? || e.LegacyFinish? ==> st.phase == Running && AllComplete(st))
            && (e.LegacyFinish? ==> spec.shutdownPolicy == Some("all-complete"))
            && (e.LeadCompletes? ==> spec.shutdownPolicy == Some("lead-decides"))
            && (e.LegacyTimeout? ==> st.phase == Running)
  {
  }

  /** When exactly each edit writes: some only in some phases, others whatever they find. */
  lemma EditAcceptedIff(spec: Spec, e: Teams.Edit, st: Status)
    ensures EditTeam(spec, e, st).Some? <==>
              match e
              case Start(sessions) => st.phase in {Unstarted, PendingPhase} && |sessions| == |spec.members|
              case LegacyStart => st.phase in {Unstarted, PendingPhase}
              case FinishAll => st.phase == Running && AllComplete(st)
              case LegacyTimeout => st.phase == Running
              case LegacyFinish => st.phase == Running && AllComplete(st) && spec.shutdownPolicy == Some("all-complete")
              case MemberFailure(index, _, _) =>
                && st.phase == Running && index < |st.members| && st.members[index].sessionID != ""
                && st.members[index].phase != Lost && st.members[index].phase != Failed
              case MemberEvent(name, _) => exists i :: 0 <= i < |st.members| && st.members[i].name == name
              case LeadCompletes => spec.shutdownPolicy == Some("lead-decides")
              case RestAdd(_, _) => RestHasRoom(spec, st)
              case SpawnDynamic(_, agentRef, _) => SpawnAllowed(spec, st, agentRef)
              case _ => true
  {
    if e.MemberEvent? && IndexOf(st.members, e.name) < |st.members| {
      assert st.members[IndexOf(st.members, e.name)].name == e.name;
    }
  }

  /** The last edit of a write that sets a terminal phase whatever it finds. */
  function LastVerdict(es: TeamWrite): (r: Option<TeamPhase>) {
    if es == [] then None
    else if Verdict(es[|es| - 1]).Some? then Verdict(es[|es| - 1])
    else LastVerdict(es[..|es| - 1])
  }

  function Verdict(e: Edit): (r: Option<TeamPhase>) {
    match e
    case TimeoutFail => Some(FailedPhase)
    case LeadCompletes => Some(CompletedPhase)
    case Finalize => Some(CompletedPhase)
    case _ => None
  }

  lemma EditFromTerminal(spec: Spec, e: Edit, st: Status)
    requires Terminal(st.phase) && EditTeam(spec, e, st).Some?
    ensures EditTeam(spec, e, st).value.phase == if Verdict(e).Some? then Verdict(e).value else st.phase
  {
  }

  lemma {:induction false} WriteFromTerminal(spec: Spec, es: TeamWrite, st: Status)
    requires Terminal(st.phase) && EditAll(spec, es, st).Some?
    ensures Terminal(EditAll(spec, es, st).value.phase)
    ensures EditAll(spec, es, st).value.phase
            == if LastVerdict(es).Some? then LastVerdict(es).value else st.phase
  {
    if es != [] {
      WriteFromTerminal(spec, es[..|es| - 1], st);
      EditFromTerminal(spec, es[|es| - 1], EditAll(spec, es[..|es| - 1], st).value);
    }
  }

  /**
   On every run, from a terminal version the next accepted write sets the phase its last
   timeout, lead completion or finalization sets, and leaves it alone without one.
   */
  lemma TerminalVersionsSwapIff(spec: Spec, initial: Status, steps: seq<Step<TeamWrite>>, i: nat)
    requires i + 1 < |Runs(spec, initial, steps).log| && Terminal(Runs(spec, initial, steps).log[i].phase)
    ensures var s := Runs(spec, initial, steps);
            && i < |s.committed|
            && var verdict := LastVerdict(s.committed[i]);
               && s.log[i + 1].phase == (if verdict.Some? then verdict.value else s.log[i].phase)
               && (s.log[i + 1].phase != s.log[i].phase <==> verdict.Some? && verdict.value != s.log[i].phase)
  {
    VersionFollows(spec, initial, steps, i + 1);
    WriteFromTerminal(spec, Runs(spec, initial, steps).committed[i], Runs(spec, initial, steps).log[i]);
  }

  // ----- Who is a member -----

  /** A member's identity: what no write changes about it. */
  function Identity(m: Member): (r: (string, Origin, string)) {
    (m.name, m.origin, m.agentRef)
  }

  /** The later members are the earlier ones, in order, under whatever phase, and then new ones. */
  predicate Extends(earlier: seq<Member>, later: seq<Member>) {
    |earlier| <= |later| && forall i :: 0 <= i < |earlier| ==> Identity(later[i]) == Identity(earlier[i])
  }

  /** Who joins by an edit of a started team. */
  function Joins(e: Edit): (r: seq<(string, Origin, string)>) {
    match e
    case RestAdd(name, agentRef) => [(name, Dynamic, agentRef)]
    case SpawnDynamic(name, agentRef, _) => [(name, Dynamic, agentRef)]
    case _ => []
  }

  lemma FailureKeepsIdentities(spec: Spec, e: Edit, st: Status)
    requires e.MemberFailure? && EditTeam(spec, e, st).Some?
    ensures |EditTeam(spec, e, st).value.members| == |st.members|
    ensures Extends(st.members, EditTeam(spec, e, st).value.members)
  {
    RecoveryOutcome(spec, st.members[IndexOf(st.members, st.members[e.index].name)], e.reason, e.session);
  }

  /** An edit of a started team keeps every member's identity and order; a join adds exactly one at the end. */
  lemma EditExtends(spec: Spec, e: Edit, st: Status)
    requires Rank(st.phase) > 0 && EditTeam(spec, e, st).Some?
    ensures var st' := EditTeam(spec, e, st).value;
            && Extends(st.members, st'.members) && |st'.members| == |st.members| + |Joins(e)|
            && (Joins(e) != [] ==> Identity(st'.members[|st.members|]) == Joins(e)[0])
  {
    if e.MemberFailure? { FailureKeepsIdentities(spec, e, st); }
  }

  lemma {:induction false} WriteExtends(spec: Spec, es: TeamWrite, st: Status)
    requires Rank(st.phase) > 0 && EditAll(spec, es, st).Some?
    ensures Extends(st.members, EditAll(spec, es, st).value.members)
  {
    if es != [] {
      var n := |es| - 1;
      WriteExtends(spec, es[..n], st);
      WritesNeverLowerRank(spec, es[..n], st);
      EditExtends(spec, es[n], EditAll(spec, es[..n], st).value);
    }
  }

  /** On every run a started team only gains members: nobody leaves the list, moves in it or changes identity. */
  lemma {:induction false} MembershipOnlyGrows(spec: Spec, initial: Status, steps: seq<Step<TeamWrite>>, i: nat, j: nat)
    requires i <= j < |Runs(spec, initial, steps).log| && Rank(Runs(spec, initial, steps).log[i].phase) > 0
    ensures Extends(Runs(spec, initial, steps).log[i].members, Runs(spec, initial, steps).log[j].members)
    decreases j - i
  {
    if i < j {
      var s := Runs(spec, initial, steps);
      VersionFollows(spec, initial, steps, j);
      MembershipOnlyGrows(spec, initial, steps, i, j - 1);
      PhasesMoveForward(spec, initial, steps, i, j - 1);
      WriteExtends(spec, s.committed[j - 1], s.log[j - 1]);
    }
  }

  /** A start, and nothing else, sets the members, to those of the spec: who joined before it is forgotten. */
  lemma StartForgets(spec: Spec, e: Edit, st: Status)
    requires (e.Start? || e.LegacyStart?) && EditTeam(spec, e, st).Some?
    ensures var st' := EditTeam(spec, e, st).value;
            && Rank(st.phase) == 0 && st'.phase == Running && st'.tasks == Some(Summary(0, 0, 0, 0))
            && |st'.members| == |spec.members|
            && forall i :: 0 <= i < |spec.members| ==>
                 var m := st'.members[i];
                 && Identity(m) == (spec.members[i].name, Static, spec.members[i].agentRef) && m.restartCount == 0
                 && (e.LegacyStart? ==> m.phase == Joining && m.sessionID == "")
                 && (e.Start? && e.sessions[i].Some? ==> m.phase == Working && m.sessionID == e.sessions[i].value)
                 && (e.Start? && e.sessions[i].None? ==> m.phase == Failed && m.sessionID == "")
  {
  }

  /** Which edits change a present member, and to what: only the first of the name concerned changes. */
  lemma MemberChangesIff(spec: Spec, e: Edit, st: Status, i: nat)
    requires EditTeam(spec, e, st).Some? && i < |st.members| && !e.Start? && !e.LegacyStart?
    ensures var st' := EditTeam(spec, e, st).value;
            && i < |st'.members|
            && match e
               case MemberEvent(name, phase) =>
                 st'.members[i] == if i == IndexOf(st.members, name) then st.members[i].(phase := phase)
                                   else st.members[i]
               case RestRemove(name) =>
                 st'.members[i] == if i == IndexOf(st.members, name) then st.members[i].(phase := Shutdown)
                                   else st.members[i]
               case MemberFailure(index, _, _) =>
                 st'.members[i] != st.members[i] ==>
                   && index < |st.members| && i == IndexOf(st.members, st.members[index].name)
                   && st.members[index].sessionID != ""
                   && st.members[index].phase != Lost && st.members[index].phase != Failed
               case _ => st'.members[i] == st.members[i]
  {
  }

  // ----- Membership -----

  /** Status members plus the lead, against the limit; one more is possible without static members. */
  predicate WithinLimit(spec: Spec, st: Status)
    requires DynamicEnabled(spec)
  {
    |st.members| + 1 <= spec.dynamicMembers.value.maxTotal + (if spec.members == [] then 1 else 0)
  }

  lemma EditKeepsLimit(spec: Spec, e: Edit, st: Status)
    requires Admitted(spec) && DynamicEnabled(spec)
    requires WithinLimit(spec, st) && EditTeam(spec, e, st).Some?
    ensures WithinLimit(spec, EditTeam(spec, e, st).value)
  {
  }

  lemma {:induction false} WritesKeepLimit(spec: Spec, es: TeamWrite, st: Status)
    requires Admitted(spec) && DynamicEnabled(spec)
    requires WithinLimit(spec, st) && EditAll(spec, es, st).Some?
    ensures WithinLimit(spec, EditAll(spec, es, st).value)
  {
    if es != [] {
      WritesKeepLimit(spec, es[..|es| - 1], st);
      EditKeepsLimit(spec, es[|es| - 1], EditAll(spec, es[..|es| - 1], st).value);
    }
  }

  /** Every mix of StartTeam, dynamic spawns and REST additions stays within the limit. */
  lemma {:induction false} MembershipBounded(spec: Spec, steps: seq<Step<TeamWrite>>, i: nat)
    requires Admitted(spec) && DynamicEnabled(spec)
    requires i < |Runs(spec, NEW_TEAM, steps).log|
    ensures var st := Runs(spec, NEW_TEAM, steps).log[i];
            |st.members| + 1 <= spec.dynamicMembers.value.maxTotal + (if spec.members == [] then 1 else 0)
    decreases i
  {
    if i == 0 {
      WritesAreAtomic(Editor(spec), NEW_TEAM, steps);
    } else {
      var s := Runs(spec, NEW_TEAM, steps);
      VersionFollows(spec, NEW_TEAM, steps, i);
      MembershipBounded(spec, steps, i - 1);
      WritesKeepLimit(spec, s.committed[i - 1], s.log[i - 1]);
    }
  }

  /** A run that adds k members through the REST handler before the team is started. */
  lemma {:induction false} RestFillsUp(spec: Spec, k: nat) returns (steps: seq<Step<TeamWrite>>)
    requires Admitted(spec) && DynamicEnabled(spec) && spec.members == []
    requires k <= spec.dynamicMembers.value.maxTotal
    ensures var s := Runs(spec, NEW_TEAM, steps);
            |s.log| == k + 1 && |s.log[k].members| == k
  {
    steps := [];
    if k > 0 {
      steps := RestFillsUp(spec, k - 1);
      var before := Runs(spec, NEW_TEAM, steps);
      var add: TeamWrite := [RestAdd("m", "a")];
      var member := Member("m", Dynamic, "a", "", Joining, 0, "");
      var copy := before.log[k - 1].(members := before.log[k - 1].members + [member]);
      assert add[..0] == [];
      assert EditAll(spec, [], before.log[k - 1]) == Some(before.log[k - 1]);
      assert EditAll(spec, add, before.log[k - 1]) == Some(copy);
      var begun := steps + [Begin(0, add, k - 1)];
      assert begun[..|steps|] == steps;
      assert Runs(spec, NEW_TEAM, begun).drafts[0] == Draft(k - 1, add, copy);
      assert (begun + [Commit(0)])[..|begun|] == begun;
      steps := begun + [Commit(0)];
      assert Runs(spec, NEW_TEAM, steps).log == before.log + [copy];
    }
  }

  /** The configured limit itself holds on every run if and only if there is a static member. */
  lemma LimitHoldsIffStaticMember(spec: Spec)
    requires Admitted(spec) && DynamicEnabled(spec)
    ensures spec.members != [] <==>
              forall steps, i :: 0 <= i < |Runs(spec, NEW_TEAM, steps).log| ==>
                |Runs(spec, NEW_TEAM, steps).log[i].members| + 1 <= spec.dynamicMembers.value.maxTotal
  {
    if spec.members != [] {
      forall steps, i | 0 <= i < |Runs(spec, NEW_TEAM, steps).log|
        ensures |Runs(spec, NEW_TEAM, steps).log[i].members| + 1 <= spec.dynamicMembers.value.maxTotal
      {
        MembershipBounded(spec, steps, i);
      }
    } else {
      var max := spec.dynamicMembers.value.maxTotal;
      var steps := RestFillsUp(spec, max);
      assert |Runs(spec, NEW_TEAM, steps).log[max].members| == max;
    }
  }

  // ----- Recovery -----

  predicate WithinRestarts(max: nat, members: seq<Member>) {
    forall i :: 0 <= i < |members| ==> members[i].restartCount <= max
  }

  function Budget(max: nat, m: Member): (n: int) {
    if Down(m) then 0 else max - m.restartCount + 1
  }

  /** The failures that can still be handled. */
  function Potential(max: nat, members: seq<Member>): (n: int) {
    if members == [] then 0
    else Potential(max, members[..|members| - 1]) + Budget(max, members[|members| - 1])
  }

  lemma {:induction false} PotentialUpdate(max: nat, members: seq<Member>, i: nat, m: Member)
    requires i < |members|
    ensures Potential(max, members[i := m]) == Potential(max, members) - Budget(max, members[i]) + Budget(max, m)
  {
    var n := |members| - 1;
    if i < n {
      PotentialUpdate(max, members[..n], i, m);
      assert members[i := m][..n] == members[..n][i := m];
    } else {
      assert members[i := m][..n] == members[..n];
    }
  }

  lemma {:induction false} PotentialNonNegative(max: nat, members: seq<Member>)
    requires WithinRestarts(max, members)
    ensures Potential(max, members) >= 0
  {
    if members != [] {
      PotentialNonNegative(max, members[..|members| - 1]);
    }
  }

  lemma {:induction false} IndexOfSameNames(members: seq<Member>, members': seq<Member>, name: string)
    requires |members'| == |members|
    requires forall i :: 0 <= i < |members| ==> members'[i].name == members[i].name
    ensures IndexOf(members', name) == IndexOf(members, name)
  {
    if members != [] {
      IndexOfSameNames(members[1..], members'[1..], name);
    }
  }

  /**
   An accepted failure edit lowers the potential if and only if the member it changes, the
   first of that name, is up. Restart counts stay within the effective maximum either way.
   */
  lemma FailureLowersIff(spec: Spec, e: Edit, st: Status)
    requires e.MemberFailure? && EditTeam(spec, e, st).Some?
    requires WithinRestarts(EffectiveMax(spec), st.members)
    ensures var st' := EditTeam(spec, e, st).value;
            var first := IndexOf(st.members, st.members[e.index].name);
            && first < |st.members| && WithinRestarts(EffectiveMax(spec), st'.members)
            && (Potential(EffectiveMax(spec), st'.members) < Potential(EffectiveMax(spec), st.members)
                <==> !Down(st.members[first]))
  {
    var i := IndexOf(st.members, st.members[e.index].name);
    PotentialUpdate(EffectiveMax(spec), st.members, i, Recovered(spec, st.members[i], e.reason, e.session));
  }

  /** With sessions on first members only, the handled member is up, so the failure uses up budget. */
  lemma FailureUsesBudget(spec: Spec, e: Edit, st: Status)
    requires e.MemberFailure? && EditTeam(spec, e, st).Some?
    requires SessionsOnFirst(st.members) && WithinRestarts(EffectiveMax(spec), st.members)
    ensures var st' := EditTeam(spec, e, st).value;
            && SessionsOnFirst(st'.members) && WithinRestarts(EffectiveMax(spec), st'.members)
            && Potential(EffectiveMax(spec), st'.members) < Potential(EffectiveMax(spec), st.members)
  {
    FailureLowersIff(spec, e, st);
    ChangeKeepsSessions(st.members, e.index, Recovered(spec, st.members[e.index], e.reason, e.session));
  }

  /** Changing a first member, but not its name, keeps sessions on first members. */
  lemma ChangeKeepsSessions(members: seq<Member>, i: nat, m: Member)
    requires SessionsOnFirst(members) && i < |members| && m.name == members[i].name
    requires IndexOf(members, members[i].name) == i || m.sessionID == members[i].sessionID
    ensures SessionsOnFirst(members[i := m])
  {
    forall j | 0 <= j < |members|
      ensures IndexOf(members[i := m], members[j].name) == IndexOf(members, members[j].name)
    {
      IndexOfSameNames(members, members[i := m], members[j].name);
    }
  }

  lemma {:induction false} FailuresUseBudget(spec: Spec, es: TeamWrite, st: Status)
    requires AllFailures(es) && EditAll(spec, es, st).Some?
    requires SessionsOnFirst(st.members) && WithinRestarts(EffectiveMax(spec), st.members)
    ensures var st' := EditAll(spec, es, st).value;
            && SessionsOnFirst(st'.members) && WithinRestarts(EffectiveMax(spec), st'.members)
            && Potential(EffectiveMax(spec), st'.members) <= Potential(EffectiveMax(spec), st.members) - |es|
  {
    if es != [] {
      FailuresUseBudget(spec, es[..|es| - 1], st);
      FailureUsesBudget(spec, es[|es| - 1], EditAll(spec, es[..|es| - 1], st).value);
    }
  }

  /**
   With a fixed policy, sessions on first members only, and only failures occurring, every
   accepted status write strictly lowers the potential, so at most as many writes are
   accepted as the initial potential; restart counts never exceed the effective maximum.
   */
  lemma {:induction false} RecoveryTerminates(spec: Spec, initial: Status, steps: seq<Step<TeamWrite>>, i: nat)
    requires SessionsOnFirst(initial.members) && WithinRestarts(EffectiveMax(spec), initial.members)
    requires var s := Runs(spec, initial, steps);
             && i < |s.log|
             && forall k :: 0 <= k < |s.committed| ==> AllFailures(s.committed[k]) && s.committed[k] != []
    ensures var st := Runs(spec, initial, steps).log[i];
            && SessionsOnFirst(st.members) && WithinRestarts(EffectiveMax(spec), st.members)
            && 0 <= Potential(EffectiveMax(spec), st.members) <= Potential(EffectiveMax(spec), initial.members) - i
    decreases i
  {
    var s := Runs(spec, initial, steps);
    if i == 0 {
      WritesAreAtomic(Editor(spec), initial, steps);
    } else {
      VersionFollows(spec, initial, steps, i);
      RecoveryTerminates(spec, initial, steps, i - 1);
      FailuresUseBudget(spec, s.committed[i - 1], s.log[i - 1]);
    }
    PotentialNonNegative(EffectiveMax(spec), s.log[i].members);
  }

  // ----- Where sessions sit -----

  lemma UniqueKeepsSessions(members: seq<Member>)
    requires UniqueNames(members)
    ensures SessionsOnFirst(members)
  {
    forall i | 0 <= i < |members| ensures IndexOf(members, members[i].name) == i { IndexOfUnique(members, i); }
  }

  lemma {:induction false} IndexOfAppend(members: seq<Member>, m: Member, name: string)
    ensures IndexOf(members + [m], name)
            == if IndexOf(members, name) < |members| then IndexOf(members, name)
               else if m.name == name then |members| else |members| + 1
  {
    if members != [] {
      IndexOfAppend(members[1..], m, name);
      assert (members + [m])[1..] == members[1..] + [m];
    }
  }

  /** A new member keeps sessions on first members if and only if it brings none, or a new name. */
  lemma AppendKeepsSessionsIff(members: seq<Member>, m: Member)
    requires SessionsOnFirst(members)
    ensures SessionsOnFirst(members + [m]) <==> m.sessionID == "" || IndexOf(members, m.name) == |members|
  {
    forall j | 0 <= j < |members|
      ensures IndexOf(members + [m], members[j].name) == IndexOf(members, members[j].name) {
      IndexOfAppend(members, m, members[j].name);
      assert IndexOf(members, members[j].name) <= j;
    }
    IndexOfAppend(members, m, m.name);
    assert (members + [m])[|members|] == m;
  }

  /** Every dynamic member is spawned under a name not in use, as far as the write gets. */
  predicate FreshSpawns(spec: Spec, es: TeamWrite, st: Status) {
    es != [] ==>
      var n := |es| - 1;
      && FreshSpawns(spec, es[..n], st)
      && (es[n].SpawnDynamic? && EditAll(spec, es[..n], st).Some? ==>
            var members := EditAll(spec, es[..n], st).value.members;
            IndexOf(members, es[n].name) == |members|)
  }

  lemma StartKeepsSessions(spec: Spec, sessions: seq<Option<string>>)
    requires MembersOk(spec.members, |spec.members|) && |sessions| == |spec.members|
    ensures SessionsOnFirst(StartedMembers(spec.members, sessions))
  {
    UniqueKeepsSessions(StartedMembers(spec.members, sessions));
  }

  lemma SetPhaseKeepsSessions(members: seq<Member>, name: string, phase: MemberPhase)
    requires SessionsOnFirst(members)
    ensures SessionsOnFirst(SetPhase(members, name, phase))
  {
    var i := IndexOf(members, name);
    if i < |members| { ChangeKeepsSessions(members, i, members[i].(phase := phase)); }
  }

  /** A failure edit touches the first member of its name only. */
  lemma FailureKeepsSessions(spec: Spec, e: Edit, st: Status)
    requires e.MemberFailure? && EditTeam(spec, e, st).Some? && SessionsOnFirst(st.members)
    ensures SessionsOnFirst(EditTeam(spec, e, st).value.members)
  {
    var i := IndexOf(st.members, st.members[e.index].name);
    ChangeKeepsSessions(st.members, i, Recovered(spec, st.members[i], e.reason, e.session));
  }

  lemma EditKeepsSessions(spec: Spec, e: Edit, st: Status)
    requires Admitted(spec) && (e.SpawnDynamic? ==> IndexOf(st.members, e.name) == |st.members|)
    requires SessionsOnFirst(st.members) && EditTeam(spec, e, st).Some?
    ensures SessionsOnFirst(EditTeam(spec, e, st).value.members)
  {
    match e
    case Start(sessions) => StartKeepsSessions(spec, sessions);
    case MemberFailure(_, _, _) => FailureKeepsSessions(spec, e, st);
    case MemberEvent(name, phase) => SetPhaseKeepsSessions(st.members, name, phase);
    case RestRemove(name) => SetPhaseKeepsSessions(st.members, name, Shutdown);
    case RestAdd(name, agentRef) =>
      AppendKeepsSessionsIff(st.members, Member(name, Dynamic, agentRef, "", Joining, 0, ""));
    case SpawnDynamic(name, agentRef, sessionID) =>
      AppendKeepsSessionsIff(st.members, Member(name, Dynamic, agentRef, sessionID, Working, 0, ""));
    case _ =>
  }

  lemma {:induction false} WritesKeepSessions(spec: Spec, es: TeamWrite, st: Status)
    requires Admitted(spec) && FreshSpawns(spec, es, st)
    requires SessionsOnFirst(st.members) && EditAll(spec, es, st).Some?
    ensures SessionsOnFirst(EditAll(spec, es, st).value.members)
  {
    if es != [] {
      WritesKeepSessions(spec, es[..|es| - 1], st);
      EditKeepsSessions(spec, es[|es| - 1], EditAll(spec, es[..|es| - 1], st).value);
    }
  }

  /** On the run, every accepted write spawns dynamic members under new names only. */
  predicate SpawnsFresh(spec: Spec, steps: seq<Step<TeamWrite>>) {
    var s := Runs(spec, NEW_TEAM, steps);
    forall k :: 0 <= k < |s.committed| && k < |s.log| ==> FreshSpawns(spec, s.committed[k], s.log[k])
  }

  /**
   However members are added through REST, under whatever names, sessions stay on first
   members as long as dynamic members are spawned under new names; so failures then settle.
   */
  lemma {:induction false} SessionsStayOnFirst(spec: Spec, steps: seq<Step<TeamWrite>>, i: nat)
    requires Admitted(spec) && i < |Runs(spec, NEW_TEAM, steps).log|
    requires SpawnsFresh(spec, steps)
    ensures SessionsOnFirst(Runs(spec, NEW_TEAM, steps).log[i].members)
    decreases i
  {
    var s := Runs(spec, NEW_TEAM, steps);
    if i == 0 {
      WritesAreAtomic(Editor(spec), NEW_TEAM, steps);
    } else {
      VersionFollows(spec, NEW_TEAM, steps, i);
      SessionsStayOnFirst(spec, steps, i - 1);
      WritesKeepSessions(spec, s.committed[i - 1], s.log[i - 1]);
    }
  }

  // ----- Whose sessions run -----

  /** An agent that dynamic members may use. */
  predicate AgentAllowed(spec: Spec, agentRef: string) {
    && spec.dynamicMembers.Some? && spec.dynamicMembers.value.enabled
    && (spec.dynamicMembers.value.allowedAgentRefs == [] || agentRef in spec.dynamicMembers.value.allowedAgentRefs)
  }

  /** A member with a session is one of the spec, or a dynamic one of an allowed agent. */
  predicate SessionAllowed(spec: Spec, m: Member) {
    m.sessionID == "" || (if m.origin == Static then MemberSpec(m.name, m.agentRef) in spec.members
                          else AgentAllowed(spec, m.agentRef))
  }

  predicate SessionsAllowed(spec: Spec, members: seq<Member>) {
    forall i :: 0 <= i < |members| ==> SessionAllowed(spec, members[i])
  }

  lemma FailureKeepsAllowed(spec: Spec, e: Edit, st: Status)
    requires e.MemberFailure? && EditTeam(spec, e, st).Some?
    requires SessionsOnFirst(st.members) && SessionsAllowed(spec, st.members)
    ensures SessionsAllowed(spec, EditTeam(spec, e, st).value.members)
  {
    RecoveryOutcome(spec, st.members[e.index], e.reason, e.session);
  }

  lemma StartKeepsAllowed(spec: Spec, sessions: seq<Option<string>>)
    requires |sessions| == |spec.members|
    ensures SessionsAllowed(spec, StartedMembers(spec.members, sessions))
  {
    forall i | 0 <= i < |spec.members|
      ensures SessionAllowed(spec, StartedMembers(spec.members, sessions)[i])
    {
      assert MemberSpec(spec.members[i].name, spec.members[i].agentRef) == spec.members[i];
    }
  }

  lemma EditKeepsAllowed(spec: Spec, e: Edit, st: Status)
    requires EditTeam(spec, e, st).Some?
    requires SessionsOnFirst(st.members) && SessionsAllowed(spec, st.members)
    ensures SessionsAllowed(spec, EditTeam(spec, e, st).value.members)
  {
    match e
    case Start(sessions) => StartKeepsAllowed(spec, sessions);
    case MemberFailure(_, _, _) => FailureKeepsAllowed(spec, e, st);
    case _ =>
  }

  lemma {:induction false} WritesKeepAllowed(spec: Spec, es: TeamWrite, st: Status)
    requires Admitted(spec) && FreshSpawns(spec, es, st) && EditAll(spec, es, st).Some?
    requires SessionsOnFirst(st.members) && SessionsAllowed(spec, st.members)
    ensures SessionsAllowed(spec, EditAll(spec, es, st).value.members)
  {
    if es != [] {
      WritesKeepAllowed(spec, es[..|es| - 1], st);
      WritesKeepSessions(spec, es[..|es| - 1], st);
      EditKeepsAllowed(spec, es[|es| - 1], EditAll(spec, es[..|es| - 1], st).value);
    }
  }

  /**
   On every run on which dynamic members are spawned under new names, sessions only ever
   run for members of the spec and for allowed agents, although REST adds anybody.
   */
  lemma {:induction false} OnlyAllowedSessionsRun(spec: Spec, steps: seq<Step<TeamWrite>>, i: nat)
    requires Admitted(spec) && i < |Runs(spec, NEW_TEAM, steps).log| && SpawnsFresh(spec, steps)
    ensures SessionsAllowed(spec, Runs(spec, NEW_TEAM, steps).log[i].members)
    decreases i
  {
    var s := Runs(spec, NEW_TEAM, steps);
    if i == 0 {
      WritesAreAtomic(Editor(spec), NEW_TEAM, steps);
    } else {
      VersionFollows(spec, NEW_TEAM, steps, i);
      OnlyAllowedSessionsRun(spec, steps, i - 1);
      SessionsStayOnFirst(spec, steps, i - 1);
      WritesKeepAllowed(spec, s.committed[i - 1], s.log[i - 1]);
    }
  }

  lemma {:induction false} EditAccepted(spec: Spec, es: TeamWrite, st: Status, k: nat)
    requires k < |es| && EditAll(spec, es, st).Some?
    ensures EditAll(spec, es[..k], st).Some? && EditTeam(spec, es[k], EditAll(spec, es[..k], st).value).Some?
  {
    var n := |es| - 1;
    if k < n {
      assert es[..n][..k] == es[..k];
      EditAccepted(spec, es[..n], st, k);
    }
  }

  /** Every dynamic member that a run spawns is of an allowed agent, and spawned below the limit. */
  lemma SpawnsAreAllowed(spec: Spec, initial: Status, steps: seq<Step<TeamWrite>>, i: nat, k: nat)
    requires var s := Runs(spec, initial, steps);
             i < |s.committed| && k < |s.committed[i]| && s.committed[i][k].SpawnDynamic?
    ensures var s := Runs(spec, initial, steps);
            && i < |s.log| && EditAll(spec, s.committed[i][..k], s.log[i]).Some?
            && AgentAllowed(spec, s.committed[i][k].agentRef)
            && var max := spec.dynamicMembers.value.maxTotal;
               max > 0 ==> |EditAll(spec, s.committed[i][..k], s.log[i]).value.members| + 1 < max
  {
    WritesAreAtomic(Editor(spec), initial, steps);
    VersionFollows(spec, initial, steps, i + 1);
    EditAccepted(spec, Runs(spec, initial, steps).committed[i], Runs(spec, initial, steps).log[i], k);
  }

  // ----- A run that never settles -----

  lemma OneWrite(spec: Spec, steps: seq<Step<TeamWrite>>, e: Edit, st: Status) returns (longer: seq<Step<TeamWrite>>)
    requires var s := Runs(spec, NEW_TEAM, steps);
             s.log != [] && EditTeam(spec, e, s.log[|s.log| - 1]) == Some(st)
    ensures Runs(spec, NEW_TEAM, longer).log == Runs(spec, NEW_TEAM, steps).log + [st]
    ensures Runs(spec, NEW_TEAM, longer).committed == Runs(spec, NEW_TEAM, steps).committed + [[e]]
  {
    var s := Runs(spec, NEW_TEAM, steps);
    var last := |s.log| - 1;
    assert [e][..0] == [];
    assert EditAll(spec, [], s.log[last]) == Some(s.log[last]);
    assert EditAll(spec, [e], s.log[last]) == Some(st);
    var begun := steps + [Begin(0, [e], last)];
    assert begun[..|steps|] == steps;
    assert Runs(spec, NEW_TEAM, begun).drafts[0] == Draft(last, [e], st);
    longer := begun + [Commit(0)];
    assert longer[..|begun|] == begun;
  }

  /** One static member, no recovery policy, and room for a dynamic one. */
  const TWINS := Spec("lead", [MemberSpec("a", "x")], Some(DynamicMembers(true, 3, [])), None, None, true)

  const FIRST := Member("a", Static, "x", "s1", Working, 0, "")

  const SECOND := Member("a", Dynamic, "x", "s2", Working, 0, "")

  /** The first "a" has been found lost, and the second one's session fails from now on. */
  const STUCK := Status(Running, [FIRST.(phase := Lost, lastRestartReason := "SessionTerminated"), SECOND],
                        Some(Summary(0, 0, 0, 0)))

  lemma StuckStaysStuck()
    ensures EditTeam(TWINS, MemberFailure(1, "SessionTerminated", None), STUCK) == Some(STUCK)
  {
    assert IndexOf(STUCK.members, "a") == 0;
    assert STUCK.members[0 := STUCK.members[0]] == STUCK.members;
  }

  lemma TwinsStart() returns (steps: seq<Step<TeamWrite>>)
    ensures var s := Runs(TWINS, NEW_TEAM, steps);
            |s.log| == 3 && s.log[2] == Status(Running, [FIRST, SECOND], Some(Summary(0, 0, 0, 0)))
  {
    var started := Status(Running, [FIRST], Some(Summary(0, 0, 0, 0)));
    assert Runs(TWINS, NEW_TEAM, []).log == [NEW_TEAM];
    assert StartedMembers(TWINS.members, [Some("s1")]) == [FIRST];
    steps := OneWrite(TWINS, [], Start([Some("s1")]), started);
    assert started.members + [SECOND] == [FIRST, SECOND];
    steps := OneWrite(TWINS, steps, SpawnDynamic("a", "x", "s2"), Status(Running, [FIRST, SECOND], started.tasks));
  }

  /**
   A dynamic member spawned under a name in use breaks it: for every n there is a run on
   which the first "a" fails once and the second "a" is then handled n times without any
   change of the status.
   */
  lemma {:induction false} SpawnedTwinNeverSettles(n: nat) returns (steps: seq<Step<TeamWrite>>)
    ensures Admitted(TWINS)
    ensures var s := Runs(TWINS, NEW_TEAM, steps);
            |s.log| == n + 4 && forall i :: 3 <= i < |s.log| ==> s.log[i] == STUCK
  {
    if n == 0 {
      steps := TwinsStart();
      var both := Runs(TWINS, NEW_TEAM, steps).log[2];
      assert IndexOf(both.members, "a") == 0;
      assert both.members[0 := STUCK.members[0]] == STUCK.members;
      steps := OneWrite(TWINS, steps, MemberFailure(0, "SessionTerminated", None), STUCK);
    } else {
      steps := SpawnedTwinNeverSettles(n - 1);
      StuckStaysStuck();
      steps := OneWrite(TWINS, steps, MemberFailure(1, "SessionTerminated", None), STUCK);
    }
  }
}
