/**
 Team status and everything that writes it: the lifecycle (internal/team/lifecycle.go),
 the reconciler (internal/controller/agentteam_controller.go), the event sink
 (team_sink.go), the REST handlers (internal/httpapi/team_handler.go) and the admission
 webhook (internal/discovery/agentteam_webhook.go).
 */
module Teams {
  import opened Text

  datatype TeamPhase = Unstarted | PendingPhase | Running | CompletedPhase | FailedPhase

  datatype MemberPhase = Joining | Working | Idle | Lost | Failed | Shutdown

  datatype Origin = Static | Dynamic

  datatype Member = Member(
    name: string, origin: Origin, agentRef: string, sessionID: string,
    phase: MemberPhase, restartCount: nat, lastRestartReason: string)

  datatype Summary = Summary(total: nat, pending: nat, inProgress: nat, completed: nat)

  datatype Status = Status(phase: TeamPhase, members: seq<Member>, tasks: Option<Summary>)

  datatype MemberSpec = MemberSpec(name: string, agentRef: string)

  datatype DynamicMembers = DynamicMembers(enabled: bool, maxTotal: int, allowedAgentRefs: seq<string>)

  datatype RecoverySpec = RecoverySpec(reschedulePolicy: string, maxRestarts: int)

  datatype Spec = Spec(
    leadAgentRef: string,
    members: seq<MemberSpec>,
    dynamicMembers: Option<DynamicMembers>,
    recovery: Option<RecoverySpec>,
    shutdownPolicy: Option<string>,   // None when there is no config section
    durationValid: bool)              // maxDuration is absent or parses

  // ----- Admission -----

  /** The first n members have names and agents, and no two of them share a name. */
  predicate MembersOk(members: seq<MemberSpec>, n: nat)
    requires n <= |members|
  {
    && (forall i :: 0 <= i < n ==> members[i].name != "" && members[i].agentRef != "")
    && (forall i, j :: 0 <= i < j < n ==> members[i].name != members[j].name)
  }

  predicate Admitted(spec: Spec) {
    && spec.leadAgentRef != ""
    && MembersOk(spec.members, |spec.members|)
    && (spec.dynamicMembers.Some? && spec.dynamicMembers.value.enabled ==>
          spec.dynamicMembers.value.maxTotal >= |spec.members| + 1)
    && (spec.shutdownPolicy.Some? ==>
          spec.shutdownPolicy.value in {"", "all-complete", "lead-decides", "manual", "timeout"})
    && spec.durationValid
  }

  datatype Invalid =
    | LeadRequired | NameRequired(i: nat) | NameDuplicated(i: nat) | AgentRequired(i: nat)
    | MaxTotalTooSmall | UnknownPolicy | BadDuration

  /** The error is true of the spec, and the first one in the order of the checks as far as members go. */
  predicate Describes(e: Invalid, spec: Spec) {
    match e
    case LeadRequired => spec.leadAgentRef == ""
    case NameRequired(i) => i < |spec.members| && MembersOk(spec.members, i) && spec.members[i].name == ""
    case NameDuplicated(i) =>
      i < |spec.members| && MembersOk(spec.members, i)
      && exists j :: 0 <= j < i && spec.members[j].name == spec.members[i].name
    case AgentRequired(i) => i < |spec.members| && MembersOk(spec.members, i) && spec.members[i].agentRef == ""
    case MaxTotalTooSmall =>
      spec.dynamicMembers.Some? && spec.dynamicMembers.value.enabled
      && spec.dynamicMembers.value.maxTotal < |spec.members| + 1
    case UnknownPolicy =>
      spec.shutdownPolicy.Some?
      && spec.shutdownPolicy.value !in {"", "all-complete", "lead-decides", "manual", "timeout"}
    case BadDuration => !spec.durationValid
  }

  method Validate(spec: Spec) returns (err: Option<Invalid>)
    ensures err.None? <==> Admitted(spec)
    ensures err.Some? ==> Describes(err.value, spec)
  {
    if spec.leadAgentRef == "" {
      return Some(LeadRequired);
    }
    var seen: set<string> := {};
    for i := 0 to |spec.members|
      invariant seen == set j | 0 <= j < i :: spec.members[j].name
      invariant MembersOk(spec.members, i)
    {
      var m := spec.members[i];
      if m.name == "" {
        return Some(NameRequired(i));
      }
      if m.name in seen {
        return Some(NameDuplicated(i));
      }
      seen := seen + {m.name};
      if m.agentRef == "" {
        return Some(AgentRequired(i));
      }
    }
    if spec.dynamicMembers.Some? && spec.dynamicMembers.value.enabled {
      var minRequired := |spec.members| + 1;
      if spec.dynamicMembers.value.maxTotal < minRequired {
        return Some(MaxTotalTooSmall);
      }
    }
    if spec.shutdownPolicy.Some? && spec.shutdownPolicy.value != "" {
      var policy := spec.shutdownPolicy.value;
      if policy != "all-complete" && policy != "lead-decides" && policy != "manual" && policy != "timeout" {
        return Some(UnknownPolicy);
      }
    }
    if !spec.durationValid {
      return Some(BadDuration);
    }
    err := None;
  }

  // ----- Members -----

  /** The first member of that name, or the number of members. */
  function IndexOf(members: seq<Member>, name: string): (i: nat)
    ensures i <= |members|
    ensures i < |members| ==> members[i].name == name
    ensures forall j :: 0 <= j < i ==> members[j].name != name
  {
    if members == [] then 0
    else if members[0].name == name then 0
    else 1 + IndexOf(members[1..], name)
  }

  predicate UniqueNames(members: seq<Member>) {
    forall i, j :: 0 <= i < j < |members| ==> members[i].name != members[j].name
  }

  /** Only the first member of a name has a session. */
  predicate SessionsOnFirst(members: seq<Member>) {
    forall i :: 0 <= i < |members| && members[i].sessionID != "" ==> IndexOf(members, members[i].name) == i
  }

  lemma IndexOfUnique(members: seq<Member>, i: nat)
    requires UniqueNames(members) && i < |members|
    ensures IndexOf(members, members[i].name) == i
  {
  }

  function EffectiveMax(spec: Spec): (n: nat) {
    if spec.recovery.Some? && spec.recovery.value.maxRestarts > 0 then spec.recovery.value.maxRestarts else 3
  }

  predicate Down(m: Member) {
    m.phase == Lost || m.phase == Failed
  }

  /** What a failure does to the member; `session` is None when spawning the recovery session fails. */
  function Recovered(spec: Spec, m: Member, reason: string, session: Option<string>): (r: Member) {
    var lost := m.(phase := Lost, lastRestartReason := reason);
    if spec.recovery.None? || spec.recovery.value.reschedulePolicy == "None" then lost
    else if m.restartCount >= EffectiveMax(spec) then lost.(phase := Failed)
    else if spec.recovery.value.reschedulePolicy == "Auto" && session.Some?
    then lost.(phase := Working, sessionID := session.value, restartCount := m.restartCount + 1)
    else lost
  }

  /**
   A failed member keeps its identity. Without a policy it is lost; at the maximum (three
   unless configured) it is failed; under Auto it works on in the spawned session, one
   restart later; otherwise, and if the spawn failed, it is lost in its old session.
   */
  lemma RecoveryOutcome(spec: Spec, m: Member, reason: string, session: Option<string>)
    ensures var r := Recovered(spec, m, reason, session);
            var policy := if spec.recovery.None? then "None" else spec.recovery.value.reschedulePolicy;
            var max := if spec.recovery.Some? && spec.recovery.value.maxRestarts > 0
                       then spec.recovery.value.maxRestarts else 3;
            && r.name == m.name && r.origin == m.origin && r.agentRef == m.agentRef && r.lastRestartReason == reason
            && (r.phase == Failed <==> policy != "None" && m.restartCount >= max)
            && (r.phase == Working <==> policy == "Auto" && m.restartCount < max && session.Some?)
            && (r.phase == Lost <==> policy == "None"
                                     || (m.restartCount < max && (policy == "Auto" ==> session.None?)))
            && (r.phase == Working ==> session == Some(r.sessionID) && r.restartCount == m.restartCount + 1)
            && (r.phase != Working ==> r.sessionID == m.sessionID && r.restartCount == m.restartCount)
  {
  }

  function StartedMember(m: MemberSpec, session: Option<string>): (r: Member) {
    match session
    case Some(id) => Member(m.name, Static, m.agentRef, id, Working, 0, "")
    case None => Member(m.name, Static, m.agentRef, "", Failed, 0, "")
  }

  function StartedMembers(ms: seq<MemberSpec>, sessions: seq<Option<string>>): (r: seq<Member>)
    requires |sessions| == |ms|
    ensures |r| == |ms|
  {
    seq(|ms|, i requires 0 <= i < |ms| => StartedMember(ms[i], sessions[i]))
  }

  // ----- Every write to a team's status, as an edit of the copy it read -----

  datatype Edit =
    | Start(sessions: seq<Option<string>>)                   // Lifecycle.StartTeam
    | LegacyStart                                            // legacyHandlePending
    | TimeoutFail                                            // handleRunning's retry on a fresh copy
    | FinishAll                                              // CheckAllComplete, then CompleteTeam
    | LegacyTimeout                                          // legacyHandleRunning
    | LegacyFinish
    | Finalize                                               // CompleteTeam on deletion
    | MemberFailure(index: nat, reason: string, session: Option<string>)
    | MemberEvent(name: string, memberPhase: MemberPhase)    // updateMemberPhase
    | SetSummary(summary: Summary)                           // updateTaskSummary
    | LeadCompletes                                          // handleCompleteTeam
    | RestAdd(name: string, agentRef: string)                // addTeamMember
    | RestRemove(name: string)                               // removeTeamMember
    | SpawnDynamic(name: string, agentRef: string, sessionID: string)
    | Touch                                                  // metadata writes leave the status alone

  predicate AllComplete(st: Status) {
    st.tasks.Some? && st.tasks.value.total > 0 && st.tasks.value.completed == st.tasks.value.total
  }

  predicate DynamicEnabled(spec: Spec) {
    spec.dynamicMembers.Some? && spec.dynamicMembers.value.enabled
  }

  predicate RestHasRoom(spec: Spec, st: Status) {
    DynamicEnabled(spec) &&
    !(spec.dynamicMembers.value.maxTotal > 0
      && |spec.members| + |st.members| >= spec.dynamicMembers.value.maxTotal)
  }

  predicate SpawnAllowed(spec: Spec, st: Status, agentRef: string) {
    && DynamicEnabled(spec)
    && !(spec.dynamicMembers.value.maxTotal > 0 && |st.members| + 1 >= spec.dynamicMembers.value.maxTotal)
    && (spec.dynamicMembers.value.allowedAgentRefs == [] || agentRef in spec.dynamicMembers.value.allowedAgentRefs)
  }

  function SetPhase(members: seq<Member>, name: string, phase: MemberPhase): (r: seq<Member>)
    ensures |r| == |members|
  {
    var i := IndexOf(members, name);
    if i < |members| then members[i := members[i].(phase := phase)] else members
  }

  /** checkMemberHealth looks at member `index`, then HandleMemberFailure handles the first of that name. */
  function FailureEdit(spec: Spec, st: Status, index: nat, reason: string, session: Option<string>)
      : (r: Option<Status>)
  {
    if st.phase != Running || index >= |st.members| || Down(st.members[index]) || st.members[index].sessionID == ""
    then None
    else
      var i := IndexOf(st.members, st.members[index].name);
      if i >= |st.members| then None
      else Some(st.(members := st.members[i := Recovered(spec, st.members[i], reason, session)]))
  }

  /** The status an edit makes of the copy it read; None when it does not write. */
  function EditTeam(spec: Spec, e: Edit, st: Status): (r: Option<Status>) {
    match e
    case Start(sessions) =>
      if (st.phase == Unstarted || st.phase == PendingPhase) && |sessions| == |spec.members|
      then Some(Status(Running, StartedMembers(spec.members, sessions), Some(Summary(0, 0, 0, 0)))) else None
    case LegacyStart =>
      if st.phase == Unstarted || st.phase == PendingPhase
      then Some(Status(Running,
                       seq(|spec.members|, i requires 0 <= i < |spec.members| =>
                         Member(spec.members[i].name, Static, spec.members[i].agentRef, "", Joining, 0, "")),
                       Some(Summary(0, 0, 0, 0)))) else None
    case TimeoutFail => Some(st.(phase := FailedPhase))
    case FinishAll => if st.phase == Running && AllComplete(st) then Some(st.(phase := CompletedPhase)) else None
    case LegacyTimeout => if st.phase == Running then Some(st.(phase := FailedPhase)) else None
    case LegacyFinish =>
      if st.phase == Running && spec.shutdownPolicy == Some("all-complete") && AllComplete(st)
      then Some(st.(phase := CompletedPhase)) else None
    case Finalize => Some(st.(phase := CompletedPhase))
    case MemberFailure(index, reason, session) => FailureEdit(spec, st, index, reason, session)
    case MemberEvent(name, phase) =>
      if IndexOf(st.members, name) < |st.members| then Some(st.(members := SetPhase(st.members, name, phase))) else None
    case SetSummary(summary) => Some(st.(tasks := Some(summary)))
    case LeadCompletes =>
      if spec.shutdownPolicy == Some("lead-decides") then Some(st.(phase := CompletedPhase)) else None
    case RestAdd(name, agentRef) =>
      if RestHasRoom(spec, st)
      then Some(st.(members := st.members + [Member(name, Dynamic, agentRef, "", Joining, 0, "")])) else None
    case RestRemove(name) => Some(st.(members := SetPhase(st.members, name, Shutdown)))
    case SpawnDynamic(name, agentRef, sessionID) =>
      if SpawnAllowed(spec, st, agentRef)
      then Some(st.(members := st.members + [Member(name, Dynamic, agentRef, sessionID, Working, 0, "")])) else None
    case Touch => Some(st)
  }

  /** A writer may edit one copy several times before a write succeeds, as checkMemberHealth does. */
  function EditAll(spec: Spec, es: seq<Edit>, st: Status): (r: Option<Status>) {
    if es == [] then Some(st) else
    match EditAll(spec, es[..|es| - 1], st)
    case Some(v) => EditTeam(spec, es[|es| - 1], v)
    case None => None
  }

  lemma EditAllSnoc(spec: Spec, es: seq<Edit>, first: Status, e: Edit)
    requires EditAll(spec, es, first).Some?
    ensures EditAll(spec, es + [e], first) == EditTeam(spec, e, EditAll(spec, es, first).value)
  {
    assert (es + [e])[..|es|] == es;
  }

  predicate AllFailures(es: seq<Edit>) {
    forall i :: 0 <= i < |es| ==> es[i].MemberFailure?
  }

  /** What looking up a member's session finds. */
  datatype SessionLookup = NotFound | LookupFailed | Terminated | Alive

  function Reason(lookup: SessionLookup): (r: string) {
    if lookup.NotFound? then "SessionNotFound" else "SessionTerminated"
  }

  predicate NeedsRecovery(m: Member, lookup: SessionLookup) {
    (lookup.NotFound? || lookup.Terminated?) && !Down(m) && m.sessionID != ""
  }

  /** What the health check leaves of a member. */
  function Checked(spec: Spec, m: Member, lookup: SessionLookup, session: Option<string>): (r: Member) {
    if NeedsRecovery(m, lookup) then Recovered(spec, m, Reason(lookup), session) else m
  }

  /** The members after the check has passed the first n. */
  function CheckedUpTo(spec: Spec, ms: seq<Member>, lookups: seq<SessionLookup>, sessions: seq<Option<string>>, n: nat)
      : (r: seq<Member>)
    requires |lookups| == |sessions| == |ms|
  {
    seq(|ms|, i requires 0 <= i < |ms| => if i < n then Checked(spec, ms[i], lookups[i], sessions[i]) else ms[i])
  }

  /** What looking up each member's session finds. */
  function Lookups(ms: seq<Member>, find: string -> SessionLookup): (r: seq<SessionLookup>)
    ensures |r| == |ms|
  {
    seq(|ms|, i requires 0 <= i < |ms| => find(ms[i].sessionID))
  }

  /** The members after one whole check; sessions[i] is what spawning a session for member i would give. */
  function CheckPass(spec: Spec, ms: seq<Member>, find: string -> SessionLookup, sessions: seq<Option<string>>)
      : (r: seq<Member>)
    requires |sessions| == |ms|
    ensures |r| == |ms|
  {
    CheckedUpTo(spec, ms, Lookups(ms, find), sessions, |ms|)
  }

  /** After a check no member is up with a session that the check found missing or terminated. */
  lemma NoDeadSessionStays(spec: Spec, ms: seq<Member>, find: string -> SessionLookup, sessions: seq<Option<string>>,
                           i: nat)
    requires |sessions| == |ms| && i < |ms|
    ensures var r := CheckPass(spec, ms, find, sessions)[i];
            || r.phase == Lost || r.phase == Failed || r.sessionID == ""
            || (find(r.sessionID) != NotFound && find(r.sessionID) != Terminated)
            || sessions[i] == Some(r.sessionID)
  {
    RecoveryOutcome(spec, ms[i], Reason(find(ms[i].sessionID)), sessions[i]);
  }

  /** A check changes nothing about a member that is down, without a session, or whose session it did not find dead. */
  lemma HealthyMembersStay(spec: Spec, ms: seq<Member>, find: string -> SessionLookup, sessions: seq<Option<string>>,
                           i: nat)
    requires |sessions| == |ms| && i < |ms|
    requires ms[i].phase == Lost || ms[i].phase == Failed || ms[i].sessionID == ""
             || (find(ms[i].sessionID) != NotFound && find(ms[i].sessionID) != Terminated)
    ensures CheckPass(spec, ms, find, sessions)[i] == ms[i]
  {
  }

  /**
   Two checks in a row: a member that the first one handled is left alone by the second,
   provided the session spawned for it is alive by then, whatever became of its old one.
   */
  lemma HandledMembersStay(spec: Spec, ms: seq<Member>, find: string -> SessionLookup, sessions: seq<Option<string>>,
                           find': string -> SessionLookup, sessions': seq<Option<string>>, i: nat)
    requires |sessions| == |sessions'| == |ms| && i < |ms|
    requires NeedsRecovery(ms[i], find(ms[i].sessionID))
    requires sessions[i].Some? ==> find'(sessions[i].value) == Alive
    ensures var once := CheckPass(spec, ms, find, sessions);
            && once[i] != ms[i]
            && once[i].lastRestartReason == (if find(ms[i].sessionID) == NotFound then "SessionNotFound"
                                             else "SessionTerminated")
            && CheckPass(spec, once, find', sessions')[i] == once[i]
  {
    RecoveryOutcome(spec, ms[i], Reason(find(ms[i].sessionID)), sessions[i]);
    HealthyMembersStay(spec, CheckPass(spec, ms, find, sessions), find', sessions', i);
  }

  lemma CheckOneMore(spec: Spec, ms: seq<Member>, lookups: seq<SessionLookup>, sessions: seq<Option<string>>, n: nat)
    requires |lookups| == |sessions| == |ms| && n < |ms| && UniqueNames(ms)
    ensures UniqueNames(CheckedUpTo(spec, ms, lookups, sessions, n))
    ensures CheckedUpTo(spec, ms, lookups, sessions, n)[n := Checked(spec, ms[n], lookups[n], sessions[n])]
            == CheckedUpTo(spec, ms, lookups, sessions, n + 1)
  {
  }

  // ----- The fetched copy, edited in place -----

  class TeamCopy {
    const spec: Spec
    var status: Status

    constructor (spec: Spec, status: Status)
      ensures this.spec == spec && this.status == status
    {
      this.spec, this.status := spec, status;
    }

    /** Spawns the static members' sessions one after another; a failed spawn marks the member failed. */
    method StartTeam(sessions: seq<Option<string>>)
      requires |sessions| == |spec.members|
      requires status.phase == Unstarted || status.phase == PendingPhase
      modifies this
      ensures EditTeam(spec, Start(sessions), old(status)) == Some(status)
      ensures status.phase == Running && status.tasks == Some(Summary(0, 0, 0, 0))
      ensures |status.members| == |spec.members|
      ensures forall i :: 0 <= i < |spec.members| ==>
                var m := status.members[i];
                && m.name == spec.members[i].name && m.agentRef == spec.members[i].agentRef && m.origin == Static
                && m.restartCount == 0
                && (m.phase == Working <==> sessions[i].Some?) && (m.phase == Failed <==> sessions[i].None?)
                && m.sessionID == (if sessions[i].Some? then sessions[i].value else "")
    {
      status := status.(phase := Running);
      status := status.(members := []);
      for i := 0 to |spec.members|
        invariant |status.members| == i && status.phase == Running
        invariant forall j :: 0 <= j < i ==> status.members[j] == StartedMember(spec.members[j], sessions[j])
      {
        var m := Member(spec.members[i].name, Static, spec.members[i].agentRef, "", Joining, 0, "");
        if sessions[i].None? {
          m := m.(phase := Failed);
        } else {
          m := m.(sessionID := sessions[i].value);
          m := m.(phase := Working);
        }
        status := status.(members := status.members + [m]);
      }
      status := status.(tasks := Some(Summary(0, 0, 0, 0)));
      assert status.members == StartedMembers(spec.members, sessions);
    }

    /** `write` is false when the copy changed but the method returns without a status update. */
    method HandleMemberFailure(memberName: string, reason: string, session: Option<string>)
      returns (found: bool, write: bool)
      modifies this
      ensures found <==> IndexOf(old(status).members, memberName) < |old(status).members|
      ensures !found ==> status == old(status) && !write
      ensures found ==>
                var members := old(status).members;
                var i := IndexOf(members, memberName);
                status == old(status).(members := members[i := Recovered(spec, members[i], reason, session)])
      ensures found ==>
                var m := old(status).members[IndexOf(old(status).members, memberName)];
                (!write <==> && spec.recovery.Some? && spec.recovery.value.reschedulePolicy == "Auto"
                             && m.restartCount < EffectiveMax(spec) && session.None?)
    {
      for i := 0 to |status.members|
        invariant status == old(status)
        invariant forall j :: 0 <= j < i ==> status.members[j].name != memberName
      {
        var m := status.members[i];
        if m.name != memberName {
          continue;
        }
        status := status.(members := status.members[i := m.(phase := Lost, lastRestartReason := reason)]);
        if spec.recovery.None? || spec.recovery.value.reschedulePolicy == "None" {
          return true, true;
        }
        var maxRestarts := 3;
        if spec.recovery.value.maxRestarts > 0 {
          maxRestarts := spec.recovery.value.maxRestarts;
        }
        if m.restartCount >= maxRestarts {
          status := status.(members := status.members[i := status.members[i].(phase := Failed)]);
          return true, true;
        }
        if spec.recovery.value.reschedulePolicy == "Auto" {
          if session.None? {
            return true, false;
          }
          status := status.(members := status.members[i :=
            status.members[i].(sessionID := session.value, phase := Working, restartCount := m.restartCount + 1)]);
          return true, true;
        }
        return true, true;
      }
      return false, false;
    }

    /**
     The health check of one reconcile: every member that is up, has a session, and whose
     session was found missing or terminated is handled; the result is a sequence of
     failure edits of the fetched copy. lookups[i] is what looking up member i's session
     finds, sessions[i] the outcome of spawning its recovery session.
     */
    method CheckMemberHealth(lookups: seq<SessionLookup>, sessions: seq<Option<string>>)
      returns (ghost edits: seq<Edit>)
      requires status.phase == Running
      requires |lookups| == |sessions| == |status.members|
      modifies this
      ensures AllFailures(edits) && EditAll(spec, edits, old(status)) == Some(status)
      ensures |status.members| == |old(status).members|
      ensures UniqueNames(old(status).members) ==>
                status.members == CheckedUpTo(spec, old(status).members, lookups, sessions, |lookups|)
    {
      edits := [];
      assert status.members == CheckedUpTo(spec, status.members, lookups, sessions, 0);
      for i := 0 to |lookups|
        invariant status.phase == Running && |status.members| == |lookups|
        invariant AllFailures(edits) && EditAll(spec, edits, old(status)) == Some(status)
        invariant UniqueNames(old(status).members) ==>
                    status.members == CheckedUpTo(spec, old(status).members, lookups, sessions, i)
      {
        if UniqueNames(old(status).members) { CheckOneMore(spec, old(status).members, lookups, sessions, i); }
        ghost var e := MemberFailure(i, Reason(lookups[i]), sessions[i]);
        EditAllSnoc(spec, edits, old(status), e);
        var handled := CheckMember(i, lookups[i], sessions[i]);
        edits := if handled then edits + [e] else edits;
      }
    }

    method CheckMember(i: nat, lookup: SessionLookup, session: Option<string>) returns (handled: bool)
      requires status.phase == Running && i < |status.members|
      modifies this
      ensures handled <==> NeedsRecovery(old(status).members[i], lookup)
      ensures handled <==> && (lookup == NotFound || lookup == Terminated) && old(status).members[i].sessionID != ""
                           && old(status).members[i].phase != Lost && old(status).members[i].phase != Failed
      ensures handled ==> EditTeam(spec, MemberFailure(i, Reason(lookup), session), old(status)) == Some(status)
      ensures !handled ==> status == old(status)
      ensures status.phase == Running && |status.members| == |old(status).members|
      ensures UniqueNames(old(status).members) ==>
                status.members == old(status).members[i := Checked(spec, old(status).members[i], lookup, session)]
    {
      if UniqueNames(status.members) { IndexOfUnique(status.members, i); }
      var m := status.members[i];
      if m.phase == Lost || m.phase == Failed {
        return false;
      }
      if m.sessionID == "" {
        return false;
      }
      if lookup.NotFound? {
        var _, _ := HandleMemberFailure(m.name, "SessionNotFound", session);
        return true;
      }
      if lookup.LookupFailed? {
        return false;
      }
      if lookup.Terminated? {
        var _, _ := HandleMemberFailure(m.name, "SessionTerminated", session);
        return true;
      }
      handled := false;
    }

    method SpawnDynamicMember(name: string, agentRef: string, session: Option<string>) returns (ok: bool)
      modifies this
      ensures ok <==> SpawnAllowed(spec, old(status), agentRef) && session.Some?
      ensures ok <==> && spec.dynamicMembers.Some? && spec.dynamicMembers.value.enabled && session.Some?
                      && (spec.dynamicMembers.value.maxTotal > 0 ==>
                            |old(status).members| + 1 < spec.dynamicMembers.value.maxTotal)
                      && (spec.dynamicMembers.value.allowedAgentRefs != [] ==>
                            agentRef in spec.dynamicMembers.value.allowedAgentRefs)
      ensures ok ==> status == old(status).(
                members := old(status).members + [Member(name, Dynamic, agentRef, session.value, Working, 0, "")])
      ensures ok ==> EditTeam(spec, SpawnDynamic(name, agentRef, session.value), old(status)) == Some(status)
      ensures !ok ==> status == old(status)
    {
      if spec.dynamicMembers.None? || !spec.dynamicMembers.value.enabled {
        return false;
      }
      var currentCount := |status.members| + 1;
      if spec.dynamicMembers.value.maxTotal > 0 && currentCount >= spec.dynamicMembers.value.maxTotal {
        return false;
      }
      var refs := spec.dynamicMembers.value.allowedAgentRefs;
      if |refs| > 0 {
        var allowed := false;
        for i := 0 to |refs|
          invariant !allowed && forall j :: 0 <= j < i ==> refs[j] != agentRef
        {
          if refs[i] == agentRef {
            allowed := true;
            break;
          }
        }
        if !allowed {
          return false;
        }
      }
      if session.None? {
        return false;
      }
      status := status.(members := status.members + [Member(name, Dynamic, agentRef, session.value, Working, 0, "")]);
      ok := true;
    }

    method AddTeamMember(name: string, agentRef: string) returns (ok: bool)
      modifies this
      ensures ok <==> RestHasRoom(spec, old(status))
      ensures ok <==> && spec.dynamicMembers.Some? && spec.dynamicMembers.value.enabled
                      && (spec.dynamicMembers.value.maxTotal > 0 ==>
                            |spec.members| + |old(status).members| < spec.dynamicMembers.value.maxTotal)
      ensures ok ==> status == old(status).(
                members := old(status).members + [Member(name, Dynamic, agentRef, "", Joining, 0, "")])
      ensures ok ==> EditTeam(spec, RestAdd(name, agentRef), old(status)) == Some(status)
      ensures !ok ==> status == old(status)
    {
      if spec.dynamicMembers.None? || !spec.dynamicMembers.value.enabled {
        return false;
      }
      var currentCount := |spec.members| + |status.members|;
      if spec.dynamicMembers.value.maxTotal > 0 && currentCount >= spec.dynamicMembers.value.maxTotal {
        return false;
      }
      status := status.(members := status.members + [Member(name, Dynamic, agentRef, "", Joining, 0, "")]);
      ok := true;
    }

    /** The event sink's member events. */
    method UpdateMemberPhase(name: string, phase: MemberPhase) returns (write: bool)
      modifies this
      ensures write <==> EditTeam(spec, MemberEvent(name, phase), old(status)).Some?
      ensures write ==> EditTeam(spec, MemberEvent(name, phase), old(status)) == Some(status)
      ensures var i := IndexOf(old(status).members, name);
              && (write <==> i < |old(status).members|)
              && (write ==> status == old(status).(
                    members := old(status).members[i := old(status).members[i].(phase := phase)]))
      ensures !write ==> status == old(status)
    {
      for i := 0 to |status.members|
        invariant status == old(status)
        invariant forall j :: 0 <= j < i ==> status.members[j].name != name
      {
        if status.members[i].name == name {
          status := status.(members := status.members[i := status.members[i].(phase := phase)]);
          return true;
        }
      }
      write := false;
    }
  }
}
