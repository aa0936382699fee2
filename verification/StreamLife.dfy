/**
 How one stream starts, what bounds it and how it stops: who is accepted, what a rejected
 connector may do, the capacity of its send funnel, its session reports, and the end of the
 server's writer (internal/asdp/service.go, connector/connector.go).
 */
module StreamLife {
  import opened Text
  import opened Snapshots
  import opened Connections
  import opened StreamOrder

  lemma RunSplits(steps: seq<Step>)
    requires steps != []
    ensures Run(steps) == Apply(Run(steps[..|steps| - 1]), steps[|steps| - 1])
  {
  }

  // ----- Who is accepted -----

  /** The handshake asked to connect with a complete identity that its certificate authorises, and got its answer. */
  predicate Welcomed(step: Step) {
    && step.Handshake? && step.sent && step.certificateMatches && step.hello.ConnectRequest?
    && step.hello.agentName != "" && step.hello.instanceID != "" && step.hello.namespace != ""
  }

  ghost predicate WasWelcomed(steps: seq<Step>) {
    exists i :: 0 <= i < |steps| && Welcomed(steps[i])
  }

  lemma AcceptingStep(v: ServerSide, step: Step)
    ensures !v.accepted && ApplyServer(v, step).accepted ==> Welcomed(step)
    ensures v.down == [] && ApplyServer(v, step).down != [] && !v.accepted && v.writing.None? ==>
              step.Handshake? && step.sent
  {
  }

  lemma DispatchKeepsAccepted(s: State)
    ensures Dispatch(s).server.accepted == s.server.accepted
  {
  }

  /** A stream is accepted only by a complete and authorised handshake whose answer was sent. */
  lemma {:induction false} OnlyWelcomedAreAccepted(steps: seq<Step>)
    requires Run(steps).server.accepted
    ensures WasWelcomed(steps)
  {
    if steps != [] {
      var n := |steps| - 1;
      RunSplits(steps);
      AcceptingStep(Run(steps[..n]).server, steps[n]);
      DispatchKeepsAccepted(Run(steps[..n]));
      if Run(steps[..n]).server.accepted {
        OnlyWelcomedAreAccepted(steps[..n]);
        var i :| 0 <= i < n && Welcomed(steps[..n][i]);
        assert Welcomed(steps[i]);
      } else {
        assert Welcomed(steps[n]);
      }
    }
  }

  // ----- What a rejected connector does -----

  /** A connector that the server has not accepted runs nothing, and has put nothing into its funnel. */
  predicate SilentUntilAccepted(s: State) {
    && (s.client.running ==> s.server.accepted)
    && (!s.server.accepted ==> s.client.handling.None? && s.client.funnel == [] && s.client.up == []
                               && s.client.sending.None?)
  }

  lemma ClientStaysSilent(s: State, step: Step)
    requires SilentUntilAccepted(s) && DownInOrder(s.server)
    ensures SilentUntilAccepted(s.(client := ApplyClient(s.client, s.server.down, step)))
  {
  }

  lemma ServerStaysAccepted(v: ServerSide, step: Step)
    requires v.accepted && v.down != []
    ensures ApplyServer(v, step).accepted
  {
  }

  lemma {:induction false} RejectedStreamsStaySilent(steps: seq<Step>)
    ensures SilentUntilAccepted(Run(steps))
  {
    if steps != [] {
      var s, step := Run(steps[..|steps| - 1]), steps[|steps| - 1];
      RunSplits(steps);
      RejectedStreamsStaySilent(steps[..|steps| - 1]);
      RunKeepsInv(steps[..|steps| - 1]);
      if step.ServerReceive? {
        DispatchKeepsAccepted(s);
        DispatchKeepsDown(s);
      } else {
        ClientStaysSilent(s, step);
        if s.server.accepted { ServerStaysAccepted(s.server, step); }
      }
    }
  }

  // ----- The funnel -----

  /** sendCh holds at most its 64 messages, and only what went into it reaches the wire, in order. */
  predicate FunnelBounded(c: ClientSide) {
    && c.drained <= |c.funnel| <= c.drained + 64
    && |c.up| <= c.drained && c.up == c.funnel[..|c.up|]
    && (!c.runCancelled ==> c.drained == |c.up| + (if c.sending.Some? then 1 else 0))
    && (!c.runCancelled && c.sending.Some? ==> c.sending.value == c.funnel[c.drained - 1])
  }

  lemma HandleStaysBounded(c: ClientSide, down: seq<Downstream>, accepted: bool, reason: string)
    requires FunnelBounded(c)
    ensures FunnelBounded(ApplyClient(c, down, Handle(accepted, reason)))
  {
    var c' := ApplyClient(c, down, Handle(accepted, reason));
    assert c'.funnel[..|c.up|] == c.funnel[..|c.up|];
    assert !c.runCancelled && c.sending.Some? ==> c'.funnel[c.drained - 1] == c.funnel[c.drained - 1];
  }

  lemma ReportStaysBounded(c: ClientSide, down: seq<Downstream>, sessions: string)
    requires FunnelBounded(c)
    ensures FunnelBounded(ApplyClient(c, down, Report(sessions)))
  {
    var c' := ApplyClient(c, down, Report(sessions));
    assert c'.funnel[..|c.up|] == c.funnel[..|c.up|];
  }

  lemma SendStaysBounded(c: ClientSide, down: seq<Downstream>, ok: bool)
    requires FunnelBounded(c)
    ensures FunnelBounded(ApplyClient(c, down, FunnelSend(ok)))
  {
    if c.sending.Some? && ok && !c.runCancelled {
      assert c.funnel[..c.drained] == c.funnel[..c.drained - 1] + [c.sending.value];
    }
  }

  lemma ClientStaysBounded(c: ClientSide, down: seq<Downstream>, step: Step)
    requires FunnelBounded(c)
    ensures FunnelBounded(ApplyClient(c, down, step))
  {
    match step
    case Handle(accepted, reason) => HandleStaysBounded(c, down, accepted, reason);
    case Report(sessions) => ReportStaysBounded(c, down, sessions);
    case FunnelSend(ok) => SendStaysBounded(c, down, ok);
    case _ =>
  }

  lemma {:induction false} FunnelStaysBounded(steps: seq<Step>)
    ensures FunnelBounded(Run(steps).client)
  {
    if steps != [] {
      var s := Run(steps[..|steps| - 1]);
      RunSplits(steps);
      FunnelStaysBounded(steps[..|steps| - 1]);
      ClientStaysBounded(s.client, s.server.down, steps[|steps| - 1]);
      DispatchKeepsClient(s);
    }
  }

  lemma DispatchKeepsClient(s: State)
    ensures Dispatch(s).client == s.client
  {
  }

  // ----- Session reports -----

  function ReportsOf(ms: seq<Upstream>): (r: seq<string>) {
    if ms == [] then [] else
    var n := |ms| - 1;
    ReportsOf(ms[..n]) + if ms[n].SessionReport? then [ms[n].sessions] else []
  }

  /** The reports of a run that found the connector running and room in its funnel. */
  function Reported(steps: seq<Step>): (r: seq<string>) {
    if steps == [] then [] else
    var n := |steps| - 1;
    Reported(steps[..n]) + if steps[n].Report? && TakesReport(Run(steps[..n]).client) then [steps[n].sessions] else []
  }

  predicate TakesReport(c: ClientSide) {
    c.running && |c.funnel| < c.drained + 64
  }

  lemma ReportsSnoc(ms: seq<Upstream>, more: seq<Upstream>)
    requires |more| <= 1
    ensures ReportsOf(ms + more) == ReportsOf(ms) + ReportsOf(more)
  {
    if more == [] {
      assert ms + more == ms;
    } else {
      assert (ms + more)[..|ms|] == ms && more[..0] == [];
    }
  }

  lemma {:induction false} ReportsPrefix(ms: seq<Upstream>, k: nat)
    requires k <= |ms|
    ensures ReportsOf(ms[..k]) <= ReportsOf(ms)
  {
    if k < |ms| {
      var n := |ms| - 1;
      assert ms[..n][..k] == ms[..k];
      ReportsPrefix(ms[..n], k);
    } else {
      assert ms[..k] == ms;
    }
  }

  lemma RepliesAreNoReports(m: Downstream, accepted: bool, reason: string)
    ensures |Replies(m, accepted, reason)| <= 1 && ReportsOf(Replies(m, accepted, reason)) == []
  {
    if Replies(m, accepted, reason) != [] { assert Replies(m, accepted, reason)[..0] == []; }
  }

  lemma ClientReports(c: ClientSide, down: seq<Downstream>, step: Step)
    ensures var more := if step.Report? && TakesReport(c) then [step.sessions] else [];
            ReportsOf(ApplyClient(c, down, step).funnel) == ReportsOf(c.funnel) + more
  {
    match step
    case Report(sessions) =>
      ReportsSnoc(c.funnel, [SessionReport(sessions)]);
      assert [SessionReport(sessions)][..0] == [];
    case Handle(accepted, reason) =>
      if c.handling.Some? {
        RepliesAreNoReports(c.handling.value, accepted, reason);
        ReportsSnoc(c.funnel, Replies(c.handling.value, accepted, reason));
      }
    case _ =>
  }

  lemma {:induction false} FunnelHoldsReports(steps: seq<Step>)
    ensures ReportsOf(Run(steps).client.funnel) == Reported(steps)
  {
    if steps != [] {
      var s := Run(steps[..|steps| - 1]);
      RunSplits(steps);
      FunnelHoldsReports(steps[..|steps| - 1]);
      ClientReports(s.client, s.server.down, steps[|steps| - 1]);
      DispatchKeepsClient(s);
    }
  }

  /** On every run the reports on the wire are the first of those taken, in order; all of them once drained. */
  lemma ReportsArriveInOrder(steps: seq<Step>)
    ensures ReportsOf(Run(steps).client.up) <= Reported(steps)
    ensures Drained(Run(steps)) ==> ReportsOf(Run(steps).client.up) == Reported(steps)
  {
    var c := Run(steps).client;
    FunnelHoldsReports(steps);
    FunnelStaysBounded(steps);
    ReportsPrefix(c.funnel, |c.up|);
    if Drained(Run(steps)) { assert c.up == c.funnel; }
  }

  // ----- The end of the server's writer -----

  /** A writer that stopped has closed the connection; until then it has lost nothing it took. */
  predicate WriterEndsClosed(v: ServerSide) {
    && (v.writerDone ==> v.channel.cancelled)
    && (v.accepted && !v.writerDone ==> v.channel.taken == |v.down| - 1 + (if v.writing.Some? then 1 else 0))
  }

  lemma ServerEndsClosed(v: ServerSide, step: Step)
    requires v.writerDone ==> v.channel.cancelled
    ensures ApplyServer(v, step).writerDone ==> ApplyServer(v, step).channel.cancelled
  {
  }

  lemma {:induction false} WriterClosesItsConnection(steps: seq<Step>)
    ensures WriterEndsClosed(Run(steps).server)
  {
    RunKeepsInv(steps);
    if steps != [] {
      var s := Run(steps[..|steps| - 1]);
      RunSplits(steps);
      WriterClosesItsConnection(steps[..|steps| - 1]);
      ServerEndsClosed(s.server, steps[|steps| - 1]);
      DispatchEndsClosed(s);
    }
  }

  /** Both ends can stop at any moment, and stopping takes nothing back. */
  lemma EndsCanStop(steps: seq<Step>)
    ensures var s, s' := Run(steps), Run(steps + [CancelServer, CancelRun]);
            && s'.server.channel.cancelled && s'.client.runCancelled
            && s'.server.down == s.server.down && s'.client.up == s.client.up && s'.handled == s.handled
            && s'.server.channel.enqueued == s.server.channel.enqueued && s'.client.funnel == s.client.funnel
  {
    var stopped := steps + [CancelServer];
    assert stopped[..|steps|] == steps && stopped + [CancelRun] == steps + [CancelServer, CancelRun];
    assert (stopped + [CancelRun])[..|stopped|] == stopped;
  }

  /** A message refused by a full queue leaves the connection to be closed, and closing it loses nothing queued. */
  lemma RefusalCloses(steps: seq<Step>)
    requires Run(steps).server.channel.refused
    ensures var s, s' := Run(steps), Run(steps + [CloseRefused]);
            s'.server.channel.cancelled && s'.server.channel.enqueued == s.server.channel.enqueued
  {
    assert (steps + [CloseRefused])[..|steps|] == steps;
  }

  lemma DispatchEndsClosed(s: State)
    requires s.server.writerDone ==> s.server.channel.cancelled
    ensures Dispatch(s).server.writerDone ==> Dispatch(s).server.channel.cancelled
  {
  }
}
