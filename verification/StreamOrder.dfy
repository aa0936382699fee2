/**
 One bidirectional stream end to end: the server's handshake and writer goroutine
 (internal/asdp/service.go), the connector's receive loop and send funnel
 (connector/connector.go), and the acknowledgements coming back. A stream is a pair of
 reliable FIFO wires that may stop at any point.
 */
module StreamOrder {
  import opened Text
  import opened Snapshots
  import opened Connections

  datatype Upstream =
    | ConfigAck(cfgType: nat, version: string, nonce: string, accepted: bool, reason: string)
    | SessionReport(sessions: string)
    | UpHeartbeat(timestamp: int)

  /** The first upstream message, as far as the handshake looks at it. */
  datatype Hello = NotConnect | NoMeta | ConnectRequest(agentName: string, instanceID: string, namespace: string)

  function Respond(hello: Hello, certificateMatches: bool): (r: Downstream)
    ensures r.ConnectAck?
    ensures r.accepted <==> hello.ConnectRequest? && hello.agentName != "" && hello.instanceID != ""
                            && hello.namespace != "" && certificateMatches
  {
    match hello
    case NotConnect => ConnectAck(false, "first message must be ConnectRequest")
    case NoMeta => ConnectAck(false, "UpstreamMeta is required")
    case ConnectRequest(agentName, instanceID, namespace) =>
      if agentName == "" || instanceID == "" || namespace == ""
      then ConnectAck(false, "agentName, instanceId, and namespace are required")
      else if !certificateMatches then ConnectAck(false, "client certificate identity does not authorize agent")
      else ConnectAck(true, "")
  }

  /** What the connector sends back for a message, given its callback's verdict. */
  function Replies(m: Downstream, accepted: bool, reason: string): (r: seq<Upstream>) {
    match m
    case ConfigPush(snap) => [ConfigAck(snap.cfgType, snap.version, snap.nonce, accepted, reason)]
    case Heartbeat(ts) => [UpHeartbeat(ts)]
    case _ => []
  }

  /** Handling the message needs a slot in sendCh. */
  predicate NeedsReply(m: Downstream) {
    m.ConfigPush? || m.Heartbeat?
  }

  type Verdict = (nat, string, string) -> (bool, string)

  /** The connector's side of an established stream: the send funnel feeding its writer goroutine. */
  class Funnel {
    var sendCh: seq<Upstream>
    var cancelled: bool
    const onConfigPush: Option<Verdict>

    constructor (onConfigPush: Option<Verdict>)
      ensures sendCh == [] && !cancelled && this.onConfigPush == onConfigPush
    {
      sendCh, cancelled := [], false;
      this.onConfigPush := onConfigPush;
    }

    /** Blocks until there is room or the run is cancelled; `room` says which one happened. */
    method TrySend(msg: Upstream, room: bool)
      requires room ==> |sendCh| < SEND_CH_SIZE
      requires !room ==> cancelled
      modifies this`sendCh
      ensures sendCh == if room then old(sendCh) + [msg] else old(sendCh)
    {
      if room {
        sendCh := sendCh + [msg];
      }
    }

    method HandleDownstream(msg: Downstream, room: bool) returns (ghost accepted: bool, ghost reason: string)
      requires NeedsReply(msg) ==> if room then |sendCh| < SEND_CH_SIZE else cancelled
      modifies this`sendCh
      ensures sendCh == old(sendCh) + if room then Replies(msg, accepted, reason) else []
      ensures msg.ConfigPush? ==>
                (accepted, reason) == if onConfigPush.None? then (true, "")
                  else onConfigPush.value(msg.snapshot.cfgType, msg.snapshot.version, msg.snapshot.resources)
    {
      accepted, reason := true, "";
      match msg
      case ConfigPush(push) =>
        var ok, why := true, "";
        if onConfigPush.Some? {
          var verdict := onConfigPush.value(push.cfgType, push.version, push.resources);
          ok, why := verdict.0, verdict.1;
        }
        accepted, reason := ok, why;
        TrySend(ConfigAck(push.cfgType, push.version, push.nonce, ok, why), room);
      case Heartbeat(ts) =>
        TrySend(UpHeartbeat(ts), room);
      case _ =>
    }
  }

  // ----- The stream as a transition system -----

  /** The server's half: the handshake, its send queue and its writer goroutine. */
  datatype ServerSide = ServerSide(
    accepted: bool,                  // the accepting ack is on the wire
    channel: Channel<Downstream>,
    writing: Option<Downstream>,     // taken by the writer, not yet sent
    writerDone: bool,
    down: seq<Downstream>)           // everything put on the wire

  /** The connector's half: its receive loop, its sendCh and its writer goroutine. */
  datatype ClientSide = ClientSide(
    received: nat,                   // how much of the server's wire it has read
    running: bool,                   // it saw the accepting ack
    handling: Option<Downstream>,    // the message its receive loop is handling
    funnel: seq<Upstream>,           // everything accepted into sendCh
    drained: nat,                    // how much of it the writer has taken
    sending: Option<Upstream>,       // taken by the writer, not yet sent
    runCancelled: bool,              // runCtx is done: no further send can succeed
    up: seq<Upstream>)               // everything put on the wire

  datatype State = State(
    server: ServerSide,
    client: ClientSide,
    handledCount: nat,               // how much of the connector's wire the server has read
    handled: seq<Upstream>)          // the acks the server has handled

  const INIT := State(ServerSide(false, NewChannel(), None, false, []),
                      ClientSide(0, false, None, [], 0, None, false, []), 0, [])

  datatype Step =
    | Handshake(hello: Hello, certificateMatches: bool, sent: bool)
    | Offer(m: Downstream)
    | WriterTake
    | WriterSend(ok: bool)
    | CloseRefused
    | CancelServer
    | ReadAck
    | Receive
    | Handle(accepted: bool, reason: string)
    | GiveUp
    | Report(sessions: string)
    | FunnelTake
    | FunnelSend(ok: bool)
    | CancelRun
    | ServerReceive

  function ApplyServer(v: ServerSide, step: Step): (r: ServerSide) {
    match step
    case Handshake(hello, cert, sent) =>
      if v.down != [] || !sent then v else
      var ack := Respond(hello, cert);
      v.(down := [ack], accepted := ack.accepted)
    case Offer(m) => if v.accepted then v.(channel := TrySend(v.channel, m)) else v
    case CloseRefused => if v.channel.refused then v.(channel := Cancel(v.channel)) else v
    case WriterTake =>
      if !v.accepted || v.writerDone || v.writing.Some? || v.channel.taken >= |v.channel.enqueued| then v
      else v.(writing := Some(v.channel.enqueued[v.channel.taken]), channel := Take(v.channel))
    case WriterSend(ok) =>
      if v.writerDone || v.writing.None? then v
      else if ok then v.(down := v.down + [v.writing.value], writing := None)
      else v.(channel := Cancel(v.channel), writing := None, writerDone := true)
    case CancelServer => v.(channel := Cancel(v.channel))
    case _ => v
  }

  predicate HasRoom(c: ClientSide) {
    |c.funnel| - c.drained < SEND_CH_SIZE
  }

  function ApplyClient(c: ClientSide, down: seq<Downstream>, step: Step): (r: ClientSide) {
    match step
    case ReadAck =>
      if c.received != 0 || down == [] then c
      else c.(received := 1, running := down[0].ConnectAck? && down[0].accepted)
    case Receive =>
      if !c.running || c.handling.Some? || c.received >= |down| then c
      else c.(handling := Some(down[c.received]), received := c.received + 1)
    case Handle(accepted, reason) =>
      if c.handling.None? || (NeedsReply(c.handling.value) && !HasRoom(c)) then c
      else c.(handling := None, funnel := c.funnel + Replies(c.handling.value, accepted, reason))
    case GiveUp => if c.runCancelled then c.(handling := None) else c
    case Report(sessions) =>
      if c.running && HasRoom(c) then c.(funnel := c.funnel + [SessionReport(sessions)]) else c
    case FunnelTake =>
      if c.sending.Some? || c.drained >= |c.funnel| then c
      else c.(sending := Some(c.funnel[c.drained]), drained := c.drained + 1)
    case FunnelSend(ok) =>
      if c.sending.None? then c
      else if ok && !c.runCancelled then c.(up := c.up + [c.sending.value], sending := None)
      else c.(sending := None, runCancelled := true)
    case CancelRun => c.(runCancelled := true)
    case _ => c
  }

  /** The server's Recv loop: acks are handled, heartbeats are answered through the send queue. */
  function Dispatch(s: State): (r: State) {
    if !s.server.accepted || s.handledCount >= |s.client.up| then s else
    var m := s.client.up[s.handledCount];
    var s' := s.(handledCount := s.handledCount + 1);
    match m
    case ConfigAck(_, _, _, _, _) => s'.(handled := s.handled + [m])
    case UpHeartbeat(ts) => s'.(server := ApplyServer(s.server, Offer(Heartbeat(ts))))
    case SessionReport(_) => s'
  }

  function Apply(s: State, step: Step): (r: State) {
    if step.ServerReceive? then Dispatch(s)
    else s.(server := ApplyServer(s.server, step), client := ApplyClient(s.client, s.server.down, step))
  }

  function Run(steps: seq<Step>): (s: State) {
    if steps == [] then INIT else Apply(Run(steps[..|steps| - 1]), steps[|steps| - 1])
  }

  // ----- Acknowledgements and the pushes they answer -----

  datatype Tag = Tag(cfgType: nat, version: string, nonce: string)

  function PushTags(ms: seq<Downstream>): (r: seq<Tag>) {
    if ms == [] then [] else
    var n := |ms| - 1;
    PushTags(ms[..n]) + match ms[n] {
      case ConfigPush(snap) => [Tag(snap.cfgType, snap.version, snap.nonce)]
      case _ => []
    }
  }

  function AckTags(ms: seq<Upstream>): (r: seq<Tag>) {
    if ms == [] then [] else
    var n := |ms| - 1;
    AckTags(ms[..n]) + match ms[n] {
      case ConfigAck(t, v, nonce, _, _) => [Tag(t, v, nonce)]
      case _ => []
    }
  }

  lemma AckTagsSnoc(ms: seq<Upstream>, m: Upstream)
    ensures AckTags(ms + [m]) == AckTags(ms) + AckTags([m])
  {
    assert (ms + [m])[..|ms|] == ms && [m][..0] == [];
  }

  lemma {:induction false} PushTagsPrefix(ms: seq<Downstream>, k: nat)
    requires k <= |ms|
    ensures PushTags(ms[..k]) <= PushTags(ms)
  {
    if k < |ms| {
      var n := |ms| - 1;
      assert ms[..n][..k] == ms[..k];
      PushTagsPrefix(ms[..n], k);
    } else {
      assert ms[..k] == ms;
    }
  }

  lemma {:induction false} AckTagsPrefix(ms: seq<Upstream>, k: nat)
    requires k <= |ms|
    ensures AckTags(ms[..k]) <= AckTags(ms)
  {
    if k < |ms| {
      var n := |ms| - 1;
      assert ms[..n][..k] == ms[..k];
      AckTagsPrefix(ms[..n], k);
    } else {
      assert ms[..k] == ms;
    }
  }

  // ----- Everything that is answered: pushes and heartbeats -----

  /** A message that calls for an answer, or the answer to it. */
  datatype Mark = PushMark(tag: Tag) | BeatMark(timestamp: int)

  function Asked(ms: seq<Downstream>): (r: seq<Mark>) {
    if ms == [] then [] else
    var n := |ms| - 1;
    Asked(ms[..n]) + match ms[n] {
      case ConfigPush(snap) => [PushMark(Tag(snap.cfgType, snap.version, snap.nonce))]
      case Heartbeat(ts) => [BeatMark(ts)]
      case _ => []
    }
  }

  function Answers(ms: seq<Upstream>): (r: seq<Mark>) {
    if ms == [] then [] else
    var n := |ms| - 1;
    Answers(ms[..n]) + match ms[n] {
      case ConfigAck(t, v, nonce, _, _) => [PushMark(Tag(t, v, nonce))]
      case UpHeartbeat(ts) => [BeatMark(ts)]
      case SessionReport(_) => []
    }
  }

  function PushesOf(marks: seq<Mark>): (r: seq<Tag>) {
    if marks == [] then [] else
    var n := |marks| - 1;
    PushesOf(marks[..n]) + if marks[n].PushMark? then [marks[n].tag] else []
  }

  function BeatsOf(marks: seq<Mark>): (r: seq<int>) {
    if marks == [] then [] else
    var n := |marks| - 1;
    BeatsOf(marks[..n]) + if marks[n].BeatMark? then [marks[n].timestamp] else []
  }

  lemma AskedSnoc(ms: seq<Downstream>, m: Downstream)
    ensures Asked(ms + [m]) == Asked(ms) + Asked([m])
  {
    assert (ms + [m])[..|ms|] == ms && [m][..0] == [];
  }

  lemma AnswersSnoc(ms: seq<Upstream>, m: Upstream)
    ensures Answers(ms + [m]) == Answers(ms) + Answers([m])
  {
    assert (ms + [m])[..|ms|] == ms && [m][..0] == [];
  }

  lemma {:induction false} AskedPrefix(ms: seq<Downstream>, k: nat)
    requires k <= |ms|
    ensures Asked(ms[..k]) <= Asked(ms)
  {
    if k < |ms| {
      var n := |ms| - 1;
      assert ms[..n][..k] == ms[..k];
      AskedPrefix(ms[..n], k);
    } else {
      assert ms[..k] == ms;
    }
  }

  lemma {:induction false} AnswersPrefix(ms: seq<Upstream>, k: nat)
    requires k <= |ms|
    ensures Answers(ms[..k]) <= Answers(ms)
  {
    if k < |ms| {
      var n := |ms| - 1;
      assert ms[..n][..k] == ms[..k];
      AnswersPrefix(ms[..n], k);
    } else {
      assert ms[..k] == ms;
    }
  }

  lemma MarksSnoc(marks: seq<Mark>, more: seq<Mark>)
    requires |more| <= 1
    ensures PushesOf(marks + more) == PushesOf(marks) + PushesOf(more)
    ensures BeatsOf(marks + more) == BeatsOf(marks) + BeatsOf(more)
  {
    if more == [] {
      assert marks + more == marks;
    } else {
      assert (marks + more)[..|marks|] == marks && more[..0] == [];
    }
  }

  lemma {:induction false} MarksPrefix(marks: seq<Mark>, k: nat)
    requires k <= |marks|
    ensures PushesOf(marks[..k]) <= PushesOf(marks) && BeatsOf(marks[..k]) <= BeatsOf(marks)
  {
    if k < |marks| {
      var n := |marks| - 1;
      assert marks[..n][..k] == marks[..k];
      MarksPrefix(marks[..n], k);
    } else {
      assert marks[..k] == marks;
    }
  }

  lemma {:induction false} AskedPushes(ms: seq<Downstream>)
    ensures PushesOf(Asked(ms)) == PushTags(ms)
  {
    if ms != [] {
      var n := |ms| - 1;
      AskedPushes(ms[..n]);
      MarksSnoc(Asked(ms[..n]), Asked(ms)[|Asked(ms[..n])|..]);
      assert Asked(ms) == Asked(ms[..n]) + Asked(ms)[|Asked(ms[..n])|..];
    }
  }

  lemma {:induction false} AnswersAcks(ms: seq<Upstream>)
    ensures PushesOf(Answers(ms)) == AckTags(ms)
  {
    if ms != [] {
      var n := |ms| - 1;
      AnswersAcks(ms[..n]);
      MarksSnoc(Answers(ms[..n]), Answers(ms)[|Answers(ms[..n])|..]);
      assert Answers(ms) == Answers(ms[..n]) + Answers(ms)[|Answers(ms[..n])|..];
    }
  }

  /** The connector's reply carries exactly what the message asked for. */
  lemma RepliesAnswer(m: Downstream, accepted: bool, reason: string)
    ensures Answers(Replies(m, accepted, reason)) == Asked([m])
    ensures |Replies(m, accepted, reason)| <= 1
  {
    assert [m][..0] == [];
    if Replies(m, accepted, reason) != [] {
      assert Replies(m, accepted, reason)[..0] == [];
    }
  }

  // ----- The server's wire -----

  /** The accepting ack first, then a prefix of the queue's history; nothing else ever reaches the wire. */
  ghost predicate DownInOrder(v: ServerSide) {
    && v.channel.Valid()
    && if !v.accepted then
         && v.channel.enqueued == [] && v.writing.None? && |v.down| <= 1
         && (v.down != [] ==> v.down[0].ConnectAck? && !v.down[0].accepted)
       else
         && v.down != [] && v.down[0].ConnectAck? && v.down[0].accepted
         && |v.down| - 1 <= v.channel.taken
         && v.down[1..] == v.channel.enqueued[..|v.down| - 1]
         && (v.writerDone ==> v.writing.None?)
         && (!v.writerDone ==> v.channel.taken == |v.down| - 1 + (if v.writing.Some? then 1 else 0))
         && (v.writing.Some? ==> v.writing.value == v.channel.enqueued[v.channel.taken - 1])
  }

  lemma OfferKeepsDown(v: ServerSide, m: Downstream)
    requires DownInOrder(v)
    ensures DownInOrder(ApplyServer(v, Offer(m)))
  {
    if v.accepted {
      assert TrySend(v.channel, m).enqueued[..|v.down| - 1] == v.channel.enqueued[..|v.down| - 1];
    }
  }

  lemma SendKeepsDown(v: ServerSide)
    requires DownInOrder(v)
    ensures DownInOrder(ApplyServer(v, WriterSend(true)))
  {
    if !v.writerDone && v.writing.Some? {
      assert (v.down + [v.writing.value])[1..] == v.down[1..] + [v.writing.value];
      assert v.channel.enqueued[..|v.down|] == v.channel.enqueued[..|v.down| - 1] + [v.writing.value];
    }
  }

  lemma ServerKeepsDown(v: ServerSide, step: Step)
    requires DownInOrder(v)
    ensures DownInOrder(ApplyServer(v, step)) && v.down <= ApplyServer(v, step).down
  {
    match step
    case Offer(m) => OfferKeepsDown(v, m);
    case WriterSend(ok) => if ok { SendKeepsDown(v); }
    case _ =>
  }

  // ----- The connector's wire -----

  /** The received messages whose handling has finished. */
  function Finished(c: ClientSide, down: seq<Downstream>): (r: seq<Downstream>)
    requires c.received <= |down| && (c.handling.Some? ==> c.received > 0)
  {
    down[..if c.handling.Some? then c.received - 1 else c.received]
  }

  predicate Counts(c: ClientSide, down: seq<Downstream>) {
    && c.received <= |down|
    && (c.handling.Some? ==> c.received > 0 && c.handling.value == down[c.received - 1])
    && (c.received == 0 ==> !c.running)
    && c.drained <= |c.funnel|
  }

  /** While the run is live, sendCh feeds the wire in order. */
  predicate FunnelOnWire(c: ClientSide) {
    !c.runCancelled ==>
      && c.drained <= |c.funnel|
      && c.drained == |c.up| + (if c.sending.Some? then 1 else 0)
      && c.up == c.funnel[..|c.up|]
      && (c.sending.Some? ==> c.sending.value == c.funnel[c.drained - 1])
  }

  /** While the run is live, every finished push and heartbeat has been answered, once and in order. */
  predicate Answered(c: ClientSide, down: seq<Downstream>)
    requires Counts(c, down)
  {
    !c.runCancelled ==> Answers(c.funnel) == Asked(Finished(c, down))
  }

  predicate UpInOrder(c: ClientSide, down: seq<Downstream>) {
    && Counts(c, down) && FunnelOnWire(c) && Answered(c, down)
    && Answers(c.up) <= Asked(down[..c.received])
  }

  lemma DownGrows(c: ClientSide, down: seq<Downstream>, down': seq<Downstream>)
    requires UpInOrder(c, down) && down <= down'
    ensures UpInOrder(c, down')
  {
    assert down'[..c.received] == down[..c.received];
    assert Finished(c, down') == Finished(c, down);
  }

  lemma ReadAckKeepsUp(c: ClientSide, down: seq<Downstream>)
    requires UpInOrder(c, down) && (down != [] ==> down[0].ConnectAck?)
    ensures UpInOrder(ApplyClient(c, down, ReadAck), down)
  {
    if c.received == 0 && down != [] {
      assert down[..1] == [down[0]] && down[..0] == [];
      assert [down[0]][..0] == [];
    }
  }

  lemma ReceiveKeepsUp(c: ClientSide, down: seq<Downstream>)
    requires UpInOrder(c, down)
    ensures UpInOrder(ApplyClient(c, down, Receive), down)
  {
    var c' := ApplyClient(c, down, Receive);
    assert down[..c'.received][..c.received] == down[..c.received];
    AskedPrefix(down[..c'.received], c.received);
  }

  /** Handling a message answers it: the reply carries what the message asked for, and nothing else does. */
  lemma HandleAnswers(c: ClientSide, down: seq<Downstream>, accepted: bool, reason: string)
    requires Counts(c, down) && c.handling.Some? && Answers(c.funnel) == Asked(Finished(c, down))
    ensures Answers(c.funnel + Replies(c.handling.value, accepted, reason)) == Asked(down[..c.received])
  {
    var m := c.handling.value;
    var replies := Replies(m, accepted, reason);
    RepliesAnswer(m, accepted, reason);
    assert down[..c.received] == Finished(c, down) + [m];
    AskedSnoc(Finished(c, down), m);
    if replies == [] {
      assert c.funnel + replies == c.funnel;
    } else {
      assert replies == [replies[0]];
      AnswersSnoc(c.funnel, replies[0]);
    }
  }

  lemma HandleKeepsUp(c: ClientSide, down: seq<Downstream>, accepted: bool, reason: string)
    requires UpInOrder(c, down)
    ensures UpInOrder(ApplyClient(c, down, Handle(accepted, reason)), down)
  {
    var c' := ApplyClient(c, down, Handle(accepted, reason));
    if c' != c && !c.runCancelled {
      HandleAnswers(c, down, accepted, reason);
      assert c'.funnel[..|c.up|] == c.funnel[..|c.up|];
    }
  }

  lemma ReportAnswersNothing(sessions: string)
    ensures Answers([SessionReport(sessions)]) == []
  {
    assert [SessionReport(sessions)][..0] == [];
  }

  lemma ReportKeepsUp(c: ClientSide, down: seq<Downstream>, sessions: string)
    requires UpInOrder(c, down)
    ensures UpInOrder(ApplyClient(c, down, Report(sessions)), down)
  {
    if c.running && HasRoom(c) {
      var m := SessionReport(sessions);
      AnswersSnoc(c.funnel, m);
      ReportAnswersNothing(sessions);
      assert |c.up| <= |c.funnel| ==> (c.funnel + [m])[..|c.up|] == c.funnel[..|c.up|];
    }
  }

  lemma FunnelSendKeepsUp(c: ClientSide, down: seq<Downstream>)
    requires UpInOrder(c, down)
    ensures UpInOrder(ApplyClient(c, down, FunnelSend(true)), down)
  {
    if c.sending.Some? && !c.runCancelled {
      assert c.funnel[..c.drained] == c.funnel[..c.drained - 1] + [c.sending.value];
      AnswersPrefix(c.funnel, c.drained);
      AskedPrefix(down[..c.received], |Finished(c, down)|);
      assert down[..c.received][..|Finished(c, down)|] == Finished(c, down);
    }
  }

  lemma UpGrows(c: ClientSide, down: seq<Downstream>, step: Step)
    ensures c.up <= ApplyClient(c, down, step).up
  {
  }

  lemma ClientKeepsUp(c: ClientSide, down: seq<Downstream>, step: Step)
    requires UpInOrder(c, down) && (down != [] ==> down[0].ConnectAck?)
    ensures UpInOrder(ApplyClient(c, down, step), down)
  {
    match step
    case ReadAck => ReadAckKeepsUp(c, down);
    case Receive => ReceiveKeepsUp(c, down);
    case Handle(accepted, reason) => HandleKeepsUp(c, down, accepted, reason);
    case Report(sessions) => ReportKeepsUp(c, down, sessions);
    case FunnelSend(ok) => if ok { FunnelSendKeepsUp(c, down); }
    case _ =>
  }

  // ----- Both halves together -----

  predicate AcksHandled(s: State) {
    s.handledCount <= |s.client.up| && AckTags(s.handled) == AckTags(s.client.up[..s.handledCount])
  }

  ghost predicate Inv(s: State) {
    DownInOrder(s.server) && UpInOrder(s.client, s.server.down) && AcksHandled(s)
  }

  /** A message other than an ack carries no tag. */
  lemma TagOf(m: Upstream)
    ensures !m.ConfigAck? ==> AckTags([m]) == []
  {
    assert [m][..0] == [];
  }

  /** The server reads one more message, and handles it if it is an ack. */
  lemma HandleOneMore(up: seq<Upstream>, n: nat, handled: seq<Upstream>)
    requires n < |up| && AckTags(handled) == AckTags(up[..n])
    ensures AckTags(if up[n].ConfigAck? then handled + [up[n]] else handled) == AckTags(up[..n + 1])
  {
    var m := up[n];
    assert up[..n + 1] == up[..n] + [m];
    AckTagsSnoc(up[..n], m);
    if m.ConfigAck? { AckTagsSnoc(handled, m); } else { TagOf(m); }
  }

  lemma DispatchKeepsHandled(s: State)
    requires AcksHandled(s)
    ensures AcksHandled(Dispatch(s))
  {
    if s.server.accepted && s.handledCount < |s.client.up| {
      HandleOneMore(s.client.up, s.handledCount, s.handled);
    }
  }

  lemma DispatchKeepsDown(s: State)
    requires DownInOrder(s.server)
    ensures DownInOrder(Dispatch(s).server) && Dispatch(s).server.down == s.server.down
    ensures Dispatch(s).client == s.client
  {
    if s.server.accepted && s.handledCount < |s.client.up| && s.client.up[s.handledCount].UpHeartbeat? {
      OfferKeepsDown(s.server, Heartbeat(s.client.up[s.handledCount].timestamp));
    }
  }

  lemma DispatchKeepsInv(s: State)
    requires Inv(s)
    ensures Inv(Dispatch(s))
  {
    DispatchKeepsDown(s);
    DispatchKeepsHandled(s);
  }

  lemma BothKeepInv(s: State, step: Step)
    requires Inv(s)
    ensures Inv(s.(server := ApplyServer(s.server, step), client := ApplyClient(s.client, s.server.down, step)))
  {
    var server, client := ApplyServer(s.server, step), ApplyClient(s.client, s.server.down, step);
    ServerKeepsDown(s.server, step);
    ClientKeepsUp(s.client, s.server.down, step);
    UpGrows(s.client, s.server.down, step);
    DownGrows(client, s.server.down, server.down);
    assert client.up[..s.handledCount] == s.client.up[..s.handledCount];
  }

  lemma StepKeepsInv(s: State, step: Step)
    requires Inv(s)
    ensures Inv(Apply(s, step))
  {
    if step.ServerReceive? { DispatchKeepsInv(s); } else { BothKeepInv(s, step); }
  }

  lemma {:induction false} RunKeepsInv(steps: seq<Step>)
    ensures Inv(Run(steps))
  {
    if steps != [] {
      RunKeepsInv(steps[..|steps| - 1]);
      StepKeepsInv(Run(steps[..|steps| - 1]), steps[|steps| - 1]);
    }
  }

  // ----- Main results -----

  /** On an accepted stream the accepting ack comes first, and then the queue's messages in order. */
  lemma DeliveryOrder(steps: seq<Step>)
    ensures var s := Run(steps).server;
            && (s.accepted ==> s.down != [] && s.down[0].ConnectAck? && s.down[0].accepted
                               && s.down[1..] <= s.channel.enqueued)
            && (!s.accepted ==> s.channel.enqueued == [] && |s.down| <= 1
                                && (s.down != [] ==> s.down[0].ConnectAck? && !s.down[0].accepted))
            && s.channel.taken <= |s.channel.enqueued| <= s.channel.taken + 64
            && (!s.channel.Doomed() ==> s.channel.offered == s.channel.enqueued)
    ensures Run(steps).client.received <= |Run(steps).server.down|
  {
    RunKeepsInv(steps);
  }

  /** The handshake ack carries no push. */
  lemma {:induction false} PushTagsTail(ms: seq<Downstream>)
    requires ms != [] && ms[0].ConnectAck?
    ensures PushTags(ms) == PushTags(ms[1..])
  {
    var n := |ms| - 1;
    if n > 0 {
      PushTagsTail(ms[..n]);
      assert ms[..n][1..] == ms[1..][..n - 1];
    } else {
      assert ms[..0] == [];
    }
  }

  lemma WireCarriesOnlyEnqueued(v: ServerSide)
    requires DownInOrder(v)
    ensures PushTags(v.down) <= PushTags(v.channel.enqueued)
  {
    if v.accepted {
      PushTagsTail(v.down);
      PushTagsPrefix(v.channel.enqueued, |v.down| - 1);
    } else if v.down != [] {
      PushTagsTail(v.down);
    }
  }

  /** Answers in the order of what they answer, and so acks in the order of their pushes. */
  lemma AcksArePushes(up: seq<Upstream>, ms: seq<Downstream>)
    requires Answers(up) <= Asked(ms)
    ensures AckTags(up) <= PushTags(ms) && BeatsOf(Answers(up)) <= BeatsOf(Asked(ms))
  {
    assert Asked(ms)[..|Answers(up)|] == Answers(up);
    MarksPrefix(Asked(ms), |Answers(up)|);
    AskedPushes(ms);
    AnswersAcks(up);
  }

  /**
   The acks the server handles answer the pushes the connector received, in order, each
   with its push's own type, version and nonce; and those pushes were enqueued in that order.
   */
  lemma AcksFollowPushes(steps: seq<Step>)
    ensures var s := Run(steps);
            && s.client.received <= |s.server.down|
            && (forall i :: 0 <= i < |s.handled| ==> s.handled[i].ConfigAck?)
            && AckTags(s.handled) <= PushTags(s.server.down[..s.client.received])
            && PushTags(s.server.down[..s.client.received]) <= PushTags(s.server.channel.enqueued)
  {
    var s := Run(steps);
    RunKeepsInv(steps);
    OnlyAcksHandled(steps);
    AcksArePushes(s.client.up, s.server.down[..s.client.received]);
    AckTagsPrefix(s.client.up, s.handledCount);
    PushTagsPrefix(s.server.down, s.client.received);
    WireCarriesOnlyEnqueued(s.server);
  }

  predicate Drained(s: State) {
    && s.server.accepted && !s.server.writerDone && s.server.writing.None?
    && s.server.channel.taken == |s.server.channel.enqueued|
    && s.client.received == |s.server.down|
    && !s.client.runCancelled && s.client.handling.None? && s.client.sending.None?
    && s.client.drained == |s.client.funnel| && s.handledCount == |s.client.up|
  }

  /** With both ends alive and nothing in transit, every enqueued message was delivered and every push acked. */
  lemma DrainedMeansAllAcked(steps: seq<Step>)
    requires Drained(Run(steps))
    ensures var s := Run(steps);
            && s.server.down != [] && s.server.down[1..] == s.server.channel.enqueued
            && AckTags(s.handled) == PushTags(s.server.channel.enqueued)
  {
    var s := Run(steps);
    RunKeepsInv(steps);
    PushTagsTail(s.server.down);
    assert s.server.down[..s.client.received] == s.server.down;
    assert s.client.up == s.client.funnel && s.client.up[..s.handledCount] == s.client.up;
    AskedPushes(s.server.down);
    AnswersAcks(s.client.up);
  }

  // ----- Heartbeats -----

  /** The handshake ack asks for nothing. */
  lemma {:induction false} AskedTail(ms: seq<Downstream>)
    requires ms != [] && ms[0].ConnectAck?
    ensures Asked(ms) == Asked(ms[1..])
  {
    var n := |ms| - 1;
    if n > 0 {
      AskedTail(ms[..n]);
      assert ms[..n][1..] == ms[1..][..n - 1];
    } else {
      assert ms[..0] == [];
    }
  }

  lemma OfferedBeats(offered: seq<Downstream>, m: Downstream)
    ensures var more := if m.Heartbeat? then [m.timestamp] else [];
            BeatsOf(Asked(offered + [m])) == BeatsOf(Asked(offered)) + more
  {
    AskedSnoc(offered, m);
    assert [m][..0] == [];
    MarksSnoc(Asked(offered), Asked([m]));
    assert m.Heartbeat? ==> [BeatMark(m.timestamp)][..0] == [];
    assert m.ConfigPush? ==> Asked([m])[..0] == [];
  }

  lemma ReadBeats(up: seq<Upstream>, n: nat)
    requires n < |up|
    ensures var more := if up[n].UpHeartbeat? then [up[n].timestamp] else [];
            BeatsOf(Answers(up[..n + 1])) == BeatsOf(Answers(up[..n])) + more
  {
    assert up[..n + 1] == up[..n] + [up[n]];
    AnswersSnoc(up[..n], up[n]);
    assert [up[n]][..0] == [];
    MarksSnoc(Answers(up[..n]), Answers([up[n]]));
    assert up[n].UpHeartbeat? ==> [BeatMark(up[n].timestamp)][..0] == [];
    assert up[n].ConfigAck? ==> Answers([up[n]])[..0] == [];
  }

  /** A message offered to the queue, accepted or not, keeps what was offered before. */
  lemma ServerKeepsOffered(v: ServerSide, step: Step)
    ensures var v' := ApplyServer(v, step);
            v'.channel.offered == v.channel.offered
            || (step.Offer? && v'.channel.offered == v.channel.offered + [step.m])
  {
  }

  /** Every heartbeat among the first n messages has been offered back, with its own timestamp. */
  predicate BeatsCovered(up: seq<Upstream>, n: nat, offered: seq<Downstream>) {
    n <= |up| && multiset(BeatsOf(Answers(up[..n]))) <= multiset(BeatsOf(Asked(offered)))
  }

  /** One more message is read; a heartbeat is offered back. */
  lemma BeatStaysCovered(up: seq<Upstream>, n: nat, offered: seq<Downstream>)
    requires n < |up| && BeatsCovered(up, n, offered)
    ensures var m := up[n];
            BeatsCovered(up, n + 1, if m.UpHeartbeat? then offered + [Heartbeat(m.timestamp)] else offered)
  {
    ReadBeats(up, n);
    if up[n].UpHeartbeat? { OfferedBeats(offered, Heartbeat(up[n].timestamp)); }
  }

  lemma MoreKeepsCovered(up: seq<Upstream>, up': seq<Upstream>, n: nat, offered: seq<Downstream>, m: Downstream)
    requires BeatsCovered(up, n, offered) && up <= up'
    ensures BeatsCovered(up', n, offered) && BeatsCovered(up', n, offered + [m])
  {
    assert up'[..n] == up[..n];
    OfferedBeats(offered, m);
  }

  lemma DispatchOffers(s: State)
    requires s.server.accepted && s.handledCount < |s.client.up|
    ensures var m := s.client.up[s.handledCount];
            Dispatch(s).server.channel.offered
            == if m.UpHeartbeat? then s.server.channel.offered + [Heartbeat(m.timestamp)] else s.server.channel.offered
    ensures Dispatch(s).client == s.client && Dispatch(s).handledCount == s.handledCount + 1
  {
  }

  lemma {:induction false} RunCoversBeats(steps: seq<Step>)
    ensures var s := Run(steps); BeatsCovered(s.client.up, s.handledCount, s.server.channel.offered)
  {
    if steps != [] {
      var s, step := Run(steps[..|steps| - 1]), steps[|steps| - 1];
      RunCoversBeats(steps[..|steps| - 1]);
      if step.ServerReceive? {
        if s.server.accepted && s.handledCount < |s.client.up| {
          DispatchOffers(s);
          BeatStaysCovered(s.client.up, s.handledCount, s.server.channel.offered);
        }
      } else {
        UpGrows(s.client, s.server.down, step);
        ServerKeepsOffered(s.server, step);
        MoreKeepsCovered(s.client.up, Run(steps).client.up, s.handledCount, s.server.channel.offered,
                         if step.Offer? then step.m else Heartbeat(0));
      }
    }
  }

  /**
   The connector echoes the heartbeats it receives, in order and with their timestamps, and
   the server answers every heartbeat it reads.
   */
  lemma HeartbeatsAreEchoed(steps: seq<Step>)
    ensures var s := Run(steps);
            && s.client.received <= |s.server.down| && s.handledCount <= |s.client.up|
            && BeatsOf(Answers(s.client.up)) <= BeatsOf(Asked(s.server.down[..s.client.received]))
            && multiset(BeatsOf(Answers(s.client.up[..s.handledCount])))
               <= multiset(BeatsOf(Asked(s.server.channel.offered)))
  {
    RunKeepsInv(steps);
    RunCoversBeats(steps);
    AcksArePushes(Run(steps).client.up, Run(steps).server.down[..Run(steps).client.received]);
  }

  /** On a drained stream everything enqueued that calls for an answer was answered, in one common order. */
  lemma DrainedMeansAllAnswered(steps: seq<Step>)
    requires Drained(Run(steps))
    ensures Answers(Run(steps).client.up) == Asked(Run(steps).server.channel.enqueued)
  {
    var s := Run(steps);
    RunKeepsInv(steps);
    DrainedMeansAllAcked(steps);
    AskedTail(s.server.down);
    assert s.server.down[..s.client.received] == s.server.down;
    assert s.client.up == s.client.funnel;
  }

  lemma {:induction false} OnlyAcksHandled(steps: seq<Step>)
    ensures forall i :: 0 <= i < |Run(steps).handled| ==> Run(steps).handled[i].ConfigAck?
  {
    if steps != [] {
      OnlyAcksHandled(steps[..|steps| - 1]);
    }
  }

  lemma {:induction false} AckTagsOfAcks(ms: seq<Upstream>)
    requires forall i :: 0 <= i < |ms| ==> ms[i].ConfigAck?
    ensures |AckTags(ms)| == |ms|
    ensures forall i :: 0 <= i < |ms| ==> AckTags(ms)[i] == Tag(ms[i].cfgType, ms[i].version, ms[i].nonce)
  {
    if ms != [] {
      AckTagsOfAcks(ms[..|ms| - 1]);
    }
  }

  // ----- A complete exchange -----

  lemma RunSnoc(steps: seq<Step>, step: Step) returns (longer: seq<Step>)
    ensures longer == steps + [step] && Run(longer) == Apply(Run(steps), step)
  {
    longer := steps + [step];
    assert longer[..|steps|] == steps;
  }

  /** One push has been delivered over an accepted stream. */
  function PushDelivered(snap: Snapshot): (s: State) {
    INIT.(server := ServerSide(true, Channel([ConfigPush(snap)], 1, [ConfigPush(snap)], false, false), None, false,
                               [ConnectAck(true, ""), ConfigPush(snap)]))
  }

  lemma DeliverPush(agent: string, instance: string, namespace: string, snap: Snapshot) returns (steps: seq<Step>)
    requires agent != "" && instance != "" && namespace != ""
    ensures Run(steps) == PushDelivered(snap)
  {
    steps := RunSnoc([], Handshake(ConnectRequest(agent, instance, namespace), true, true));
    steps := RunSnoc(steps, Offer(ConfigPush(snap)));
    steps := RunSnoc(steps, WriterTake);
    steps := RunSnoc(steps, WriterSend(true));
  }

  /** The connector has handled it and put its acknowledgement on the wire. */
  function PushAnswered(snap: Snapshot, ack: Upstream): (s: State) {
    PushDelivered(snap).(client := ClientSide(2, true, None, [ack], 1, None, false, [ack]))
  }

  lemma AnswerPush(steps: seq<Step>, snap: Snapshot, verdict: bool, reason: string) returns (longer: seq<Step>)
    requires Run(steps) == PushDelivered(snap)
    ensures Run(longer) == PushAnswered(snap, ConfigAck(snap.cfgType, snap.version, snap.nonce, verdict, reason))
  {
    var ack := ConfigAck(snap.cfgType, snap.version, snap.nonce, verdict, reason);
    longer := RunSnoc(steps, ReadAck);
    longer := RunSnoc(longer, Receive);
    longer := RunSnoc(longer, Handle(verdict, reason));
    assert Run(longer).client == ClientSide(2, true, None, [ack], 0, None, false, []);
    longer := RunSnoc(longer, FunnelTake);
    longer := RunSnoc(longer, FunnelSend(true));
  }

  /** An accepted handshake, one push, and its verdict travelling back. */
  lemma OnePushIsAcked(agent: string, instance: string, namespace: string, snap: Snapshot,
                       verdict: bool, reason: string)
    returns (steps: seq<Step>)
    requires agent != "" && instance != "" && namespace != ""
    ensures Drained(Run(steps))
    ensures Run(steps).server.channel.enqueued == [ConfigPush(snap)]
    ensures Run(steps).handled == [ConfigAck(snap.cfgType, snap.version, snap.nonce, verdict, reason)]
  {
    steps := DeliverPush(agent, instance, namespace, snap);
    steps := AnswerPush(steps, snap, verdict, reason);
    steps := RunSnoc(steps, ServerReceive);
  }
}
