/**
 Per-connection send queues and the connection registry of internal/asdp/server.go,
 the handshake of connect_handler.go and the sequential form of distributor.go.
 */
module Connections {
  import opened Text
  import opened Snapshots

  const SEND_CH_SIZE: nat := 64

  datatype Downstream =
    | ConnectAck(accepted: bool, reason: string)
    | ConfigPush(snapshot: Snapshot)
    | SessionCmd(sessionID: string, command: string)
    | TeamEvent(teamID: string, eventType: string, memberName: string, payload: string)
    | Heartbeat(timestamp: int)

  // ----- Send queues -----

  /**
   A send queue with its history: every message accepted into the buffer, how many of
   them the writer has taken, and every message a sender offered. `refused` says that a
   sender has met a full buffer and has yet to close the connection.
   */
  datatype Channel<M> = Channel(enqueued: seq<M>, taken: nat, offered: seq<M>, cancelled: bool, refused: bool) {
    ghost predicate Valid() {
      && taken <= |enqueued|
      && |enqueued| - taken <= SEND_CH_SIZE
      && (!Doomed() ==> offered == enqueued)
    }

    predicate Full() {
      |enqueued| - taken >= SEND_CH_SIZE
    }

    /** Cancelled, or about to be. */
    predicate Doomed() {
      cancelled || refused
    }
  }

  function NewChannel<M>(): (c: Channel<M>) {
    Channel([], 0, [], false, false)
  }

  /** The select of a send: the message enters the buffer, or a full buffer refuses it. */
  function TrySend<M>(c: Channel<M>, m: M): (r: Channel<M>)
    ensures c.Valid() ==> r.Valid()
    ensures c.enqueued <= r.enqueued && r.cancelled == c.cancelled && (c.Doomed() ==> r.Doomed())
    ensures m in r.enqueued || r.Doomed()
  {
    if c.Full() then c.(refused := true, offered := c.offered + [m])
    else c.(enqueued := c.enqueued + [m], offered := c.offered + [m])
  }

  function Cancel<M>(c: Channel<M>): (r: Channel<M>)
    ensures c.Valid() ==> r.Valid()
    ensures r.enqueued == c.enqueued && r.cancelled
  {
    c.(cancelled := true, refused := false)
  }

  /** A whole send: a full buffer tears the connection down instead of dropping silently. */
  function Enqueue<M>(c: Channel<M>, m: M): (r: Channel<M>)
    ensures c.Valid() ==> r.Valid()
    ensures c.enqueued <= r.enqueued && (c.cancelled ==> r.cancelled)
    ensures m in r.enqueued || r.cancelled
  {
    if c.Full() then Cancel(TrySend(c, m)) else TrySend(c, m)
  }

  function EnqueueAll<M>(c: Channel<M>, ms: seq<M>): (r: Channel<M>) {
    if ms == [] then c else Enqueue(EnqueueAll(c, ms[..|ms| - 1]), ms[|ms| - 1])
  }

  function Room<M>(c: Channel<M>): (n: nat) {
    if c.Full() then 0 else SEND_CH_SIZE - (|c.enqueued| - c.taken)
  }

  /** r holds c's messages and then those of ms that fit, and is cancelled if not all of them did. */
  predicate Filled<M(==)>(c: Channel<M>, ms: seq<M>, r: Channel<M>) {
    && r.enqueued == c.enqueued + ms[..if |ms| <= Room(c) then |ms| else Room(c)]
    && r.taken == c.taken
    && r.offered == c.offered + ms
    && (r.cancelled <==> c.cancelled || |ms| > Room(c))
  }

  lemma FilledWithOneMore<M>(c: Channel<M>, ms: seq<M>, r: Channel<M>, m: M)
    requires c.taken <= |c.enqueued| && Filled(c, ms, r)
    ensures Filled(c, ms + [m], Enqueue(r, m))
  {
    var n := |ms|;
    if n < Room(c) {
      assert ms[..n] == ms && (ms + [m])[..n + 1] == ms + [m];
      assert !r.Full();
    } else {
      assert (ms + [m])[..Room(c)] == ms[..Room(c)];
      assert r.Full();
    }
  }

  /**
   With nobody receiving, a burst of messages is queued in order as far as there is room,
   and the connection is cancelled if and only if it did not all fit.
   */
  lemma {:induction false} EnqueueAllFills<M>(c: Channel<M>, ms: seq<M>)
    requires c.taken <= |c.enqueued|
    ensures Filled(c, ms, EnqueueAll(c, ms))
  {
    if ms != [] {
      var n := |ms| - 1;
      EnqueueAllFills(c, ms[..n]);
      FilledWithOneMore(c, ms[..n], EnqueueAll(c, ms[..n]), ms[n]);
      assert ms[..n] + [ms[n]] == ms;
    }
  }

  /** The writer goroutine takes the oldest buffered message, if any. */
  function Take<M>(c: Channel<M>): (r: Channel<M>)
    ensures c.Valid() ==> r.Valid()
    ensures r.enqueued == c.enqueued && r.cancelled == c.cancelled && r.refused == c.refused
  {
    if c.taken < |c.enqueued| then c.(taken := c.taken + 1) else c
  }

  class Connection {
    const agentName: string
    const instanceID: string
    const namespace: string

    var sendCh: seq<Downstream>
    var cancelled: bool

    ghost var enqueued: seq<Downstream>
    ghost var offered: seq<Downstream>

    ghost predicate Valid()
      reads this
    {
      && |sendCh| <= |enqueued|
      && enqueued[|enqueued| - |sendCh|..] == sendCh
      && Model().Valid()
    }

    ghost function Model(): Channel<Downstream>
      reads this
    {
      Channel(enqueued, if |sendCh| <= |enqueued| then |enqueued| - |sendCh| else 0, offered, cancelled, false)
    }

    constructor (namespace: string, agentName: string, instanceID: string)
      ensures Valid() && Model() == NewChannel()
      ensures this.namespace == namespace && this.agentName == agentName && this.instanceID == instanceID
    {
      this.namespace, this.agentName, this.instanceID := namespace, agentName, instanceID;
      sendCh, cancelled := [], false;
      enqueued, offered := [], [];
    }

    method Send(msg: Downstream) returns (err: bool)
      requires Valid()
      modifies this
      ensures Valid()
      ensures Model() == Enqueue(old(Model()), msg)
      ensures err == (|old(sendCh)| >= 64)
      ensures sendCh == (if err then old(sendCh) else old(sendCh) + [msg]) && cancelled == (old(cancelled) || err)
    {
      offered := offered + [msg];
      if |sendCh| < SEND_CH_SIZE {
        sendCh := sendCh + [msg];
        enqueued := enqueued + [msg];
        err := false;
      } else {
        Close();
        err := true;
      }
    }

    method Close()
      modifies this`cancelled
      ensures cancelled
    {
      cancelled := true;
    }

    method Receive() returns (msg: Option<Downstream>)
      requires Valid()
      modifies this`sendCh
      ensures Valid()
      ensures Model() == Take(old(Model()))
      ensures msg == if old(sendCh) == [] then None else Some(old(sendCh)[0])
      ensures msg.Some? ==> msg.value == enqueued[old(Model()).taken]
      ensures sendCh == if old(sendCh) == [] then [] else old(sendCh)[1..]
    {
      if sendCh == [] {
        return None;
      }
      msg := Some(sendCh[0]);
      sendCh := sendCh[1..];
    }
  }

  // ----- The registry -----

  /** Registered connections by instance key, with the connection gauge. */
  datatype Registry<C(==)> = Registry(entries: map<string, C>, gauge: int)

  function Register<C>(r: Registry<C>, key: string, c: C): (r': Registry<C>) {
    Registry(r.entries[key := c], r.gauge + 1)
  }

  /** Removes an entry only while it still holds the caller's own connection. */
  function Unregister<C(==)>(r: Registry<C>, key: string, c: C): (r': Registry<C>) {
    if key in r.entries && r.entries[key] == c then Registry(r.entries - {key}, r.gauge - 1) else r
  }

  lemma UnregisterIsExact<C>(r: Registry<C>, key: string, c: C)
    ensures var r' := Unregister(r, key, c);
            && (forall k :: k in r'.entries <==> k in r.entries && (k == key ==> r.entries[k] != c))
            && (forall k :: k in r'.entries ==> r'.entries[k] == r.entries[k])
            && r.gauge - |r.entries| == r'.gauge - |r'.entries|
  {
    if key in r.entries && r.entries[key] == c {
      assert (r.entries - {key}).Keys == r.entries.Keys - {key};
    }
  }

  class Server {
    var connections: map<string, Connection>
    var gauge: int

    ghost function Model(): Registry<Connection>
      reads this
    {
      Registry(connections, gauge)
    }

    /** Every entry is filed under its own connection's key. */
    ghost predicate Valid()
      reads this
    {
      forall k :: k in connections ==>
        k == SlashKey(connections[k].namespace, connections[k].instanceID)
    }

    ghost predicate QueuesValid()
      reads this, connections.Values
    {
      forall k :: k in connections ==> connections[k].Valid()
    }

    constructor ()
      ensures Valid() && Model() == Registry(map[], 0)
    {
      connections, gauge := map[], 0;
    }

    method RegisterConnection(conn: Connection)
      requires Valid()
      modifies this
      ensures Valid()
      ensures Model() == Register(old(Model()), SlashKey(conn.namespace, conn.instanceID), conn)
      ensures connections == old(connections)[SlashKey(conn.namespace, conn.instanceID) := conn]
      ensures gauge == old(gauge) + 1
    {
      connections := connections[SlashKey(conn.namespace, conn.instanceID) := conn];
      gauge := gauge + 1;
    }

    method UnregisterConnectionIfMatch(namespace: string, instanceID: string, conn: Connection)
      returns (removed: bool)
      requires Valid()
      modifies this, conn`cancelled
      ensures Valid()
      ensures Model() == Unregister(old(Model()), SlashKey(namespace, instanceID), conn)
      ensures removed == (SlashKey(namespace, instanceID) in old(connections)
                          && old(connections)[SlashKey(namespace, instanceID)] == conn)
      ensures conn.cancelled == (old(conn.cancelled) || removed)
      ensures connections == old(connections) - (if removed then {SlashKey(namespace, instanceID)} else {})
      ensures gauge == old(gauge) - (if removed then 1 else 0)
    {
      var key := SlashKey(namespace, instanceID);
      if key !in connections || connections[key] != conn {
        return false;
      }
      connections[key].Close();
      connections := connections - {key};
      gauge := gauge - 1;
      removed := true;
    }

    method GetConnection(namespace: string, instanceID: string) returns (conn: Connection?)
      ensures conn == null <==> SlashKey(namespace, instanceID) !in connections
      ensures conn != null ==> conn == connections[SlashKey(namespace, instanceID)]
      ensures conn != null && Valid() && SlashFree(namespace) && SlashFree(conn.namespace) ==>
                conn.namespace == namespace && conn.instanceID == instanceID
    {
      var key := SlashKey(namespace, instanceID);
      conn := if key in connections then connections[key] else null;
      if conn != null && SlashFree(namespace) && SlashFree(conn.namespace)
         && key == SlashKey(conn.namespace, conn.instanceID) {
        SlashKeyInjective(namespace, instanceID, conn.namespace, conn.instanceID);
      }
    }

    ghost predicate Hosts(k: string, namespace: string, agentName: string)
      reads this
    {
      k in connections && connections[k].namespace == namespace && connections[k].agentName == agentName
    }

    method GetConnectionsForAgent(namespace: string, agentName: string) returns (conns: seq<Connection>)
      requires Valid()
      ensures forall k :: Hosts(k, namespace, agentName) ==> connections[k] in conns
      ensures forall i :: 0 <= i < |conns| ==>
                Hosts(SlashKey(conns[i].namespace, conns[i].instanceID), namespace, agentName)
                && connections[SlashKey(conns[i].namespace, conns[i].instanceID)] == conns[i]
      ensures forall i, j :: 0 <= i < j < |conns| ==> conns[i] != conns[j]
    {
      conns := [];
      var rest := connections.Keys;
      while rest != {}
        invariant rest <= connections.Keys
        invariant forall k :: k !in rest && Hosts(k, namespace, agentName) ==> connections[k] in conns
        invariant forall i :: 0 <= i < |conns| ==>
                    var k := SlashKey(conns[i].namespace, conns[i].instanceID);
                    k !in rest && Hosts(k, namespace, agentName) && connections[k] == conns[i]
        invariant forall i, j :: 0 <= i < j < |conns| ==> conns[i] != conns[j]
      {
        var k :| k in rest;
        rest := rest - {k};
        var conn := connections[k];
        if conn.namespace == namespace && conn.agentName == agentName {
          conns := conns + [conn];
        }
      }
    }

    /** Closes and forgets every connection; the gauge is left as it is. */
    method Stop()
      modifies this, connections.Values
      ensures Model() == Registry(map[], old(gauge))
      ensures forall k :: k in old(connections) ==> old(connections)[k].cancelled
    {
      var rest := connections.Keys;
      while rest != {}
        modifies connections.Values
        invariant rest <= connections.Keys
        invariant forall k :: k in connections && k !in rest ==> connections[k].cancelled
      {
        var k :| k in rest;
        connections[k].Close();
        rest := rest - {k};
      }
      connections := map[];
    }

    /** Validates a handshake and evicts a stale connection of the same instance. */
    method HandleConnect(namespace: string, agentName: string, instanceID: string, certificateMatches: bool)
      returns (accepted: bool)
      requires Valid()
      modifies this, connections.Values
      ensures Valid()
      ensures accepted == (agentName != "" && instanceID != "" && namespace != "" && certificateMatches)
      ensures accepted ==>
                var key := SlashKey(namespace, instanceID);
                && connections == old(connections) - {key}
                && gauge == old(gauge) - (if key in old(connections) then 1 else 0)
                && (key in old(connections) ==>
                      old(connections)[key].Model() == Cancel(old(connections[key].Model())))
      ensures !accepted ==> Model() == old(Model())
      ensures forall k :: k in old(connections) && (accepted ==> k != SlashKey(namespace, instanceID)) ==>
                old(connections)[k].Model() == old(connections[k].Model())
    {
      if agentName == "" || instanceID == "" || namespace == "" {
        return false;
      }
      if !certificateMatches {
        return false;
      }
      var existing := GetConnection(namespace, instanceID);
      if existing != null {
        var _ := UnregisterConnectionIfMatch(namespace, instanceID, existing);
      }
      accepted := true;
    }
  }

  // ----- Distribution, one operation at a time -----

  method SendToEach(conns: seq<Connection>, down: Downstream)
    requires forall i :: 0 <= i < |conns| ==> conns[i].Valid()
    requires forall i, j :: 0 <= i < j < |conns| ==> conns[i] != conns[j]
    modifies conns
    ensures forall i :: 0 <= i < |conns| ==>
              conns[i].Valid() && conns[i].Model() == Enqueue(old(conns[i].Model()), down)
  {
    for i := 0 to |conns|
      invariant forall j :: 0 <= j < i ==>
                  conns[j].Valid() && conns[j].Model() == Enqueue(old(conns[j].Model()), down)
      invariant forall j :: i <= j < |conns| ==> conns[j].Valid() && conns[j].Model() == old(conns[j].Model())
    {
      var _ := conns[i].Send(down);
    }
  }

  method SendSnapshots(conn: Connection, all: seq<Snapshot>) returns (ghost sent: seq<Downstream>)
    requires conn.Valid()
    modifies conn
    ensures conn.Valid() && conn.Model() == EnqueueAll(old(conn.Model()), sent)
    ensures |sent| == |all| && forall j :: 0 <= j < |all| ==> sent[j] == ConfigPush(all[j])
  {
    sent := [];
    for i := 0 to |all|
      invariant conn.Valid() && conn.Model() == EnqueueAll(old(conn.Model()), sent)
      invariant |sent| == i && forall j :: 0 <= j < i ==> sent[j] == ConfigPush(all[j])
    {
      var _ := conn.Send(ConfigPush(all[i]));
      assert (sent + [ConfigPush(all[i])])[..|sent|] == sent;
      sent := sent + [ConfigPush(all[i])];
    }
  }

  /** What became of a team event: no connection, queued for one, or refused by its full buffer. */
  datatype Delivery = Absent | Queued | Refused

  class Distributor {
    const server: Server
    const snapshots: SnapshotStore

    constructor (server: Server, snapshots: SnapshotStore)
      ensures this.server == server && this.snapshots == snapshots
    {
      this.server, this.snapshots := server, snapshots;
    }

    /** PushConfig's loop over the agent's connections. */
    method Broadcast(namespace: string, agentName: string, msg: Downstream)
      requires server.Valid() && server.QueuesValid()
      modifies server.connections.Values
      ensures server.QueuesValid()
      ensures forall k :: k in server.connections ==>
                server.connections[k].Model()
                == if server.Hosts(k, namespace, agentName)
                   then Enqueue(old(server.connections[k].Model()), msg)
                   else old(server.connections[k].Model())
    {
      var conns := server.GetConnectionsForAgent(namespace, agentName);
      SendToEach(conns, msg);
    }

    /** The pushed config can be encoded and differs from the stored one. */
    ghost predicate Changes(s: Store, namespace: string, agentName: string, cfgType: nat, marshalled: Option<string>) {
      && marshalled.Some?
      && !Unchanged(s, snapshots.hash, SlashKey(namespace, agentName), cfgType, marshalled.value)
    }

    /** A changed config is offered to exactly the agent's registered connections. */
    method PushConfig(namespace: string, agentName: string, cfgType: nat, marshalled: Option<string>)
      returns (err: bool)
      requires server.Valid() && server.QueuesValid()
      modifies snapshots, server.connections.Values
      ensures err == marshalled.None?
      ensures server.QueuesValid()
      ensures marshalled.None? ==> snapshots.Model() == old(snapshots.Model())
      ensures marshalled.Some? ==>
                snapshots.Model() == Update(old(snapshots.Model()), snapshots.hash,
                                            SlashKey(namespace, agentName), cfgType, marshalled.value)
      ensures !Changes(old(snapshots.Model()), namespace, agentName, cfgType, marshalled) ==>
                forall k :: k in server.connections ==>
                  server.connections[k].Model() == old(server.connections[k].Model())
      ensures Changes(old(snapshots.Model()), namespace, agentName, cfgType, marshalled) ==>
                  var snap := Lookup(snapshots.Model(), SlashKey(namespace, agentName), cfgType);
                  snap.Some? && forall k :: k in server.connections ==>
                    server.connections[k].Model()
                    == if server.Hosts(k, namespace, agentName)
                       then Enqueue(old(server.connections[k].Model()), ConfigPush(snap.value))
                       else old(server.connections[k].Model())
    {
      var r := snapshots.UpdateSnapshot(namespace, agentName, cfgType, marshalled);
      if r.MarshalError? {
        return true;
      }
      err := false;
      if !r.changed {
        return;
      }
      Broadcast(namespace, agentName, ConfigPush(r.snapshot));
    }

    method ForgetAgent(namespace: string, agentName: string)
      modifies snapshots
      ensures snapshots.Model() == Delete(old(snapshots.Model()), SlashKey(namespace, agentName))
    {
      snapshots.DeleteAgent(namespace, agentName);
    }

    /** Sending to an instance that is not connected here reports no error and sends nothing. */
    method SendTeamEvent(namespace: string, instanceID: string, event: Downstream)
      returns (err: bool, ghost delivery: Delivery)
      requires event.TeamEvent? && server.Valid() && server.QueuesValid()
      modifies server.connections.Values
      ensures server.QueuesValid()
      ensures err <==> delivery.Refused?
      ensures var key := SlashKey(namespace, instanceID);
              && (key !in server.connections <==> delivery.Absent?)
              && (key in server.connections ==>
                    && delivery == (if old(server.connections[key].Model()).Full() then Refused else Queued)
                    && server.connections[key].Model() == Enqueue(old(server.connections[key].Model()), event))
      ensures forall k :: k in server.connections && k != SlashKey(namespace, instanceID) ==>
                server.connections[k].Model() == old(server.connections[k].Model())
    {
      var conn := server.GetConnection(namespace, instanceID);
      if conn == null {
        return false, Absent;
      }
      err := conn.Send(event);
      delivery := if err then Refused else Queued;
    }

    /** A full sync offers every current snapshot of the agent, once each, to the looked-up connection. */
    method PushFullSync(namespace: string, agentName: string, instanceID: string)
      returns (ghost sent: seq<Downstream>)
      requires server.Valid() && server.QueuesValid()
      modifies server.connections.Values
      ensures server.QueuesValid()
      ensures forall snap :: ConfigPush(snap) in sent ==>
                exists t :: Lookup(snapshots.Model(), SlashKey(namespace, agentName), t) == Some(snap)
      ensures SlashKey(namespace, instanceID) in server.connections ==>
                && (forall t :: Lookup(snapshots.Model(), SlashKey(namespace, agentName), t).Some? ==>
                      ConfigPush(Lookup(snapshots.Model(), SlashKey(namespace, agentName), t).value) in sent)
                && |sent| == snapshots.Count(namespace, agentName)
                && server.connections[SlashKey(namespace, instanceID)].Model()
                   == EnqueueAll(old(server.connections[SlashKey(namespace, instanceID)].Model()), sent)
      ensures forall k :: k in server.connections && k != SlashKey(namespace, instanceID) ==>
                server.connections[k].Model() == old(server.connections[k].Model())
    {
      sent := [];
      var all := snapshots.GetAllSnapshots(namespace, agentName);
      if all == [] {
        return;
      }
      var conn := server.GetConnection(namespace, instanceID);
      if conn == null {
        return;
      }
      sent := SendSnapshots(conn, all);
      forall snap | ConfigPush(snap) in sent ensures snap in all {
        var j :| 0 <= j < |sent| && sent[j] == ConfigPush(snap);
        assert sent[j] == ConfigPush(all[j]);
      }
      forall t | Lookup(snapshots.Model(), SlashKey(namespace, agentName), t).Some?
        ensures ConfigPush(Lookup(snapshots.Model(), SlashKey(namespace, agentName), t).value) in sent
      {
        var snap := Lookup(snapshots.Model(), SlashKey(namespace, agentName), t).value;
        var j :| 0 <= j < |all| && all[j] == snap;
        assert sent[j] == ConfigPush(snap);
      }
    }
  }
}
