/**
 From a stored config to its acknowledgement: the distribution protocol decides what
 enters a connection's queue, and that connection's stream carries the queue to the
 connector and the acknowledgements back (internal/asdp/distributor.go, service.go,
 connector/connector.go).
 */
module EndToEnd {
  import opened Text
  import opened Snapshots
  import opened Connections
  import D = Distribution
  import Order = DistributionOrder
  import Owners = DistributionOwners
  import Limits = DistributionLimits
  import Stored = DistributionStore
  import H = SnapshotHistory
  import S = StreamOrder

  /** What a queued message is on the wire. */
  predicate Carries(m: D.Message, d: Downstream) {
    match m
    case Config(item) => d == ConfigPush(item.snapshot)
    case Other(_) => !d.ConfigPush?
  }

  /** The stream's queue is the connection's. */
  predicate SameQueue(ms: seq<D.Message>, ds: seq<Downstream>) {
    |ms| == |ds| && forall i :: 0 <= i < |ms| ==> Carries(ms[i], ds[i])
  }

  predicate IsAckOf(m: S.Upstream, snap: Snapshot) {
    m.ConfigAck? && m.cfgType == snap.cfgType && m.version == snap.version && m.nonce == snap.nonce
  }

  /** The server has handled an acknowledgement of the snapshot, by its type, version and nonce. */
  predicate Acked(handled: seq<S.Upstream>, snap: Snapshot) {
    exists i :: 0 <= i < |handled| && IsAckOf(handled[i], snap)
  }

  function TagOf(snap: Snapshot): (r: S.Tag) {
    S.Tag(snap.cfgType, snap.version, snap.nonce)
  }

  lemma {:induction false} PushedTag(ds: seq<Downstream>, i: nat)
    requires i < |ds| && ds[i].ConfigPush?
    ensures TagOf(ds[i].snapshot) in S.PushTags(ds)
  {
    var n := |ds| - 1;
    if i < n { PushedTag(ds[..n], i); }
  }

  /** Everything a drained stream's queue ever held has been acknowledged. */
  lemma DrainedAcks(steps: seq<S.Step>, snap: Snapshot)
    requires S.Drained(S.Run(steps)) && ConfigPush(snap) in S.Run(steps).server.channel.enqueued
    ensures Acked(S.Run(steps).handled, snap)
  {
    var s := S.Run(steps);
    var i :| 0 <= i < |s.server.channel.enqueued| && s.server.channel.enqueued[i] == ConfigPush(snap);
    S.DrainedMeansAllAcked(steps);
    PushedTag(s.server.channel.enqueued, i);
    S.OnlyAcksHandled(steps);
    S.AckTagsOfAcks(s.handled);
    var k :| 0 <= k < |S.AckTags(s.handled)| && S.AckTags(s.handled)[k] == TagOf(snap);
    assert IsAckOf(s.handled[k], snap);
  }

  /** The connection filed under key is open, its stream carries its queue, and the stream is drained. */
  ghost predicate DrainedFor(s: D.State, key: string, streamSteps: seq<S.Step>) {
    && key in s.registry.entries && s.registry.entries[key] in s.streams && s.registry.entries[key] in s.channels
    && !s.channels[s.registry.entries[key]].cancelled
    && SameQueue(s.channels[s.registry.entries[key]].enqueued, S.Run(streamSteps).server.channel.enqueued)
    && S.Drained(S.Run(streamSteps))
  }

  /** The current config of type t of the agent connected under key. */
  function CurrentFor(s: D.State, key: string, t: nat): (r: Option<D.Item>)
    requires key in s.registry.entries && s.registry.entries[key] in s.streams
  {
    D.Current(s, D.AgentKey(s.streams[s.registry.entries[key]].id), t)
  }

  lemma QueuedIsAcked(s: D.State, key: string, streamSteps: seq<S.Step>, item: D.Item)
    requires DrainedFor(s, key, streamSteps) && D.Config(item) in s.channels[s.registry.entries[key]].enqueued
    ensures Acked(S.Run(streamSteps).handled, item.snapshot)
  {
    var ms, ds := s.channels[s.registry.entries[key]].enqueued, S.Run(streamSteps).server.channel.enqueued;
    var i :| 0 <= i < |ms| && ms[i] == D.Config(item);
    assert Carries(ms[i], ds[i]) && ds[i] in ds;
    DrainedAcks(streamSteps, item.snapshot);
  }

  /**
   With nothing in flight on the server and nothing in transit on the stream, the connector
   has acknowledged the current config of every type of its agent.
   */
  lemma CurrentConfigIsAcked(names: D.Names, hash: Hash, steps: seq<D.Step>, key: string, t: nat,
                             streamSteps: seq<S.Step>)
    requires D.CollisionFree(names) && D.NamedSteps(names, steps) && D.Quiescent(D.Run(hash, steps))
    requires DrainedFor(D.Run(hash, steps), key, streamSteps)
    ensures var item := CurrentFor(D.Run(hash, steps), key, t);
            item.Some? ==> Acked(S.Run(streamSteps).handled, item.value.snapshot)
  {
    var s := D.Run(hash, steps);
    D.QuiescentMeansEnqueued(names, hash, steps, key, t);
    var item := CurrentFor(s, key, t);
    if item.Some? { QueuedIsAcked(s, key, streamSteps, item.value); }
  }

  // ----- What an acknowledgement's nonce names -----

  lemma {:induction false} TagIsPushed(ds: seq<Downstream>, tag: S.Tag)
    requires tag in S.PushTags(ds)
    ensures exists i :: 0 <= i < |ds| && ds[i].ConfigPush? && TagOf(ds[i].snapshot) == tag
  {
    var n := |ds| - 1;
    if tag in S.PushTags(ds[..n]) {
      TagIsPushed(ds[..n], tag);
      var i :| 0 <= i < n && ds[..n][i].ConfigPush? && TagOf(ds[..n][i].snapshot) == tag;
      assert ds[i] == ds[..n][i];
    } else {
      assert ds[n].ConfigPush? && TagOf(ds[n].snapshot) == tag;
    }
  }

  /** On every run, an acknowledgement that the server handles answers a push that was enqueued. */
  lemma AckAnswersPush(streamSteps: seq<S.Step>, i: nat)
    requires i < |S.Run(streamSteps).handled|
    ensures var s := S.Run(streamSteps);
            exists j :: 0 <= j < |s.server.channel.enqueued| && s.server.channel.enqueued[j].ConfigPush?
                        && IsAckOf(s.handled[i], s.server.channel.enqueued[j].snapshot)
  {
    var s := S.Run(streamSteps);
    S.AcksFollowPushes(streamSteps);
    S.AckTagsOfAcks(s.handled);
    var tag := S.AckTags(s.handled)[i];
    assert S.AckTags(s.handled) <= S.PushTags(s.server.channel.enqueued);
    assert tag == S.PushTags(s.server.channel.enqueued)[i];
    TagIsPushed(s.server.channel.enqueued, tag);
    var j :| 0 <= j < |s.server.channel.enqueued| && s.server.channel.enqueued[j].ConfigPush?
             && TagOf(s.server.channel.enqueued[j].snapshot) == tag;
    assert IsAckOf(s.handled[i], s.server.channel.enqueued[j].snapshot);
  }

  /** The ack answers this config, and so would it any config in any queue that carries its nonce. */
  ghost predicate NamedByNonce(hash: Hash, steps: seq<D.Step>, c: nat, ack: S.Upstream, item: D.Item) {
    var s := D.Run(hash, steps);
    && ack.ConfigAck? && D.Enqueued(s, c, item) && IsAckOf(ack, item.snapshot)
    && forall other, d :: D.Enqueued(s, d, other) && other.snapshot.nonce == ack.nonce ==>
         && other.key == item.key && IsAckOf(ack, other.snapshot)
         && (Stored.NeverForgotten(steps, item.key) ==> other.snapshot == item.snapshot)
  }

  /**
   With a collision-free digest, the nonce of an acknowledgement alone names what it
   answers, among all configs queued for any connection: the agent key, the config type and
   the version, and the very snapshot unless the agent was forgotten.
   */
  lemma NonceNamesPush(hash: Hash, steps: seq<D.Step>, c: nat, streamSteps: seq<S.Step>, i: nat)
    returns (item: D.Item)
    requires H.Injective(hash) && c in D.Run(hash, steps).channels
    requires SameQueue(D.Run(hash, steps).channels[c].enqueued, S.Run(streamSteps).server.channel.enqueued)
    requires i < |S.Run(streamSteps).handled|
    ensures NamedByNonce(hash, steps, c, S.Run(streamSteps).handled[i], item)
  {
    var s := D.Run(hash, steps);
    var ms, ds := s.channels[c].enqueued, S.Run(streamSteps).server.channel.enqueued;
    var ack := S.Run(streamSteps).handled[i];
    AckAnswersPush(streamSteps, i);
    var j :| 0 <= j < |ds| && ds[j].ConfigPush? && IsAckOf(ack, ds[j].snapshot);
    assert Carries(ms[j], ds[j]);
    item := ms[j].item;
    assert D.Enqueued(s, c, item);
    Stored.InFlightWasCurrent(hash, steps, item);
    forall other, d | D.Enqueued(s, d, other) && other.snapshot.nonce == ack.nonce
      ensures other.key == item.key && IsAckOf(ack, other.snapshot)
      ensures Stored.NeverForgotten(steps, item.key) ==> other.snapshot == item.snapshot
    {
      Stored.InFlightWasCurrent(hash, steps, other);
      Stored.NonceNamesConfig(hash, steps, item, other);
    }
  }

  // ----- The last acknowledgement of each type -----

  /** The last tag of that config type. */
  function LastOfType(tags: seq<S.Tag>, t: nat): (r: Option<S.Tag>) {
    if tags == [] then None
    else if tags[|tags| - 1].cfgType == t then Some(tags[|tags| - 1])
    else LastOfType(tags[..|tags| - 1], t)
  }

  lemma {:induction false} LastOfTypeSnoc(tags: seq<S.Tag>, more: seq<S.Tag>, t: nat)
    requires |more| <= 1
    ensures LastOfType(tags + more, t)
            == if more != [] && more[0].cfgType == t then Some(more[0]) else LastOfType(tags, t)
  {
    if more == [] {
      assert tags + more == tags;
    } else {
      assert (tags + more)[..|tags|] == tags && (tags + more)[|tags|] == more[0];
    }
  }

  predicate IsPushOfType(d: Downstream, t: nat) {
    d.ConfigPush? && d.snapshot.cfgType == t
  }

  /** From position i on, every push of that type is of the snapshot. */
  predicate OnlyFrom(ds: seq<Downstream>, i: nat, t: nat, snap: Snapshot) {
    forall j :: i <= j < |ds| && IsPushOfType(ds[j], t) ==> ds[j].snapshot == snap
  }

  lemma {:induction false} LastPushed(ds: seq<Downstream>, i: nat, snap: Snapshot)
    requires i < |ds| && ds[i] == ConfigPush(snap) && OnlyFrom(ds, i, snap.cfgType, snap)
    ensures LastOfType(S.PushTags(ds), snap.cfgType) == Some(TagOf(snap))
  {
    var n := |ds| - 1;
    var more := S.PushTags(ds)[|S.PushTags(ds[..n])|..];
    assert S.PushTags(ds) == S.PushTags(ds[..n]) + more;
    LastOfTypeSnoc(S.PushTags(ds[..n]), more, snap.cfgType);
    if i < n {
      LastPushed(ds[..n], i, snap);
      if IsPushOfType(ds[n], snap.cfgType) { assert ds[n].snapshot == snap; }
    }
  }

  /** The queue holds the config, and behind it nothing else of its slot, and only its agent's configs at all. */
  ghost predicate QueueEndsWith(s: D.State, c: nat, item: D.Item) {
    && c in s.channels && D.Config(item) in s.channels[c].enqueued
    && Order.NewestLast(s.channels[c].enqueued, item, item.snapshot.cfgType)
    && forall other :: D.Enqueued(s, c, other) ==> other.key == item.key
  }

  lemma QueueEndsLast(s: D.State, c: nat, item: D.Item, ds: seq<Downstream>)
    requires QueueEndsWith(s, c, item) && SameQueue(s.channels[c].enqueued, ds)
    ensures LastOfType(S.PushTags(ds), item.snapshot.cfgType) == Some(TagOf(item.snapshot))
  {
    var ms := s.channels[c].enqueued;
    var i :| 0 <= i < |ms| && ms[i] == D.Config(item);
    assert Carries(ms[i], ds[i]);
    forall j | i <= j < |ds| && IsPushOfType(ds[j], item.snapshot.cfgType) ensures ds[j].snapshot == item.snapshot {
      assert Carries(ms[j], ds[j]);
      assert D.Enqueued(s, c, ms[j].item);
      assert Order.ForSlot(ms[j], item.key, item.snapshot.cfgType);
    }
    LastPushed(ds, i, item.snapshot);
  }

  /** A run in which no config is lost, none is misdirected, and none is sent stale. */
  ghost predicate Orderly(actors: Owners.Actors, names: D.Names, hash: Hash, steps: seq<D.Step>) {
    && D.CollisionFree(names) && D.NamedSteps(names, steps)
    && Owners.NoneMisdirected(actors) && Owners.ActedSteps(actors, steps)
    && Order.NeverStale(hash, steps)
  }

  lemma OrderlyQueueEnds(actors: Owners.Actors, names: D.Names, hash: Hash, steps: seq<D.Step>, key: string, t: nat)
    requires Orderly(actors, names, hash, steps) && D.Quiescent(D.Run(hash, steps))
    requires var s := D.Run(hash, steps);
             && key in s.registry.entries
             && s.registry.entries[key] in s.streams && s.registry.entries[key] in s.channels
             && !s.channels[s.registry.entries[key]].cancelled && CurrentFor(s, key, t).Some?
    ensures var s := D.Run(hash, steps);
            var item := CurrentFor(s, key, t).value;
            item.snapshot.cfgType == t && QueueEndsWith(s, s.registry.entries[key], item)
  {
    var s := D.Run(hash, steps);
    var c := s.registry.entries[key];
    var item := CurrentFor(s, key, t).value;
    Order.QuiescentEndsWithNewest(names, hash, steps, key, t);
    Order.RunTyped(hash, steps, D.AgentKey(s.streams[c].id), t);
    assert Order.SlotTyped(s, D.AgentKey(s.streams[c].id), t);
    Owners.RunKeepsOwn(actors, hash, steps);
    assert Owners.QueueOwn(s, c);
    forall other | D.Enqueued(s, c, other) ensures other.key == item.key {
      assert Owners.BelongsTo(s, c, other);
    }
  }

  /**
   After an orderly run, with nothing in flight on the server and nothing in transit on the
   stream, the last config of each type that the connector acknowledged is the current one.
   */
  lemma LastAckIsCurrent(actors: Owners.Actors, names: D.Names, hash: Hash, steps: seq<D.Step>, key: string, t: nat,
                         streamSteps: seq<S.Step>)
    requires Orderly(actors, names, hash, steps) && D.Quiescent(D.Run(hash, steps))
    requires DrainedFor(D.Run(hash, steps), key, streamSteps) && CurrentFor(D.Run(hash, steps), key, t).Some?
    ensures LastOfType(S.AckTags(S.Run(streamSteps).handled), t)
            == Some(TagOf(CurrentFor(D.Run(hash, steps), key, t).value.snapshot))
  {
    var s := D.Run(hash, steps);
    OrderlyQueueEnds(actors, names, hash, steps, key, t);
    var ds := S.Run(streamSteps).server.channel.enqueued;
    QueueEndsLast(s, s.registry.entries[key], CurrentFor(s, key, t).value, ds);
    S.DrainedMeansAllAcked(streamSteps);
  }

  // ----- A complete run -----

  /** One config, pushed before its agent's instance connects, reaches the connector and is acknowledged. */
  lemma OneConfigEndToEnd(id: D.Identity, hash: Hash, a: string, verdict: bool, reason: string)
    returns (steps: seq<D.Step>, streamSteps: seq<S.Step>)
    requires Limits.Complete(id)
    ensures D.Quiescent(D.Run(hash, steps)) && DrainedFor(D.Run(hash, steps), D.InstanceKey(id), streamSteps)
    ensures CurrentFor(D.Run(hash, steps), D.InstanceKey(id), 1) == Some(Limits.First(id, hash, a))
  {
    var first := Limits.First(id, hash, a);
    steps := Limits.DeliveredRun(id, hash, a);
    streamSteps := S.OnePushIsAcked(id.agent, id.instance, id.namespace, first.snapshot, verdict, reason);
    assert D.InstanceKey(id) in D.Run(hash, steps).registry.entries;
  }
}
