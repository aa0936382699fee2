/**
 The versioned configuration snapshots of internal/asdp/snapshot.go: a store that
 bumps a per-agent, per-type version whenever the content changes.
 */
module Snapshots {
  import opened Text

  datatype Snapshot = Snapshot(cfgType: nat, version: string, resources: string, nonce: string)

  datatype Store = Store(snapshots: map<string, map<nat, Snapshot>>,
                         versions: map<string, map<nat, nat>>)

  const EMPTY := Store(map[], map[])

  /** The truncated SHA-256 digest, left uninterpreted. */
  type Hash = string -> string

  function Lookup(s: Store, key: string, cfgType: nat): (r: Option<Snapshot>) {
    if key in s.snapshots && cfgType in s.snapshots[key]
    then Some(s.snapshots[key][cfgType]) else None
  }

  /** A Go map read: absent counters are zero. */
  function Version(s: Store, key: string, cfgType: nat): (v: nat) {
    if key in s.versions && cfgType in s.versions[key] then s.versions[key][cfgType] else 0
  }

  function Nonce(hash: Hash, key: string, cfgType: nat, version: nat): (r: string) {
    hash(SlashKey(SlashKey(key, Decimal(cfgType)), Decimal(version)))
  }

  function MakeSnapshot(hash: Hash, key: string, cfgType: nat, version: nat, data: string): (r: Snapshot) {
    Snapshot(cfgType, "v" + Decimal(version), data, Nonce(hash, key, cfgType, version))
  }

  predicate Unchanged(s: Store, hash: Hash, key: string, cfgType: nat, data: string) {
    var existing := Lookup(s, key, cfgType);
    existing.Some? && hash(existing.value.resources) == hash(data)
  }

  function Put<K, V>(m: map<string, map<K, V>>, key: string, k: K, v: V): (r: map<string, map<K, V>>) {
    m[key := (if key in m then m[key] else map[])[k := v]]
  }

  function Update(s: Store, hash: Hash, key: string, cfgType: nat, data: string): (r: Store) {
    if Unchanged(s, hash, key, cfgType, data) then s else
    var version := Version(s, key, cfgType) + 1;
    Store(Put(s.snapshots, key, cfgType, MakeSnapshot(hash, key, cfgType, version, data)),
          Put(s.versions, key, cfgType, version))
  }

  function Delete(s: Store, key: string): (r: Store) {
    Store(s.snapshots - {key}, s.versions - {key})
  }

  lemma UpdateAt(s: Store, hash: Hash, key: string, cfgType: nat, data: string, k: string, t: nat)
    ensures var r := Update(s, hash, key, cfgType, data);
            if k == key && t == cfgType && !Unchanged(s, hash, key, cfgType, data) then
              var version := Version(s, key, cfgType) + 1;
              && Version(r, k, t) == version
              && Lookup(r, k, t) == Some(MakeSnapshot(hash, key, cfgType, version, data))
            else
              Version(r, k, t) == Version(s, k, t) && Lookup(r, k, t) == Lookup(s, k, t)
  {
  }

  datatype UpdateResult = Stored(snapshot: Snapshot, changed: bool) | MarshalError

  /** The store object; `marshalled` is None when encoding the resources fails. */
  class SnapshotStore {
    var snapshots: map<string, map<nat, Snapshot>>
    var versions: map<string, map<nat, nat>>
    const hash: Hash

    ghost function Model(): Store
      reads this
    {
      Store(snapshots, versions)
    }

    /** How many config types the agent has a snapshot of. */
    ghost function Count(namespace: string, agentName: string): nat
      reads this
    {
      var key := SlashKey(namespace, agentName);
      if key in snapshots then |snapshots[key]| else 0
    }

    constructor (hash: Hash)
      ensures Model() == EMPTY && this.hash == hash
    {
      this.hash := hash;
      snapshots := map[];
      versions := map[];
    }

    method UpdateSnapshot(namespace: string, agentName: string, cfgType: nat, marshalled: Option<string>)
      returns (r: UpdateResult)
      modifies this
      ensures marshalled.None? ==> r.MarshalError? && Model() == old(Model())
      ensures marshalled.Some? ==>
                var key := SlashKey(namespace, agentName);
                && Model() == Update(old(Model()), hash, key, cfgType, marshalled.value)
                && r.Stored?
                && Lookup(Model(), key, cfgType) == Some(r.snapshot)
                && r.changed == !Unchanged(old(Model()), hash, key, cfgType, marshalled.value)
                && hash(r.snapshot.resources) == hash(marshalled.value)
                && (r.changed ==> && r.snapshot.cfgType == cfgType && r.snapshot.resources == marshalled.value
                                  && r.snapshot.version == "v" + Decimal(Version(old(Model()), key, cfgType) + 1))
    {
      if marshalled.None? {
        return MarshalError;
      }
      var key, data := SlashKey(namespace, agentName), marshalled.value;
      if key in snapshots && cfgType in snapshots[key] {
        var existing := snapshots[key][cfgType];
        if hash(existing.resources) == hash(data) {
          return Stored(existing, false);
        }
      }
      var ver := (if key in versions && cfgType in versions[key] then versions[key][cfgType] else 0) + 1;
      var snapshot := Snapshot(cfgType, "v" + Decimal(ver), data, Nonce(hash, key, cfgType, ver));
      UpdateAt(Model(), hash, key, cfgType, data, key, cfgType);
      versions := Put(versions, key, cfgType, ver);
      snapshots := Put(snapshots, key, cfgType, snapshot);
      r := Stored(snapshot, true);
    }

    method GetAllSnapshots(namespace: string, agentName: string) returns (result: seq<Snapshot>)
      ensures forall snap :: snap in result <==>
                exists t :: Lookup(Model(), SlashKey(namespace, agentName), t) == Some(snap)
      ensures |result| == Count(namespace, agentName)
    {
      var key := SlashKey(namespace, agentName);
      result := [];
      if key !in snapshots {
        return;
      }
      var all := snapshots[key];
      var rest := all.Keys;
      while rest != {}
        invariant rest <= all.Keys
        invariant forall snap :: snap in result <==> exists t :: t in all.Keys - rest && all[t] == snap
        invariant |result| + |rest| == |all|
      {
        var t :| t in rest;
        rest := rest - {t};
        result := result + [all[t]];
      }
      assert forall t :: t in all ==> Lookup(Model(), key, t) == Some(all[t]);
    }

    method DeleteAgent(namespace: string, agentName: string)
      modifies this
      ensures Model() == Delete(old(Model()), SlashKey(namespace, agentName))
    {
      var key := SlashKey(namespace, agentName);
      snapshots := snapshots - {key};
      versions := versions - {key};
    }
  }
}
