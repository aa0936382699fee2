/**
 Any sequence of snapshot updates and deletes, and the claim that the store is a
 function of that history (internal/asdp/snapshot.go).
 */
module SnapshotHistory {
  import opened Text
  import opened Snapshots

  datatype Op = UpdateOp(key: string, cfgType: nat, marshalled: Option<string>) | DeleteOp(key: string)

  function Apply(hash: Hash, s: Store, op: Op): (r: Store) {
    match op
    case UpdateOp(key, cfgType, Some(data)) => Update(s, hash, key, cfgType, data)
    case UpdateOp(_, _, None) => s
    case DeleteOp(key) => Delete(s, key)
  }

  function Run(hash: Hash, ops: seq<Op>): (r: Store) {
    if ops == [] then EMPTY else Apply(hash, Run(hash, ops[..|ops| - 1]), ops[|ops| - 1])
  }

  /** What is stored for one agent and type after a history of operations. */
  function SlotAfter(hash: Hash, ops: seq<Op>, key: string, cfgType: nat): (r: Option<Snapshot>) {
    Lookup(Run(hash, ops), key, cfgType)
  }

  /** The contents of one slot after one more operation. */
  function Recorded(xs: seq<string>, op: Op, key: string, cfgType: nat): (r: seq<string>) {
    match op
    case UpdateOp(k, t, Some(data)) => if k == key && t == cfgType then xs + [data] else xs
    case UpdateOp(_, _, None) => xs
    case DeleteOp(k) => if k == key then [] else xs
  }

  /** The contents offered for one agent and type since the agent was last deleted. */
  function Contents(ops: seq<Op>, key: string, cfgType: nat): (r: seq<string>) {
    if ops == [] then []
    else Recorded(Contents(ops[..|ops| - 1], key, cfgType), ops[|ops| - 1], key, cfgType)
  }

  /** Drops every element whose digest equals its predecessor's. */
  function Dedup(hash: Hash, xs: seq<string>): (r: seq<string>) {
    if |xs| <= 1 then xs else
    var n := |xs| - 1;
    Dedup(hash, xs[..n]) + if hash(xs[n]) == hash(xs[n - 1]) then [] else [xs[n]]
  }

  /** Drops every element equal to its predecessor. */
  function WithoutRepeats(xs: seq<string>): (r: seq<string>) {
    if |xs| <= 1 then xs else
    var n := |xs| - 1;
    WithoutRepeats(xs[..n]) + if xs[n] == xs[n - 1] then [] else [xs[n]]
  }

  ghost predicate Injective(hash: Hash) {
    forall a, b :: hash(a) == hash(b) ==> a == b
  }

  lemma {:induction false} DedupIsWithoutRepeats(hash: Hash, xs: seq<string>)
    requires Injective(hash)
    ensures Dedup(hash, xs) == WithoutRepeats(xs)
  {
    if |xs| > 1 {
      DedupIsWithoutRepeats(hash, xs[..|xs| - 1]);
    }
  }

  lemma {:induction false} DedupLast(hash: Hash, xs: seq<string>)
    requires xs != []
    ensures var d := Dedup(hash, xs); d != [] && hash(d[|d| - 1]) == hash(xs[|xs| - 1])
  {
    if |xs| > 1 {
      DedupLast(hash, xs[..|xs| - 1]);
    }
  }

  lemma {:induction false} DedupPrefix(hash: Hash, xs: seq<string>, k: nat)
    requires k <= |xs|
    ensures Dedup(hash, xs[..k]) <= Dedup(hash, xs)
  {
    if k < |xs| {
      var n := |xs| - 1;
      assert xs[..n][..k] == xs[..k];
      DedupPrefix(hash, xs[..n], k);
      if |xs| == 1 { assert xs[..k] == []; }
    } else {
      assert xs[..k] == xs;
    }
  }

  function HistorySnapshot(hash: Hash, key: string, cfgType: nat, h: seq<string>): (r: Option<Snapshot>) {
    if h == [] then None
    else Some(MakeSnapshot(hash, key, cfgType, |h|, h[|h| - 1]))
  }

  /** The store reflects a history for one slot. */
  predicate Reflects(hash: Hash, s: Store, key: string, cfgType: nat, xs: seq<string>) {
    var h := Dedup(hash, xs);
    Version(s, key, cfgType) == |h| && Lookup(s, key, cfgType) == HistorySnapshot(hash, key, cfgType, h)
  }

  lemma UpdateReflects(hash: Hash, s: Store, key: string, cfgType: nat, xs: seq<string>, data: string)
    requires Reflects(hash, s, key, cfgType, xs)
    ensures Reflects(hash, Update(s, hash, key, cfgType, data), key, cfgType, xs + [data])
  {
    UpdateAt(s, hash, key, cfgType, data, key, cfgType);
    assert (xs + [data])[..|xs|] == xs;
    if xs != [] { DedupLast(hash, xs); }
  }

  lemma StepReflects(hash: Hash, s: Store, op: Op, key: string, cfgType: nat, xs: seq<string>)
    requires Reflects(hash, s, key, cfgType, xs)
    ensures Reflects(hash, Apply(hash, s, op), key, cfgType, Recorded(xs, op, key, cfgType))
  {
    match op
    case UpdateOp(k, t, Some(data)) =>
      if k == key && t == cfgType {
        UpdateReflects(hash, s, key, cfgType, xs, data);
      } else {
        UpdateAt(s, hash, k, t, data, key, cfgType);
      }
    case UpdateOp(_, _, None) =>
    case DeleteOp(_) =>
  }

  /** The store is a function of its history: version = number of distinct consecutive contents. */
  lemma {:induction false} StoreEqualsHistory(hash: Hash, ops: seq<Op>, key: string, cfgType: nat)
    ensures Reflects(hash, Run(hash, ops), key, cfgType, Contents(ops, key, cfgType))
  {
    if ops != [] {
      var before := ops[..|ops| - 1];
      StoreEqualsHistory(hash, before, key, cfgType);
      StepReflects(hash, Run(hash, before), ops[|ops| - 1], key, cfgType, Contents(before, key, cfgType));
    }
  }

  /** The version counts the changes of content, and the stored content is the last one offered. */
  predicate CountsChanges(hash: Hash, ops: seq<Op>, key: string, cfgType: nat) {
    var xs, stored := Contents(ops, key, cfgType), SlotAfter(hash, ops, key, cfgType);
    && Version(Run(hash, ops), key, cfgType) == |WithoutRepeats(xs)|
    && stored == HistorySnapshot(hash, key, cfgType, WithoutRepeats(xs))
    && (xs != [] ==> stored.Some? && stored.value.resources == xs[|xs| - 1])
  }

  /** With a collision-free digest the version counts the changes of content. */
  lemma VersionCountsChanges(hash: Hash, ops: seq<Op>, key: string, cfgType: nat)
    requires Injective(hash)
    ensures CountsChanges(hash, ops, key, cfgType)
  {
    var xs := Contents(ops, key, cfgType);
    StoreEqualsHistory(hash, ops, key, cfgType);
    DedupIsWithoutRepeats(hash, xs);
    if xs != [] { DedupLast(hash, xs); }
  }

  lemma {:induction false} ContentsExtend(ops: seq<Op>, i: nat, key: string, cfgType: nat)
    requires i <= |ops|
    requires DeleteOp(key) !in ops[i..]
    ensures Contents(ops[..i], key, cfgType) <= Contents(ops, key, cfgType)
  {
    if i < |ops| {
      var before := ops[..|ops| - 1];
      assert before[..i] == ops[..i];
      assert forall k :: i <= k < |before| ==> before[k] == ops[i..][k - i];
      assert ops[|ops| - 1] == ops[i..][|ops| - 1 - i];
      ContentsExtend(before, i, key, cfgType);
    } else {
      assert ops[..i] == ops;
    }
  }

  lemma VersionInjective(m: nat, n: nat)
    requires "v" + Decimal(m) == "v" + Decimal(n)
    ensures m == n
  {
    assert Decimal(m) == ("v" + Decimal(m))[1..] && Decimal(n) == ("v" + Decimal(n))[1..];
    DecimalInjective(m, n);
  }

  /** A version string names one length of history, hence one snapshot along growing histories. */
  lemma VersionNamesHistory(hash: Hash, key: string, cfgType: nat, xs: seq<string>, ys: seq<string>)
    requires xs != [] && xs <= ys
    ensures Dedup(hash, xs) != [] && Dedup(hash, ys) != []
    ensures var a := HistorySnapshot(hash, key, cfgType, Dedup(hash, xs));
            var b := HistorySnapshot(hash, key, cfgType, Dedup(hash, ys));
            a.value.version == b.value.version ==> a == b
  {
    var d, e := Dedup(hash, xs), Dedup(hash, ys);
    DedupLast(hash, xs);
    assert ys[..|xs|] == xs;
    DedupPrefix(hash, ys, |xs|);
    if "v" + Decimal(|d|) == "v" + Decimal(|e|) { VersionInjective(|d|, |e|); }
  }

  /** A snapshot of a slot is never removed later, and never replaced under the same version. */
  predicate NamesOneSnapshot(earlier: Option<Snapshot>, later: Option<Snapshot>) {
    earlier.Some? ==> later.Some? && (earlier.value.version == later.value.version ==> earlier == later)
  }

  /** Between deletes, a type and version (hence a triple with its nonce) names one snapshot. */
  lemma VersionIdentifiesContent(hash: Hash, ops: seq<Op>, i: nat, key: string, cfgType: nat)
    requires i <= |ops| && DeleteOp(key) !in ops[i..]
    ensures NamesOneSnapshot(SlotAfter(hash, ops[..i], key, cfgType), SlotAfter(hash, ops, key, cfgType))
  {
    StoreEqualsHistory(hash, ops[..i], key, cfgType);
    StoreEqualsHistory(hash, ops, key, cfgType);
    ContentsExtend(ops, i, key, cfgType);
    var xs := Contents(ops[..i], key, cfgType);
    if xs != [] { VersionNamesHistory(hash, key, cfgType, xs, Contents(ops, key, cfgType)); }
  }

  // ----- What a nonce names -----

  /** The changes of content that a history made to a slot since its last delete. */
  function Changes(hash: Hash, ops: seq<Op>, key: string, cfgType: nat): (r: seq<string>) {
    Dedup(hash, Contents(ops, key, cfgType))
  }

  /** With a collision-free digest, equal nonces come from the same agent key, config type and version. */
  lemma NonceInjective(hash: Hash, key: string, t: nat, v: nat, key': string, t': nat, v': nat)
    requires Injective(hash) && Nonce(hash, key, t, v) == Nonce(hash, key', t', v')
    ensures key == key' && t == t' && v == v'
  {
    DecimalIsSlashFree(v);
    DecimalIsSlashFree(v');
    SlashKeySplitsLast(SlashKey(key, Decimal(t)), Decimal(v), SlashKey(key', Decimal(t')), Decimal(v'));
    DecimalIsSlashFree(t);
    DecimalIsSlashFree(t');
    SlashKeySplitsLast(key, Decimal(t), key', Decimal(t'));
    DecimalInjective(v, v');
    DecimalInjective(t, t');
  }

  /** A stored snapshot names its own config type, and the number in its version says how often its content changed. */
  lemma StoredSnapshot(hash: Hash, ops: seq<Op>, key: string, cfgType: nat)
    requires SlotAfter(hash, ops, key, cfgType).Some?
    ensures var snap := SlotAfter(hash, ops, key, cfgType).value;
            var n := |Changes(hash, ops, key, cfgType)|;
            && n > 0 && snap.cfgType == cfgType && snap.version == "v" + Decimal(n)
            && snap.nonce == Nonce(hash, key, cfgType, n)
  {
    StoreEqualsHistory(hash, ops, key, cfgType);
  }

  /**
   With a collision-free digest, the snapshots that any two histories leave in any two
   slots have the same nonce exactly if agent key, config type and version agree.
   */
  lemma NonceNamesVersion(hash: Hash, ops: seq<Op>, key: string, t: nat, ops': seq<Op>, key': string, t': nat)
    requires Injective(hash) && SlotAfter(hash, ops, key, t).Some? && SlotAfter(hash, ops', key', t').Some?
    ensures var a, b := SlotAfter(hash, ops, key, t).value, SlotAfter(hash, ops', key', t').value;
            a.nonce == b.nonce <==> key == key' && t == t' && a.version == b.version
  {
    StoredSnapshot(hash, ops, key, t);
    StoredSnapshot(hash, ops', key', t');
    var v, v' := |Changes(hash, ops, key, t)|, |Changes(hash, ops', key', t')|;
    if Nonce(hash, key, t, v) == Nonce(hash, key', t', v') {
      NonceInjective(hash, key, t, v, key', t', v');
    } else if "v" + Decimal(v) == "v" + Decimal(v') {
      VersionInjective(v, v');
    }
  }

  // ----- Triples across deletes -----

  predicate SameTriple(a: Snapshot, b: Snapshot) {
    a.cfgType == b.cfgType && a.version == b.version && a.nonce == b.nonce
  }

  predicate SameTripleIff(x: Option<Snapshot>, y: Option<Snapshot>, xs: seq<string>, ys: seq<string>) {
    && x.Some? && y.Some? && xs != [] && ys != []
    && (SameTriple(x.value, y.value) <==> |xs| == |ys|)
    && (SameTriple(x.value, y.value) ==> (x == y <==> xs[|xs| - 1] == ys[|ys| - 1]))
  }

  lemma HistoriesCompare(hash: Hash, key: string, cfgType: nat, xs: seq<string>, ys: seq<string>)
    requires xs != [] && ys != []
    ensures SameTripleIff(HistorySnapshot(hash, key, cfgType, xs), HistorySnapshot(hash, key, cfgType, ys), xs, ys)
  {
    if "v" + Decimal(|xs|) == "v" + Decimal(|ys|) { VersionInjective(|xs|, |ys|); }
  }

  /**
   Any two histories of one slot, deletes included, end with the same (type, version, nonce)
   triple exactly if they made equally many changes since their last deletes, and then with
   the same snapshot exactly if their last contents agree.
   */
  lemma TriplesAgreeIff(hash: Hash, ops: seq<Op>, ops': seq<Op>, key: string, cfgType: nat)
    requires Contents(ops, key, cfgType) != [] && Contents(ops', key, cfgType) != []
    ensures SameTripleIff(SlotAfter(hash, ops, key, cfgType), SlotAfter(hash, ops', key, cfgType),
                          Changes(hash, ops, key, cfgType), Changes(hash, ops', key, cfgType))
  {
    StoreEqualsHistory(hash, ops, key, cfgType);
    StoreEqualsHistory(hash, ops', key, cfgType);
    DedupLast(hash, Contents(ops, key, cfgType));
    DedupLast(hash, Contents(ops', key, cfgType));
    HistoriesCompare(hash, key, cfgType, Changes(hash, ops, key, cfgType), Changes(hash, ops', key, cfgType));
  }

  /** Same triple, different content. */
  predicate Clash(x: Option<Snapshot>, y: Option<Snapshot>) {
    && x.Some? && y.Some?
    && x.value.cfgType == y.value.cfgType && x.value.version == y.value.version && x.value.nonce == y.value.nonce
    && x.value.resources != y.value.resources
  }

  function UpdateDeleteUpdate(key: string, cfgType: nat, a: string, b: string): (ops: seq<Op>) {
    [UpdateOp(key, cfgType, Some(a)), DeleteOp(key), UpdateOp(key, cfgType, Some(b))]
  }

  lemma ContentsAroundDelete(key: string, cfgType: nat, a: string, b: string)
    ensures var ops := UpdateDeleteUpdate(key, cfgType, a, b);
            Contents(ops[..1], key, cfgType) == [a] && Contents(ops, key, cfgType) == [b]
  {
    var ops := UpdateDeleteUpdate(key, cfgType, a, b);
    assert ops[..1][..0] == [] && ops[..2][..1] == ops[..1];
    assert Contents(ops[..2], key, cfgType) == [];
  }

  /** Across a delete the counter restarts, so the same triple can name another content. */
  lemma TriplesRepeatAfterDelete(hash: Hash, key: string, cfgType: nat, a: string, b: string)
    requires a != b
    ensures var ops := UpdateDeleteUpdate(key, cfgType, a, b);
            Clash(SlotAfter(hash, ops[..1], key, cfgType), SlotAfter(hash, ops, key, cfgType))
  {
    var ops := UpdateDeleteUpdate(key, cfgType, a, b);
    ContentsAroundDelete(key, cfgType, a, b);
    StoreEqualsHistory(hash, ops[..1], key, cfgType);
    StoreEqualsHistory(hash, ops, key, cfgType);
  }
}
