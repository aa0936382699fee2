/**
 One API object under optimistic concurrency: every accepted write appends a version, a
 read may return any version there ever was, and a write is accepted only if nothing was
 written since the version it was computed from.
 */
module ObjectStore {
  import opened Text

  /** What one read-modify-write does to the copy it read; None when it decides not to write. */
  type EditFn<!V, !O> = (O, V) -> Option<V>

  class StoredObject<V> {
    var log: seq<V>

    constructor (initial: V)
      ensures log == [initial]
    {
      log := [initial];
    }

    /** A read through a cache: `version` is whichever one the cache holds. */
    method Get(version: nat) returns (copy: V)
      requires version < |log|
      ensures copy == log[version]
    {
      copy := log[version];
    }

    method Update(version: nat, copy: V) returns (ok: bool)
      modifies this
      ensures ok == (version + 1 == |old(log)|)
      ensures log == if ok then old(log) + [copy] else old(log)
    {
      ok := version + 1 == |log|;
      if ok {
        log := log + [copy];
      }
    }
  }

  // ----- Any number of concurrent clients -----

  datatype Draft<V, O> = Draft(base: nat, op: O, value: V)

  datatype State<V, O> = State(log: seq<V>, committed: seq<O>, drafts: map<nat, Draft<V, O>>)

  datatype Step<O> =
    | Begin(client: nat, op: O, version: nat)  // read that version and edit the copy
    | Commit(client: nat)                      // try to write the edited copy back

  function Apply<V, O>(edit: EditFn<V, O>, s: State<V, O>, step: Step<O>): (r: State<V, O>) {
    match step
    case Begin(c, op, version) =>
      if version >= |s.log| then s else
      (match edit(op, s.log[version])
       case Some(v) => s.(drafts := s.drafts[c := Draft(version, op, v)])
       case None => s.(drafts := s.drafts - {c}))
    case Commit(c) =>
      if c !in s.drafts then s else
      var d := s.drafts[c];
      if d.base + 1 == |s.log|
      then State(s.log + [d.value], s.committed + [d.op], s.drafts - {c})
      else s.(drafts := s.drafts - {c})
  }

  function Run<V, O>(edit: EditFn<V, O>, initial: V, steps: seq<Step<O>>): (s: State<V, O>) {
    if steps == [] then State([initial], [], map[])
    else Apply(edit, Run(edit, initial, steps[..|steps| - 1]), steps[|steps| - 1])
  }

  /** Every write took effect on the version it replaced. */
  ghost predicate Serial<V(!new), O(!new)>(edit: EditFn<V, O>, s: State<V, O>) {
    && |s.log| == |s.committed| + 1
    && forall i :: 0 <= i < |s.committed| ==> edit(s.committed[i], s.log[i]) == Some(s.log[i + 1])
  }

  ghost predicate DraftsHonest<V(!new), O(!new)>(edit: EditFn<V, O>, s: State<V, O>) {
    forall c :: c in s.drafts ==>
      && s.drafts[c].base < |s.log|
      && edit(s.drafts[c].op, s.log[s.drafts[c].base]) == Some(s.drafts[c].value)
  }

  lemma StepIsAtomic<V(!new), O(!new)>(edit: EditFn<V, O>, s: State<V, O>, step: Step<O>)
    requires Serial(edit, s) && DraftsHonest(edit, s)
    ensures var s' := Apply(edit, s, step);
            Serial(edit, s') && DraftsHonest(edit, s') && s.log <= s'.log && s.committed <= s'.committed
  {
  }

  /**
   Stale reads notwithstanding, every run is a serial history: version i + 1 is the result
   of the i-th accepted operation on version i.
   */
  lemma {:induction false} WritesAreAtomic<V(!new), O(!new)>(edit: EditFn<V, O>, initial: V, steps: seq<Step<O>>)
    ensures var s := Run(edit, initial, steps);
            && |s.log| == |s.committed| + 1 && s.log[0] == initial
            && forall i :: 0 <= i < |s.committed| ==> edit(s.committed[i], s.log[i]) == Some(s.log[i + 1])
  {
    RunIsSerial(edit, initial, steps);
  }

  lemma {:induction false} RunIsSerial<V(!new), O(!new)>(edit: EditFn<V, O>, initial: V, steps: seq<Step<O>>)
    ensures var s := Run(edit, initial, steps);
            Serial(edit, s) && DraftsHonest(edit, s) && s.log[0] == initial
  {
    if steps != [] {
      RunIsSerial(edit, initial, steps[..|steps| - 1]);
      StepIsAtomic(edit, Run(edit, initial, steps[..|steps| - 1]), steps[|steps| - 1]);
    }
  }

  /** History only grows: what a prefix of the run has written stays written. */
  lemma {:induction false} HistoryGrows<V(!new), O(!new)>(edit: EditFn<V, O>, initial: V, steps: seq<Step<O>>, k: nat)
    requires k <= |steps|
    ensures Run(edit, initial, steps[..k]).log <= Run(edit, initial, steps).log
    ensures Run(edit, initial, steps[..k]).committed <= Run(edit, initial, steps).committed
  {
    if k < |steps| {
      var n := |steps| - 1;
      assert steps[..n][..k] == steps[..k];
      HistoryGrows(edit, initial, steps[..n], k);
      RunIsSerial(edit, initial, steps[..n]);
      StepIsAtomic(edit, Run(edit, initial, steps[..n]), steps[n]);
    } else {
      assert steps[..k] == steps;
    }
  }
}
