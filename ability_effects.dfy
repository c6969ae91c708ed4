/**
 * What the attachment hooks of an ability do to an owner's modifier index,
 * stated on values (src/abilities.cpp:64-94). The classes in module Stardust
 * are proved against these functions.
 */
module AbilityEffects {
  import opened Types
  import opened ModifierIndex

  /**
   * The part of an ability its hooks depend on: its id, whether
   * `on_attached`/`on_detached` act on the owner at all, its delta map, and the
   * originator its records carry (the ability itself).
   */
  datatype EffectProfile = EffectProfile(id: string, selfApplies: bool, deltas: map<string, StatValue>, originator: object?)

  /** The record `on_attached` adds under `s`, if any. */
  function Added(p: EffectProfile, s: string): seq<ModifierInfo> {
    if p.selfApplies && s in p.deltas then [Record(p.deltas[s], p.id, p.originator)] else []
  }

  /** `on_attached`: when the hook acts, one record per delta under the owner. */
  function AttachEffect(idx: Index, p: EffectProfile): (r: Index)
    ensures forall s :: Bucket(r, s) == Bucket(idx, s) + Added(p, s)
  {
    if p.selfApplies then Applied(idx, p.deltas, p.id, p.originator) else idx
  }

  /** The (stat, id) pairs `on_detached` withdraws from the owner. */
  function DetachPairs(p: EffectProfile): (P: set<(string, string)>)
    ensures forall s, m :: (s, m) in P <==> p.selfApplies && s in p.deltas && m == p.id
  {
    if p.selfApplies then Tagged(p.deltas, p.id) else {}
  }

  /** `on_detached`: when the hook acts, every record with the ability's id under its keys goes. */
  function DetachEffect(idx: Index, p: EffectProfile): (r: Index)
    ensures r == Withdrawn(idx, DetachPairs(p))
  {
    if p.selfApplies then Withdrawn(idx, Tagged(p.deltas, p.id))
    else
      WithdrawnNothing(idx);
      idx
  }

  /**
   * Attaching and then detaching the same profile gives the owner's index
   * back, when the owner held no record with the ability's id under the
   * modified stats.
   */
  lemma DetachUndoesAttach(idx: Index, p: EffectProfile)
    requires forall s :: s in p.deltas ==> !ContainsId(Bucket(idx, s), p.id)
    ensures DetachEffect(AttachEffect(idx, p), p) == idx
  {
    if p.selfApplies {
      WithdrawnUndoesApplied(idx, p.deltas, p.id, p.originator);
    } else {
      WithdrawnNothing(idx);
    }
  }

  /**
   * Attaching twice without a detach in between (what `set_owner` does for
   * the current owner) leaves two records per modified stat.
   */
  lemma AttachTwiceDuplicates(idx: Index, p: EffectProfile, s: string)
    requires p.selfApplies && s in p.deltas
    ensures var x := Record(p.deltas[s], p.id, p.originator);
      Bucket(AttachEffect(AttachEffect(idx, p), p), s) == Bucket(idx, s) + [x, x]
  {
    var x := Record(p.deltas[s], p.id, p.originator);
    assert Bucket(AttachEffect(idx, p), s) == Bucket(idx, s) + [x];
    assert Bucket(idx, s) + [x] + [x] == Bucket(idx, s) + [x, x];
  }

  // ---------------------------------------------------------------------
  // Several abilities at once: what `set_passive_abilities` and
  // `~character` do, on a snapshot of the abilities taken before the loop.

  /** An ability as the loop finds it: its owner and its hook profile. */
  datatype Attachment = Attachment(owner: object?, profile: EffectProfile)

  /** The records attaching each profile of `snap` in turn adds under `s`. */
  function AddedRecords(snap: seq<Attachment>, s: string): seq<ModifierInfo> {
    if snap == [] then []
    else
      var p := snap[|snap| - 1].profile;
      AddedRecords(snap[..|snap| - 1], s) + Added(p, s)
  }

  /**
   * `on_attached` for every entry of `snap`, in list order, against one
   * owner: every bucket gains the records of the attached profiles, in list
   * order, and nothing is taken away.
   */
  function ApplyAll(idx: Index, snap: seq<Attachment>): (r: Index)
    ensures forall s :: Bucket(r, s) == Bucket(idx, s) + AddedRecords(snap, s)
  {
    if snap == [] then idx
    else
      var front := ApplyAll(idx, snap[..|snap| - 1]);
      ApplyAllStep(idx, snap, front);
      AttachEffect(front, snap[|snap| - 1].profile)
  }

  lemma ApplyAllStep(idx: Index, snap: seq<Attachment>, front: Index)
    requires snap != []
    requires forall s :: Bucket(front, s) == Bucket(idx, s) + AddedRecords(snap[..|snap| - 1], s)
    ensures forall s :: Bucket(AttachEffect(front, snap[|snap| - 1].profile), s) == Bucket(idx, s) + AddedRecords(snap, s)
  {
    forall s ensures Bucket(AttachEffect(front, snap[|snap| - 1].profile), s) == Bucket(idx, s) + AddedRecords(snap, s) {
      ApplyAllStepAt(idx, snap, front, s);
    }
  }

  lemma ApplyAllStepAt(idx: Index, snap: seq<Attachment>, front: Index, s: string)
    requires snap != []
    requires Bucket(front, s) == Bucket(idx, s) + AddedRecords(snap[..|snap| - 1], s)
    ensures Bucket(AttachEffect(front, snap[|snap| - 1].profile), s) == Bucket(idx, s) + AddedRecords(snap, s)
  {
    var p := snap[|snap| - 1].profile;
    AddedRecordsLast(snap, s);
    AppendAssoc(Bucket(idx, s), AddedRecords(snap[..|snap| - 1], s), Added(p, s));
  }

  lemma AddedRecordsLast(snap: seq<Attachment>, s: string)
    requires snap != []
    ensures AddedRecords(snap, s) == AddedRecords(snap[..|snap| - 1], s) + Added(snap[|snap| - 1].profile, s)
  {
  }

  /** The loop's step: one more entry of the snapshot is one more `AttachEffect`. */
  lemma ApplyAllPrefix(idx: Index, snap: seq<Attachment>, i: nat)
    requires i < |snap|
    ensures ApplyAll(idx, snap[..i + 1]) == AttachEffect(ApplyAll(idx, snap[..i]), snap[i].profile)
  {
    assert snap[..i + 1][..i] == snap[..i];
  }

  /** The pairs withdrawn from owner `x` when every entry of `snap` that `x` owns detaches. */
  function DetachedFrom(snap: seq<Attachment>, x: object?): set<(string, string)> {
    set k, q | 0 <= k < |snap| && snap[k].owner == x && q in DetachPairs(snap[k].profile) :: q
  }

  lemma DetachedFromStep(snap: seq<Attachment>, i: nat, x: object?)
    requires i < |snap|
    ensures DetachedFrom(snap[..i + 1], x) ==
      DetachedFrom(snap[..i], x) + (if snap[i].owner == x then DetachPairs(snap[i].profile) else {})
  {
    var lhs := DetachedFrom(snap[..i + 1], x);
    var rhs := DetachedFrom(snap[..i], x) + (if snap[i].owner == x then DetachPairs(snap[i].profile) else {});
    forall q | q in lhs ensures q in rhs {
      var k :| 0 <= k < i + 1 && snap[..i + 1][k].owner == x && q in DetachPairs(snap[..i + 1][k].profile);
      if k < i {
        assert snap[..i][k] == snap[k];
      }
    }
    forall q | q in rhs ensures q in lhs {
      if q in DetachedFrom(snap[..i], x) {
        var k :| 0 <= k < i && snap[..i][k].owner == x && q in DetachPairs(snap[..i][k].profile);
        assert snap[..i + 1][k] == snap[k];
      } else {
        assert snap[..i + 1][i] == snap[i];
      }
    }
  }

  /** An entry met a second time adds no pair its first occurrence did not. */
  lemma DetachedFromRepeat(snap: seq<Attachment>, k: nat, i: nat, x: object?)
    requires k < i <= |snap|
    requires snap[k].owner == x
    ensures DetachPairs(snap[k].profile) <= DetachedFrom(snap[..i], x)
  {
    forall q | q in DetachPairs(snap[k].profile) ensures q in DetachedFrom(snap[..i], x) {
      assert snap[..i][k] == snap[k];
    }
  }

  /**
   * The loop's step for a detaching owner: an entry seen for the first time
   * withdraws its pairs when `x` owns it; a repeated entry adds nothing new.
   */
  lemma DetachedFromNext(snap: seq<Attachment>, i: nat, x: object?, first: bool)
    requires i < |snap|
    requires !first ==> exists k :: 0 <= k < i && snap[k] == snap[i]
    ensures DetachedFrom(snap[..i + 1], x) ==
      DetachedFrom(snap[..i], x) + (if first && snap[i].owner == x then DetachPairs(snap[i].profile) else {})
  {
    DetachedFromStep(snap, i, x);
    if !first && snap[i].owner == x {
      var k :| 0 <= k < i && snap[k] == snap[i];
      DetachedFromRepeat(snap, k, i, x);
    }
  }

  /**
   * One more detach in the owner loop: a pending withdrawal composed with
   * `on_detached` (when `cond`) is one larger withdrawal.
   */
  lemma DetachStep(base: Index, D: set<(string, string)>, p: EffectProfile, cond: bool, after: Index)
    requires after == if cond then DetachEffect(Withdrawn(base, D), p) else Withdrawn(base, D)
    ensures after == Withdrawn(base, D + (if cond then DetachPairs(p) else {}))
  {
    if cond {
      WithdrawnCompose(base, D, DetachPairs(p));
    } else {
      assert D + {} == D;
    }
  }
}
