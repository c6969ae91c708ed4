/**
 * The character's modifier index, `std::multimap<id_t, modifier_info>`
 * (include/stardust/character.hpp:104-107), and the folds and filters that
 * src/character.cpp computes over one key's equal range.
 */
module ModifierIndex {
  import opened Types

  /**
   * The multimap, one bucket per stat id. Within a bucket the records keep
   * the order they were inserted in (`emplace` inserts at the upper end of
   * the equal range). A multimap has no empty equal range, so no bucket is
   * empty, and two indexes with the same buckets are equal.
   */
  type Index = m: map<string, seq<ModifierInfo>> | forall s :: s in m ==> m[s] != [] witness map[]

  /** The records `equal_range(s)` visits, in order. */
  function Bucket(idx: Index, s: string): seq<ModifierInfo> {
    if s in idx then idx[s] else []
  }

  lemma BucketsDetermineIndex(a: Index, b: Index)
    requires forall s :: Bucket(a, s) == Bucket(b, s)
    ensures a == b
  {
    forall s | s in a ensures s in b && a[s] == b[s] {
      assert Bucket(a, s) == Bucket(b, s);
    }
    forall s | s in b ensures s in a {
      assert Bucket(a, s) == Bucket(b, s);
    }
  }

  lemma AppendAssoc(a: seq<ModifierInfo>, b: seq<ModifierInfo>, c: seq<ModifierInfo>)
    ensures (a + b) + c == a + (b + c)
  {
  }

  // ---------------------------------------------------------------------
  // get_stat: a fold of the bucket's values onto the base value.

  /** The total of the values of a bucket. */
  function Sum(b: seq<ModifierInfo>): int {
    if b == [] then 0 else b[0].value + Sum(b[1..])
  }

  /**
   * Every running total of `std::accumulate`, starting from `acc`, stays in
   * the 32-bit range; otherwise the signed addition overflows.
   */
  predicate SumFits(acc: int, b: seq<ModifierInfo>)
    decreases |b|
  {
    b == [] || (InInt32(acc + b[0].value) && SumFits(acc + b[0].value, b[1..]))
  }

  /** `std::accumulate(begin, end, acc, value + record.value)`. */
  function Accumulate(acc: StatValue, b: seq<ModifierInfo>): (r: StatValue)
    requires SumFits(acc, b)
    ensures r == acc + Sum(b)
    decreases |b|
  {
    if b == [] then acc else Accumulate(acc + b[0].value, b[1..])
  }

  lemma {:induction false} SumConcat(a: seq<ModifierInfo>, b: seq<ModifierInfo>)
    ensures Sum(a + b) == Sum(a) + Sum(b)
  {
    if a == [] {
      assert a + b == b;
    } else {
      assert (a + b)[1..] == a[1..] + b;
      SumConcat(a[1..], b);
    }
  }

  lemma SumAppend(b: seq<ModifierInfo>, x: ModifierInfo)
    ensures Sum(b + [x]) == Sum(b) + x.value
  {
    SumConcat(b, [x]);
  }

  lemma SplitAt(b: seq<ModifierInfo>, j: nat)
    requires j < |b|
    ensures b == (b[..j] + [b[j]]) + b[j + 1..]
  {
  }

  lemma SumRemoveAt(b: seq<ModifierInfo>, j: nat)
    requires j < |b|
    ensures Sum(b) == b[j].value + Sum(b[..j] + b[j + 1..])
  {
    var left, x, right := b[..j], b[j], b[j + 1..];
    SplitAt(b, j);
    SumConcat(left + [x], right);
    SumConcat(left, [x]);
    SumConcat(left, right);
    assert Sum([x]) == x.value + Sum([]);
  }

  lemma MultisetRemoveAt(b: seq<ModifierInfo>, j: nat)
    requires j < |b|
    ensures multiset(b[..j] + b[j + 1..]) == multiset(b) - multiset{b[j]}
  {
    SplitAt(b, j);
  }

  lemma MultisetTail(a: seq<ModifierInfo>)
    requires a != []
    ensures multiset(a[1..]) == multiset(a) - multiset{a[0]}
  {
    assert a == [a[0]] + a[1..];
  }

  /** The total does not depend on the order of the records. */
  lemma {:induction false} SumPermutation(a: seq<ModifierInfo>, b: seq<ModifierInfo>)
    requires multiset(a) == multiset(b)
    ensures Sum(a) == Sum(b)
  {
    if a == [] {
      assert |b| == |multiset(b)| == 0;
    } else {
      var x := a[0];
      assert x in multiset(b);
      var j :| 0 <= j < |b| && b[j] == x;
      MultisetRemoveAt(b, j);
      MultisetTail(a);
      SumPermutation(a[1..], b[..j] + b[j + 1..]);
      SumRemoveAt(b, j);
    }
  }

  // ---------------------------------------------------------------------
  // has_stat_modifier: `find_if` on the record id.

  function ContainsId(b: seq<ModifierInfo>, m: string): (r: bool)
    ensures r <==> exists k :: 0 <= k < |b| && b[k].id == m
  {
    if b == [] then false
    else if b[0].id == m then true
    else
      var t := ContainsId(b[1..], m);
      assert forall k :: 1 <= k < |b| ==> b[k] == b[1..][k - 1];
      t
  }

  // ---------------------------------------------------------------------
  // add_stat_modifier: `emplace` at the end of the key's equal range.

  function Add(idx: Index, s: string, x: ModifierInfo): (r: Index)
    ensures Bucket(r, s) == Bucket(idx, s) + [x]
    ensures forall t :: t != s ==> Bucket(r, t) == Bucket(idx, t)
  {
    idx[s := Bucket(idx, s) + [x]]
  }

  lemma AddGrowsSum(idx: Index, s: string, x: ModifierInfo)
    ensures Sum(Bucket(Add(idx, s, x), s)) == Sum(Bucket(idx, s)) + x.value
    ensures ContainsId(Bucket(Add(idx, s, x), s), x.id)
  {
    SumAppend(Bucket(idx, s), x);
    assert Bucket(Add(idx, s, x), s)[|Bucket(idx, s)|] == x;
  }

  // ---------------------------------------------------------------------
  // remove_stat_modifier: erase the matching records of an equal range.

  /**
   * The records of bucket `s` that survive removing every (stat, modifier id)
   * pair in `P`, in their original order.
   */
  function Without(b: seq<ModifierInfo>, s: string, P: set<(string, string)>): (r: seq<ModifierInfo>)
    ensures forall k :: 0 <= k < |r| ==> (s, r[k].id) !in P
    ensures forall x :: x in r ==> x in b
    ensures forall x :: x in b ==> multiset(r)[x] == if (s, x.id) in P then 0 else multiset(b)[x]
    ensures |r| <= |b|
  {
    if b == [] then []
    else
      var last := b[|b| - 1];
      var front := b[..|b| - 1];
      assert b == front + [last];
      Without(front, s, P) + (if (s, last.id) in P then [] else [last])
  }

  /** One more record of the bucket scanned: it is kept unless its pair is withdrawn. */
  lemma WithoutPrefix(b: seq<ModifierInfo>, s: string, m: string, i: nat)
    requires i < |b|
    ensures Without(b[..i + 1], s, {(s, m)}) == Without(b[..i], s, {(s, m)}) + (if b[i].id == m then [] else [b[i]])
  {
    assert b[..i + 1][..i] == b[..i];
  }

  /** A single record survives exactly when its pair is not withdrawn. */
  lemma WithoutSingleton(x: ModifierInfo, s: string, P: set<(string, string)>)
    ensures Without([x], s, P) == if (s, x.id) in P then [] else [x]
  {
    assert [x][..0] == [];
  }

  /**
   * Filtering is done record by record: the survivors of a concatenation are
   * the survivors of each part, in the same order.
   */
  lemma {:induction false} WithoutConcat(a: seq<ModifierInfo>, b: seq<ModifierInfo>, s: string, P: set<(string, string)>)
    ensures Without(a + b, s, P) == Without(a, s, P) + Without(b, s, P)
  {
    if b == [] {
      assert a + b == a;
    } else {
      var front := b[..|b| - 1];
      assert (a + b)[..|a + b| - 1] == a + front;
      WithoutConcat(a, front, s, P);
    }
  }

  lemma {:induction false} WithoutUnmatched(b: seq<ModifierInfo>, s: string, P: set<(string, string)>)
    requires forall k :: 0 <= k < |b| ==> (s, b[k].id) !in P
    ensures Without(b, s, P) == b
  {
    if b != [] {
      var front := b[..|b| - 1];
      WithoutUnmatched(front, s, P);
      assert b == front + [b[|b| - 1]];
    }
  }

  lemma {:induction false} WithoutCompose(b: seq<ModifierInfo>, s: string, P: set<(string, string)>, Q: set<(string, string)>)
    ensures Without(Without(b, s, P), s, Q) == Without(b, s, P + Q)
  {
    if b != [] {
      var last := b[|b| - 1];
      var front := b[..|b| - 1];
      WithoutCompose(front, s, P, Q);
      WithoutConcat(Without(front, s, P), if (s, last.id) in P then [] else [last], s, Q);
    }
  }

  /** Removes, under every stat s, the records whose id m has (s, m) in `P`. */
  function Withdrawn(idx: Index, P: set<(string, string)>): (r: Index)
    ensures forall s :: Bucket(r, s) == Without(Bucket(idx, s), s, P)
  {
    map s | s in idx && Without(idx[s], s, P) != [] :: Without(idx[s], s, P)
  }

  lemma WithdrawnNothing(idx: Index)
    ensures Withdrawn(idx, {}) == idx
  {
    forall s ensures Bucket(Withdrawn(idx, {}), s) == Bucket(idx, s) {
      WithoutUnmatched(Bucket(idx, s), s, {});
    }
    BucketsDetermineIndex(Withdrawn(idx, {}), idx);
  }

  /** Two withdrawals in a row are one withdrawal of both pair sets. */
  lemma WithdrawnCompose(idx: Index, P: set<(string, string)>, Q: set<(string, string)>)
    ensures Withdrawn(Withdrawn(idx, P), Q) == Withdrawn(idx, P + Q)
  {
    forall s ensures Bucket(Withdrawn(Withdrawn(idx, P), Q), s) == Bucket(Withdrawn(idx, P + Q), s) {
      WithoutCompose(Bucket(idx, s), s, P, Q);
    }
    BucketsDetermineIndex(Withdrawn(Withdrawn(idx, P), Q), Withdrawn(idx, P + Q));
  }

  /**
   * `remove_stat_modifier(s, m)`, as intended: every record with id m under
   * s goes, the others under s keep their order, other buckets stay.
   */
  function Remove(idx: Index, s: string, m: string): (r: Index)
    ensures !ContainsId(Bucket(r, s), m)
    ensures Bucket(r, s) == Without(Bucket(idx, s), s, {(s, m)})
    ensures forall t :: t != s ==> Bucket(r, t) == Bucket(idx, t)
  {
    var r := Withdrawn(idx, {(s, m)});
    forall t | t != s ensures Bucket(r, t) == Bucket(idx, t) {
      WithoutUnmatched(Bucket(idx, t), t, {(s, m)});
    }
    assert forall k :: 0 <= k < |Bucket(r, s)| ==> Bucket(r, s)[k] in Bucket(r, s);
    r
  }

  /** Removing a modifier id that is not under s changes nothing. */
  lemma RemoveAbsent(idx: Index, s: string, m: string)
    requires !ContainsId(Bucket(idx, s), m)
    ensures Remove(idx, s, m) == idx
  {
    WithoutUnmatched(Bucket(idx, s), s, {(s, m)});
    BucketsDetermineIndex(Remove(idx, s, m), idx);
  }

  /** Storing bucket `b` under `s`: an empty bucket erases the key. */
  function Store(idx: Index, s: string, b: seq<ModifierInfo>): (r: Index)
    ensures Bucket(r, s) == b
    ensures forall t :: t != s ==> Bucket(r, t) == Bucket(idx, t)
  {
    if b == [] then idx - {s} else idx[s := b]
  }

  /** Storing the filtered bucket back is `Remove`. */
  lemma RemoveByBucket(idx: Index, s: string, m: string, kept: seq<ModifierInfo>)
    requires kept == Without(Bucket(idx, s), s, {(s, m)})
    ensures Store(idx, s, kept) == Remove(idx, s, m)
  {
    var lhs := Store(idx, s, kept);
    var rhs := Remove(idx, s, m);
    forall t ensures Bucket(lhs, t) == Bucket(rhs, t) {
      if t != s {
        assert Bucket(lhs, t) == Bucket(idx, t);
      }
    }
    BucketsDetermineIndex(lhs, rhs);
  }

  // ---------------------------------------------------------------------
  // What a stat-modifier ability's delta map does to an index.

  /** The record an ability with id `id` adds for delta `v`. */
  function Record(v: StatValue, id: string, originator: object?): ModifierInfo {
    ModifierInfo(v, id, originator)
  }

  /** One new record per entry of `deltas`, at the end of that entry's bucket. */
  function Applied(idx: Index, deltas: map<string, StatValue>, id: string, originator: object?): (r: Index)
    ensures forall s :: Bucket(r, s) == Bucket(idx, s) + (if s in deltas then [Record(deltas[s], id, originator)] else [])
  {
    map s | s in idx.Keys + deltas.Keys :: Bucket(idx, s) + (if s in deltas then [Record(deltas[s], id, originator)] else [])
  }

  /** The (stat, modifier id) pairs tagged with `id` under the keys of `deltas`. */
  function Tagged(deltas: map<string, StatValue>, id: string): (P: set<(string, string)>)
    ensures forall s, m :: (s, m) in P <==> s in deltas && m == id
  {
    set s | s in deltas :: (s, id)
  }

  function Restrict(deltas: map<string, StatValue>, keys: set<string>): (r: map<string, StatValue>)
    ensures r.Keys == deltas.Keys * keys
    ensures forall s :: s in r ==> r[s] == deltas[s]
  {
    map s | s in deltas && s in keys :: deltas[s]
  }

  /** An empty delta map adds nothing. */
  lemma AppliedNothing(idx: Index, id: string, originator: object?)
    ensures Applied(idx, map[], id, originator) == idx
  {
    var r := Applied(idx, map[], id, originator);
    forall s ensures Bucket(r, s) == Bucket(idx, s) {
      assert Bucket(idx, s) + [] == Bucket(idx, s);
    }
    BucketsDetermineIndex(r, idx);
  }

  lemma RestrictNone(deltas: map<string, StatValue>)
    ensures Restrict(deltas, {}) == map[]
  {
  }

  lemma RestrictAll(deltas: map<string, StatValue>, keys: set<string>)
    requires deltas.Keys <= keys
    ensures Restrict(deltas, keys) == deltas
  {
  }

  /** Applying one more entry of the delta map is one more `Add`. */
  lemma AppliedStep(idx: Index, deltas: map<string, StatValue>, done: set<string>, s: string, id: string, originator: object?)
    requires s in deltas && s !in done
    ensures Add(Applied(idx, Restrict(deltas, done), id, originator), s, Record(deltas[s], id, originator))
         == Applied(idx, Restrict(deltas, done + {s}), id, originator)
  {
    var before := Restrict(deltas, done);
    var after := Restrict(deltas, done + {s});
    var mid := Applied(idx, before, id, originator);
    var lhs := Add(mid, s, Record(deltas[s], id, originator));
    var rhs := Applied(idx, after, id, originator);
    forall t ensures Bucket(lhs, t) == Bucket(rhs, t) {
      if t == s {
        assert s !in before && s in after && after[s] == deltas[s];
        assert Bucket(mid, s) == Bucket(idx, s);
      } else {
        assert (t in before <==> t in after) && (t in before ==> before[t] == after[t]);
        assert Bucket(lhs, t) == Bucket(mid, t);
      }
    }
    BucketsDetermineIndex(lhs, rhs);
  }

  /** Withdrawing one more entry of the delta map is one more `Remove`. */
  lemma WithdrawnStep(idx: Index, deltas: map<string, StatValue>, done: set<string>, s: string, id: string)
    requires s in deltas && s !in done
    ensures Remove(Withdrawn(idx, Tagged(Restrict(deltas, done), id)), s, id)
         == Withdrawn(idx, Tagged(Restrict(deltas, done + {s}), id))
  {
    var before := Withdrawn(idx, Tagged(Restrict(deltas, done), id));
    WithdrawnCompose(idx, Tagged(Restrict(deltas, done), id), {(s, id)});
    assert Tagged(Restrict(deltas, done), id) + {(s, id)} == Tagged(Restrict(deltas, done + {s}), id);
    assert Remove(before, s, id) == Withdrawn(before, {(s, id)});
  }

  lemma WithdrawnUndoesAppliedAt(b: seq<ModifierInfo>, s: string, deltas: map<string, StatValue>, id: string, originator: object?)
    requires s in deltas ==> !ContainsId(b, id)
    ensures Without(b + (if s in deltas then [Record(deltas[s], id, originator)] else []), s, Tagged(deltas, id)) == b
  {
    var P := Tagged(deltas, id);
    var added := if s in deltas then [Record(deltas[s], id, originator)] else [];
    WithoutConcat(b, added, s, P);
    WithoutUnmatched(b, s, P);
    if s in deltas {
      assert (s, added[0].id) in P;
      assert Without(added, s, P) == [];
    } else {
      WithoutUnmatched(added, s, P);
    }
  }

  /**
   * Adding one record per delta and then withdrawing the records tagged with
   * that id under the same keys gives the index back, provided no record
   * under those keys had the id before.
   */
  lemma WithdrawnUndoesApplied(idx: Index, deltas: map<string, StatValue>, id: string, originator: object?)
    requires forall s :: s in deltas ==> !ContainsId(Bucket(idx, s), id)
    ensures Withdrawn(Applied(idx, deltas, id, originator), Tagged(deltas, id)) == idx
  {
    var P := Tagged(deltas, id);
    var after := Withdrawn(Applied(idx, deltas, id, originator), P);
    forall s ensures Bucket(after, s) == Bucket(idx, s) {
      WithdrawnUndoesAppliedAt(Bucket(idx, s), s, deltas, id, originator);
    }
    BucketsDetermineIndex(after, idx);
  }
}
