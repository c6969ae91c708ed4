/**
 * The two entities of the engine: `ability` with its attachment state
 * machine and the stat-modifier variant (include/stardust/abilities.hpp,
 * src/abilities.cpp), and `character` with its base stats, modifier index
 * and passive abilities (include/stardust/character.hpp, src/character.cpp).
 * They refer to each other, so they share one module.
 */
module Stardust {
  import opened Types
  import opened TargetRules
  import opened ModifierIndex
  import opened AbilityEffects

  /**
   * The concrete kinds of ability. `Generic` stands for any subclass that
   * keeps the base class's no-op `on_attached`/`on_detached`;
   * `StatModifier` is `stat_modifier_ability`.
   */
  datatype AbilityKind = Generic | StatModifier

  class Ability {
    const id: string
    const targetRule: TargetRule
    const kind: AbilityKind
    /** Non-owning back-reference; null while detached. */
    var owner: Character?
    /** `stat_modifier_ability::_modifiers`: one delta per stat id. */
    var modifiers: map<string, StatValue>

    /**
     * `ability(id, target_rule)`. The debug assertion of the source holds
     * only for the empty rule (TargetRules.ConstructorAssertion); it is not
     * a precondition here.
     */
    constructor (id: string, targetRule: TargetRule, kind: AbilityKind)
      ensures this.id == id && this.targetRule == targetRule && this.kind == kind
      ensures owner == null && modifiers == map[]
    {
      this.id := id;
      this.targetRule := targetRule;
      this.kind := kind;
      owner := null;
      modifiers := map[];
    }

    /**
     * Whether the hooks act on the owner: only the stat-modifier kind does,
     * and only when bit TARGET_SELF_BIT = 0 (the `ENEMY` flag) is set.
     */
    predicate SelfApplies() {
      kind == StatModifier && Test(targetRule, TARGET_SELF_BIT)
    }

    function Profile(): EffectProfile
      reads this`modifiers
    {
      EffectProfile(id, SelfApplies(), modifiers, this)
    }

    ghost function OwnerSet(): set<Character>
      reads this`owner
    {
      if owner == null then {} else {owner}
    }

    /**
     * `set_owner`: detach from a different previous owner, set the owner,
     * then run `on_attached`. Re-attaching to the current owner skips the
     * detach, so the owner receives the records a second time.
     */
    method SetOwner(newOwner: Character)
      modifies this`owner, OwnerSet()`index, newOwner`index
      ensures owner == newOwner
      ensures old(owner) != null && old(owner) != newOwner ==>
        old(owner).index == DetachEffect(old(owner.index), Profile())
      ensures newOwner.index == AttachEffect(old(newOwner.index), Profile())
    {
      if owner != newOwner {
        ResetOwner();
      }
      owner := newOwner;
      OnAttached();
    }

    /** `reset_owner`: when attached, run `on_detached` and then clear the owner. */
    method ResetOwner()
      modifies this`owner, OwnerSet()`index
      ensures owner == null
      ensures old(owner) != null ==> old(owner).index == DetachEffect(old(owner.index), Profile())
    {
      if owner != null {
        OnDetached();
        owner := null;
      }
    }

    /** `on_attached`, run with the owner already set. */
    method OnAttached()
      requires owner != null
      modifies owner`index
      ensures owner.index == AttachEffect(old(owner.index), Profile())
    {
      match kind
      case Generic =>
      case StatModifier =>
        if Test(targetRule, TARGET_SELF_BIT) {
          Activate(owner);
        }
    }

    /** `on_detached`, run while the owner is still set. */
    method OnDetached()
      requires owner != null
      modifies owner`index
      ensures owner.index == DetachEffect(old(owner.index), Profile())
    {
      match kind
      case Generic =>
      case StatModifier =>
        if Test(targetRule, TARGET_SELF_BIT) {
          Deactivate(owner);
        }
    }

    /**
     * `set_modifiers`: replaces the delta map and nothing else; records
     * already applied to an owner stay as they were.
     */
    method SetModifiers(newModifiers: map<string, StatValue>)
      requires kind == StatModifier
      modifies this`modifiers
      ensures modifiers == newModifiers
    {
      modifiers := newModifiers;
    }

    /**
     * `activate` / `apply_modifiers`: for every (stat, delta) of the map, one
     * record {delta, id, this} at the end of that stat's bucket of `target`.
     */
    method Activate(target: Character)
      requires kind == StatModifier
      modifies target`index
      ensures target.index == Applied(old(target.index), modifiers, id, this)
    {
      RestrictNone(modifiers);
      AppliedNothing(target.index, id, this);
      ghost var done: set<string> := {};
      var pending := modifiers.Keys;
      while pending != {}
        invariant done + pending == modifiers.Keys && done !! pending
        invariant target.index == Applied(old(target.index), Restrict(modifiers, done), id, this)
        decreases pending
      {
        var s :| s in pending;
        AppliedStep(old(target.index), modifiers, done, s, id, this);
        target.AddStatModifier(s, Record(modifiers[s], id, this));
        done := done + {s};
        pending := pending - {s};
      }
      RestrictAll(modifiers, done);
    }

    /**
     * `deactivate` / `remove_modifiers`: for every stat of the map, remove
     * the records of `target` tagged with this ability's id.
     */
    method Deactivate(target: Character)
      requires kind == StatModifier
      modifies target`index
      ensures target.index == Withdrawn(old(target.index), Tagged(modifiers, id))
    {
      RestrictNone(modifiers);
      assert Tagged(map[], id) == {};
      WithdrawnNothing(target.index);
      ghost var done: set<string> := {};
      var pending := modifiers.Keys;
      while pending != {}
        invariant done + pending == modifiers.Keys && done !! pending
        invariant target.index == Withdrawn(old(target.index), Tagged(Restrict(modifiers, done), id))
        decreases pending
      {
        var s :| s in pending;
        WithdrawnStep(old(target.index), modifiers, done, s, id);
        target.RemoveStatModifier(s, id);
        done := done + {s};
        pending := pending - {s};
      }
      RestrictAll(modifiers, done);
    }
  }

  class Character {
    var stats: map<string, StatValue>
    var index: Index
    /** Always-on abilities, in the order they were given. */
    var passiveAbilities: seq<Ability>

    constructor ()
      ensures stats == map[] && index == map[] && passiveAbilities == []
    {
      stats := map[];
      index := map[];
      passiveAbilities := [];
    }

    /** `set_stats`: replaces the base values, nothing else. */
    method SetStats(newStats: map<string, StatValue>)
      modifies this`stats
      ensures stats == newStats
    {
      stats := newStats;
    }

    /** `has_stat`: exactly the ids whose base value `get_base_stat` returns without throwing. */
    predicate HasStat(id: string)
      reads this`stats
      ensures HasStat(id) <==> GetBaseStat(id).Ok?
    {
      id in stats
    }

    /** `get_base_stat`: the stored value; `.at` throws for a missing id. */
    function GetBaseStat(id: string): (r: Result<StatValue>)
      reads this`stats
      ensures r.Ok? <==> id in stats
      ensures r.Ok? ==> r.value == stats[id]
      ensures r.Err? ==> r.error == NotFound
    {
      if id in stats then Ok(stats[id]) else Err(NotFound)
    }

    /**
     * `get_stat`: the base value plus every value under the stat. It needs a
     * base entry even when records exist, and every running total of the
     * signed 32-bit sum must fit.
     */
    function GetStat(id: string): (r: Result<StatValue>)
      reads this`stats, this`index
      requires id in stats ==> SumFits(stats[id], Bucket(index, id))
      ensures r.Ok? <==> HasStat(id)
      ensures r.Ok? ==> r.value == stats[id] + Sum(Bucket(index, id))
      ensures r.Err? ==> r.error == NotFound
    {
      match GetBaseStat(id)
      case Err(e) => Err(e)
      case Ok(base) => Ok(Accumulate(base, Bucket(index, id)))
    }

    /** `has_stat_modifier`: some record under the stat has the modifier id. */
    predicate HasStatModifier(statId: string, modifierId: string)
      reads this`index
      ensures HasStatModifier(statId, modifierId) <==>
        exists k :: 0 <= k < |Bucket(index, statId)| && Bucket(index, statId)[k].id == modifierId
    {
      ContainsId(Bucket(index, statId), modifierId)
    }

    /** `get_stat_modifiers`: the records under the stat, in insertion order. */
    function GetStatModifiers(statId: string): (r: seq<ModifierInfo>)
      reads this`index
      ensures r == Bucket(index, statId)
      ensures forall k :: 0 <= k < |r| ==> HasStatModifier(statId, r[k].id)
    {
      Bucket(index, statId)
    }

    /** `add_stat_modifier`: append, with no base-stat check and no duplicate check. */
    method AddStatModifier(statId: string, modifier: ModifierInfo)
      modifies this`index
      ensures index == Add(old(index), statId, modifier)
    {
      index := Add(index, statId, modifier);
    }

    /** `remove_stat_modifier`: drop every record under the stat with the modifier id. */
    method RemoveStatModifier(statId: string, modifierId: string)
      modifies this`index
      ensures index == Remove(old(index), statId, modifierId)
    {
      var b := Bucket(index, statId);
      var kept: seq<ModifierInfo> := [];
      var i := 0;
      while i < |b|
        invariant 0 <= i <= |b|
        invariant index == old(index)
        invariant kept == Without(b[..i], statId, {(statId, modifierId)})
      {
        WithoutPrefix(b, statId, modifierId, i);
        if b[i].id != modifierId {
          kept := kept + [b[i]];
        }
        i := i + 1;
      }
      assert b[..i] == b;
      RemoveByBucket(index, statId, modifierId, kept);
      index := Store(index, statId, kept);
    }

    /**
     * `set_passive_abilities`: store the list, then `set_owner(*this)` on
     * each entry in order. The abilities of the previous list are not
     * detached. Each entry's records are added to this character (twice for
     * an ability this character already owned), and an entry owned by a
     * different character is first detached from it.
     */
    method SetPassiveAbilities(newAbilities: seq<Ability>)
      modifies this`passiveAbilities, this`index, newAbilities`owner, Owners(newAbilities)`index
      ensures passiveAbilities == newAbilities
      ensures forall a :: a in newAbilities ==> a.owner == this
      ensures index == ApplyAll(old(index), old(Snapshot(newAbilities)))
      ensures forall x :: x in old(Owners(newAbilities)) && x != this ==>
        x.index == Withdrawn(old(x.index), DetachedFrom(old(Snapshot(newAbilities)), x))
    {
      ghost var snap := Snapshot(newAbilities);
      ghost var others := Owners(newAbilities) - {this};
      ghost var start: map<Character, Index> := map x: Character | x in others :: x.index;
      passiveAbilities := newAbilities;
      ProgressStart(newAbilities, snap, others, start, this);
      var i := 0;
      while i < |newAbilities|
        invariant passiveAbilities == newAbilities
        invariant Progress(newAbilities, snap, others, start, this, i)
        invariant index == ApplyAll(old(index), snap[..i])
      {
        ApplyAllPrefix(old(index), snap, i);
        AdoptEntry(this, newAbilities, i, snap, others, start);
        i := i + 1;
      }
      ProgressAll(newAbilities, snap, others, start, this);
      assert snap[..|snap|] == snap;
    }

    /**
     * `~character`: `reset_owner` on every listed ability, whoever owns it
     * now, so each one ends detached; an ability since attached to another
     * character is detached from that character.
     */
    method Destroy()
      modifies passiveAbilities`owner, Owners(passiveAbilities)`index
      ensures forall a :: a in passiveAbilities ==> a.owner == null
      ensures forall x :: x in old(Owners(passiveAbilities)) ==>
        x.index == Withdrawn(old(x.index), DetachedFrom(old(Snapshot(passiveAbilities)), x))
    {
      var abilities := passiveAbilities;
      ghost var snap := Snapshot(abilities);
      ghost var owners := Owners(abilities);
      ghost var start: map<Character, Index> := map x: Character | x in owners :: x.index;
      ProgressStart(abilities, snap, owners, start, null);
      var i := 0;
      while i < |abilities|
        invariant Progress(abilities, snap, owners, start, null, i)
      {
        ReleaseEntry(abilities, i, snap, owners, start);
        i := i + 1;
      }
      ProgressAll(abilities, snap, owners, start, null);
    }
  }

  /**
   * One iteration of the loop of `set_passive_abilities`: `set_owner(target)`
   * on entry `i`, with `Progress` carried from `i` to `i + 1`.
   */
  method AdoptEntry(target: Character, abilities: seq<Ability>, i: nat, ghost snap: seq<Attachment>,
                    ghost others: set<Character>, ghost start: map<Character, Index>)
    requires i < |abilities|
    requires Progress(abilities, snap, others, start, target, i)
    modifies {abilities[i]}`owner, others`index, target`index
    ensures Progress(abilities, snap, others, start, target, i + 1)
    ensures target.index == AttachEffect(old(target.index), snap[i].profile)
  {
    AdoptStep(target, abilities, i, snap, others, start);
  }

  /** `AdoptEntry` with the conjuncts of `Progress` it needs and keeps. */
  method AdoptStep(target: Character, abilities: seq<Ability>, i: nat, ghost snap: seq<Attachment>,
                   ghost others: set<Character>, ghost start: map<Character, Index>)
    requires i < |abilities| && |snap| == |abilities|
    requires SameAbilitySameEntry(abilities, snap)
    requires ProfilesAre(abilities, snap)
    requires snap[i].owner != null && snap[i].owner != target ==> snap[i].owner in others
    requires target !in others
    requires OwnedSoFar(abilities, snap, Seen(abilities, i), target)
    requires Withdrawals(others, start, snap, i)
    modifies {abilities[i]}`owner, others`index, target`index
    ensures ProfilesAre(abilities, snap)
    ensures OwnedSoFar(abilities, snap, Seen(abilities, i + 1), target)
    ensures Withdrawals(others, start, snap, i + 1)
    ensures target.index == AttachEffect(old(target.index), snap[i].profile)
  {
    var a := abilities[i];
    ghost var first := a !in Seen(abilities, i);
    FirstOccurrence(abilities, snap, i);
    OwnerBeforeStep(abilities, snap, Seen(abilities, i), target, i);
    ghost var previous := a.owner;
    a.SetOwner(target);
    forall x | x in others
      ensures x.index == if first && snap[i].owner == x then DetachEffect(old(x.index), snap[i].profile) else old(x.index)
    {
      if x != previous {
        assert x.index == old(x.index);
      }
    }
    SeenStep(abilities, i);
    forall k | 0 <= k < |abilities|
      ensures abilities[k].owner == if abilities[k] in Seen(abilities, i + 1) then target else snap[k].owner
    {
      if abilities[k] != a {
        assert abilities[k].owner == old(abilities[k].owner);
      }
    }
    forall x | x in others ensures x.index == Withdrawn(start[x], DetachedFrom(snap[..i + 1], x)) {
      assert old(x.index) == Withdrawn(start[x], DetachedFrom(snap[..i], x));
      DetachedFromNext(snap, i, x, first);
      DetachStep(start[x], DetachedFrom(snap[..i], x), snap[i].profile, first && snap[i].owner == x, x.index);
    }
  }

  /**
   * One iteration of the loop of `~character`: `reset_owner` on entry `i`,
   * with `Progress` carried from `i` to `i + 1`.
   */
  method ReleaseEntry(abilities: seq<Ability>, i: nat, ghost snap: seq<Attachment>,
                      ghost owners: set<Character>, ghost start: map<Character, Index>)
    requires i < |abilities|
    requires Progress(abilities, snap, owners, start, null, i)
    modifies {abilities[i]}`owner, owners`index
    ensures Progress(abilities, snap, owners, start, null, i + 1)
  {
    ReleaseStep(abilities, i, snap, owners, start);
  }

  /** `ReleaseEntry` with the conjuncts of `Progress` it needs and keeps. */
  method ReleaseStep(abilities: seq<Ability>, i: nat, ghost snap: seq<Attachment>,
                     ghost owners: set<Character>, ghost start: map<Character, Index>)
    requires i < |abilities| && |snap| == |abilities|
    requires SameAbilitySameEntry(abilities, snap)
    requires ProfilesAre(abilities, snap)
    requires snap[i].owner != null ==> snap[i].owner in owners
    requires OwnedSoFar(abilities, snap, Seen(abilities, i), null)
    requires Withdrawals(owners, start, snap, i)
    modifies {abilities[i]}`owner, owners`index
    ensures ProfilesAre(abilities, snap)
    ensures OwnedSoFar(abilities, snap, Seen(abilities, i + 1), null)
    ensures Withdrawals(owners, start, snap, i + 1)
  {
    var a := abilities[i];
    ghost var first := a !in Seen(abilities, i);
    FirstOccurrence(abilities, snap, i);
    OwnerBeforeStep(abilities, snap, Seen(abilities, i), null, i);
    ghost var previous := a.owner;
    a.ResetOwner();
    forall x | x in owners
      ensures x.index == if first && snap[i].owner == x then DetachEffect(old(x.index), snap[i].profile) else old(x.index)
    {
      if x != previous {
        assert x.index == old(x.index);
      }
    }
    SeenStep(abilities, i);
    forall k | 0 <= k < |abilities|
      ensures abilities[k].owner == if abilities[k] in Seen(abilities, i + 1) then null else snap[k].owner
    {
      if abilities[k] != a {
        assert abilities[k].owner == old(abilities[k].owner);
      }
    }
    forall x | x in owners ensures x.index == Withdrawn(start[x], DetachedFrom(snap[..i + 1], x)) {
      assert old(x.index) == Withdrawn(start[x], DetachedFrom(snap[..i], x));
      DetachedFromNext(snap, i, x, first);
      DetachStep(start[x], DetachedFrom(snap[..i], x), snap[i].profile, first && snap[i].owner == x, x.index);
    }
  }

  /**
   * The invariant of the loops of `SetPassiveAbilities` (`target` the new
   * owner, `owners` the other previous owners) and `Destroy` (`target` null,
   * `owners` all previous owners) after `i` entries, against the snapshot
   * taken before the loop.
   */
  ghost predicate Progress(abilities: seq<Ability>, snap: seq<Attachment>, owners: set<Character>,
                           start: map<Character, Index>, target: Character?, i: nat)
    reads abilities`owner, abilities`modifiers, owners`index
  {
    && i <= |abilities| && |snap| == |abilities|
    && SameAbilitySameEntry(abilities, snap)
    && (forall k :: 0 <= k < |snap| && snap[k].owner != null && snap[k].owner != target ==> snap[k].owner in owners)
    && target !in owners
    && ProfilesAre(abilities, snap)
    && OwnedSoFar(abilities, snap, Seen(abilities, i), target)
    && Withdrawals(owners, start, snap, i)
  }

  lemma ProgressStart(abilities: seq<Ability>, snap: seq<Attachment>, owners: set<Character>,
                      start: map<Character, Index>, target: Character?)
    requires snap == Snapshot(abilities)
    requires owners == Owners(abilities) - {target}
    requires start == map x: Character | x in owners :: x.index
    ensures Progress(abilities, snap, owners, start, target, 0)
  {
    SnapshotOfSameAbility(abilities, snap);
    WithdrawalsStart(owners, start, snap);
  }

  lemma ProgressAll(abilities: seq<Ability>, snap: seq<Attachment>, owners: set<Character>,
                    start: map<Character, Index>, target: Character?)
    requires Progress(abilities, snap, owners, start, target, |abilities|)
    ensures forall a :: a in abilities ==> a.owner == target
    ensures forall x :: x in owners ==> x.index == Withdrawn(start[x], DetachedFrom(snap, x))
  {
    OwnedAll(abilities, snap, target);
    WithdrawalsAll(owners, start, snap);
  }

  /** The characters that own some ability of `abilities`. */
  ghost function Owners(abilities: seq<Ability>): set<Character>
    reads abilities
  {
    set a | a in abilities && a.owner != null :: a.owner
  }

  /** Each ability of the list as it is now: its owner and its hook profile. */
  ghost function Snapshot(abilities: seq<Ability>): (snap: seq<Attachment>)
    reads abilities
    ensures |snap| == |abilities|
    ensures forall k :: 0 <= k < |abilities| ==> snap[k] == Attachment(abilities[k].owner, abilities[k].Profile())
    ensures forall k :: 0 <= k < |abilities| && snap[k].owner != null ==> snap[k].owner in Owners(abilities)
  {
    seq(|abilities|, k requires 0 <= k < |abilities| reads abilities => Attachment(abilities[k].owner, abilities[k].Profile()))
  }

  // ---------------------------------------------------------------------
  // The loop invariants of `SetPassiveAbilities` and `Destroy`, and their
  // one-iteration steps.

  /** The same ability, met twice in the list, has the same snapshot entry. */
  ghost predicate SameAbilitySameEntry(abilities: seq<Ability>, snap: seq<Attachment>)
    requires |snap| == |abilities|
  {
    forall j, k :: 0 <= j < |abilities| && 0 <= k < |abilities| && abilities[j] == abilities[k] ==> snap[j] == snap[k]
  }

  lemma SnapshotOfSameAbility(abilities: seq<Ability>, snap: seq<Attachment>)
    requires |snap| == |abilities|
    requires forall k :: 0 <= k < |abilities| ==> snap[k] == Attachment(abilities[k].owner, abilities[k].Profile())
    ensures SameAbilitySameEntry(abilities, snap)
    ensures ProfilesAre(abilities, snap)
  {
  }

  /** The entries of `abilities[..i]`. */
  ghost function Seen(abilities: seq<Ability>, i: nat): set<Ability>
    requires i <= |abilities|
  {
    set k | 0 <= k < i :: abilities[k]
  }

  lemma SeenStep(abilities: seq<Ability>, i: nat)
    requires i < |abilities|
    ensures Seen(abilities, i + 1) == Seen(abilities, i) + {abilities[i]}
  {
    forall a | a in Seen(abilities, i + 1) ensures a in Seen(abilities, i) + {abilities[i]} {
      var k :| 0 <= k < i + 1 && abilities[k] == a;
      if k < i {
        assert a in Seen(abilities, i);
      }
    }
  }

  /** A repeated entry of the list has the snapshot of its first occurrence. */
  lemma FirstOccurrence(abilities: seq<Ability>, snap: seq<Attachment>, i: nat)
    requires |snap| == |abilities| && i < |abilities|
    requires SameAbilitySameEntry(abilities, snap)
    ensures abilities[i] in Seen(abilities, i) ==> exists k :: 0 <= k < i && snap[k] == snap[i]
  {
    if abilities[i] in Seen(abilities, i) {
      var k :| 0 <= k < i && abilities[k] == abilities[i];
      assert snap[k] == snap[i];
    }
  }

  /** The hook profiles of the list are those of the snapshot. */
  ghost predicate ProfilesAre(abilities: seq<Ability>, snap: seq<Attachment>)
    reads abilities`modifiers
    requires |snap| == |abilities|
  {
    forall k :: 0 <= k < |abilities| ==> abilities[k].Profile() == snap[k].profile
  }

  /** The entries met so far (`seen`) are owned by `target`; the others keep their owner. */
  ghost predicate OwnedSoFar(abilities: seq<Ability>, snap: seq<Attachment>, seen: set<Ability>, target: Character?)
    reads abilities`owner
    requires |snap| == |abilities|
  {
    forall k :: 0 <= k < |abilities| ==>
      abilities[k].owner == if abilities[k] in seen then target else snap[k].owner
  }

  /** Before iteration `i`, entry `i` is owned by `target` if met before, else by its snapshot owner. */
  lemma OwnerBeforeStep(abilities: seq<Ability>, snap: seq<Attachment>, seen: set<Ability>, target: Character?, i: nat)
    requires |snap| == |abilities| && i < |abilities|
    requires OwnedSoFar(abilities, snap, seen, target)
    ensures abilities[i].owner == if abilities[i] in seen then target else snap[i].owner
  {
  }

  lemma OwnedAll(abilities: seq<Ability>, snap: seq<Attachment>, target: Character?)
    requires |snap| == |abilities|
    requires OwnedSoFar(abilities, snap, Seen(abilities, |abilities|), target)
    ensures forall a :: a in abilities ==> a.owner == target
  {
    forall a | a in abilities ensures a.owner == target {
      var k :| 0 <= k < |abilities| && abilities[k] == a;
      assert a in Seen(abilities, |abilities|);
    }
  }

  /** Every character of `owners` has lost the pairs of the entries of `snap[..i]` it owned. */
  ghost predicate Withdrawals(owners: set<Character>, start: map<Character, Index>, snap: seq<Attachment>, i: nat)
    reads owners`index
    requires i <= |snap|
  {
    forall x :: x in owners ==> x in start && x.index == Withdrawn(start[x], DetachedFrom(snap[..i], x))
  }

  lemma WithdrawalsStart(owners: set<Character>, start: map<Character, Index>, snap: seq<Attachment>)
    requires forall x :: x in owners ==> x in start && x.index == start[x]
    ensures Withdrawals(owners, start, snap, 0)
  {
    forall x | x in owners ensures x.index == Withdrawn(start[x], DetachedFrom(snap[..0], x)) {
      assert DetachedFrom(snap[..0], x) == {};
      WithdrawnNothing(x.index);
    }
  }

  lemma WithdrawalsAll(owners: set<Character>, start: map<Character, Index>, snap: seq<Attachment>)
    requires Withdrawals(owners, start, snap, |snap|)
    ensures forall x :: x in owners ==> x in start && x.index == Withdrawn(start[x], DetachedFrom(snap, x))
  {
    assert snap[..|snap|] == snap;
  }
}
