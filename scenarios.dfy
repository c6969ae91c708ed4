/**
 * Concrete call sequences of a client of the engine, with the values the
 * code as written produces. Each one exercises the contracts of module
 * Stardust on fresh objects.
 */
module Scenarios {
  import opened Types
  import opened TargetRules
  import opened ModifierIndex
  import opened AbilityEffects
  import opened Stardust

  /**
   * Base health 100 and a +10 health ability built with the `self` rule: the
   * hooks test the `enemy` bit, so attaching it adds nothing.
   */
  method SelfRuleRegeneration() returns (health: Result<StatValue>)
    ensures health == Ok(100)
  {
    var c := new Character();
    c.SetStats(map["health" := 100]);
    var regen := new Ability("regen", SELF, StatModifier);
    regen.SetModifiers(map["health" := 10]);
    SelfBitIsEnemyFlag(SELF);
    regen.SetOwner(c);
    assert Bucket(c.index, "health") == [];
    assert c.stats["health"] == 100;
    health := c.GetStat("health");
  }

  /**
   * The same ability built with the `enemy` rule: health 110 while attached
   * and 100 again after `reset_owner`; a second `reset_owner` changes
   * nothing.
   */
  method EnemyRuleRegeneration() returns (attached: Result<StatValue>, detached: Result<StatValue>)
    ensures attached == Ok(110)
    ensures detached == Ok(100)
  {
    var c := new Character();
    var regen := new Ability("regen", ENEMY, StatModifier);
    regen.SetModifiers(map["health" := 10]);
    ghost var p := regen.Profile();
    SelfBitIsEnemyFlag(ENEMY);
    var r := ModifierInfo(10, "regen", regen);
    assert Bucket(AttachEffect(map[], p), "health") == [r];
    SumOfOne(r);
    regen.SetOwner(c);
    c.SetStats(map["health" := 100]);
    attached := c.GetStat("health");
    DetachUndoesAttach(map[], p);
    regen.ResetOwner();
    regen.ResetOwner();
    assert c.index == map[];
    detached := c.GetStat("health");
  }

  /** Two abilities adding +5 ("buff_a") and +3 ("buff_b") to attack, attached in turn. */
  method AttachedBuffs() returns (c: Character, a: Ability, b: Ability)
    ensures fresh(c) && fresh(a) && fresh(b)
    ensures Bucket(c.index, "attack") == [ModifierInfo(5, "buff_a", a), ModifierInfo(3, "buff_b", b)]
  {
    c := new Character();
    a := new Ability("buff_a", ENEMY, StatModifier);
    a.SetModifiers(map["attack" := 5]);
    b := new Ability("buff_b", ENEMY, StatModifier);
    b.SetModifiers(map["attack" := 3]);
    SelfBitIsEnemyFlag(ENEMY);
    a.SetOwner(c);
    assert Bucket(c.index, "attack") == [ModifierInfo(5, "buff_a", a)];
    b.SetOwner(c);
  }

  /**
   * Base attack 20 with the two buffs: 28. Removing the "buff_a" records by
   * hand: 23, and the "buff_b" record is still there.
   */
  method Buffs() returns (both: Result<StatValue>, afterRemove: Result<StatValue>, stillHasB: bool)
    ensures both == Ok(28)
    ensures afterRemove == Ok(23)
    ensures stillHasB
  {
    var c, a, b := AttachedBuffs();
    var ra, rb := ModifierInfo(5, "buff_a", a), ModifierInfo(3, "buff_b", b);
    SumOfTwo(ra, rb);
    c.SetStats(map["attack" := 20]);
    both := c.GetStat("attack");
    WithoutFirst(ra, rb, "attack");
    c.RemoveStatModifier("attack", "buff_a");
    SumOfOne(rb);
    afterRemove := c.GetStat("attack");
    stillHasB := c.HasStatModifier("attack", "buff_b");
  }

  /**
   * `set_owner` to the current owner runs `on_attached` a second time with
   * no detach in between: two +10 records.
   */
  method AttachedTwice() returns (c: Character, regen: Ability)
    ensures fresh(c) && fresh(regen)
    ensures Bucket(c.index, "health") == [ModifierInfo(10, "regen", regen), ModifierInfo(10, "regen", regen)]
  {
    c := new Character();
    regen := new Ability("regen", ENEMY, StatModifier);
    regen.SetModifiers(map["health" := 10]);
    ghost var p := regen.Profile();
    SelfBitIsEnemyFlag(ENEMY);
    AttachTwiceDuplicates(map[], p, "health");
    regen.SetOwner(c);
    regen.SetOwner(c);
  }

  /** With base health 100 the doubly attached ability gives 120, from two records. */
  method Reattach() returns (health: Result<StatValue>, records: nat)
    ensures health == Ok(120)
    ensures records == 2
  {
    var c, regen := AttachedTwice();
    var r := ModifierInfo(10, "regen", regen);
    SumOfTwo(r, r);
    c.SetStats(map["health" := 100]);
    health := c.GetStat("health");
    records := |c.GetStatModifiers("health")|;
  }

  /** A +10 health ability listed as the one passive ability of `first`. */
  method ListedAbility() returns (first: Character, regen: Ability)
    ensures fresh(first) && fresh(regen)
    ensures first.passiveAbilities == [regen] && regen.owner == first
    ensures regen.Profile() == EffectProfile("regen", true, map["health" := 10], regen)
  {
    first := new Character();
    regen := new Ability("regen", ENEMY, StatModifier);
    regen.SetModifiers(map["health" := 10]);
    SelfBitIsEnemyFlag(ENEMY);
    first.SetPassiveAbilities([regen]);
  }

  /** The same ability, then moved to `second` with `set_owner`. */
  method MovedAbility() returns (first: Character, second: Character, regen: Ability)
    ensures fresh(first) && fresh(second) && fresh(regen)
    ensures first.passiveAbilities == [regen] && regen.owner == second
    ensures regen.Profile() == EffectProfile("regen", true, map["health" := 10], regen)
    ensures second.index == AttachEffect(map[], regen.Profile())
  {
    first, regen := ListedAbility();
    second := new Character();
    regen.SetOwner(second);
  }

  /**
   * `~character` of `first` resets every listed ability, even one since
   * moved to another character: the ability ends detached and `second`
   * loses its records.
   */
  method DestroyAfterMove() returns (second: Character, regen: Ability)
    ensures fresh(second) && fresh(regen)
    ensures regen.owner == null
    ensures second.index == map[]
  {
    var first;
    first, second, regen := MovedAbility();
    ghost var p := regen.Profile();
    assert Snapshot(first.passiveAbilities) == [Attachment(second, p)];
    DetachedFromOne(second, p);
    DetachUndoesAttach(map[], p);
    first.Destroy();
  }

  /** After that, with base health 50, `second` reads 50 and the ability is detached. */
  method HealthAfterDestroy() returns (detached: bool, otherHealth: Result<StatValue>)
    ensures detached
    ensures otherHealth == Ok(50)
  {
    var second, regen := DestroyAfterMove();
    detached := regen.owner == null;
    second.SetStats(map["health" := 50]);
    otherHealth := second.GetStat("health");
  }

  /** An ability of the base kind: attaching it sets its owner and adds no record. */
  method GenericAbility() returns (owned: bool, health: Result<StatValue>)
    ensures owned
    ensures health == Ok(100)
  {
    var c := new Character();
    var g := new Ability("badge", ENEMY, Generic);
    g.SetOwner(c);
    assert c.index == map[];
    owned := g.owner == c;
    c.SetStats(map["health" := 100]);
    health := c.GetStat("health");
  }

  /** A stat with no base entry is not found, even with records under it. */
  method UnknownStat() returns (r: Result<StatValue>, recorded: bool)
    ensures r == Err(NotFound)
    ensures recorded
  {
    var c := new Character();
    c.AddStatModifier("unknown", ModifierInfo(1, "m", null));
    r := c.GetStat("unknown");
    recorded := c.HasStatModifier("unknown", "m");
  }

  lemma SumOfOne(x: ModifierInfo)
    ensures Sum([x]) == x.value
  {
    assert [x][1..] == [];
  }

  lemma SumOfTwo(x: ModifierInfo, y: ModifierInfo)
    ensures Sum([x, y]) == x.value + y.value
  {
    assert [x, y][1..] == [y];
    SumOfOne(y);
  }

  lemma WithoutFirst(x: ModifierInfo, y: ModifierInfo, s: string)
    requires x.id != y.id
    ensures Without([x, y], s, {(s, x.id)}) == [y]
  {
    assert [x, y][..1] == [x];
    assert [x][..0] == [];
  }

  lemma DetachedFromOne(x: object?, p: EffectProfile)
    ensures DetachedFrom([Attachment(x, p)], x) == DetachPairs(p)
  {
    var snap := [Attachment(x, p)];
    forall q | q in DetachPairs(p) ensures q in DetachedFrom(snap, x) {
      assert snap[0].owner == x && q in DetachPairs(snap[0].profile);
    }
  }
}
