# stardust: character stats and attachable abilities, in Dafny

This project models the core of the stardust engine. The core covers two
entities that refer to each other.

- **`character`** holds three things:
  - a base-stat map (stat id to signed 32-bit value);
  - a multimap from stat id to `modifier_info{value, id, originator}`;
  - a list of passive abilities.

  A stat's current value is its base value plus the values of every record
  under its id. Records can be added, queried and removed by modifier id.
  `set_passive_abilities` attaches a list of abilities to the character, and
  the destructor (`Destroy` here) detaches them.
- **`ability`** has an immutable id, a four-bit target rule and a nullable
  owner.
  - `set_owner` and `reset_owner` move it between detached and attached and
    run the `on_attached` / `on_detached` hooks.
  - The `stat_modifier_ability` variant's hooks push or withdraw one record
    per entry of its delta map on the owner.

## Modules

- **`Types`** (`types.dfy`): `StatValue` as an int32 range, `ModifierInfo`, and
  the `Result` / `Option` wrappers. A thrown `std::out_of_range` becomes
  `Err(NotFound)`.
- **`TargetRules`** (`target_rules.dfy`):
  - the rule is a `bv4`, with `bitset::test` as `Test`;
  - the `std::bitset<4>(string)` constructor is `BitsFromString`;
  - it defines the named rules and the bit constants of `src/abilities.cpp`;
  - lemmas show that the hooks test the `enemy` flag and that the constructor
    assertion fails for every named rule.
- **`ModifierIndex`** (`modifier_index.dfy`):
  - the multimap is an `Index`, a map from stat id to a non-empty bucket kept
    in insertion order;
  - it holds the folds and filters that `get_stat`, `has_stat_modifier` and
    `remove_stat_modifier` compute;
  - it holds what a delta map adds (`Applied`) or withdraws (`Withdrawn`,
    `Tagged`).
- **`AbilityEffects`** (`ability_effects.dfy`):
  - the hooks' effect on an owner's index, stated on values as `AttachEffect`
    and `DetachEffect`;
  - the same effect for a whole list of abilities, on a snapshot taken before
    the loop, as `ApplyAll` and `DetachedFrom`.
- **`Stardust`** (`stardust.dfy`): the classes `Ability` and `Character`.
  - Their methods change their fields in place.
  - Each one is proved against the functions above.
  - `kind: AbilityKind` stands for the virtual hooks. `Generic` is the base
    class's no-op hooks; `StatModifier` is `stat_modifier_ability`.
  - The loops of `SetPassiveAbilities` and `Destroy` carry the invariant
    `Progress` (which abilities are owned so far, and what each previous
    owner has lost) through a step method (`AdoptEntry` / `ReleaseEntry`).
    The loop of `SetPassiveAbilities` also keeps the stored list and this
    character's index, `ApplyAll` of the entries seen so far.
- **`Scenarios`** (`scenarios.dfy`): concrete call sequences on fresh objects.
  Each one states the values the code as written produces.

## Behaviour of the code worth knowing

The model follows the code in every case.

- The named rule `self` is `bitset("1000")`, which is bit 3. The hooks test
  bit 0 (`target_self_bit`), which is the `enemy` flag.
  - An ability built with `target_rules::self` therefore never applies to its
    owner: `Scenarios.SelfRuleRegeneration` keeps health at 100, not 110.
  - One built with `enemy`, or with `all`, which contains `enemy`, does apply.
- The constructor asserts `none()`, so the debug assertion fails for every
  non-empty rule. The model does not make that assertion a precondition.
  `TargetRules.ConstructorAssertionOnlyForEmptyRule` states what it checks.
- `set_owner` to the current owner skips `reset_owner` and runs `on_attached`
  again, so the records are duplicated (`AbilityEffects.AttachTwiceDuplicates`,
  `Scenarios.Reattach`).
- The doc comment of `set_modifiers` says new modifiers are applied at once
  when the ability is attached. The code only replaces the map
  (`Stardust.Ability.SetModifiers` has a frame of `this`modifiers` alone).
- `set_passive_abilities` does not detach the abilities of the previous list.
- The destructor resets every listed ability, even one now owned by another
  character. That character loses the ability's records
  (`Stardust.Character.Destroy`, `Scenarios.DestroyAfterMove`).

## Model

| member | source | states |
|---|---|---|
| `Types.DefaultModifierInfo` | include/stardust/types.hpp:13-18 | the value-initialised record has value 0, an empty id and no originator |
| `TargetRules.FlagsDetermineRule` | include/stardust/types.hpp:11 | a four-bit rule is determined by its four flags |
| `TargetRules.ParseBits` | include/stardust/abilities.hpp:15-19 | reading a binary string of at most four digits: defined exactly when every character is 0 or 1, bit i is the i-th character from the right, and higher bits are clear |
| `TargetRules.BitsFromString` | include/stardust/abilities.hpp:15-19 | the `bitset<4>(string)` constructor fails exactly when some character of the string is neither 0 nor 1; otherwise it reads the first min(4, n) characters with the rightmost as bit 0 and leaves higher bits clear |
| `TargetRules.NamedRulesFromBitStrings` | include/stardust/abilities.hpp:15-19 | `self`, `pulse`, `friendly` and `enemy` are the rules their strings build, and each sets exactly bit 3, 2, 1 or 0 |
| `TargetRules.CompoundRules` | include/stardust/abilities.hpp:17-21 | `aura` is self or pulse, `all_other` is friendly or enemy, and `all` is self, friendly or enemy, which leaves out `pulse` |
| `TargetRules.SelfBitIsEnemyFlag` | src/abilities.cpp:8-11 | the hooks' test of bit 0 passes exactly for rules containing `enemy`; it fails for `self` and `aura`; no bit constant matches its named flag |
| `TargetRules.ConstructorAssertionOnlyForEmptyRule` | src/abilities.cpp:18-22 | the constructor's `none()` assertion holds exactly for the empty rule and fails for all seven named rules |
| `Stardust.Ability.constructor` | src/abilities.cpp:18-22 | id, rule and kind are stored unchanged; the ability starts detached with an empty delta map |
| `Stardust.Ability.SetOwner` | src/abilities.cpp:24-33 | afterwards the owner is the new one; a different non-null previous owner was detached first; the new owner gains the attach effect, a second time if it was already the owner |
| `Stardust.Ability.ResetOwner` | src/abilities.cpp:35-42 | afterwards the owner is null; a previous owner lost the detach effect; when already detached, nothing changes |
| `Stardust.Ability.OnAttached` | src/abilities.cpp:64-70 | the owner's index becomes `AttachEffect` of this ability's profile: the delta records for a stat modifier whose rule has bit 0, otherwise no change |
| `Stardust.Ability.OnDetached` | src/abilities.cpp:72-78 | the owner's index becomes `DetachEffect` of this ability's profile, computed while the owner is still set |
| `Stardust.Ability.SetModifiers` | src/abilities.cpp:58-62 | the delta map is replaced and nothing else changes; no character's records change |
| `Stardust.Ability.Activate` | src/abilities.cpp:80-86 | the target gains one record {delta, id, this ability} at the end of the bucket of each stat of the delta map, and every other bucket is unchanged |
| `Stardust.Ability.Deactivate` | src/abilities.cpp:88-94 | for each stat in the current delta map, the target loses every record with this ability's id; other stats are untouched |
| `AbilityEffects.AttachEffect` | src/abilities.cpp:64-70 | each bucket of the owner gains exactly the record the profile adds for that stat, and nothing is removed |
| `AbilityEffects.DetachPairs` | src/abilities.cpp:72-78 | the (stat, id) pairs withdrawn on detach are exactly the delta map's stats with this ability's id, and only when the hook acts |
| `AbilityEffects.DetachEffect` | src/abilities.cpp:72-78 | detaching withdraws exactly the pairs of `DetachPairs` |
| `AbilityEffects.DetachUndoesAttach` | src/abilities.cpp:64-78 | attach followed by detach returns the owner's index unchanged, when the owner had no record with the ability's id under the modified stats |
| `AbilityEffects.AttachTwiceDuplicates` | src/abilities.cpp:26-32 | attaching twice without a detach leaves two identical records under each modified stat |
| `AbilityEffects.ApplyAll` | src/character.cpp:64-68 | attaching a list of abilities in order adds, to each bucket, the records of every listed profile in list order, and removes nothing |
| `ModifierIndex.BucketsDetermineIndex` | include/stardust/character.hpp:104 | two multimaps with the same equal range for every key are the same multimap |
| `ModifierIndex.Accumulate` | src/character.cpp:20-22 | the `std::accumulate` fold, where every running total fits in 32 bits, is the start value plus the bucket's total |
| `ModifierIndex.SumPermutation` | src/character.cpp:17-23 | the total of a bucket does not depend on the order of its records |
| `ModifierIndex.ContainsId` | src/character.cpp:28-29 | `find_if` on the id succeeds exactly when some record of the bucket has that id |
| `ModifierIndex.Add` | src/character.cpp:42-45 | `emplace` appends the record to the end of its key's bucket; other buckets are unchanged |
| `ModifierIndex.AddGrowsSum` | src/character.cpp:42-45 | after an add, the bucket's total grows by the record's value and the bucket contains its id |
| `ModifierIndex.Without` | src/character.cpp:51-57 | exactly the records whose (stat, id) pair is not withdrawn survive, each as often as it occurred, and nothing new appears |
| `ModifierIndex.WithoutSingleton` | src/character.cpp:53-56 | a single record is kept exactly when its pair is not withdrawn |
| `ModifierIndex.WithoutConcat` | src/character.cpp:51-57 | the filter works record by record: the survivors of a concatenation are the survivors of each part, in the same order |
| `ModifierIndex.Remove` | src/character.cpp:47-58 | after a remove, no record under the stat has the id, the other records there keep their order, and other buckets are unchanged |
| `ModifierIndex.RemoveAbsent` | src/character.cpp:47-58 | removing an id absent from the bucket changes nothing |
| `ModifierIndex.WithdrawnCompose` | src/abilities.cpp:88-94 | two withdrawals in a row are one withdrawal of both pair sets |
| `ModifierIndex.Applied` | src/abilities.cpp:80-86 | applying a delta map appends one record per stat of the map, to that stat's bucket only |
| `ModifierIndex.Tagged` | src/abilities.cpp:88-94 | removal under a delta map concerns exactly the pairs (stat of the map, ability id) |
| `ModifierIndex.WithdrawnUndoesApplied` | src/abilities.cpp:80-94 | withdrawing what a delta map applied restores the index, when no record under those stats had the id before |
| `Stardust.Character.constructor` | include/stardust/character.hpp:106-108 | a new character has no stats, no records and no passive abilities |
| `Stardust.Character.SetStats` | include/stardust/character.hpp:31-34 | the base map is replaced; records and passive abilities are untouched |
| `Stardust.Character.HasStat` | include/stardust/character.hpp:47-50 | holds exactly for the ids whose base value `get_base_stat` returns without throwing |
| `Stardust.Character.GetBaseStat` | include/stardust/character.hpp:56-59 | the stored base value exactly when the stat exists, `NotFound` otherwise |
| `Stardust.Character.GetStat` | src/character.cpp:17-23 | the base value plus the total of the records under the id; `NotFound` without a base entry, even when records exist |
| `Stardust.Character.HasStatModifier` | src/character.cpp:25-30 | holds exactly when some record under the stat has the modifier id |
| `Stardust.Character.GetStatModifiers` | src/character.cpp:32-40 | the records under the stat in insertion order, each of them found by `HasStatModifier` |
| `Stardust.Character.AddStatModifier` | src/character.cpp:42-45 | the index becomes `Add` of the old one: appended, no base-stat check, duplicates allowed |
| `Stardust.Character.RemoveStatModifier` | src/character.cpp:47-58 | the loop leaves the index equal to `Remove` of the old one |
| `Stardust.Character.SetPassiveAbilities` | src/character.cpp:60-69 | the list is stored and every listed ability is owned by this character. This character's index becomes `ApplyAll` of the pre-call snapshot. Every other previous owner loses exactly the pairs of the entries it owned |
| `Stardust.Character.Destroy` | src/character.cpp:9-15 | every listed ability ends detached, and every previous owner loses exactly the pairs of the entries it owned, including an owner other than this character |
| `Stardust.AdoptEntry` | src/character.cpp:64-68 | one `set_owner(*this)` of the loop keeps `Progress` for the next index and adds the attach effect of that entry to this character |
| `Stardust.ReleaseEntry` | src/character.cpp:11-14 | one `reset_owner` of the destructor's loop keeps `Progress` for the next index |
| `Scenarios.SelfRuleRegeneration` | src/abilities.cpp:64-70 | a +10 health ability with the `self` rule leaves base health 100 at 100 |
| `Scenarios.EnemyRuleRegeneration` | src/abilities.cpp:64-78 | with the `enemy` rule, health reads 110 while attached and 100 after `reset_owner`, which is idempotent |
| `Scenarios.AttachedBuffs` | src/abilities.cpp:80-86 | two abilities attached in turn leave their records in attach order |
| `Scenarios.Buffs` | src/character.cpp:47-58 | attack 20 with +5 and +3 reads 28; after removing "buff_a" it reads 23 and "buff_b" is still there |
| `Scenarios.AttachedTwice` | src/abilities.cpp:24-33 | `set_owner` twice to the same character leaves two identical records |
| `Scenarios.Reattach` | src/abilities.cpp:26-32 | health 100 with a doubly attached +10 ability reads 120, from two records |
| `Scenarios.ListedAbility` | src/character.cpp:60-69 | an ability passed to `set_passive_abilities` is owned by the character |
| `Scenarios.MovedAbility` | src/abilities.cpp:24-33 | moving that ability to a second character gives the second one its records |
| `Scenarios.DestroyAfterMove` | src/character.cpp:9-15 | destroying the first character detaches the moved ability and clears the second one's records |
| `Scenarios.HealthAfterDestroy` | src/character.cpp:11-14 | after that, the second character's health reads its base value 50 |
| `Scenarios.GenericAbility` | include/stardust/abilities.hpp:102-109 | a base-kind ability gets its owner set and adds no record |
| `Scenarios.UnknownStat` | include/stardust/character.hpp:56-59 | a stat with records but no base entry is `NotFound` |

## Left out

- Smart pointers and object lifetime (`unique_ptr`, `shared_ptr`, `weak_ptr`, destruction itself): abilities and characters are plain Dafny references, and the destructor is the explicit method `Destroy`.
- The deleted copy operations of `ability`: Dafny object identity already prevents copies.
- Targeting of other characters: only TODOs exist for validation and dispatch, so `Activate` / `Deactivate` apply to whatever target they are given.
- Build-mode behaviour of `assert`:
  - the constructor assertion is stated as a predicate and is not enforced;
  - the null check of `set_passive_abilities` is implied by the element type `seq<Ability>`, which has no null entries.
- The inline getters (`get_id`, `get_target_rule`, `get_owner`, `get_modifiers`, `get_stats`, `get_passive_abilities`) are direct reads of the corresponding fields and constants.
- Iteration order of `std::map` in `apply_modifiers` / `remove_modifiers`: the loops pick keys in any order. Each key touches its own bucket, so the proved result does not depend on the order.
- Stardust.Character.RemoveStatModifier: the erase loop of the source has undefined behaviour, because it increments an erased iterator. The model states the evident intent: every matching record under the stat is removed.
- Stardust.Character.GetStat: signed overflow in the fold is undefined behaviour in C++. The model requires that every running total fits in 32 bits rather than modelling a wrap-around.
- Stardust.Ability.Activate, Stardust.Ability.Deactivate, Stardust.Ability.SetModifiers: they require the stat-modifier kind.
  - `activate` and `deactivate` are pure virtual in the base class.
  - Subclasses other than `stat_modifier_ability` are not part of this model.
- The `originator` pointer is carried in every record but never read, as in the source.
