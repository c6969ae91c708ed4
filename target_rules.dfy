/**
 * Targeting rules: the four-bit `target_rule_t`, the named rules of
 * `stardust::target_rules` (include/stardust/abilities.hpp) and the bit
 * positions that src/abilities.cpp tests.
 */
module TargetRules {
  import opened Types

  /** `target_rule_t` is `std::bitset<4>`: four independent flags, bits 0..3. */
  type TargetRule = bv4

  function Mask(i: nat): TargetRule
    requires i < 4
  {
    if i == 0 then 1 else if i == 1 then 2 else if i == 2 then 4 else 8
  }

  /** `bitset::test(i)`. */
  predicate Test(r: TargetRule, i: nat)
    requires i < 4
  {
    r & Mask(i) != 0
  }

  /** `bitset::none()`: no flag is set. */
  predicate NoneSet(r: TargetRule) {
    forall i :: 0 <= i < 4 ==> !Test(r, i)
  }

  /** A rule is determined by its four flags. */
  lemma FlagsDetermineRule(a: TargetRule, b: TargetRule)
    requires forall i :: 0 <= i < 4 ==> (Test(a, i) <==> Test(b, i))
    ensures a == b
  {
    assert Test(a, 0) == Test(b, 0) && Test(a, 1) == Test(b, 1);
    assert Test(a, 2) == Test(b, 2) && Test(a, 3) == Test(b, 3);
  }

  lemma NoneSetIffEmpty(r: TargetRule)
    ensures NoneSet(r) <==> r == 0
  {
    if NoneSet(r) {
      FlagsDetermineRule(r, 0);
    }
  }

  lemma TestShifted(v: TargetRule)
    ensures !Test(v << 1, 0) && Test((v << 1) | 1, 0)
    ensures Test(v << 1, 1) == Test(v, 0) && Test((v << 1) | 1, 1) == Test(v, 0)
    ensures Test(v << 1, 2) == Test(v, 1) && Test((v << 1) | 1, 2) == Test(v, 1)
    ensures Test(v << 1, 3) == Test(v, 2) && Test((v << 1) | 1, 3) == Test(v, 2)
  {
  }

  /**
   * The digits of a binary string read as a rule: the rightmost character is
   * bit 0. None when a character is neither '0' nor '1'.
   */
  function ParseBits(t: string): (r: Option<TargetRule>)
    requires |t| <= 4
    ensures r.Some? <==> forall k :: 0 <= k < |t| ==> t[k] == '0' || t[k] == '1'
    ensures r.Some? ==> forall i :: 0 <= i < |t| ==> (Test(r.value, i) <==> t[|t| - 1 - i] == '1')
    ensures r.Some? ==> forall i :: |t| <= i < 4 ==> !Test(r.value, i)
  {
    if t == [] then Some(0)
    else
      var front := t[..|t| - 1];
      var c := t[|t| - 1];
      match ParseBits(front)
      case None => None
      case Some(v) =>
        var w := if c == '0' then Some(v << 1) else if c == '1' then Some((v << 1) | 1) else None;
        TestShifted(v);
        w
  }

  /**
   * The string constructor `std::bitset<4>(str)`: it throws
   * `std::invalid_argument` (None here) when any character of `str` is other
   * than '0' or '1'; otherwise it reads the first min(4, |str|) characters,
   * the rightmost of them giving bit 0, and leaves the remaining high bits
   * clear.
   */
  function BitsFromString(s: string): (r: Option<TargetRule>)
    ensures r.Some? <==> forall k :: 0 <= k < |s| ==> s[k] == '0' || s[k] == '1'
    ensures var n := if |s| < 4 then |s| else 4;
      && (r.Some? ==> forall i :: 0 <= i < n ==> (Test(r.value, i) <==> s[n - 1 - i] == '1'))
      && (r.Some? ==> forall i :: n <= i < 4 ==> !Test(r.value, i))
  {
    if exists k :: 0 <= k < |s| && s[k] != '0' && s[k] != '1' then None
    else ParseBits(s[..if |s| < 4 then |s| else 4])
  }

  // The named rules (include/stardust/abilities.hpp:15-21).
  const SELF: TargetRule := 8      // bitset("1000")
  const PULSE: TargetRule := 4     // bitset("0100")
  const AURA: TargetRule := SELF | PULSE
  const FRIENDLY: TargetRule := 2  // bitset("0010")
  const ENEMY: TargetRule := 1     // bitset("0001")
  const ALL_OTHER: TargetRule := FRIENDLY | ENEMY
  const ALL: TargetRule := SELF | ALL_OTHER

  // The bit positions src/abilities.cpp:8-11 names. They do not agree with
  // the named rules above; only TARGET_SELF_BIT is used.
  const TARGET_SELF_BIT: nat := 0
  const TARGET_PULSE_BIT: nat := 1
  const TARGET_FRIENDLY_BIT: nat := 2
  const TARGET_ENEMY_BIT: nat := 3

  /** Each named flag is the rule its bit string builds, and sets exactly one bit. */
  lemma NamedRulesFromBitStrings()
    ensures BitsFromString("1000") == Some(SELF)
    ensures BitsFromString("0100") == Some(PULSE)
    ensures BitsFromString("0010") == Some(FRIENDLY)
    ensures BitsFromString("0001") == Some(ENEMY)
    ensures forall i :: 0 <= i < 4 ==> (Test(SELF, i) <==> i == 3)
    ensures forall i :: 0 <= i < 4 ==> (Test(PULSE, i) <==> i == 2)
    ensures forall i :: 0 <= i < 4 ==> (Test(FRIENDLY, i) <==> i == 1)
    ensures forall i :: 0 <= i < 4 ==> (Test(ENEMY, i) <==> i == 0)
  {
    var rules := [SELF, PULSE, FRIENDLY, ENEMY];
    var strings := ["1000", "0100", "0010", "0001"];
    forall j | 0 <= j < 4
      ensures BitsFromString(strings[j]) == Some(rules[j])
    {
      var r := BitsFromString(strings[j]);
      assert r.Some?;
      forall i | 0 <= i < 4 ensures Test(r.value, i) <==> Test(rules[j], i) {
        assert Test(r.value, i) <==> strings[j][3 - i] == '1';
      }
      FlagsDetermineRule(r.value, rules[j]);
    }
    assert BitsFromString(strings[0]) == Some(rules[0]);
    assert BitsFromString(strings[1]) == Some(rules[1]);
    assert BitsFromString(strings[2]) == Some(rules[2]);
    assert BitsFromString(strings[3]) == Some(rules[3]);
  }

  /** The compound rules; `ALL` leaves out `PULSE`. */
  lemma CompoundRules()
    ensures forall i :: 0 <= i < 4 ==> (Test(AURA, i) <==> Test(SELF, i) || Test(PULSE, i))
    ensures forall i :: 0 <= i < 4 ==> (Test(ALL_OTHER, i) <==> Test(FRIENDLY, i) || Test(ENEMY, i))
    ensures forall i :: 0 <= i < 4 ==> (Test(ALL, i) <==> Test(SELF, i) || Test(FRIENDLY, i) || Test(ENEMY, i))
    ensures ALL & PULSE == 0 && ALL | PULSE == 15
  {
  }

  /**
   * The hooks test bit TARGET_SELF_BIT = 0, which is the `ENEMY` flag: a rule
   * passes that test exactly when it contains `ENEMY`, so `SELF` fails it.
   * None of the four bit constants matches its named flag.
   */
  lemma SelfBitIsEnemyFlag(r: TargetRule)
    ensures Test(r, TARGET_SELF_BIT) <==> r & ENEMY == ENEMY
    ensures !Test(SELF, TARGET_SELF_BIT) && !Test(AURA, TARGET_SELF_BIT)
    ensures Test(ENEMY, TARGET_SELF_BIT) && Test(ALL, TARGET_SELF_BIT)
    ensures !Test(PULSE, TARGET_PULSE_BIT) && !Test(FRIENDLY, TARGET_FRIENDLY_BIT)
    ensures !Test(ENEMY, TARGET_ENEMY_BIT)
  {
  }

  /**
   * The debug assertion in `ability::ability` (src/abilities.cpp:21) checks
   * `_target_rule.none()`, so it holds for the empty rule only and fails for
   * every named rule.
   */
  predicate ConstructorAssertion(r: TargetRule) {
    NoneSet(r)
  }

  lemma ConstructorAssertionOnlyForEmptyRule(r: TargetRule)
    ensures ConstructorAssertion(r) <==> r == 0
    ensures !ConstructorAssertion(SELF) && !ConstructorAssertion(PULSE) && !ConstructorAssertion(AURA)
    ensures !ConstructorAssertion(FRIENDLY) && !ConstructorAssertion(ENEMY)
    ensures !ConstructorAssertion(ALL_OTHER) && !ConstructorAssertion(ALL)
  {
    NoneSetIffEmpty(r);
    NoneSetIffEmpty(SELF);
    NoneSetIffEmpty(PULSE);
    NoneSetIffEmpty(AURA);
    NoneSetIffEmpty(FRIENDLY);
    NoneSetIffEmpty(ENEMY);
    NoneSetIffEmpty(ALL_OTHER);
    NoneSetIffEmpty(ALL);
  }
}
