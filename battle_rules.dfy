/**
 * The arithmetic and bookkeeping rules of a battle, apart from the scene
 * that sequences them: the damage of a skill, the guardian's hit points,
 * the reward for a victory, the guardian's counter-attack, the effects of
 * an item and the outcome the result screen is given.
 */
module BattleRules {
  import opened Wrappers
  import opened Text
  import opened Lists
  import opened Catalog
  import opened PlayerProgress
  import opened SceneManagement

  /** Milliseconds the guardian's turn and the result message stay on screen before `update` moves on. */
  const AnimationDelay: int := 2000

  /** AWS knowledge awarded for defeating a guardian. */
  const VictoryKnowledge: int := 50

  /** Only this many skills or items get a button. */
  const MaxChoiceButtons: nat := 3

  /** The bound of the command box. */
  const CommandMaxLength: nat := 50

  /** The smallest and largest base damage of a counter-attack (`randint(10, 20)`). */
  const MinCounterDamage: int := 10
  const MaxCounterDamage: int := 20

  /** The first entries of a list, one per button (`enumerate(...)` with `if i < 3`). */
  function Choices(s: seq<string>): (r: seq<string>)
    ensures |r| <= MaxChoiceButtons
    ensures |r| == if |s| < MaxChoiceButtons then |s| else MaxChoiceButtons
    ensures r == s[..|r|]
  {
    if |s| <= MaxChoiceButtons then s else s[..MaxChoiceButtons]
  }

  /** Python's `int()` of a float: truncation toward zero. */
  function Truncate(x: real): (n: int)
    ensures x >= 0.0 ==> n as real <= x < n as real + 1.0
    ensures x < 0.0 ==> n as real - 1.0 < x <= n as real
  {
    if x >= 0.0 then x.Floor else -((-x).Floor)
  }

  /** The level factor `1 + (level - 1) * 0.2`, in exact arithmetic. */
  function LevelFactor(level: int): (f: real)
    ensures f == (level + 4) as real / 5.0
  {
    1.0 + (level - 1) as real * 0.2
  }

  /** The command mentions the guardian's weakness: a substring test on the lower-cased texts. */
  predicate HitsWeakness(weakness: string, command: string)
  {
    IsSubstring(Lower(weakness), Lower(command))
  }

  /**
   * The damage of a skill of `power` used at `level`: doubled when the
   * command names the weakness, otherwise multiplied by 1.5 on a critical
   * draw, then truncated. The critical draw is not consulted when the
   * weakness is hit.
   */
  function Damage(power: nat, level: int, weak: bool, critical: bool): (d: int)
    ensures level >= -4 ==> d >= 0
    ensures weak ==> d == Truncate(power as real * LevelFactor(level) * 2.0)
    ensures !weak && critical ==> d == Truncate(power as real * LevelFactor(level) * 1.5)
    ensures !weak && !critical ==> d == Truncate(power as real * LevelFactor(level))
  {
    var damage := power as real * LevelFactor(level);
    if weak then Truncate(damage * 2.0)
    else if critical then Truncate(damage * 1.5)
    else Truncate(damage)
  }

  /** The floor of an exact quotient of naturals is integer division. */
  lemma FloorOfQuotient(a: int, b: int)
    requires a >= 0 && b > 0
    ensures Truncate(a as real / b as real) == a / b
  {
    var q, r := a / b, a % b;
    assert a == q * b + r;
    assert (a as real) / (b as real) == q as real + r as real / b as real;
    assert 0.0 <= r as real / b as real < 1.0;
  }

  /** The damage before scaling and truncation is the exact quotient `p(L+4)/5`. */
  lemma BaseDamage(power: nat, level: int)
    ensures power as real * LevelFactor(level) == (power * (level + 4)) as real / 5.0
  {
    assert power as real * (level + 4) as real == (power * (level + 4)) as real;
  }

  /**
   * For a level that is not negative (every level the game reaches) the
   * damage has an integer closed form: `2p(L+4)/5` on the weakness,
   * `3p(L+4)/10` on a critical, `p(L+4)/5` otherwise, each rounded down.
   */
  lemma DamageClosedForm(power: nat, level: int, critical: bool)
    requires level >= 0
    ensures Damage(power, level, true, critical) == (2 * power * (level + 4)) / 5
    ensures Damage(power, level, false, true) == (3 * power * (level + 4)) / 10
    ensures Damage(power, level, false, false) == (power * (level + 4)) / 5
  {
    var n := power * (level + 4);
    BaseDamage(power, level);
    assert 2 * power * (level + 4) == 2 * n && 3 * power * (level + 4) == 3 * n;
    FloorOfQuotient(2 * n, 5);
    FloorOfQuotient(3 * n, 10);
    FloorOfQuotient(n, 5);
  }

  /**
   * Every skill of the catalog hits for at least 8 at any level the game
   * reaches, and hitting the weakness never does less than a critical,
   * which never does less than a plain hit.
   */
  lemma DamageOrdered(power: nat, level: int)
    requires level >= 0 && power >= 10
    ensures Damage(power, level, false, false) >= 8
    ensures Damage(power, level, true, false) >= Damage(power, level, false, true) >= Damage(power, level, false, false)
  {
    DamageClosedForm(power, level, false);
    var n := power * (level + 4);
    assert n >= 40;
    assert (2 * n) / 5 >= (3 * n) / 10 by {
      assert 4 * n >= 3 * n;
    }
  }

  /**
   * The guardian's hit points after a hit of `damage`: never negative,
   * never more than before for a hit that is not negative, and zero
   * exactly when the hit was lethal.
   */
  function HitGuardian(hp: int, damage: int): (r: (int, bool))
    ensures r.0 >= 0
    ensures r.1 <==> hp - damage <= 0
    ensures r.1 ==> r.0 == 0
    ensures !r.1 ==> r.0 == hp - damage
    ensures damage >= 0 && hp >= 0 ==> r.0 <= hp
  {
    if hp - damage <= 0 then (0, true) else (hp - damage, false)
  }

  /**
   * The reward for defeating the guardian called `name`: the trial is
   * recorded once and AWS knowledge grows by exactly 50 (the level may
   * follow); nothing else changes.
   */
  function VictoryReward(p: Player, name: string): (q: Player)
    ensures q.completedTrials == AddUnique(p.completedTrials, name)
    ensures p.awsKnowledge >= -VictoryKnowledge ==> q.awsKnowledge == p.awsKnowledge + VictoryKnowledge
    ensures q.level >= p.level
    ensures q.motivation == p.motivation && q.concentration == p.concentration
    ensures q.name == p.name && q.items == p.items && q.skills == p.skills
    ensures Valid(p) ==> Valid(q)
  {
    UpdateStat(p.(completedTrials := AddUnique(p.completedTrials, name)), "aws_knowledge", VictoryKnowledge).0
  }

  /**
   * The guardian's counter-attack with base damage `d`: motivation falls
   * by `d` and concentration by `-((-d) // 2)`, that is by `d/2` rounded
   * up, each floored at 0; nothing else changes.
   */
  function CounterAttack(p: Player, d: int): (q: Player)
    ensures q.motivation == if p.motivation - d < 0 then 0 else p.motivation - d
    ensures q.concentration == if p.concentration - (d + 1) / 2 < 0 then 0 else p.concentration - (d + 1) / 2
    ensures q.awsKnowledge == p.awsKnowledge && q.level == p.level
    ensures q.name == p.name && q.items == p.items && q.skills == p.skills && q.completedTrials == p.completedTrials
    ensures Valid(p) ==> Valid(q)
  {
    var afterMotivation := UpdateStat(p, "motivation", -d).0;
    assert (-d) / 2 == -((d + 1) / 2);
    UpdateStat(afterMotivation, "concentration", (-d) / 2).0
  }

  /** A counter-attack from a valid record with a draw in range never leaves more motivation than before. */
  lemma CounterAttackHurts(p: Player, d: int)
    requires Valid(p) && MinCounterDamage <= d <= MaxCounterDamage
    ensures CounterAttack(p, d).motivation < p.motivation || CounterAttack(p, d).motivation == 0
    ensures CounterAttack(p, d).concentration < p.concentration || CounterAttack(p, d).concentration == 0
    ensures IsGameOver(CounterAttack(p, d)) <==> p.motivation <= d
  {
  }

  /**
   * The outcome the result screen receives: a victory when the guardian has
   * no hit points left, otherwise a defeat when the player has no
   * motivation left, otherwise an escape.
   */
  function ClassifyOutcome(hp: int, p: Player): (o: Outcome)
    ensures o == Victory <==> hp <= 0
    ensures o == Defeat <==> hp > 0 && IsGameOver(p)
    ensures o == Escape <==> hp > 0 && !IsGameOver(p)
  {
    if hp <= 0 then Victory else if IsGameOver(p) then Defeat else Escape
  }

  /** Every stat an item effect names can be updated (none is a text or a list). */
  predicate EffectsApplicable(es: seq<Effect>)
  {
    forall k :: 0 <= k < |es| && es[k].Gain? ==> es[k].stat !in TextOrListKeys
  }

  /** One effect of an item on the record: a stat gain goes through `update_player_stat`, damage reduction changes nothing. */
  function ApplyEffect(p: Player, e: Effect): Player
    requires e.Gain? ==> e.stat !in TextOrListKeys
  {
    match e
    case Gain(stat, amount) => UpdateStat(p, stat, amount).0
    case DamageReduction(_) => p
  }

  /** The effects of an item applied in table order. */
  function ApplyEffects(p: Player, es: seq<Effect>): Player
    requires EffectsApplicable(es)
    decreases |es|
  {
    if es == [] then p else ApplyEffect(ApplyEffects(p, es[..|es| - 1]), es[|es| - 1])
  }

  /** Applying one more effect of the table, in order, is one more `ApplyEffect`. */
  lemma ApplyEffectsStep(p: Player, es: seq<Effect>, i: nat)
    requires EffectsApplicable(es) && i < |es|
    ensures EffectsApplicable(es[..i]) && EffectsApplicable(es[..i + 1])
    ensures ApplyEffects(p, es[..i + 1]) == ApplyEffect(ApplyEffects(p, es[..i]), es[i])
  {
    assert es[..i + 1][..i] == es[..i];
  }

  /** The sum of the gains the effects grant to `stat`. */
  function GainTotal(es: seq<Effect>, stat: string): int
    decreases |es|
  {
    if es == [] then 0
    else
      var e := es[|es| - 1];
      GainTotal(es[..|es| - 1], stat) + (if e.Gain? && e.stat == stat then e.amount else 0)
  }

  /** Effects that only raise the three player stats, by amounts that are not negative. */
  predicate PositiveGains(es: seq<Effect>)
  {
    forall k :: 0 <= k < |es| && es[k].Gain? ==> es[k].stat in ItemStats && es[k].amount >= 0
  }

  /**
   * Using an item whose effects are positive gains raises each stat by
   * exactly the total the item grants it (no floor at 0 is ever reached),
   * never lowers the level, keeps the record valid and leaves the name and
   * the lists alone.
   */
  lemma {:induction false} ApplyEffectsAdds(p: Player, es: seq<Effect>)
    requires Valid(p) && PositiveGains(es)
    ensures EffectsApplicable(es)
    ensures var q := ApplyEffects(p, es);
            && q.motivation == p.motivation + GainTotal(es, "motivation")
            && q.concentration == p.concentration + GainTotal(es, "concentration")
            && q.awsKnowledge == p.awsKnowledge + GainTotal(es, "aws_knowledge")
            && q.level >= p.level && Valid(q)
            && q.name == p.name && q.items == p.items && q.skills == p.skills && q.completedTrials == p.completedTrials
    decreases |es|
  {
    if es != [] {
      var init := es[..|es| - 1];
      assert PositiveGains(init) by {
        forall k | 0 <= k < |init| && init[k].Gain? ensures init[k].stat in ItemStats && init[k].amount >= 0 {
          assert init[k] == es[k];
        }
      }
      ApplyEffectsAdds(p, init);
    }
  }

  /** Effects without any stat gain (the architecture diagram's damage reduction) change nothing. */
  lemma {:induction false} ReductionOnlyChangesNothing(p: Player, es: seq<Effect>)
    requires forall k :: 0 <= k < |es| ==> es[k].DamageReduction?
    ensures EffectsApplicable(es) && ApplyEffects(p, es) == p
    decreases |es|
  {
    if es != [] {
      ReductionOnlyChangesNothing(p, es[..|es| - 1]);
    }
  }

  /** Every item of the catalog has positive gains only. */
  lemma CatalogItemsPositive(item: Item)
    requires item in Items
    ensures PositiveGains(item.effects) && EffectsApplicable(item.effects)
  {
    ItemEffectsArePositiveGains();
    var j :| 0 <= j < |Items| && Items[j] == item;
  }
}
