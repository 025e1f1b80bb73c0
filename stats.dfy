/** Stat layer: stage multiplier tables, the seven-entry stage vector and the derivation
    of battle stats from base stats and level. */
module Stats {
  import opened Numerics
  import opened Models

  datatype Fraction = Fraction(numerator: int, denominator: int)

  datatype BattleStats = BattleStats(maxHp: int, attack: int, defense: int, spAttack: int, spDefense: int, speed: int)

  predicate ValidStage(stage: int) {
    -6 <= stage <= 6
  }

  // ---------------------------------------------------------------------------------
  // Stage multiplier tables

  /** Multiplier of Attack, Defense, SpAttack, SpDefense and Speed at a stage. The
      program throws for a stage outside [-6, 6]. */
  function GetMultiplier(stage: int): (f: Fraction)
    requires ValidStage(stage)
    ensures f.denominator == 100
    ensures 25 <= f.numerator <= 400
    ensures stage == 0 ==> f == Fraction(100, 100)
    ensures stage == -6 ==> f.numerator == 25
    ensures stage == 6 ==> f.numerator == 400
  {
    match stage
    case -6 => Fraction(25, 100)
    case -5 => Fraction(28, 100)
    case -4 => Fraction(33, 100)
    case -3 => Fraction(40, 100)
    case -2 => Fraction(50, 100)
    case -1 => Fraction(66, 100)
    case 0 => Fraction(100, 100)
    case 1 => Fraction(150, 100)
    case 2 => Fraction(200, 100)
    case 3 => Fraction(250, 100)
    case 4 => Fraction(300, 100)
    case 5 => Fraction(350, 100)
    case 6 => Fraction(400, 100)
  }

  /** The accuracy/evasion table at the stage after negation; `stat` is Accuracy for the
      attacker's side and anything else (Evasion) for the defender's. */
  function GetAccuracyEvasionMultiplier(stage: int, stat: Stat): (f: Fraction)
    requires ValidStage(stage)
    ensures f.denominator > 0 && f.numerator > 0
    ensures stage == 0 ==> f == Fraction(1, 1)
  {
    AccuracyTable(if stat == Accuracy then stage else -stage)
  }

  function AccuracyTable(stage: int): (f: Fraction)
    requires ValidStage(stage)
    ensures f.denominator > 0 && f.numerator > 0
  {
    match stage
    case -6 => Fraction(1, 3)
    case -5 => Fraction(36, 100)
    case -4 => Fraction(43, 100)
    case -3 => Fraction(50, 100)
    case -2 => Fraction(66, 100)
    case -1 => Fraction(75, 100)
    case 0 => Fraction(1, 1)
    case 1 => Fraction(133, 100)
    case 2 => Fraction(166, 100)
    case 3 => Fraction(200, 100)
    case 4 => Fraction(233, 100)
    case 5 => Fraction(266, 100)
    case 6 => Fraction(3, 1)
  }

  /** One stage up never lowers the primary multiplier: it strictly raises it. */
  lemma MultiplierStep(s: int)
    requires -6 <= s < 6
    ensures GetMultiplier(s).numerator < GetMultiplier(s + 1).numerator
  {
  }

  /** The primary table strictly increases from 25/100 at -6 to 400/100 at +6. */
  lemma {:induction false} MultiplierStrictlyIncreasing(s: int, t: int)
    requires -6 <= s < t <= 6
    ensures GetMultiplier(s).numerator < GetMultiplier(t).numerator
    decreases t - s
  {
    MultiplierStep(t - 1);
    if s < t - 1 {
      MultiplierStrictlyIncreasing(s, t - 1);
    }
  }

  /** A stage and its opposite multiply to at most 1, exactly 1 at 0, +-2, +-3 and +-6. */
  lemma MultiplierReciprocalBound(s: int)
    requires ValidStage(s)
    ensures GetMultiplier(s).numerator * GetMultiplier(-s).numerator <= 100 * 100
    ensures GetMultiplier(s).numerator * GetMultiplier(-s).numerator == 100 * 100
            <==> s in {0, 2, -2, 3, -3, 6, -6}
  {
  }

  /** The defender's evasion stage is looked up negated in the accuracy table. */
  lemma EvasionIsNegatedAccuracy(s: int)
    requires ValidStage(s)
    ensures GetAccuracyEvasionMultiplier(s, Evasion) == GetAccuracyEvasionMultiplier(-s, Accuracy)
  {
  }

  /** `a` is strictly below `b` as rationals. */
  predicate FractionLess(a: Fraction, b: Fraction)
    requires a.denominator > 0 && b.denominator > 0
  {
    a.numerator * b.denominator < b.numerator * a.denominator
  }

  /** Adjacent stages of the accuracy table strictly increase as rationals. */
  lemma AccuracyStep(s: int)
    requires -6 <= s < 6
    ensures FractionLess(AccuracyTable(s), AccuracyTable(s + 1))
  {
  }

  /** The accuracy table strictly increases, from 1/3 at -6 to 3/1 at +6. */
  lemma {:induction false} AccuracyStrictlyIncreasing(s: int, t: int)
    requires -6 <= s < t <= 6
    ensures FractionLess(AccuracyTable(s), AccuracyTable(t))
    decreases t - s
  {
    AccuracyStep(t - 1);
    if s < t - 1 {
      AccuracyStrictlyIncreasing(s, t - 1);
      var a, b, c := AccuracyTable(s), AccuracyTable(t - 1), AccuracyTable(t);
      // a < b and b < c as rationals with positive denominators give a < c
      assert a.numerator * b.denominator < b.numerator * a.denominator;
      assert b.numerator * c.denominator < c.numerator * b.denominator;
      assert a.numerator * b.denominator * c.denominator < b.numerator * a.denominator * c.denominator;
      assert b.numerator * c.denominator * a.denominator < c.numerator * b.denominator * a.denominator;
      assert a.numerator * c.denominator * b.denominator < c.numerator * a.denominator * b.denominator;
    }
  }

  /** Scaling by the accuracy table is monotone in the stage. */
  lemma AccuracyScaleMonotone(x: int, s: int, t: int)
    requires 0 <= x && -6 <= s <= t <= 6
    ensures x * AccuracyTable(s).numerator / AccuracyTable(s).denominator
            <= x * AccuracyTable(t).numerator / AccuracyTable(t).denominator
  {
    if s < t {
      AccuracyStrictlyIncreasing(s, t);
      var a, b := AccuracyTable(s), AccuracyTable(t);
      FractionScaleMonotone(x, a.numerator, a.denominator, b.numerator, b.denominator);
    }
  }

  // ---------------------------------------------------------------------------------
  // Stage vector

  /** The seven-entry stage vector of one combatant. */
  class StatStages {
    var stages: map<Stat, int>

    ghost predicate Valid()
      reads this
    {
      forall s: Stat :: s in stages && ValidStage(stages[s])
    }

    /** A fresh vector: all seven stats at stage 0. */
    constructor ()
      ensures Valid()
      ensures stages == ZeroStages()
    {
      stages := ZeroStages();
    }

    /** The stage of a stat; the program throws only for a missing key, which `Valid` rules out. */
    function GetStage(stat: Stat): (v: int)
      reads this
      requires Valid()
      ensures ValidStage(v)
      ensures v == stages[stat]
    {
      stages[stat]
    }

    /** Moves one stat by `n` stages, clamped to [-6, 6]; the other six are unchanged. */
    method ChangeStat(stat: Stat, n: int)
      requires Valid()
      modifies this
      ensures Valid()
      ensures stages == old(stages)[stat := Clamp(old(stages)[stat] + n, -6, 6)]
      ensures forall s :: s != stat ==> stages[s] == old(stages)[s]
    {
      var value := GetStage(stat);
      value := Clamp(value + n, -6, 6);
      stages := stages[stat := value];
    }

    /** Sets every stage back to 0, key by key. */
    method Reset()
      requires Valid()
      modifies this
      ensures Valid()
      ensures stages == ZeroStages()
    {
      var keys := stages.Keys;
      while keys != {}
        invariant keys <= stages.Keys
        invariant stages.Keys == old(stages).Keys
        invariant forall s :: s in stages && s !in keys ==> stages[s] == 0
        invariant forall s :: s in keys ==> stages[s] == old(stages)[s]
        decreases keys
      {
        var key :| key in keys;
        stages := stages[key := 0];
        keys := keys - {key};
      }
      assert forall s: Stat :: s in stages;
    }
  }

  /** Stage vector with every one of the seven stats at 0. */
  function ZeroStages(): (m: map<Stat, int>)
    ensures forall s: Stat :: s in m && m[s] == 0
  {
    AllStatsKeyed();
    map s | s in AllStats() :: 0
  }

  function AllStats(): set<Stat> {
    {Attack, Defense, SpAttack, SpDefense, Speed, Accuracy, Evasion}
  }

  /** Every stat is one of the seven keys of a fresh vector. */
  lemma AllStatsKeyed()
    ensures forall s: Stat :: s in AllStats()
  {
    forall s: Stat ensures s in AllStats() {
      match s
      case Attack =>
      case Defense =>
      case SpAttack =>
      case SpDefense =>
      case Speed =>
      case Accuracy =>
      case Evasion =>
    }
  }

  function StatName(stat: Stat): string {
    match stat
    case Attack => "Attack"
    case Defense => "Defense"
    case SpAttack => "SpAttack"
    case SpDefense => "SpDefense"
    case Speed => "Speed"
    case Accuracy => "Accuracy"
    case Evasion => "Evasion"
  }

  /** The stat-change message, chosen by the actual change cur - prev. */
  function GetLogMessage(stat: Stat, prevStage: int, curStage: int): string {
    var delta := curStage - prevStage;
    if delta >= 3 then StatName(stat) + " rose drastically!"
    else if delta == 2 then StatName(stat) + " rose sharply!"
    else if delta == 1 then StatName(stat) + " rose!"
    else if delta == 0 then StatName(stat) + " cannot go any " + (if curStage == 6 then "higher!" else "lover!")
    else if delta == -1 then StatName(stat) + " fell!"
    else StatName(stat) + " harshly fell!"
  }

  /** The tier of `GetLogMessage`, one per range of the delta. */
  datatype Tier = Drastic | Sharp | Rose | Unchanged | Fell | HarshlyFell

  function TierOf(delta: int): Tier {
    if delta >= 3 then Drastic else if delta == 2 then Sharp else if delta == 1 then Rose
    else if delta == 0 then Unchanged else if delta == -1 then Fell else HarshlyFell
  }

  function TierSuffix(t: Tier, curStage: int): string {
    match t
    case Drastic => " rose drastically!"
    case Sharp => " rose sharply!"
    case Rose => " rose!"
    case Unchanged => " cannot go any " + (if curStage == 6 then "higher!" else "lover!")
    case Fell => " fell!"
    case HarshlyFell => " harshly fell!"
  }

  /** Every delta gets exactly one message: the stat's name followed by its tier's text. */
  lemma LogMessageTotal(stat: Stat, prevStage: int, curStage: int)
    ensures GetLogMessage(stat, prevStage, curStage)
            == StatName(stat) + TierSuffix(TierOf(curStage - prevStage), curStage)
    ensures TierOf(curStage - prevStage) == Drastic <==> curStage - prevStage >= 3
    ensures TierOf(curStage - prevStage) == HarshlyFell <==> curStage - prevStage <= -2
  {
  }

  /** With no change the text ends "higher!" exactly at stage 6 and the misspelt "lover!" otherwise. */
  lemma UnchangedMessageEnding(stat: Stat, stage: int)
    ensures var m := GetLogMessage(stat, stage, stage);
            |m| >= 7 &&
            (m[|m| - 7..] == "higher!" <==> stage == 6) &&
            (stage != 6 ==> m[|m| - 6..] == "lover!")
  {
    var m := GetLogMessage(stat, stage, stage);
    var name := StatName(stat);
    if stage == 6 {
      assert m == (name + " cannot go any ") + "higher!";
    } else {
      assert m == (name + " cannot go any ") + "lover!";
      assert m[|m| - 7..] == (name + " cannot go any ")[|name + " cannot go any "| - 1..] + "lover!";
      assert m[|m| - 7..] != "higher!" by {
        assert m[|m| - 6] == 'l';
      }
    }
  }

  // ---------------------------------------------------------------------------------
  // Stat derivation

  /** Max HP from base HP and level. */
  function CalculateHp(baseStat: int, level: int): int {
    Div(2 * baseStat * level, 100) + level + 10
  }

  /** Attack, Defense, SpAttack, SpDefense or Speed from its base value and level. */
  function CalculateOther(baseStat: int, level: int): int {
    Div(2 * baseStat * level, 100) + 5
  }

  /** The battle stats of a species at a level, each from its own base field. */
  function Calculate(pokemon: Pokemon, level: int): (s: BattleStats)
    ensures s.maxHp == CalculateHp(pokemon.baseStats.hp, level)
    ensures s.attack == CalculateOther(pokemon.baseStats.attack, level)
    ensures s.defense == CalculateOther(pokemon.baseStats.defense, level)
    ensures s.spAttack == CalculateOther(pokemon.baseStats.spAttack, level)
    ensures s.spDefense == CalculateOther(pokemon.baseStats.spDefense, level)
    ensures s.speed == CalculateOther(pokemon.baseStats.speed, level)
  {
    var b := pokemon.baseStats;
    BattleStats(CalculateHp(b.hp, level), CalculateOther(b.attack, level), CalculateOther(b.defense, level),
                CalculateOther(b.spAttack, level), CalculateOther(b.spDefense, level), CalculateOther(b.speed, level))
  }

  /** The formulas in closed form, with the floor division they use on non-negative values. */
  lemma StatFormulas(baseStat: int, level: int)
    requires baseStat >= 0 && level >= 1
    ensures CalculateHp(baseStat, level) == (2 * baseStat * level) / 100 + level + 10
    ensures CalculateOther(baseStat, level) == (2 * baseStat * level) / 100 + 5
    ensures CalculateHp(baseStat, level) >= level + 10
    ensures CalculateOther(baseStat, level) >= 5
  {
    assert 2 * baseStat * level >= 0;
  }

  /** Both formulas are non-decreasing in the base value and in the level. */
  lemma StatsMonotone(b1: int, b2: int, l1: int, l2: int)
    requires 0 <= b1 <= b2 && 1 <= l1 <= l2
    ensures CalculateHp(b1, l1) <= CalculateHp(b2, l2)
    ensures CalculateOther(b1, l1) <= CalculateOther(b2, l2)
  {
    assert 2 * b1 * l1 <= 2 * b2 * l2 by {
      assert b1 * l1 <= b2 * l1 <= b2 * l2;
    }
    assert 0 <= 2 * b1 * l1;
    DivMonotone(2 * b1 * l1, 2 * b2 * l2, 100);
  }
}
