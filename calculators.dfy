/** The battle calculators as functions of the values they read: the accuracy check, the
    critical-hit check, the damage formula, the shared chance check of secondary effects
    and the multistrike hit-count table. Each random draw is a parameter (`roll`); the
    methods that draw it from the battle's generator live with the battle context. */
module Calculators {
  import opened Numerics
  import opened Models
  import opened Stats

  lemma DivSignedMonotone(a: int, b: int, d: int)
    requires a <= b && d > 0
    ensures Div(a, d) <= Div(b, d)
  {
    if a >= 0 {
      DivMonotone(a, b, d);
    } else if b < 0 {
      DivMonotone(-b, -a, d);
    }
  }

  /** Scaling a non-positive value by a positive fraction stays non-positive. */
  lemma ScaleNonPositive(x: int, n: int, d: int)
    requires x <= 0 && n > 0 && d > 0
    ensures Div(x * n, d) <= 0
  {
    assert x * n <= 0;
  }

  // ---------------------------------------------------------------------------------
  // Accuracy

  /** The hit threshold: the move's accuracy scaled to 0..255, then by the attacker's
      Accuracy stage, then by the defender's Evasion stage, each step truncating, and
      clamped to [1, 255]. */
  function AccuracyThreshold(accuracy: int, accuracyStage: int, evasionStage: int): (t: int)
    requires ValidStage(accuracyStage) && ValidStage(evasionStage)
    ensures 1 <= t <= 255
  {
    var base := Div(accuracy * 255, 100);
    var am := GetAccuracyEvasionMultiplier(accuracyStage, Accuracy);
    var scaled := Div(base * am.numerator, am.denominator);
    var em := GetAccuracyEvasionMultiplier(evasionStage, Evasion);
    Clamp(Div(scaled * em.numerator, em.denominator), 1, 255)
  }

  /** Whether the accuracy check draws a roll: only a move aimed at a targetable defender and
      carrying an accuracy value does. */
  predicate AccuracyNeedsRoll(selfTargeted: bool, defenderInvulnerable: bool, defenderFainted: bool,
                              accuracy: Option<int>)
  {
    !selfTargeted && !defenderInvulnerable && !defenderFainted && accuracy.Some?
  }

  /** The accuracy check with its roll in [0, 256) given; the roll is ignored when none is drawn. */
  predicate DoesMoveHit(selfTargeted: bool, defenderInvulnerable: bool, defenderFainted: bool,
                        accuracy: Option<int>, accuracyStage: int, evasionStage: int, roll: int)
    requires ValidStage(accuracyStage) && ValidStage(evasionStage)
  {
    if selfTargeted then true
    else if defenderInvulnerable || defenderFainted then false
    else if accuracy.None? then true
    else roll <= AccuracyThreshold(accuracy.value, accuracyStage, evasionStage)
  }

  /** The three early exits: self-targeted hits, an absent defender is missed, a move with no
      accuracy hits; none of them draws. */
  lemma AccuracyShortCircuits(inv: bool, fainted: bool, accuracy: Option<int>, accStage: int, evaStage: int, roll: int)
    requires ValidStage(accStage) && ValidStage(evaStage)
    ensures DoesMoveHit(true, inv, fainted, accuracy, accStage, evaStage, roll)
            && !AccuracyNeedsRoll(true, inv, fainted, accuracy)
    ensures (inv || fainted) ==> !DoesMoveHit(false, inv, fainted, accuracy, accStage, evaStage, roll)
                                 && !AccuracyNeedsRoll(false, inv, fainted, accuracy)
    ensures !inv && !fainted ==> DoesMoveHit(false, inv, fainted, None, accStage, evaStage, roll)
                                 && !AccuracyNeedsRoll(false, inv, fainted, None)
  {
  }

  /** When the roll is drawn the move hits exactly on a roll at most the threshold; rolls 0
      and 1 always hit. */
  lemma HitIffRollWithinThreshold(inv: bool, fainted: bool, accuracy: Option<int>, accStage: int, evaStage: int, roll: int)
    requires ValidStage(accStage) && ValidStage(evaStage)
    requires AccuracyNeedsRoll(false, inv, fainted, accuracy)
    ensures DoesMoveHit(false, inv, fainted, accuracy, accStage, evaStage, roll)
            <==> roll <= AccuracyThreshold(accuracy.value, accStage, evaStage)
    ensures 0 <= roll <= 1 ==> DoesMoveHit(false, inv, fainted, accuracy, accStage, evaStage, roll)
  {
  }

  /** Accuracy 100 at neutral stages has threshold 255: every roll in [0, 256) hits. */
  lemma PerfectAccuracyAlwaysHits(roll: int)
    requires 0 <= roll < 256
    ensures AccuracyThreshold(100, 0, 0) == 255
    ensures DoesMoveHit(false, false, false, Some(100), 0, 0, roll)
  {
  }

  /** The last step of the threshold, the Evasion scaling and the clamp, never falls as its
      input rises, and gives the floor 1 for an input of at most 0. */
  lemma EvasionStepMonotone(x1: int, x2: int, evasionStage: int)
    requires ValidStage(evasionStage) && (x1 <= x2 || x1 <= 0)
    ensures var em := GetAccuracyEvasionMultiplier(evasionStage, Evasion);
            Clamp(Div(x1 * em.numerator, em.denominator), 1, 255) <= Clamp(Div(x2 * em.numerator, em.denominator), 1, 255)
  {
    var em := GetAccuracyEvasionMultiplier(evasionStage, Evasion);
    if x1 <= 0 {
      ScaleNonPositive(x1, em.numerator, em.denominator);
    } else {
      assert x1 * em.numerator >= 0 && x2 * em.numerator >= 0;
      ScaleMonotone(x1, x2, em.numerator, em.denominator);
    }
  }

  /** The threshold never falls as the attacker's Accuracy stage rises. */
  lemma ThresholdMonotoneInAccuracyStage(accuracy: int, s1: int, s2: int, evasionStage: int)
    requires -6 <= s1 <= s2 <= 6 && ValidStage(evasionStage)
    ensures AccuracyThreshold(accuracy, s1, evasionStage) <= AccuracyThreshold(accuracy, s2, evasionStage)
  {
    var base := Div(accuracy * 255, 100);
    var a1, a2 := AccuracyTable(s1), AccuracyTable(s2);
    var x1, x2 := Div(base * a1.numerator, a1.denominator), Div(base * a2.numerator, a2.denominator);
    if base >= 0 {
      assert base * a1.numerator >= 0 && base * a2.numerator >= 0;
      AccuracyScaleMonotone(base, s1, s2);
    } else {
      ScaleNonPositive(base, a1.numerator, a1.denominator);
    }
    EvasionStepMonotone(x1, x2, evasionStage);
  }

  /** The threshold never rises as the defender's Evasion stage rises. */
  lemma ThresholdAntitoneInEvasionStage(accuracy: int, accuracyStage: int, e1: int, e2: int)
    requires ValidStage(accuracyStage) && -6 <= e1 <= e2 <= 6
    ensures AccuracyThreshold(accuracy, accuracyStage, e2) <= AccuracyThreshold(accuracy, accuracyStage, e1)
  {
    var base := Div(accuracy * 255, 100);
    var am := GetAccuracyEvasionMultiplier(accuracyStage, Accuracy);
    var x := Div(base * am.numerator, am.denominator);
    var f1, f2 := AccuracyTable(-e1), AccuracyTable(-e2);
    if x >= 0 {
      assert x * f1.numerator >= 0 && x * f2.numerator >= 0;
      AccuracyScaleMonotone(x, -e2, -e1);
    } else {
      ScaleNonPositive(x, f1.numerator, f1.denominator);
      ScaleNonPositive(x, f2.numerator, f2.denominator);
    }
  }

  // ---------------------------------------------------------------------------------
  // Critical hits

  /** The critical-hit threshold from the species' base Speed, capped at 255 unless the
      move has a high critical ratio. */
  function CriticalThreshold(baseSpeed: int, ratio: CriticalRatio): int {
    var threshold := Div(baseSpeed + 76, 4);
    if ratio != High then Min(threshold, 255) else threshold
  }

  /** The critical-hit check with its roll in [0, 256) given. */
  predicate IsCriticalHit(baseSpeed: int, ratio: CriticalRatio, roll: int) {
    roll < CriticalThreshold(baseSpeed, ratio)
  }

  /** The normal ratio is the high ratio's threshold capped at 255: the high ratio only lifts
      the cap, and the two agree for a base Speed up to 943. */
  lemma HighRatioOnlyLiftsCap(baseSpeed: int)
    ensures CriticalThreshold(baseSpeed, NormalRatio) == Min(CriticalThreshold(baseSpeed, High), 255)
    ensures CriticalThreshold(baseSpeed, NormalRatio) <= CriticalThreshold(baseSpeed, High)
    ensures CriticalThreshold(baseSpeed, NormalRatio) <= 255
    ensures baseSpeed <= 943 ==> CriticalThreshold(baseSpeed, NormalRatio) == CriticalThreshold(baseSpeed, High)
  {
    if baseSpeed <= 943 {
      DivSignedMonotone(baseSpeed + 76, 1019, 4);
    }
  }

  /** For a fixed roll, a faster species is crit at least as often. */
  lemma CriticalMonotoneInBaseSpeed(s1: int, s2: int, ratio: CriticalRatio, roll: int)
    requires s1 <= s2
    ensures CriticalThreshold(s1, ratio) <= CriticalThreshold(s2, ratio)
    ensures IsCriticalHit(s1, ratio, roll) ==> IsCriticalHit(s2, ratio, roll)
  {
    DivSignedMonotone(s1 + 76, s2 + 76, 4);
  }

  // ---------------------------------------------------------------------------------
  // Damage

  /** Attack and defence after the rule that divides both by 4 when either exceeds 255. */
  function ScaleStats(attack: int, defense: int): (r: (int, int))
    ensures attack > 255 || defense > 255 ==> r == (Div(attack, 4), Div(defense, 4))
    ensures attack <= 255 && defense <= 255 ==> r == (attack, defense)
  {
    if attack > 255 || defense > 255 then (Div(attack, 4), Div(defense, 4)) else (attack, defense)
  }

  /** The base formula, evaluated left to right with truncating division; None when the
      scaled defence is 0, where the program divides by zero. */
  function BaseDamage(level: int, isCritical: bool, power: int, attack: int, defense: int): (r: Option<int>)
    ensures r.None? <==> ScaleStats(attack, defense).1 == 0
  {
    var (atk, def) := ScaleStats(attack, defense);
    var critical := if isCritical then 2 else 1;
    if def == 0 then None
    else Some(Div(Div((Div(2 * level * critical, 5) + 2) * power * atk, def), 50) + 2)
  }

  /** Same-type bonus: damage * 3 / 2 when the attacker's current types contain the move type. */
  function ApplyStab(damage: int, stab: bool): int {
    if stab then Div(damage * 3, 2) else damage
  }

  /** The random factor and the floor at 1, applied to the effectiveness-scaled damage. */
  function RandomizedDamage(scaled: int, randomFactor: int): (d: int)
    ensures d >= 1
  {
    var damage := Div(scaled * randomFactor, 255);
    if damage < 1 then 1 else damage
  }

  /** Whether the damage calculation draws its random factor: not when the effectiveness is 0. */
  predicate DamageNeedsRoll(effectiveness: real) {
    effectiveness != 0.0
  }

  /** The whole calculation, returning the byte the program returns; `randomFactor` is the
      draw in [217, 256) and is ignored when the effectiveness is 0. */
  function CalculateDamage(level: int, isCritical: bool, power: int, attack: int, defense: int,
                           stab: bool, effectiveness: real, randomFactor: int): (r: Option<int>)
    ensures r.None? <==> BaseDamage(level, isCritical, power, attack, defense).None?
    ensures r.Some? ==> 0 <= r.value < 256
    ensures r.Some? && effectiveness == 0.0 ==> r.value == 0
  {
    match BaseDamage(level, isCritical, power, attack, defense)
    case None => None
    case Some(base) =>
      var damage := ApplyStab(base, stab);
      if effectiveness == 0.0 then Some(0)
      else Some(ToByte(RandomizedDamage(Trunc(damage as real * effectiveness), randomFactor)))
  }

  /** The program divides by zero exactly when the scaled defence is 0: a defence of 0, or a
      defence below 4 when the attack exceeds 255. */
  lemma DivideByZeroIff(level: int, isCritical: bool, power: int, attack: int, defense: int)
    requires defense >= 0
    ensures BaseDamage(level, isCritical, power, attack, defense).None?
            <==> defense == 0 || (attack > 255 && defense < 4)
  {
  }

  /** A defence of 3 against an attack of 300 divides by zero although the defence is positive. */
  lemma SmallDefenseDividesByZero()
    ensures CalculateDamage(50, false, 40, 300, 3, false, 1.0, 217).None?
  {
  }

  /** With a non-zero effectiveness and no wrap-around, the result is at least 1. */
  lemma DamageAtLeastOne(level: int, isCritical: bool, power: int, attack: int, defense: int,
                         stab: bool, effectiveness: real, randomFactor: int)
    requires effectiveness != 0.0
    requires BaseDamage(level, isCritical, power, attack, defense).Some?
    ensures var base := BaseDamage(level, isCritical, power, attack, defense).value;
            var pre := RandomizedDamage(Trunc(ApplyStab(base, stab) as real * effectiveness), randomFactor);
            pre >= 1 && CalculateDamage(level, isCritical, power, attack, defense, stab, effectiveness, randomFactor)
                        == Some(ToByte(pre))
  {
  }

  /** A computed damage of 256 is returned as 0 by the cast to byte: level 1, power 125,
      attack 254 against defence 5, neutral, at the top random factor. */
  lemma ByteCastWrapsAt256()
    ensures BaseDamage(1, false, 125, 254, 5) == Some(256)
    ensures RandomizedDamage(Trunc(256 as real * 1.0), 255) == 256
    ensures CalculateDamage(1, false, 125, 254, 5, false, 1.0, 255) == Some(0)
  {
    assert Trunc(256.0) == 256;
  }

  /** For non-negative base damage and effectiveness, a larger random factor never lowers
      the damage before the cast. */
  lemma RandomFactorMonotone(scaled: int, r1: int, r2: int)
    requires scaled >= 0 && r1 <= r2
    ensures RandomizedDamage(scaled, r1) <= RandomizedDamage(scaled, r2)
  {
    var gap := r2 - r1;
    assert scaled * r2 == scaled * r1 + scaled * gap;
    assert scaled * gap >= 0;
    DivSignedMonotone(scaled * r1, scaled * r2, 255);
  }

  // ---------------------------------------------------------------------------------
  // Secondary-effect chance

  /** The shared chance check: no chance always occurs without a draw; otherwise the chance
      is scaled to 0..255 and the effect occurs on a roll at most that value. */
  predicate EffectOccurs(chance: Option<int>, roll: int) {
    chance.None? || roll <= Div(chance.value * 255, 100)
  }

  /** Chance 100 occurs on every roll in [0, 256); chance 0 only on roll 0. */
  lemma ChanceExtremes(roll: int)
    requires 0 <= roll < 256
    ensures EffectOccurs(Some(100), roll)
    ensures EffectOccurs(Some(0), roll) <==> roll == 0
  {
  }

  /** For a fixed roll, a higher chance occurs at least as often. */
  lemma ChanceMonotone(c1: int, c2: int, roll: int)
    requires c1 <= c2
    ensures EffectOccurs(Some(c1), roll) ==> EffectOccurs(Some(c2), roll)
  {
    DivSignedMonotone(c1 * 255, c2 * 255, 100);
  }

  // ---------------------------------------------------------------------------------
  // Multistrike hit count

  /** The 2-5 hit table: rolls below 96 give 2, below 192 give 3, below 224 give 4, else 5. */
  function RollHits(roll: int): (hits: int)
    ensures 2 <= hits <= 5
  {
    if roll < 96 then 2 else if roll < 192 then 3 else if roll < 224 then 4 else 5
  }

  /** The exact preimage of each hit count among the rolls of [0, 256): 96 rolls give 2,
      96 give 3, 32 give 4 and 32 give 5; the count never falls as the roll rises. */
  lemma RollHitsTable(roll: int, later: int)
    requires 0 <= roll <= later < 256
    ensures RollHits(roll) == 2 <==> roll < 96
    ensures RollHits(roll) == 3 <==> 96 <= roll < 192
    ensures RollHits(roll) == 4 <==> 192 <= roll < 224
    ensures RollHits(roll) == 5 <==> 224 <= roll
    ensures RollHits(roll) <= RollHits(later)
  {
  }
}
