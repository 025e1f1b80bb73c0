/** The move effects that act on the context without using another move: each one reads the
    current attacker, defender and move, draws what it needs, changes the combatants and logs
    what happened. */
module Effects {
  import opened Numerics
  import opened Models
  import opened Stats
  import opened Combatants
  import opened Trainers
  import TypeChart
  import Calculators
  import opened Context

  /** The lines of a blow that took `taken` HP and left the target at `hp`. */
  function StrikeLines(name: string, taken: int, hp: int): seq<Message> {
    LineIf(taken > 0, Received(name, taken)) + LineIf(hp <= 0, Fainted(name))
  }

  /** The defender takes `damage`, at most its current HP; a blow that took something is
      logged, and so is a defender left fainted. */
  method Strike(ctx: BattleContext, damage: int) returns (taken: int)
    requires ctx.Valid() && 0 <= damage < 256
    modifies ctx`log, ctx.Def()`currentHp, ctx.Def()`isFainted
    ensures old(ctx.Def().HpInRange()) ==> ctx.Def().HpInRange()
    ensures taken == Min(old(ctx.Def().currentHp), damage)
    ensures ctx.Def().currentHp == old(ctx.Def().currentHp) - taken
    ensures ctx.Def().isFainted == (ctx.Def().currentHp <= 0)
    ensures ctx.log == old(ctx.log) + Entries(ctx.turn, StrikeLines(ctx.Def().species.name, taken, ctx.Def().currentHp))
  {
    var d := ctx.defender.activePokemon;
    taken := d.TakeDamage(damage);
    ghost var log0 := ctx.log;
    ctx.LogIf(taken > 0, Received(d.species.name, taken));
    ctx.LogIf(d.isFainted, Fainted(d.species.name));
    Extend(log0, ctx.turn, LineIf(taken > 0, Received(d.species.name, taken)), LineIf(d.isFainted, Fainted(d.species.name)));
  }

  /** The opening of a plain damaging move: the effectiveness of the move against the
      defender's current types and its line, then one critical-hit draw and its line. */
  method Opening(ctx: BattleContext, ratio: CriticalRatio) returns (effectiveness: real, critical: bool)
    requires ctx.Valid()
    modifies ctx`log, ctx`drawn
    ensures effectiveness == MatchupEffectiveness(ctx.CurrentMatchup())
    ensures critical == Calculators.IsCriticalHit(ctx.CurrentMatchup().attacker.baseSpeed, ratio, old(ctx.Roll(0, 0, 256)))
    ensures ctx.drawn == old(ctx.drawn) + 1
    ensures ctx.log == old(ctx.log) + Entries(ctx.turn, EffectivenessLine(effectiveness) + LineIf(critical, CriticalHit))
  {
    ghost var log0 := ctx.log;
    effectiveness := TypeChart.GetMultiplier(ctx.move.property.moveType, ctx.defender.activePokemon.types.items);
    ctx.LogEffectiveness(effectiveness);
    critical := ctx.IsCriticalHit(ratio);
    ctx.LogIf(critical, CriticalHit);
    Extend(log0, ctx.turn, EffectivenessLine(effectiveness), LineIf(critical, CriticalHit));
  }

  /** The hit of a plain damaging move: the damage formula (which fails when the scaled
      defence is 0), then the blow, which is remembered as the last damage. */
  method Hit(ctx: BattleContext, critical: bool, effectiveness: real) returns (out: Outcome)
    requires ctx.Valid()
    modifies ctx`log, ctx`drawn, ctx`lastDamage, ctx.Def()`currentHp, ctx.Def()`isFainted
    ensures old(ctx.Def().HpInRange()) ==> ctx.Def().HpInRange()
    ensures var r := MatchupDamage(old(ctx.CurrentMatchup()), critical, effectiveness, old(ctx.Roll(0, 217, 256)));
            var d := ctx.Def();
            && ctx.drawn == old(ctx.drawn) + (if r.Some? && effectiveness != 0.0 then 1 else 0)
            && (r.None? ==>
                  out == Crash(DivideByZero) && d.currentHp == old(d.currentHp) && d.isFainted == old(d.isFainted)
                  && ctx.lastDamage == old(ctx.lastDamage) && ctx.log == old(ctx.log))
            && (r.Some? ==>
                  var taken := Min(old(d.currentHp), r.value);
                  out == Ok && d.currentHp == old(d.currentHp) - taken && d.isFainted == (d.currentHp <= 0)
                  && ctx.lastDamage == Some(taken)
                  && ctx.log == old(ctx.log) + Entries(ctx.turn, StrikeLines(d.species.name, taken, d.currentHp)))
  {
    var damage;
    out, damage := ctx.CalculateDamage(critical, effectiveness);
    if !out.Ok? {
      return;
    }
    var damageTaken := Strike(ctx, damage);
    ctx.lastDamage := Some(damageTaken);
  }

  /** What `Damage` leaves behind, against the state it started from. */
  twostate predicate DamageDone(ctx: BattleContext, ratio: CriticalRatio, out: Outcome)
    reads *
    requires Steady(ctx)
  {
    var m := old(ctx.CurrentMatchup());
    var eff := MatchupEffectiveness(m);
    var crit := Calculators.IsCriticalHit(m.attacker.baseSpeed, ratio, old(ctx.Roll(0, 0, 256)));
    var r := MatchupDamage(m, crit, eff, old(ctx.Roll(1, 217, 256)));
    var d := ctx.Def();
    var opening := EffectivenessLine(eff) + LineIf(crit, CriticalHit);
    && ctx.drawn == old(ctx.drawn) + 1 + (if r.Some? && eff != 0.0 then 1 else 0)
    && (r.None? ==>
          out == Crash(DivideByZero) && d.currentHp == old(d.currentHp) && d.isFainted == old(d.isFainted)
          && ctx.lastDamage == old(ctx.lastDamage) && ctx.log == old(ctx.log) + Entries(ctx.turn, opening))
    && (r.Some? ==>
          var taken := Min(old(d.currentHp), r.value);
          out == Ok && d.currentHp == old(d.currentHp) - taken && d.isFainted == (d.currentHp <= 0)
          && ctx.lastDamage == Some(taken)
          && ctx.log == old(ctx.log) + Entries(ctx.turn, opening + StrikeLines(d.species.name, taken, d.currentHp)))
  }

  /** Plain damage: the effectiveness line, one critical-hit draw, the damage formula, then
      the defender takes at most its current HP and the damage dealt is remembered. */
  method Damage(ctx: BattleContext, ratio: CriticalRatio) returns (out: Outcome)
    requires ctx.Valid()
    modifies ctx`log, ctx`drawn, ctx`lastDamage, ctx.Def()`currentHp, ctx.Def()`isFainted
    ensures old(ctx.Def().HpInRange()) ==> ctx.Def().HpInRange()
    ensures DamageDone(ctx, ratio, out)
  {
    ghost var log0 := ctx.log;
    ghost var m := ctx.CurrentMatchup();
    ghost var roll := ctx.Roll(1, 217, 256);
    var effectiveness, isCritical := Opening(ctx, ratio);
    assert ctx.Valid() && ctx.CurrentMatchup() == m && ctx.Roll(0, 217, 256) == roll;
    ghost var d := ctx.Def();
    ghost var hp, fainted, last := d.currentHp, d.isFainted, ctx.lastDamage;
    assert d == old(ctx.Def()) && hp == old(d.currentHp) && fainted == old(d.isFainted) && last == old(ctx.lastDamage);
    out := Hit(ctx, isCritical, effectiveness);
    assert ctx.Def() == d;
    if out.Ok? {
      Extend(log0, ctx.turn, EffectivenessLine(effectiveness) + LineIf(isCritical, CriticalHit),
             StrikeLines(ctx.defender.activePokemon.species.name, ctx.lastDamage.value, ctx.defender.activePokemon.currentHp));
    }
  }

  /** What `FixedDamage` leaves behind, against the state it started from. */
  twostate predicate FixedDamageDone(ctx: BattleContext, fixedPower: Option<int>)
    reads *
    requires Steady(ctx)
  {
    var amount := ToByte(if fixedPower.Some? then fixedPower.value else ctx.Att().level);
    var taken := Min(old(ctx.Def().currentHp), amount);
    var d := ctx.Def();
    && d.currentHp == old(d.currentHp) - taken && d.isFainted == (d.currentHp <= 0)
    && ctx.lastDamage == Some(taken)
    && ctx.log == old(ctx.log) + Entries(ctx.turn, StrikeLines(d.species.name, taken, d.currentHp))
  }

  /** Fixed damage: the configured amount, or the attacker's level when none is configured,
      cut to a byte; the blow is logged like plain damage and remembered. */
  method FixedDamage(ctx: BattleContext, fixedPower: Option<int>)
    requires ctx.Valid()
    modifies ctx`log, ctx`lastDamage, ctx.Def()`currentHp, ctx.Def()`isFainted
    ensures old(ctx.Def().HpInRange()) ==> ctx.Def().HpInRange()
    ensures FixedDamageDone(ctx, fixedPower)
  {
    var fixedDamage := if fixedPower.None? then ctx.attacker.activePokemon.level else fixedPower.value;
    var damageTaken := Strike(ctx, ToByte(fixedDamage));
    ctx.lastDamage := Some(damageTaken);
  }

  /** The damage of a halving blow on a defender at `hp`: half its HP, rounded toward zero,
      cut to a byte. */
  function HalfHpDamage(hp: int): int {
    ToByte(Div(hp, 2))
  }

  /** Below 512 HP the halving blow takes exactly half, rounded down, so a defender with any
      HP left keeps some. */
  lemma HalvingLeavesHp(hp: int)
    requires 1 <= hp < 512
    ensures HalfHpDamage(hp) == hp / 2 && Min(hp, HalfHpDamage(hp)) == hp / 2
    ensures hp - Min(hp, HalfHpDamage(hp)) >= 1
  {
  }

  /** From 512 HP on, the byte cut wraps the half around: at 512 the blow takes nothing. */
  lemma HalvingWrapsAt512()
    ensures HalfHpDamage(512) == 0 && HalfHpDamage(514) == 1 && HalfHpDamage(1023) == 255
  {
  }

  /** Whether the defender is still hit, after the combatant engine's own accuracy check. */
  method HalvingHits(ctx: BattleContext) returns (hit: bool)
    requires ctx.Valid()
    modifies ctx`log, ctx`drawn
    ensures hit == (ctx.variant == Primary || old(ctx.HitsOn(ctx.Roll(0, 0, 256))))
    ensures ctx.drawn == old(ctx.drawn) + (if ctx.variant == Root && old(ctx.AccuracyNeedsRoll()) then 1 else 0)
    ensures ctx.log == old(ctx.log) + Entries(ctx.turn, LineIf(!hit, Avoided(ctx.Def().species.name)))
  {
    hit := true;
    if ctx.variant == Root {
      hit := ctx.DoesMoveHit();
      if !hit {
        ctx.Log(Avoided(ctx.defender.activePokemon.species.name));
      }
    }
  }

  /** The halving blow itself: the effectiveness line; an immune defender takes nothing, any
      other takes half its HP as a byte and the received line is written even for 0. */
  method Halve(ctx: BattleContext)
    requires ctx.Valid()
    modifies ctx`log, ctx.Def()`currentHp, ctx.Def()`isFainted
    ensures old(ctx.Def().HpInRange()) ==> ctx.Def().HpInRange()
    ensures var eff := MatchupEffectiveness(old(ctx.CurrentMatchup()));
            var d := ctx.Def();
            var taken := Min(old(d.currentHp), HalfHpDamage(old(d.currentHp)));
            && (eff == 0.0 ==> d.currentHp == old(d.currentHp) && d.isFainted == old(d.isFainted)
                               && ctx.log == old(ctx.log) + Entries(ctx.turn, EffectivenessLine(eff)))
            && (eff != 0.0 ==> d.currentHp == old(d.currentHp) - taken && d.isFainted == (d.currentHp <= 0)
                               && ctx.log == old(ctx.log) + Entries(ctx.turn, EffectivenessLine(eff) + [Received(d.species.name, taken)]))
  {
    var d := ctx.defender.activePokemon;
    ghost var log0 := ctx.log;
    var effectiveness := TypeChart.GetMultiplier(ctx.move.property.moveType, d.types.items);
    ctx.LogEffectiveness(effectiveness);
    if effectiveness == 0.0 {
      return;
    }
    var takenDamage := d.TakeDamage(HalfHpDamage(d.currentHp));
    ctx.Log(Received(d.species.name, takenDamage));
    Extend(log0, ctx.turn, EffectivenessLine(effectiveness), [Received(d.species.name, takenDamage)]);
  }

  /** What `CutHalfHp` leaves behind, against the state it started from. */
  twostate predicate CutHalfHpDone(ctx: BattleContext)
    reads *
    requires Steady(ctx)
  {
    var hit := ctx.variant == Primary || old(ctx.HitsOn(ctx.Roll(0, 0, 256)));
    var eff := MatchupEffectiveness(old(ctx.CurrentMatchup()));
    var d := ctx.Def();
    var taken := Min(old(d.currentHp), HalfHpDamage(old(d.currentHp)));
    && ctx.drawn == old(ctx.drawn) + (if ctx.variant == Root && old(ctx.AccuracyNeedsRoll()) then 1 else 0)
    && (!hit ==> d.currentHp == old(d.currentHp) && d.isFainted == old(d.isFainted)
                 && ctx.log == old(ctx.log) + Entries(ctx.turn, [Avoided(d.species.name)]))
    && (hit && eff == 0.0 ==> d.currentHp == old(d.currentHp) && d.isFainted == old(d.isFainted)
                              && ctx.log == old(ctx.log) + Entries(ctx.turn, EffectivenessLine(eff)))
    && (hit && eff != 0.0 ==> d.currentHp == old(d.currentHp) - taken && d.isFainted == (d.currentHp <= 0)
                              && ctx.log == old(ctx.log) + Entries(ctx.turn, EffectivenessLine(eff) + [Received(d.species.name, taken)]))
  }

  /** Cut to half HP: the combatant engine first runs its own accuracy check and reports a
      miss as avoided; a hit is the halving blow. */
  method CutHalfHp(ctx: BattleContext)
    requires ctx.Valid()
    modifies ctx`log, ctx`drawn, ctx.Def()`currentHp, ctx.Def()`isFainted
    ensures old(ctx.Def().HpInRange()) ==> ctx.Def().HpInRange()
    ensures CutHalfHpDone(ctx)
  {
    var hit := HalvingHits(ctx);
    if hit {
      Halve(ctx);
    }
  }

  /** What `OneHitKo` leaves behind, against the state it started from. */
  twostate predicate OneHitKoDone(ctx: BattleContext)
    reads *
    requires Steady(ctx)
  {
    var eff := MatchupEffectiveness(old(ctx.CurrentMatchup()));
    var d := ctx.Def();
    && (eff == 0.0 ==> d.currentHp == old(d.currentHp) && d.isFainted == old(d.isFainted)
                       && ctx.log == old(ctx.log) + Entries(ctx.turn, EffectivenessLine(eff)))
    && (eff != 0.0 ==> d.currentHp == 0 && d.isFainted
                       && ctx.log == old(ctx.log) + Entries(ctx.turn, EffectivenessLine(eff) + [KnockedOut, Fainted(d.species.name)]))
  }

  /** One-hit KO: the effectiveness line; unless the defender is immune it is knocked out
      whatever its HP, and both lines are written. */
  method OneHitKo(ctx: BattleContext)
    requires ctx.Valid()
    modifies ctx`log, ctx.Def()`currentHp, ctx.Def()`isFainted
    ensures OneHitKoDone(ctx)
  {
    var d := ctx.defender.activePokemon;
    ghost var log0 := ctx.log;
    var effectiveness := TypeChart.GetMultiplier(ctx.move.property.moveType, d.types.items);
    ctx.LogEffectiveness(effectiveness);
    if effectiveness == 0.0 {
      return;
    }
    d.Knockout();
    ctx.Log(KnockedOut);
    ctx.Log(Fainted(d.species.name));
    Extend(log0, ctx.turn, EffectivenessLine(effectiveness), [KnockedOut, Fainted(d.species.name)]);
  }

  /** Whether a counter fails: nothing remembered to counter, or the remembered move is not of
      the countered category. */
  predicate CounterFails(lastDamage: Option<int>, lastMove: BattleMove?, category: MoveCategory) {
    lastDamage.None? || lastMove == null || lastMove.property.category != category
  }

  /** What `Counter` leaves behind, against the state it started from. */
  twostate predicate CounterDone(ctx: BattleContext, category: MoveCategory)
    reads *
    requires Steady(ctx)
  {
    var d := ctx.Def();
    && (CounterFails(ctx.lastDamage, ctx.lastMove, category) ==>
          d.currentHp == old(d.currentHp) && d.isFainted == old(d.isFainted)
          && ctx.log == old(ctx.log) + Entries(ctx.turn, [Failed]))
    && (!CounterFails(ctx.lastDamage, ctx.lastMove, category) ==>
          var taken := Min(old(d.currentHp), ToByte(ctx.lastDamage.value * 2));
          d.currentHp == old(d.currentHp) - taken && d.isFainted == (d.currentHp <= 0)
          && ctx.log == old(ctx.log) + Entries(ctx.turn, [Countered(ctx.Att().species.name, ctx.lastMove.property.name),
                                                          Received(d.species.name, taken)]
                                                         + LineIf(d.currentHp <= 0, Fainted(d.species.name))))
  }

  /** Counter: fails unless the remembered damage came from a move of the configured category;
      otherwise the defender takes twice that damage, cut to a byte, and the received line is
      written even for 0. */
  method Counter(ctx: BattleContext, category: MoveCategory)
    requires ctx.Valid()
    modifies ctx`log, ctx.Def()`currentHp, ctx.Def()`isFainted
    ensures old(ctx.Def().HpInRange()) ==> ctx.Def().HpInRange()
    ensures CounterDone(ctx, category)
  {
    if ctx.lastDamage.None? || ctx.lastMove == null || ctx.lastMove.property.category != category {
      ctx.Log(Failed);
      return;
    }
    var d := ctx.defender.activePokemon;
    ghost var log0 := ctx.log;
    ctx.Log(Countered(ctx.attacker.activePokemon.species.name, ctx.lastMove.property.name));
    var takenDamage := d.TakeDamage(ToByte(ctx.lastDamage.value * 2));
    ctx.Log(Received(d.species.name, takenDamage));
    ctx.LogIf(d.isFainted, Fainted(d.species.name));
    Extend(log0, ctx.turn, [Countered(ctx.attacker.activePokemon.species.name, ctx.lastMove.property.name),
                            Received(d.species.name, takenDamage)], LineIf(d.isFainted, Fainted(d.species.name)));
  }

  /** The share of `amount` given by `percent`, rounded toward zero. */
  function Share(amount: int, percent: int): int {
    Div(amount * percent, 100)
  }

  /** What `Drain` leaves behind, against the state it started from. */
  twostate predicate DrainDone(ctx: BattleContext, percent: int)
    reads *
    requires Steady(ctx)
  {
    var a := ctx.Att();
    var full := a.stats.maxHp == old(a.currentHp);
    var heal := if ctx.lastDamage.Some? then Share(ctx.lastDamage.value, percent) else 0;
    var heals := !full && ctx.lastDamage.Some? && ctx.lastDamage.value > 0 && heal > 0;
    var recovered := Min(heal, a.stats.maxHp - old(a.currentHp));
    && (full ==> a.currentHp == old(a.currentHp) && ctx.log == old(ctx.log) + Entries(ctx.turn, [HpFull(a.species.name)]))
    && (!full && !heals ==> a.currentHp == old(a.currentHp) && ctx.log == old(ctx.log))
    && (heals ==> a.currentHp == old(a.currentHp) + recovered
                  && ctx.log == old(ctx.log) + Entries(ctx.turn, [Drained(a.species.name, recovered)]))
  }

  /** Drain: an attacker at full HP only says so; otherwise the configured share of the
      remembered damage is restored, when there is a positive damage and a positive share. */
  method Drain(ctx: BattleContext, percent: int)
    requires ctx.Valid()
    modifies ctx`log, ctx.Att()`currentHp
    ensures DrainDone(ctx, percent)
  {
    var a := ctx.attacker.activePokemon;
    if a.stats.maxHp == a.currentHp {
      ctx.Log(HpFull(a.species.name));
      return;
    }
    if ctx.lastDamage.None? {
      return;
    }
    var damageDealt := ctx.lastDamage.value;
    if damageDealt <= 0 {
      return;
    }
    var heal := Share(damageDealt, percent);
    if heal <= 0 {
      return;
    }
    var restoredHp := a.RestoreHp(heal);
    ctx.Log(Drained(a.species.name, restoredHp));
  }

  /** What `Recoil` leaves behind, against the state it started from. */
  twostate predicate RecoilDone(ctx: BattleContext, percent: int)
    reads *
    requires Steady(ctx)
  {
    var a := ctx.Att();
    var recoil := if ctx.lastDamage.Some? then Share(ctx.lastDamage.value, percent) else 0;
    var hurts := ctx.lastDamage.Some? && ctx.lastDamage.value > 0 && recoil > 0;
    var taken := Min(old(a.currentHp), ToByte(recoil));
    && (!hurts ==> a.currentHp == old(a.currentHp) && a.isFainted == old(a.isFainted) && ctx.log == old(ctx.log))
    && (hurts ==> a.currentHp == old(a.currentHp) - taken && a.isFainted == (a.currentHp <= 0)
                  && ctx.log == old(ctx.log) + Entries(ctx.turn, [Recoiled(a.species.name, taken)]
                                                                 + LineIf(a.currentHp <= 0, Fainted(a.species.name))))
  }

  /** Recoil: the attacker takes the configured share of the remembered damage, cut to a
      byte, when there is a positive damage and a positive share. */
  method Recoil(ctx: BattleContext, percent: int)
    requires ctx.Valid()
    modifies ctx`log, ctx.Att()`currentHp, ctx.Att()`isFainted
    ensures old(ctx.Att().HpInRange()) ==> ctx.Att().HpInRange()
    ensures RecoilDone(ctx, percent)
  {
    if ctx.lastDamage.None? {
      return;
    }
    var damageDealt := ctx.lastDamage.value;
    if damageDealt <= 0 {
      return;
    }
    var recoil := Share(damageDealt, percent);
    if recoil <= 0 {
      return;
    }
    var a := ctx.attacker.activePokemon;
    ghost var log0 := ctx.log;
    var damageTaken := a.TakeDamage(ToByte(recoil));
    ctx.Log(Recoiled(a.species.name, damageTaken));
    ctx.LogIf(a.isFainted, Fainted(a.species.name));
    Extend(log0, ctx.turn, [Recoiled(a.species.name, damageTaken)], LineIf(a.isFainted, Fainted(a.species.name)));
  }

  /** What `RecoverHp` leaves behind, against the state it started from. */
  twostate predicate RecoverHpDone(ctx: BattleContext, percent: int)
    reads *
    requires Steady(ctx)
  {
    var a := ctx.Att();
    var full := a.stats.maxHp == old(a.currentHp);
    var recovered := Min(Share(a.stats.maxHp, percent), a.stats.maxHp - old(a.currentHp));
    && (full ==> a.currentHp == old(a.currentHp) && ctx.log == old(ctx.log) + Entries(ctx.turn, [HpFull(a.species.name)]))
    && (!full ==> a.currentHp == old(a.currentHp) + recovered
                  && ctx.log == old(ctx.log) + Entries(ctx.turn, [Recovered(a.species.name, recovered)]))
  }

  /** Recover: an attacker at full HP only says so; otherwise it regains the configured share
      of its maximum HP, at most what it is missing. */
  method RecoverHp(ctx: BattleContext, percent: int)
    requires ctx.Valid()
    modifies ctx`log, ctx.Att()`currentHp
    ensures RecoverHpDone(ctx, percent)
  {
    var a := ctx.attacker.activePokemon;
    if a.stats.maxHp == a.currentHp {
      ctx.Log(HpFull(a.species.name));
      return;
    }
    var heal := Share(a.stats.maxHp, percent);
    var restoredHp := a.RestoreHp(heal);
    ctx.Log(Recovered(a.species.name, restoredHp));
  }

  /** What `Selfdestruct` leaves behind, against the state it started from. */
  twostate predicate SelfdestructDone(ctx: BattleContext)
    reads *
    requires Steady(ctx)
  {
    && ctx.Att().currentHp == 0 && ctx.Att().isFainted
    && ctx.log == old(ctx.log) + Entries(ctx.turn, [Fainted(ctx.Att().species.name)])
  }

  /** Self-destruct: the attacker is knocked out. */
  method Selfdestruct(ctx: BattleContext)
    requires ctx.Valid()
    modifies ctx`log, ctx.Att()`currentHp, ctx.Att()`isFainted
    ensures SelfdestructDone(ctx)
  {
    var a := ctx.attacker.activePokemon;
    a.Knockout();
    ctx.Log(Fainted(a.species.name));
  }

  /** What `StatChange` leaves behind, against the state it started from. */
  twostate predicate StatChangeDone(ctx: BattleContext, target: Targets, chance: Option<int>, stages: int, stat: Stat, out: Outcome)
    reads *
    requires Steady(ctx)
  {
    && ctx.drawn == old(ctx.drawn) + (if chance.Some? then 1 else 0)
    && (var occurs := Calculators.EffectOccurs(chance, old(ctx.Roll(0, 0, 256)));
      var a, d := ctx.Att(), ctx.Def();
      && (!occurs || target == All ==>
            a.statStages.stages == old(a.statStages.stages) && d.statStages.stages == old(d.statStages.stages)
            && ctx.log == old(ctx.log) && out == (if occurs then Crash(NotImplementedTarget) else Ok))
      && (occurs && target != All ==>
            var p, q := if target == Enemy then d else a, if target == Enemy then a else d;
            var prev := old(p.statStages.stages[stat]);
            out == Ok
            && p.statStages.stages == old(p.statStages.stages)[stat := Clamp(prev + stages, -6, 6)]
            && q.statStages.stages == old(q.statStages.stages)
            && ctx.log == old(ctx.log) + Entries(ctx.turn, [StatChanged(p.species.name,
                                                  GetLogMessage(stat, prev, Clamp(prev + stages, -6, 6)))])))
  }

  /** Stat change: when the chance check passes, the targeted combatant's stat moves by the
      configured stages (clamped to [-6, 6]) and the message for the actual change is logged;
      a stat change aimed at both sides fails. */
  method StatChange(ctx: BattleContext, target: Targets, chance: Option<int>, stages: int, stat: Stat) returns (out: Outcome)
    requires ctx.Valid()
    modifies ctx`log, ctx`drawn, ctx.Att().statStages, ctx.Def().statStages
    ensures ctx.Valid()
    ensures StatChangeDone(ctx, target, chance, stages, stat, out)
  {
    var occured := ctx.EffectOccurs(chance);
    if !occured {
      return Ok;
    }
    var p: BattlePokemon;
    match target {
      case Enemy => p := ctx.defender.activePokemon;
      case Self => p := ctx.attacker.activePokemon;
      case All => return Crash(NotImplementedTarget);
    }
    Shift(ctx, p, stages, stat);
    out := Ok;
  }

  /** The stat change on the targeted combatant `p`: its stage moves by `stages`, clamped to
      [-6, 6], and the message for the actual change is logged. */
  method Shift(ctx: BattleContext, p: BattlePokemon, stages: int, stat: Stat)
    requires ctx.Valid() && (p == ctx.Att() || p == ctx.Def())
    modifies ctx`log, p.statStages
    ensures ctx.Valid()
    ensures var prev := old(p.statStages.stages[stat]);
            && p.statStages.stages == old(p.statStages.stages)[stat := Clamp(prev + stages, -6, 6)]
            && ctx.log == old(ctx.log) + Entries(ctx.turn, [StatChanged(p.species.name,
                                                  GetLogMessage(stat, prev, Clamp(prev + stages, -6, 6)))])
  {
    var prevStage := p.statStages.GetStage(stat);
    p.statStages.ChangeStat(stat, stages);
    var curStage := p.statStages.GetStage(stat);
    var msg := GetLogMessage(stat, prevStage, curStage);
    ctx.Log(StatChanged(p.species.name, msg));
  }

  /** What `StatChangeReset` leaves behind, against the state it started from. */
  twostate predicate StatChangeResetDone(ctx: BattleContext)
    reads *
    requires Steady(ctx)
  {
    && ctx.Att().statStages.stages == ZeroStages() && ctx.Def().statStages.stages == ZeroStages()
    && ctx.log == old(ctx.log) + Entries(ctx.turn, [StatsReset])
  }

  /** Haze: both sides' stages go back to 0. */
  method StatChangeReset(ctx: BattleContext)
    requires ctx.Valid()
    modifies ctx`log, ctx.Att().statStages, ctx.Def().statStages
    ensures ctx.Valid()
    ensures StatChangeResetDone(ctx)
  {
    ctx.attacker.activePokemon.statStages.Reset();
    ctx.defender.activePokemon.statStages.Reset();
    ctx.Log(StatsReset);
  }

  /** What `Disable` leaves behind, against the state it started from. */
  twostate predicate DisableDone(ctx: BattleContext)
    reads *
    requires Steady(ctx)
  {
    var lm := ctx.lastMove;
    var name := ctx.Att().species.name;
    && (lm == null ==> ctx.drawn == old(ctx.drawn) && ctx.log == old(ctx.log) + Entries(ctx.turn, [Failed]))
    && (lm != null && !old(lm.isDisabled) ==>
          ctx.drawn == old(ctx.drawn) + 1
          && lm.isDisabled && lm.disableDuration == old(ctx.Roll(0, 0, 7)) && lm.currentPp == old(lm.currentPp)
          && ctx.log == old(ctx.log) + Entries(ctx.turn, [Disabled(name, lm.property.name)]))
    && (lm != null && old(lm.isDisabled) ==>
          ctx.drawn == old(ctx.drawn)
          && lm.isDisabled && lm.disableDuration == old(lm.disableDuration) && lm.currentPp == old(lm.currentPp)
          && ctx.log == old(ctx.log) + Entries(ctx.turn, [AlreadyDisabled(name, lm.property.name)]))
  }

  /** Disable: fails without a remembered move; a remembered move that is not disabled yet is
      disabled for a drawn duration in [0, 7); one that already is stays as it is. */
  method Disable(ctx: BattleContext)
    requires ctx.Valid()
    modifies ctx`log, ctx`drawn, ctx.lastMove
    ensures DisableDone(ctx)
  {
    var lastMove := ctx.lastMove;
    if lastMove == null {
      ctx.Log(Failed);
      return;
    }
    var name := ctx.attacker.activePokemon.species.name;
    if !lastMove.isDisabled {
      var duration := ctx.Draw(0, 7);
      lastMove.Disable(duration);
      ctx.Log(Disabled(name, lastMove.property.name));
    } else {
      ctx.Log(AlreadyDisabled(name, lastMove.property.name));
    }
  }

  /** The text of a charging turn, by move name. */
  function ChargingText(moveName: string): string {
    if moveName == "Dig" then "burrowed its way under the ground!"
    else if moveName == "Fly" then "flew up high!"
    else if moveName == "HyperBeam" then "must recharge!"
    else if moveName == "RazorWind" then "made a whirlwind!"
    else if moveName == "SkullBash" then "lowered its head!"
    else if moveName == "SkyAttack" then "is glowing!"
    else if moveName == "SolarBeam" then "absorbed light!"
    else ""
  }

  /** The attacker's flags a charging turn reads and writes, with its trainer's choice lock. */
  datatype ChargeFlags = ChargeFlags(invulnerable: bool, recharging: bool, charging: bool, locked: bool)

  /** One charging turn on the flags: a semi-invulnerable move flips invulnerability; Hyper
      Beam flips the recharge flag, any other move the charge flag; the lock follows the
      flipped flag. */
  function ChargeStep(moveName: string, semiInvulnerableTurn: bool, f: ChargeFlags): ChargeFlags {
    var invulnerable := f.invulnerable != semiInvulnerableTurn;
    if moveName == "HyperBeam" then ChargeFlags(invulnerable, !f.recharging, f.charging, !f.recharging)
    else ChargeFlags(invulnerable, f.recharging, !f.charging, !f.charging)
  }

  /** A charging turn locks the choice exactly when it enters the charge (or recharge) state,
      and leaves the other of the two flags alone. */
  lemma ChargeStepLocksOnEntry(moveName: string, semi: bool, f: ChargeFlags)
    ensures var g := ChargeStep(moveName, semi, f);
            && (moveName == "HyperBeam" ==> g.locked == g.recharging && g.charging == f.charging && g.recharging != f.recharging)
            && (moveName != "HyperBeam" ==> g.locked == g.charging && g.recharging == f.recharging && g.charging != f.charging)
  {
  }

  /** Two charging turns of the same move restore all three flags; the lock is then whatever
      the flipped flag was at the start, so from a resting combatant it ends unlocked. */
  lemma ChargeStepTwice(moveName: string, semi: bool, f: ChargeFlags)
    ensures var g := ChargeStep(moveName, semi, ChargeStep(moveName, semi, f));
            && g.invulnerable == f.invulnerable && g.recharging == f.recharging && g.charging == f.charging
            && g.locked == (if moveName == "HyperBeam" then f.recharging else f.charging)
  {
  }

  /** What `ChargingTurn` leaves behind, against the state it started from. */
  twostate predicate ChargingTurnDone(ctx: BattleContext, semiInvulnerableTurn: bool)
    reads *
    requires Steady(ctx)
  {
    && (var a := ctx.Att();
      ChargeFlags(a.isInvulnerable, a.isRecharging, a.isCharging, ctx.attacker.lockChoice)
      == ChargeStep(ctx.move.property.name, semiInvulnerableTurn,
                    ChargeFlags(old(a.isInvulnerable), old(a.isRecharging), old(a.isCharging), old(ctx.attacker.lockChoice))))
    && (var a := ctx.Att();
      var name := ctx.move.property.name;
      && (name == "HyperBeam" ==>
            ctx.log == old(ctx.log) + Entries(ctx.turn, LineIf(old(a.isRecharging), Charging(a.species.name, ChargingText(name)))))
      && (name != "HyperBeam" ==>
            ctx.log == old(ctx.log) + Entries(ctx.turn, LineIf(a.isCharging, Charging(a.species.name, ChargingText(name))))))
  }

  /** A charging turn: a semi-invulnerable move flips the attacker's invulnerability. Hyper
      Beam flips the recharge flag and locks the choice when it starts recharging; every other
      move flips the charge flag, announces and locks the choice when charging starts, and
      unlocks it when the charged turn comes. */
  method ChargingTurn(ctx: BattleContext, semiInvulnerableTurn: bool)
    requires ctx.Valid()
    modifies ctx`log, ctx.attacker`lockChoice
    modifies ctx.Att()`isInvulnerable, ctx.Att()`isRecharging, ctx.Att()`isCharging
    ensures ChargingTurnDone(ctx, semiInvulnerableTurn)
  {
    var a := ctx.attacker.activePokemon;
    if semiInvulnerableTurn {
      a.isInvulnerable := !a.isInvulnerable;
    }
    var moveName := ctx.move.property.name;
    if moveName == "HyperBeam" {
      ToggleRecharge(ctx, a, moveName);
    } else {
      ToggleCharge(ctx, a, moveName);
    }
  }

  /** Hyper Beam's half of a charging turn: the recharge flag flips, and leaving the
      recharge announces it and unlocks the choice while entering it locks the choice. */
  method ToggleRecharge(ctx: BattleContext, a: BattlePokemon, moveName: string)
    requires ctx.attacker != null && a == ctx.Att()
    modifies ctx`log, ctx.attacker`lockChoice, a`isRecharging
    ensures a.isRecharging == !old(a.isRecharging) && ctx.attacker.lockChoice == a.isRecharging
    ensures ctx.log == old(ctx.log) + Entries(ctx.turn, LineIf(old(a.isRecharging), Charging(a.species.name, ChargingText(moveName))))
  {
    if a.isRecharging {
      ctx.Log(Charging(a.species.name, ChargingText(moveName)));
      ctx.attacker.lockChoice := false;
    } else {
      ctx.attacker.lockChoice := true;
    }
    a.isRecharging := !a.isRecharging;
  }

  /** The charge half of a charging turn: the charge flag flips, and entering the charge
      announces it and locks the choice while leaving it unlocks the choice. */
  method ToggleCharge(ctx: BattleContext, a: BattlePokemon, moveName: string)
    requires ctx.attacker != null && a == ctx.Att()
    modifies ctx`log, ctx.attacker`lockChoice, a`isCharging
    ensures a.isCharging == !old(a.isCharging) && ctx.attacker.lockChoice == a.isCharging
    ensures ctx.log == old(ctx.log) + Entries(ctx.turn, LineIf(a.isCharging, Charging(a.species.name, ChargingText(moveName))))
  {
    a.isCharging := !a.isCharging;
    if a.isCharging {
      ctx.Log(Charging(a.species.name, ChargingText(moveName)));
      ctx.attacker.lockChoice := true;
    } else {
      ctx.attacker.lockChoice := false;
    }
  }

  /** What `TypeChange` leaves behind, against the state it started from. */
  twostate predicate TypeChangeDone(ctx: BattleContext, out: Outcome)
    reads *
    requires Steady(ctx)
  {
    var a, d := ctx.Att(), ctx.Def();
    var first := old(d.types.items);
    && (a.types == d.types || first == [] ==>
          out == Crash(IndexOutOfRange) && a.types.items == [] && ctx.log == old(ctx.log))
    && (a.types != d.types && first != [] ==>
          out == Ok && a.types.items == [first[0]] && d.types.items == first
          && ctx.log == old(ctx.log) + Entries(ctx.turn, [TypeChanged(a.species.name, first[0])]))
  }

  /** Conversion: the attacker's type list is emptied in place and then receives the
      defender's first type. The list is shared with the species and every combatant of it, so
      when the defender reads the same list it is empty by then and the read fails, as it does
      for a defender without types. */
  method TypeChange(ctx: BattleContext) returns (out: Outcome)
    requires ctx.Valid()
    modifies ctx`log, ctx.Att().types
    ensures TypeChangeDone(ctx, out)
  {
    var a := ctx.attacker.activePokemon;
    var d := ctx.defender.activePokemon;
    a.types.items := [];
    if |d.types.items| == 0 {
      return Crash(IndexOutOfRange);
    }
    var t := d.types.items[0];
    a.types.items := a.types.items + [t];
    ctx.Log(TypeChanged(a.species.name, t));
    out := Ok;
  }

  /** The first slot of `ms` whose move has the given name, or -1, as `List.FindIndex`. */
  function FindIndexByName(ms: seq<BattleMove>, name: string): (i: int)
    ensures -1 <= i < |ms|
    ensures i >= 0 ==> ms[i].property.name == name && forall k :: 0 <= k < i ==> ms[k].property.name != name
    ensures i == -1 ==> forall k :: 0 <= k < |ms| ==> ms[k].property.name != name
  {
    if ms == [] then -1
    else if ms[0].property.name == name then 0
    else var j := FindIndexByName(ms[1..], name); if j == -1 then -1 else j + 1
  }

  /** What `Mimic` leaves behind, against the state it started from. */
  twostate predicate MimicDone(ctx: BattleContext, out: Outcome)
    reads *
    requires Steady(ctx)
  {
    && ctx.drawn == old(ctx.drawn) + 1
    && (var am, dm := old(ctx.Att().moves), ctx.Def().moves;
      var at := FindIndexByName(am, "Mimic");
      && (dm == [] || at == -1 ==> out == Crash(IndexOutOfRange) && ctx.Att().moves == am && ctx.log == old(ctx.log))
      && (dm != [] && at != -1 ==>
            out == Ok && ctx.Att().moves == am[..at] + [dm[old(ctx.Roll(0, 0, |dm|))]] + am[at..]
            && ctx.log == old(ctx.log) + Entries(ctx.turn, [Learned(ctx.Att().species.name)])))
  }

  /** Mimic: a drawn slot of the defender (the same slot object, so both sides then share its
      PP) is inserted before the attacker's Mimic slot. An empty defender move list or an
      attacker without a Mimic slot fails the list operation. */
  method Mimic(ctx: BattleContext) returns (out: Outcome)
    requires ctx.Valid()
    modifies ctx`log, ctx`drawn, ctx.Att()`moves
    ensures MimicDone(ctx, out)
  {
    var a := ctx.attacker.activePokemon;
    var d := ctx.defender.activePokemon;
    var k := ctx.Draw(0, |d.moves|);
    if |d.moves| == 0 {
      return Crash(IndexOutOfRange);
    }
    var newMove := d.moves[k];
    var index := FindIndexByName(a.moves, "Mimic");
    if index == -1 {
      return Crash(IndexOutOfRange);
    }
    a.moves := a.moves[..index] + [newMove] + a.moves[index..];
    ctx.Log(Learned(a.species.name));
    out := Ok;
  }
}
