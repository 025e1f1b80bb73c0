/** The multi-strike effect: one effectiveness and one critical-hit check for the whole
    volley, a number of strikes, then a blow per strike until the defender faints, and a
    summary of the hits at the end. */
module Multistrike {
  import opened Numerics
  import opened Models
  import opened Combatants
  import opened Trainers
  import TypeChart
  import Calculators
  import opened Context

  /** How a volley's strike count is chosen: whether the choice fails, the count, and how
      many raw values it consumes. */
  datatype HitPlan = HitPlan(out: Outcome, hits: int, draws: nat)

  /** The strike count from the raw value next in line. The 2-to-5 range rolls; any other
      range strikes exactly twice in the combatant engine, and in the trainer engine draws
      uniformly in [minHits, maxHits], which `Random.Next` rejects when minHits exceeds
      maxHits + 1. */
  function PlanHits(variant: Variant, minHits: int, maxHits: int, raw: int): (p: HitPlan)
    ensures p.out.Ok? <==> (minHits == 2 && maxHits == 5) || variant == Root || minHits <= maxHits + 1
    ensures !p.out.Ok? ==> p.out == Crash(RangeArgument) && p.draws == 0
    ensures minHits == 2 && maxHits == 5 ==> 2 <= p.hits <= 5 && p.draws == 1
    ensures variant == Root && !(minHits == 2 && maxHits == 5) ==> p == HitPlan(Ok, 2, 0)
    ensures variant == Primary && minHits <= maxHits ==> minHits <= p.hits <= maxHits
    ensures variant == Primary && p.out.Ok? ==> p.draws == 1
  {
    if minHits == 2 && maxHits == 5 then HitPlan(Ok, Calculators.RollHits(Pick(raw, 0, 256)), 1)
    else if variant == Root then HitPlan(Ok, 2, 0)
    else if minHits > maxHits + 1 then HitPlan(Crash(RangeArgument), 0, 0)
    else HitPlan(Ok, Pick(raw, minHits, maxHits + 1), 1)
  }

  /** Where a volley stands: how it ended so far, the defender's HP and fainted flag, the
      remembered damage, the lines written, the hits it will report, the blows dealt and the
      position in the raw stream. */
  datatype VolleyState = VolleyState(out: Outcome, hp: int, fainted: bool, last: Option<int>,
                                     lines: seq<Message>, count: nat, strikes: nat, pos: nat)

  /** The state before the first blow. */
  function Start(hp: int, fainted: bool, last: Option<int>, pos: nat): VolleyState {
    VolleyState(Ok, hp, fainted, last, [], 0, 0, pos)
  }

  /** The lines of one blow: the received line whenever the formula gave a non-zero damage,
      and the fainted line when the blow left the defender without HP. */
  function BlowLines(name: string, damage: int, taken: int, hp: int): seq<Message> {
    LineIf(damage > 0, Received(name, taken)) + LineIf(hp <= 0, Fainted(name))
  }

  /** `blow` is the damage formula of a volley's blows, by their position in the raw
      stream: the matchup, the critical flag and the effectiveness stay fixed for the whole
      volley and each blow draws its random factor at its own position. */
  ghost predicate Formula(blow: nat -> Option<int>, m: Matchup, critical: bool, effectiveness: real, source: nat -> int)
    requires m.Valid()
  {
    forall p: nat {:trigger Pick(source(p), 217, 256)} :: blow(p) == MatchupDamage(m, critical, effectiveness, Pick(source(p), 217, 256))
  }

  /** Every volley has its formula. */
  lemma FormulaExists(m: Matchup, critical: bool, effectiveness: real, source: nat -> int)
    returns (blow: nat -> Option<int>)
    requires m.Valid()
    ensures Formula(blow, m, critical, effectiveness, source)
  {
    blow := (p: nat) => MatchupDamage(m, critical, effectiveness, Pick(source(p), 217, 256));
  }

  /** One blow of damage `r` on state `v`: the defender takes at most its HP; a blow that
      leaves it without HP marks it fainted and is not counted as a hit, and the trainer
      engine remembers its damage where the combatant engine keeps the previous one. `rolls`
      says whether the blow drew the formula's random factor. */
  function LandBlow(variant: Variant, name: string, r: Option<int>, rolls: bool, v: VolleyState): (w: VolleyState)
    ensures w.out.Ok? <==> r.Some?
    ensures r.None? ==> w == v.(out := Crash(DivideByZero))
    ensures r.Some? ==> w.strikes == v.strikes + 1 && w.pos == v.pos + (if rolls then 1 else 0)
                        && w.hp == v.hp - Min(v.hp, r.value) && w.fainted == (w.hp <= 0)
                        && w.count == v.count + (if w.fainted then 0 else 1)
  {
    if r.None? then v.(out := Crash(DivideByZero))
    else
      var taken := Min(v.hp, r.value);
      var hp := v.hp - taken;
      var fainted := hp <= 0;
      VolleyState(Ok, hp, fainted, if fainted && variant == Root then v.last else Some(taken),
                  v.lines + BlowLines(name, r.value, taken, hp), if fainted then v.count else v.count + 1,
                  v.strikes + 1, v.pos + (if rolls then 1 else 0))
  }

  /** The remaining `left` strikes of a volley from state `v`, each dealing `blow` of the
      position it starts at, until one fails or leaves the defender fainted. */
  function RunVolley(variant: Variant, name: string, blow: nat -> Option<int>, rolls: bool, left: int, v: VolleyState): VolleyState
    decreases left
  {
    if left <= 0 then v
    else
      var w := LandBlow(variant, name, blow(v.pos), rolls, v);
      if !w.out.Ok? || w.fainted then w else RunVolley(variant, name, blow, rolls, left - 1, w)
  }

  /** The summary after the blows: written only when at least one hit is reported. */
  function Summary(effectiveness: real, critical: bool, v: VolleyState): seq<Message> {
    if v.out.Ok? && v.count > 0 then EffectivenessLine(effectiveness) + LineIf(critical, CriticalHit) + [HitTimes(v.count)]
    else []
  }

  /** Whether the damage formula fails does not depend on the random factor, so either every
      blow of a volley fails or none does. */
  lemma FailureIgnoresRoll(blow: nat -> Option<int>, m: Matchup, critical: bool, effectiveness: real,
                           source: nat -> int, p: nat, q: nat)
    requires m.Valid() && Formula(blow, m, critical, effectiveness, source)
    ensures blow(p).None? == blow(q).None?
  {
    assert blow(p) == MatchupDamage(m, critical, effectiveness, Pick(source(p), 217, 256));
    assert blow(q) == MatchupDamage(m, critical, effectiveness, Pick(source(q), 217, 256));
  }

  /** A volley deals at most `left` blows and stops early only on a fault or a faint; one
      that deals none changes nothing but its outcome. */
  lemma {:induction false} VolleyStrikes(variant: Variant, name: string, blow: nat -> Option<int>, rolls: bool,
                                         left: int, v: VolleyState)
    requires v.out.Ok?
    ensures var r := RunVolley(variant, name, blow, rolls, left, v);
            && v.strikes <= r.strikes && (left >= 0 ==> r.strikes - v.strikes <= left)
            && (r.out.Ok? && r.strikes - v.strikes < left ==> r.hp <= 0 && r.fainted)
            && (r.strikes == v.strikes ==> r.(out := Ok) == v)
  {
    if left > 0 {
      var w := LandBlow(variant, name, blow(v.pos), rolls, v);
      if w.out.Ok? && !w.fainted {
        VolleyStrikes(variant, name, blow, rolls, left - 1, w);
      }
    }
  }

  /** Every blow but a fainting one is reported as a hit: a volley that ends on a knockout
      at blow k reports k - 1 hits. */
  lemma {:induction false} VolleyCount(variant: Variant, name: string, blow: nat -> Option<int>, rolls: bool,
                                       left: int, v: VolleyState)
    requires v.out.Ok?
    ensures var r := RunVolley(variant, name, blow, rolls, left, v);
            r.out.Ok? ==> r.count == v.count + (r.strikes - v.strikes) - (if r.strikes > v.strikes && r.fainted then 1 else 0)
  {
    if left > 0 {
      var w := LandBlow(variant, name, blow(v.pos), rolls, v);
      if w.out.Ok? && !w.fainted {
        VolleyCount(variant, name, blow, rolls, left - 1, w);
        VolleyStrikes(variant, name, blow, rolls, left - 1, w);
      }
    }
  }

  /** A volley draws one raw value per blow when its blows roll, none otherwise. */
  lemma {:induction false} VolleyDraws(variant: Variant, name: string, blow: nat -> Option<int>, rolls: bool,
                                       left: int, v: VolleyState)
    requires v.out.Ok?
    ensures var r := RunVolley(variant, name, blow, rolls, left, v);
            r.pos == v.pos + (if rolls then r.strikes - v.strikes else 0)
  {
    if left > 0 {
      var w := LandBlow(variant, name, blow(v.pos), rolls, v);
      if w.out.Ok? && !w.fainted {
        VolleyDraws(variant, name, blow, rolls, left - 1, w);
      }
    }
  }

  /** A volley only takes HP away, and never below 0. */
  lemma {:induction false} VolleyHp(variant: Variant, name: string, blow: nat -> Option<int>, rolls: bool,
                                    left: int, v: VolleyState)
    requires v.out.Ok? && v.hp >= 0
    requires forall p: nat :: blow(p).Some? ==> blow(p).value >= 0
    ensures var r := RunVolley(variant, name, blow, rolls, left, v);
            0 <= r.hp <= v.hp
  {
    if left > 0 {
      var w := LandBlow(variant, name, blow(v.pos), rolls, v);
      if w.out.Ok? && !w.fainted {
        VolleyHp(variant, name, blow, rolls, left - 1, w);
      }
    }
  }

  /** When failing does not depend on the position, a volley that fails does so at the
      first blow, before anything changed. */
  lemma {:induction false} VolleyFailsFirst(variant: Variant, name: string, blow: nat -> Option<int>, rolls: bool,
                                            left: int, v: VolleyState)
    requires v.out.Ok? && left > 0
    requires forall p: nat, q: nat :: blow(p).None? == blow(q).None?
    ensures var r := RunVolley(variant, name, blow, rolls, left, v);
            && (!r.out.Ok? <==> blow(v.pos).None?)
            && (blow(v.pos).None? ==> r == v.(out := Crash(DivideByZero)))
  {
    var w := LandBlow(variant, name, blow(v.pos), rolls, v);
    if w.out.Ok? && !w.fainted && left > 1 {
      assert blow(w.pos).Some?;
      VolleyFailsFirst(variant, name, blow, rolls, left - 1, w);
    }
  }

  /** A blow that knocks the defender out on the first strike leaves no hit to report, so
      the volley writes no summary: neither the effectiveness nor the critical-hit line nor
      the hit count. */
  lemma FirstBlowKoReportsNothing(variant: Variant, name: string, blow: nat -> Option<int>, rolls: bool, hits: int,
                                  effectiveness: real, critical: bool, hp: int, fainted: bool, last: Option<int>, pos: nat)
    requires hits >= 1 && blow(pos).Some? && blow(pos).value >= hp
    ensures var v := RunVolley(variant, name, blow, rolls, hits, Start(hp, fainted, last, pos));
            v.out.Ok? && v.strikes == 1 && v.count == 0 && v.fainted && Summary(effectiveness, critical, v) == []
  {
  }

  /** Against an immune defender with HP left every strike lands for 0: nothing is drawn,
      no line is written, the HP stays, every strike is reported and 0 is remembered. */
  lemma {:induction false} ImmuneVolley(variant: Variant, name: string, blow: nat -> Option<int>, m: Matchup,
                                        critical: bool, source: nat -> int, left: int, v: VolleyState)
    requires m.Valid() && Formula(blow, m, critical, 0.0, source)
    requires v.out.Ok? && v.hp > 0 && left > 0 && blow(v.pos).Some?
    ensures RunVolley(variant, name, blow, false, left, v)
            == v.(fainted := false, last := Some(0), count := v.count + left, strikes := v.strikes + left)
  {
    assert blow(v.pos) == MatchupDamage(m, critical, 0.0, Pick(source(v.pos), 217, 256));
    assert v.lines + BlowLines(name, 0, 0, v.hp) == v.lines;
    var w := LandBlow(variant, name, blow(v.pos), false, v);
    if left > 1 {
      FailureIgnoresRoll(blow, m, critical, 0.0, source, v.pos, w.pos);
      ImmuneVolley(variant, name, blow, m, critical, source, left - 1, w);
    }
  }

  /** The two engines' volleys differ only in the damage they remember, and only when the
      volley ends on a knockout. */
  lemma {:induction false} EnginesDifferOnlyInLast(name: string, blow: nat -> Option<int>, rolls: bool, left: int, v: VolleyState)
    ensures var p := RunVolley(Primary, name, blow, rolls, left, v);
            var q := RunVolley(Root, name, blow, rolls, left, v);
            p.(last := q.last) == q && (!p.fainted ==> p.last == q.last)
  {
    if left > 0 {
      var w := LandBlow(Primary, name, blow(v.pos), rolls, v);
      if w.out.Ok? && !w.fainted {
        EnginesDifferOnlyInLast(name, blow, rolls, left - 1, w);
      }
    }
  }

  /** One blow of the volley, as `LandBlow` describes it: the damage formula, then the
      defender takes at most its HP, a non-zero damage and a knockout are logged, and the
      damage is remembered as the engine does. `blow` is the volley's damage formula on the
      matchup `m` and `v` the volley's state before the blow. */
  method Round(ctx: BattleContext, d: BattlePokemon, critical: bool, effectiveness: real, ghost m: Matchup,
               ghost blow: nat -> Option<int>, ghost log0: seq<LogEntry>, ghost v: VolleyState)
    returns (out: Outcome, fainted: bool, ghost lines: seq<Message>)
    requires ctx.Valid() && d == ctx.Def() && m == ctx.CurrentMatchup() && m.Valid()
    requires Formula(blow, m, critical, effectiveness, ctx.source)
    requires v.hp == d.currentHp && v.fainted == d.isFainted && v.last == ctx.lastDamage && v.pos == ctx.drawn
    requires ctx.log == log0 + Entries(ctx.turn, v.lines)
    modifies ctx`log, ctx`drawn, ctx`lastDamage, d`currentHp, d`isFainted
    ensures ctx.log == log0 + Entries(ctx.turn, lines)
    ensures var w := LandBlow(ctx.variant, d.species.name, blow(v.pos), effectiveness != 0.0, v);
            && out == w.out && fainted == w.fainted && lines == w.lines
            && d.currentHp == w.hp && d.isFainted == w.fainted
            && ctx.lastDamage == w.last && ctx.drawn == w.pos
  {
    var damage, taken;
    out, damage, taken := Blow(ctx, d, critical, effectiveness, m, blow);
    BlowAgrees(ctx.variant, d.species.name, blow(v.pos), effectiveness != 0.0, v, out, damage, taken, d.currentHp, ctx.drawn);
    if !out.Ok? {
      return out, d.isFainted, v.lines;
    }
    Extend(log0, ctx.turn, v.lines, BlowLines(d.species.name, damage, taken, d.currentHp));
    lines := v.lines + BlowLines(d.species.name, damage, taken, d.currentHp);
    fainted := d.isFainted;
    // The trainer engine remembers the blow before the faint check, the combatant engine
    // only after it.
    ctx.lastDamage := if ctx.variant == Root && fainted then ctx.lastDamage else Some(taken);
  }

  /** One step of a volley with strikes left: the next blow, then the rest unless it
      failed or knocked the defender out. */
  lemma RunVolleyStep(variant: Variant, name: string, blow: nat -> Option<int>, rolls: bool, left: int, v: VolleyState)
    requires left > 0
    ensures var w := LandBlow(variant, name, blow(v.pos), rolls, v);
            RunVolley(variant, name, blow, rolls, left, v)
            == if !w.out.Ok? || w.fainted then w else RunVolley(variant, name, blow, rolls, left - 1, w)
  {
  }

  /** The state after a blow, field by field: `out`, `hp` and `pos` are what the blow
      produced when the formula gave `r`, `damage` and `taken` what it dealt and took. */
  lemma BlowAgrees(variant: Variant, name: string, r: Option<int>, rolls: bool, v: VolleyState,
                   out: Outcome, damage: int, taken: int, hp: int, pos: nat)
    requires r.None? ==> out == Crash(DivideByZero) && hp == v.hp && pos == v.pos
    requires r.Some? ==> out == Ok && damage == r.value && taken == Min(v.hp, damage) && hp == v.hp - taken
                         && pos == v.pos + (if rolls then 1 else 0)
    ensures var w := LandBlow(variant, name, r, rolls, v);
            && w.out == out && w.hp == hp && w.pos == pos
            && (!out.Ok? ==> w.fainted == v.fainted && w.last == v.last && w.lines == v.lines)
            && (out.Ok? ==> w.fainted == (hp <= 0) && w.last == (if hp <= 0 && variant == Root then v.last else Some(taken))
                            && w.lines == v.lines + BlowLines(name, damage, taken, hp))
  {
  }

  /** One blow of the volley: the damage formula `blow` at the current position, then the
      defender takes at most its HP, a non-zero damage is logged and so is a knockout. */
  method Blow(ctx: BattleContext, d: BattlePokemon, critical: bool, effectiveness: real, ghost m: Matchup,
              ghost blow: nat -> Option<int>)
    returns (out: Outcome, damage: int, taken: int)
    requires ctx.Valid() && d == ctx.Def() && m == ctx.CurrentMatchup() && m.Valid()
    requires Formula(blow, m, critical, effectiveness, ctx.source)
    modifies ctx`log, ctx`drawn, d`currentHp, d`isFainted
    ensures var r := blow(old(ctx.drawn));
            && ctx.drawn == old(ctx.drawn) + (if r.Some? && effectiveness != 0.0 then 1 else 0)
            && (r.None? ==>
                  out == Crash(DivideByZero) && d.currentHp == old(d.currentHp) && d.isFainted == old(d.isFainted)
                  && ctx.log == old(ctx.log))
            && (r.Some? ==>
                  out == Ok && damage == r.value && taken == Min(old(d.currentHp), damage)
                  && d.currentHp == old(d.currentHp) - taken && d.isFainted == (d.currentHp <= 0)
                  && ctx.log == old(ctx.log) + Entries(ctx.turn, BlowLines(d.species.name, damage, taken, d.currentHp)))
  {
    assert blow(ctx.drawn) == MatchupDamage(m, critical, effectiveness, Pick(ctx.source(ctx.drawn), 217, 256));
    out, damage := ctx.CalculateDamage(critical, effectiveness);
    if !out.Ok? {
      return out, damage, 0;
    }
    taken := d.TakeDamage(damage);
    ghost var log0 := ctx.log;
    ctx.LogIf(damage > 0, Received(d.species.name, taken));
    ctx.LogIf(d.isFainted, Fainted(d.species.name));
    Extend(log0, ctx.turn, LineIf(damage > 0, Received(d.species.name, taken)), LineIf(d.isFainted, Fainted(d.species.name)));
  }

  /** A blow of the volley as the loop of `Strikes` sees it: `Round`, after which the
      context is still ready, the matchup is the one the volley started with and `w`, the
      state after the blow, either ends the volley of `left` strikes or starts its rest. */
  method Step(ctx: BattleContext, d: BattlePokemon, critical: bool, effectiveness: real, ghost m: Matchup,
              ghost blow: nat -> Option<int>, ghost log0: seq<LogEntry>, ghost v: VolleyState, ghost left: int)
    returns (out: Outcome, fainted: bool, ghost lines: seq<Message>, ghost w: VolleyState)
    requires ctx.Valid() && d == ctx.Def() && m == ctx.CurrentMatchup() && m.Valid()
    requires Formula(blow, m, critical, effectiveness, ctx.source)
    requires v.hp == d.currentHp && v.fainted == d.isFainted && v.last == ctx.lastDamage && v.pos == ctx.drawn
    requires ctx.log == log0 + Entries(ctx.turn, v.lines)
    requires left > 0 && v.out == Ok
    modifies ctx`log, ctx`drawn, ctx`lastDamage, d`currentHp, d`isFainted
    ensures ctx.Valid() && d == ctx.Def() && m == ctx.CurrentMatchup()
    ensures ctx.log == log0 + Entries(ctx.turn, lines)
    ensures out == w.out && fainted == w.fainted && lines == w.lines
    ensures d.currentHp == w.hp && d.isFainted == w.fainted && ctx.lastDamage == w.last && ctx.drawn == w.pos
    ensures var rest := RunVolley(ctx.variant, d.species.name, blow, effectiveness != 0.0, left, v);
            if !out.Ok? || fainted then rest == w && w.count == v.count
            else rest == RunVolley(ctx.variant, d.species.name, blow, effectiveness != 0.0, left - 1, w)
                 && w.count == v.count + 1
  {
    out, fainted, lines := Round(ctx, d, critical, effectiveness, m, blow, log0, v);
    w := LandBlow(ctx.variant, d.species.name, blow(v.pos), effectiveness != 0.0, v);
    RunVolleyStep(ctx.variant, d.species.name, blow, effectiveness != 0.0, left, v);
  }

  /** The strikes of a volley, as `RunVolley` describes them, for the volley's damage
      formula `blow` on the matchup `m`. */
  method Strikes(ctx: BattleContext, d: BattlePokemon, critical: bool, effectiveness: real, hits: int, ghost m: Matchup,
                 ghost blow: nat -> Option<int>, ghost v0: VolleyState)
    returns (out: Outcome, count: nat, ghost lines: seq<Message>)
    requires ctx.Valid() && d == ctx.Def() && m == ctx.CurrentMatchup() && m.Valid()
    requires Formula(blow, m, critical, effectiveness, ctx.source)
    requires v0 == Start(d.currentHp, d.isFainted, ctx.lastDamage, ctx.drawn)
    modifies ctx`log, ctx`drawn, ctx`lastDamage, d`currentHp, d`isFainted
    ensures var v := RunVolley(ctx.variant, d.species.name, blow, effectiveness != 0.0, hits, v0);
            && out == v.out && count == v.count && lines == v.lines
            && d.currentHp == v.hp && d.isFainted == v.fainted
            && ctx.lastDamage == v.last && ctx.drawn == v.pos
    ensures ctx.log == old(ctx.log) + Entries(ctx.turn, lines)
  {
    ghost var rolls := effectiveness != 0.0;
    ghost var cur := v0;
    ghost var target := RunVolley(ctx.variant, d.species.name, blow, rolls, hits, cur);
    ghost var log0 := ctx.log;
    lines := [];
    out := Ok;
    var h, stop := 0, false;
    while h < hits && !stop
      invariant ctx.log == log0 + Entries(ctx.turn, lines)
      invariant 0 <= h && cur.lines == lines && cur.count == h && cur.out == out
      invariant cur.hp == d.currentHp && cur.fainted == d.isFainted
      invariant cur.last == ctx.lastDamage && cur.pos == ctx.drawn
      invariant if stop then target == cur else out == Ok && target == RunVolley(ctx.variant, d.species.name, blow, rolls, hits - h, cur)
      decreases hits - h, if stop then 0 else 1
    {
      var fainted;
      out, fainted, lines, cur := Step(ctx, d, critical, effectiveness, m, blow, log0, cur, hits - h);
      if !out.Ok? || fainted {
        stop := true;
      } else {
        h := h + 1;
      }
    }
    count := h;
  }

  /** The volley's effectiveness, critical hit and strike count, in the order the effect
      computes them. */
  method Prepare(ctx: BattleContext, ratio: CriticalRatio, minHits: int, maxHits: int)
    returns (out: Outcome, effectiveness: real, critical: bool, hits: int)
    requires ctx.Valid()
    modifies ctx`drawn
    ensures effectiveness == MatchupEffectiveness(ctx.CurrentMatchup())
    ensures critical == Calculators.IsCriticalHit(ctx.CurrentMatchup().attacker.baseSpeed, ratio, old(ctx.Roll(0, 0, 256)))
    ensures var p := PlanHits(ctx.variant, minHits, maxHits, ctx.source(old(ctx.drawn) + 1));
            out == p.out && hits == p.hits && ctx.drawn == old(ctx.drawn) + 1 + p.draws
  {
    effectiveness := TypeChart.GetMultiplier(ctx.move.property.moveType, ctx.defender.activePokemon.types.items);
    critical := ctx.IsCriticalHit(ratio);
    out, hits := ChooseHits(ctx, minHits, maxHits);
  }

  /** What `Apply` leaves behind with the damage formula `blow`, against the state it started
      from. */
  twostate predicate VolleyDone(ctx: BattleContext, ratio: CriticalRatio, minHits: int, maxHits: int,
                                out: Outcome, blow: nat -> Option<int>)
    reads *
    requires Steady(ctx)
  {
    var m := old(ctx.CurrentMatchup());
    var eff := MatchupEffectiveness(m);
    var crit := Calculators.IsCriticalHit(m.attacker.baseSpeed, ratio, old(ctx.Roll(0, 0, 256)));
    var plan := PlanHits(ctx.variant, minHits, maxHits, ctx.source(old(ctx.drawn) + 1));
    var d := ctx.Def();
    var v := RunVolley(ctx.variant, d.species.name, blow, eff != 0.0, plan.hits,
                       Start(old(d.currentHp), old(d.isFainted), old(ctx.lastDamage), old(ctx.drawn) + 1 + plan.draws));
    && m.Valid() && Formula(blow, m, crit, eff, ctx.source)
    && (!plan.out.Ok? ==>
          && out == plan.out && ctx.drawn == old(ctx.drawn) + 1 && ctx.log == old(ctx.log)
          && d.currentHp == old(d.currentHp) && d.isFainted == old(d.isFainted) && ctx.lastDamage == old(ctx.lastDamage))
    && (plan.out.Ok? ==>
          && out == v.out && ctx.drawn == v.pos && ctx.log == old(ctx.log) + Entries(ctx.turn, v.lines + Summary(eff, crit, v))
          && d.currentHp == v.hp && d.isFainted == v.fainted && ctx.lastDamage == v.last)
  }

  /** The multi-strike effect: the effectiveness against the defender's current types, one
      critical-hit draw, the strike count, the blows, then the effectiveness line, the
      critical-hit line and the hit count when a hit is reported. `blow` is the volley's
      damage formula. */
  method Apply(ctx: BattleContext, ratio: CriticalRatio, minHits: int, maxHits: int)
    returns (out: Outcome, ghost blow: nat -> Option<int>)
    requires ctx.Valid()
    modifies ctx`log, ctx`drawn, ctx`lastDamage, ctx.Def()`currentHp, ctx.Def()`isFainted
    ensures VolleyDone(ctx, ratio, minHits, maxHits, out, blow)
  {
    var effectiveness, isCritical, hits;
    ghost var d, m0 := ctx.Def(), ctx.CurrentMatchup();
    ghost var hp, fainted, last := d.currentHp, d.isFainted, ctx.lastDamage;
    out, effectiveness, isCritical, hits := Prepare(ctx, ratio, minHits, maxHits);
    ghost var m := ctx.CurrentMatchup();
    assert m == m0 && ctx.Valid() && ctx.Def() == d;
    if !out.Ok? {
      blow := FormulaExists(m, isCritical, effectiveness, ctx.source);
      return;
    }
    ghost var v0 := Start(hp, fainted, last, ctx.drawn);
    out, blow := Volley(ctx, ctx.defender.activePokemon, isCritical, effectiveness, hits, m, v0);
  }

  /** The blows of a volley with its effectiveness, critical flag and strike count chosen,
      then its summary: `RunVolley` from `v0` and `Summary` for the volley's damage
      formula `blow`. */
  method Volley(ctx: BattleContext, d: BattlePokemon, critical: bool, effectiveness: real, hits: int, ghost m: Matchup,
                ghost v0: VolleyState)
    returns (out: Outcome, ghost blow: nat -> Option<int>)
    requires ctx.Valid() && d == ctx.Def() && m == ctx.CurrentMatchup() && m.Valid()
    requires v0 == Start(d.currentHp, d.isFainted, ctx.lastDamage, ctx.drawn)
    modifies ctx`log, ctx`drawn, ctx`lastDamage, d`currentHp, d`isFainted
    ensures var v := RunVolley(ctx.variant, d.species.name, blow, effectiveness != 0.0, hits, v0);
            && Formula(blow, m, critical, effectiveness, ctx.source)
            && out == v.out && ctx.drawn == v.pos && ctx.log == old(ctx.log) + Entries(ctx.turn, v.lines + Summary(effectiveness, critical, v))
            && d.currentHp == v.hp && d.isFainted == v.fainted && ctx.lastDamage == v.last
  {
    blow := FormulaExists(m, critical, effectiveness, ctx.source);
    ghost var log0 := ctx.log;
    var count;
    ghost var lines;
    out, count, lines := Strikes(ctx, d, critical, effectiveness, hits, m, blow, v0);
    ghost var v := RunVolley(ctx.variant, d.species.name, blow, effectiveness != 0.0, hits, v0);
    if out.Ok? && count > 0 {
      Summarise(ctx, effectiveness, critical, count);
      Extend(log0, ctx.turn, lines, EffectivenessLine(effectiveness) + LineIf(critical, CriticalHit) + [HitTimes(count)]);
      assert Summary(effectiveness, critical, v) == EffectivenessLine(effectiveness) + LineIf(critical, CriticalHit) + [HitTimes(count)];
    } else {
      assert Summary(effectiveness, critical, v) == [];
      assert lines + [] == lines;
    }
  }

  /** The strike count of a volley, as `PlanHits` describes it. */
  method ChooseHits(ctx: BattleContext, minHits: int, maxHits: int) returns (out: Outcome, hits: int)
    modifies ctx`drawn
    ensures var p := PlanHits(ctx.variant, minHits, maxHits, ctx.source(old(ctx.drawn)));
            out == p.out && hits == p.hits && ctx.drawn == old(ctx.drawn) + p.draws
  {
    if minHits == 2 && maxHits == 5 {
      var roll := ctx.Draw(0, 256);
      hits := Calculators.RollHits(roll);
    } else if ctx.variant == Root {
      hits := 2;
    } else {
      if minHits > maxHits + 1 {
        return Crash(RangeArgument), 0;
      }
      hits := ctx.Draw(minHits, maxHits + 1);
    }
    out := Ok;
  }

  /** The summary lines of a volley that reported hits. */
  method Summarise(ctx: BattleContext, effectiveness: real, critical: bool, count: int)
    modifies ctx`log
    ensures ctx.log == old(ctx.log) + Entries(ctx.turn, EffectivenessLine(effectiveness) + LineIf(critical, CriticalHit) + [HitTimes(count)])
  {
    ghost var log0 := ctx.log;
    ctx.LogEffectiveness(effectiveness);
    ctx.LogIf(critical, CriticalHit);
    Extend(log0, ctx.turn, EffectivenessLine(effectiveness), LineIf(critical, CriticalHit));
    ctx.Log(HitTimes(count));
    Extend(log0, ctx.turn, EffectivenessLine(effectiveness) + LineIf(critical, CriticalHit), [HitTimes(count)]);
  }
}
