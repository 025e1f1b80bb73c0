/** Using a move: the recharge short-cut, the usability and accuracy checks, the effect loop
    with its early stop on a charging turn, the effects that still run on a miss, the PP
    bookkeeping, and the two effects that use another move from inside a move (Mirror Move
    and Metronome). */
module MoveUse {
  import opened Numerics
  import opened Models
  import opened Combatants
  import opened Trainers
  import Calculators
  import opened Context
  import Effects
  import Multistrike

  /** The effects that use another move and so can change anything a move use changes. */
  predicate Nests(e: Effect) {
    (e.CopyMoveEffect? && !e.replace) || e.RandomMoveEffect?
  }

  /** None of the effects uses another move. */
  predicate Quiet(es: seq<Effect>) {
    forall i :: 0 <= i < |es| ==> !Nests(es[i])
  }

  /** The effects of a move that run on a miss, in their order in the move. */
  function AlwaysEffects(es: seq<Effect>): (r: seq<Effect>)
    ensures forall e :: e in r <==> e in es && e.AlwaysRuns()
    ensures |r| <= |es|
  {
    if es == [] then []
    else (if es[0].AlwaysRuns() then [es[0]] else []) + AlwaysEffects(es[1..])
  }
  /** The effects run on a miss keep the move's order: filtering a concatenation
      concatenates the filtered parts, and a one-effect list keeps its effect exactly when it
      always runs. */
  lemma {:induction false} AlwaysEffectsConcat(xs: seq<Effect>, ys: seq<Effect>)
    ensures AlwaysEffects(xs + ys) == AlwaysEffects(xs) + AlwaysEffects(ys)
    ensures |xs| == 1 ==> AlwaysEffects(xs) == (if xs[0].AlwaysRuns() then xs else [])
  {
    if xs == [] {
      Regroup(ys, ys, ys);
    } else {
      var head := if xs[0].AlwaysRuns() then [xs[0]] else [];
      SplitHead(xs, ys);
      AlwaysEffectsConcat(xs[1..], ys);
      Regroup(head, AlwaysEffects(xs[1..]), AlwaysEffects(ys));
    }
  }


  lemma AlwaysEffectsQuiet(es: seq<Effect>)
    ensures Quiet(AlwaysEffects(es))
  {
    var r := AlwaysEffects(es);
    forall i | 0 <= i < |r| ensures !Nests(r[i]) {
      assert r[i] in r;
    }
  }

  /** Some effect of the list is a charging turn. */
  predicate HasChargingTurn(es: seq<Effect>) {
    exists i :: 0 <= i < |es| && es[i].ChargingTurnEffect?
  }

  /** The catalogue without Metronome itself, in catalogue order. */
  function NonMetronome(ms: seq<Move>): (r: seq<Move>)
    ensures forall m :: m in r <==> m in ms && m.name != "Metronome"
    ensures |r| <= |ms|
  {
    if ms == [] then []
    else (if ms[0].name != "Metronome" then [ms[0]] else []) + NonMetronome(ms[1..])
  }
  /** Metronome's pool keeps catalogue order: filtering a concatenation concatenates the
      filtered parts, and a one-move catalogue keeps its move exactly when it is not
      Metronome. */
  lemma {:induction false} NonMetronomeConcat(xs: seq<Move>, ys: seq<Move>)
    ensures NonMetronome(xs + ys) == NonMetronome(xs) + NonMetronome(ys)
    ensures |xs| == 1 ==> NonMetronome(xs) == (if xs[0].name != "Metronome" then xs else [])
  {
    if xs == [] {
      Regroup(ys, ys, ys);
    } else {
      var head := if xs[0].name != "Metronome" then [xs[0]] else [];
      SplitHead(xs, ys);
      NonMetronomeConcat(xs[1..], ys);
      Regroup(head, NonMetronome(xs[1..]), NonMetronome(ys));
    }
  }


  /** `world` holds every object a move use can change: the context, both trainers, both
      active combatants with their stages, type lists and move slots, and the remembered
      move. */
  ghost predicate Inside(ctx: BattleContext, world: set<object>)
    reads ctx`attacker, ctx`defender, ctx`lastMove
    reads if ctx.attacker != null then {ctx.attacker} else {}`activePokemon
    reads if ctx.defender != null then {ctx.defender} else {}`activePokemon
    reads if ctx.attacker != null then {ctx.attacker.activePokemon} else {}
    reads if ctx.defender != null then {ctx.defender.activePokemon} else {}
    requires ctx.attacker != null && ctx.defender != null
  {
    var a, d := ctx.Att(), ctx.Def();
    && ctx in world && ctx.attacker in world && ctx.defender in world
    && a in world && d in world && a.statStages in world && d.statStages in world
    && a.types in world && d.types in world
    && (forall i :: 0 <= i < |a.moves| ==> a.moves[i] in world)
    && (forall i :: 0 <= i < |d.moves| ==> d.moves[i] in world)
    && (ctx.lastMove != null ==> ctx.lastMove in world)
  }

  /** What every effect and every move use keeps: the same sides, active combatants and
      trainers' last actions, a context ready for the next effect, a world that only grew by
      new objects and still covers everything, the same turn and generator, and a log that
      only grew. */
  twostate predicate Kept(ctx: BattleContext, world: set<object>, new world': set<object>)
    reads ctx
    reads if ctx.attacker != null then {ctx.attacker as object, ctx.attacker.activePokemon, ctx.attacker.activePokemon.statStages} else {}
    reads if ctx.defender != null then {ctx.defender as object, ctx.defender.activePokemon, ctx.defender.activePokemon.statStages} else {}
  {
    && ctx.attacker != null && ctx.defender != null
    && ctx.attacker == old(ctx.attacker) && ctx.defender == old(ctx.defender)
    && ctx.attacker.activePokemon == old(ctx.attacker.activePokemon)
    && ctx.defender.activePokemon == old(ctx.defender.activePokemon)
    && ctx.attacker.lastAction == old(ctx.attacker.lastAction)
    && ctx.defender.lastAction == old(ctx.defender.lastAction)
    && ctx.Valid() && Inside(ctx, world')
    && world <= world' && (forall o :: o in world' && o !in world ==> fresh(o))
    && ctx.turn == old(ctx.turn) && ctx.source == old(ctx.source)
    && old(ctx.log) <= ctx.log
  }

  /** Inserting a slot of the world into a list of slots of the world. */
  lemma InsertWithin(am: seq<BattleMove>, x: BattleMove, at: int, world: set<object>)
    requires 0 <= at <= |am| && x in world
    requires forall i :: 0 <= i < |am| ==> am[i] in world
    ensures forall i :: 0 <= i < |am[..at] + [x] + am[at..]| ==> (am[..at] + [x] + am[at..])[i] in world
  {
    var r := am[..at] + [x] + am[at..];
    forall i | 0 <= i < |r| ensures r[i] in world {
      if i < at { assert r[i] == am[i]; }
      else if i > at { assert r[i] == am[i - 1]; }
    }
  }

  /** What applying `e` did with outcome `out`, for an effect that does not use another
      move: exactly what the effect's own operation promises, and nothing at all for an effect
      that is not implemented. Each group below speaks of its own kinds of effect only; Mirror
      Move and Metronome are described by `MirrorMove` and `RandomMove`. */
  twostate predicate Applied(ctx: BattleContext, e: Effect, out: Outcome)
    reads *
    requires Steady(ctx)
  {
    && StrikeApplied(ctx, e, out) && BlowApplied(ctx, e, out) && HpApplied(ctx, e, out)
    && StagesApplied(ctx, e, out) && FlagsApplied(ctx, e, out)
  }

  /** Damage through the formula, in one blow or several. */
  twostate predicate StrikeApplied(ctx: BattleContext, e: Effect, out: Outcome)
    reads *
    requires Steady(ctx)
  {
    && (e.DamageEffect? ==> Effects.DamageDone(ctx, e.criticalRatio, out))
    && (e.MultistrikeEffect? ==>
          exists blow :: Multistrike.VolleyDone(ctx, e.criticalRatio, e.minHits, e.maxHits, out, blow))
  }

  /** Damage that does not go through the formula. */
  twostate predicate BlowApplied(ctx: BattleContext, e: Effect, out: Outcome)
    reads *
    requires Steady(ctx)
  {
    && (e.FixedDamageEffect? ==> out == Ok && Effects.FixedDamageDone(ctx, e.fixedPower))
    && (e.CutHalfHpEffect? ==> out == Ok && Effects.CutHalfHpDone(ctx))
    && (e.OneHitKoEffect? ==> out == Ok && Effects.OneHitKoDone(ctx))
    && (e.CounterDamageEffect? ==> out == Ok && Effects.CounterDone(ctx, e.category))
  }

  /** Changes to the attacker's HP. */
  twostate predicate HpApplied(ctx: BattleContext, e: Effect, out: Outcome)
    reads *
    requires Steady(ctx)
  {
    && (e.DrainEffect? ==> out == Ok && Effects.DrainDone(ctx, e.percent))
    && (e.RecoilEffect? ==> out == Ok && Effects.RecoilDone(ctx, e.percent))
    && (e.RecoverHpEffect? ==> out == Ok && Effects.RecoverHpDone(ctx, e.percent))
    && (e.SelfdestructEffect? ==> out == Ok && Effects.SelfdestructDone(ctx))
  }

  /** Changes to stat stages and types. */
  twostate predicate StagesApplied(ctx: BattleContext, e: Effect, out: Outcome)
    reads *
    requires Steady(ctx)
  {
    && (e.StatChangeEffect? ==> Effects.StatChangeDone(ctx, e.target, e.chance, e.stages, e.affectedStat, out))
    && (e.StatChangeResetEffect? ==> out == Ok && Effects.StatChangeResetDone(ctx))
    && (e.TypeChangeEffect? ==> Effects.TypeChangeDone(ctx, out))
  }

  /** Charging turns, Mimic, Disable, and the effects that are not implemented. */
  twostate predicate FlagsApplied(ctx: BattleContext, e: Effect, out: Outcome)
    reads *
    requires Steady(ctx)
  {
    && (e.ChargingTurnEffect? ==> out == Ok && Effects.ChargingTurnDone(ctx, e.semiInvulnerableTurn))
    && (e.CopyMoveEffect? && e.replace ==> Effects.MimicDone(ctx, out))
    && (e.DisableEffect? ==> out == Ok && Effects.DisableDone(ctx))
    && (e.UnimplementedEffect? ==> out == Ok && unchanged(ctx) && unchanged(ctx.Att(), ctx.Def()))
  }

  /** Applies one effect of the current move: the effect's own operation, with Mirror Move
      and Metronome using another move at one less `fuel`. */
  method ApplyEffect(ctx: BattleContext, e: Effect, fuel: nat, ghost bm: BattleMove, ghost world: set<object>)
    returns (out: Outcome, ghost world': set<object>)
    requires ctx.Valid() && Inside(ctx, world)
    modifies world
    decreases fuel, 1
    ensures Kept(ctx, world, world')
    ensures !Nests(e) ==> world' == world && ctx.lastMove == old(ctx.lastMove) && bm.currentPp == old(bm.currentPp)
    ensures !Nests(e) ==> Steady(ctx) && Applied(ctx, e, out)
  {
    world' := world;
    if e.RandomMoveEffect? {
      out, world' := RandomMove(ctx, fuel, world);
    } else if e.CopyMoveEffect? && !e.replace {
      out, world' := MirrorMove(ctx, fuel, world);
    } else if e.DamageEffect? || e.FixedDamageEffect? || e.MultistrikeEffect? || e.CutHalfHpEffect?
              || e.OneHitKoEffect? || e.CounterDamageEffect? {
      out := ApplyDamaging(ctx, e, bm, world);
    } else if e.DrainEffect? || e.RecoilEffect? || e.RecoverHpEffect? || e.SelfdestructEffect? {
      out := ApplyHp(ctx, e, bm, world);
    } else {
      out := ApplyState(ctx, e, bm, world);
    }
  }

  /** The effects that hurt the defender. */
  method ApplyDamaging(ctx: BattleContext, e: Effect, ghost bm: BattleMove, ghost world: set<object>) returns (out: Outcome)
    requires ctx.Valid() && Inside(ctx, world)
    requires e.DamageEffect? || e.FixedDamageEffect? || e.MultistrikeEffect? || e.CutHalfHpEffect?
             || e.OneHitKoEffect? || e.CounterDamageEffect?
    modifies world
    ensures Kept(ctx, world, world)
    ensures ctx.lastMove == old(ctx.lastMove) && bm.currentPp == old(bm.currentPp)
    ensures Steady(ctx) && StrikeApplied(ctx, e, out) && BlowApplied(ctx, e, out)
  {
    if e.DamageEffect? || e.MultistrikeEffect? {
      out := ApplyStrike(ctx, e, bm, world);
    } else {
      out := ApplyBlow(ctx, e, bm, world);
    }
  }

  /** The effects that go through the damage formula. */
  method ApplyStrike(ctx: BattleContext, e: Effect, ghost bm: BattleMove, ghost world: set<object>) returns (out: Outcome)
    requires ctx.Valid() && Inside(ctx, world)
    requires e.DamageEffect? || e.MultistrikeEffect?
    modifies world
    ensures Kept(ctx, world, world)
    ensures ctx.lastMove == old(ctx.lastMove) && bm.currentPp == old(bm.currentPp)
    ensures Steady(ctx) && StrikeApplied(ctx, e, out)
  {
    if e.DamageEffect? {
      out := Effects.Damage(ctx, e.criticalRatio);
    } else {
      out := ApplyVolley(ctx, e, bm, world);
    }
  }

  /** A multi-strike effect. */
  method ApplyVolley(ctx: BattleContext, e: Effect, ghost bm: BattleMove, ghost world: set<object>) returns (out: Outcome)
    requires ctx.Valid() && Inside(ctx, world) && e.MultistrikeEffect?
    modifies world
    ensures Kept(ctx, world, world)
    ensures ctx.lastMove == old(ctx.lastMove) && bm.currentPp == old(bm.currentPp)
    ensures Steady(ctx) && StrikeApplied(ctx, e, out)
  {
    ghost var blow;
    out, blow := Multistrike.Apply(ctx, e.criticalRatio, e.minHits, e.maxHits);
    assert Multistrike.VolleyDone(ctx, e.criticalRatio, e.minHits, e.maxHits, out, blow);
  }

  /** The effects whose damage does not go through the formula. */
  method ApplyBlow(ctx: BattleContext, e: Effect, ghost bm: BattleMove, ghost world: set<object>) returns (out: Outcome)
    requires ctx.Valid() && Inside(ctx, world)
    requires e.FixedDamageEffect? || e.CutHalfHpEffect? || e.OneHitKoEffect? || e.CounterDamageEffect?
    modifies world
    ensures Kept(ctx, world, world)
    ensures ctx.lastMove == old(ctx.lastMove) && bm.currentPp == old(bm.currentPp)
    ensures Steady(ctx) && BlowApplied(ctx, e, out)
  {
    out := Ok;
    if e.FixedDamageEffect? {
      ApplyFixed(ctx, e, bm, world);
    } else if e.CutHalfHpEffect? {
      ApplyHalving(ctx, bm, world);
    } else {
      ApplyFinisher(ctx, e, bm, world);
    }
  }

  /** Fixed damage. */
  method ApplyFixed(ctx: BattleContext, e: Effect, ghost bm: BattleMove, ghost world: set<object>)
    requires ctx.Valid() && Inside(ctx, world) && e.FixedDamageEffect?
    modifies world
    ensures Kept(ctx, world, world)
    ensures ctx.lastMove == old(ctx.lastMove) && bm.currentPp == old(bm.currentPp)
    ensures Steady(ctx) && Effects.FixedDamageDone(ctx, e.fixedPower)
  {
    Effects.FixedDamage(ctx, e.fixedPower);
  }

  /** Super Fang's halving. */
  method ApplyHalving(ctx: BattleContext, ghost bm: BattleMove, ghost world: set<object>)
    requires ctx.Valid() && Inside(ctx, world)
    modifies world
    ensures Kept(ctx, world, world)
    ensures ctx.lastMove == old(ctx.lastMove) && bm.currentPp == old(bm.currentPp)
    ensures Steady(ctx) && Effects.CutHalfHpDone(ctx)
  {
    Effects.CutHalfHp(ctx);
  }

  /** One-hit knock-outs and Counter. */
  method ApplyFinisher(ctx: BattleContext, e: Effect, ghost bm: BattleMove, ghost world: set<object>)
    requires ctx.Valid() && Inside(ctx, world)
    requires e.OneHitKoEffect? || e.CounterDamageEffect?
    modifies world
    ensures Kept(ctx, world, world)
    ensures ctx.lastMove == old(ctx.lastMove) && bm.currentPp == old(bm.currentPp)
    ensures Steady(ctx)
    ensures e.OneHitKoEffect? ==> Effects.OneHitKoDone(ctx)
    ensures e.CounterDamageEffect? ==> Effects.CounterDone(ctx, e.category)
  {
    if e.OneHitKoEffect? {
      Effects.OneHitKo(ctx);
    } else {
      Effects.Counter(ctx, e.category);
    }
  }

  /** The effects that change the attacker's HP. */
  method ApplyHp(ctx: BattleContext, e: Effect, ghost bm: BattleMove, ghost world: set<object>) returns (out: Outcome)
    requires ctx.Valid() && Inside(ctx, world)
    requires e.DrainEffect? || e.RecoilEffect? || e.RecoverHpEffect? || e.SelfdestructEffect?
    modifies world
    ensures Kept(ctx, world, world)
    ensures ctx.lastMove == old(ctx.lastMove) && bm.currentPp == old(bm.currentPp)
    ensures Steady(ctx) && HpApplied(ctx, e, out)
  {
    out := Ok;
    match e {
      case DrainEffect(percent) =>
        Effects.Drain(ctx, percent);
      case RecoilEffect(percent) =>
        Effects.Recoil(ctx, percent);
      case RecoverHpEffect(percent) =>
        Effects.RecoverHp(ctx, percent);
      case SelfdestructEffect =>
        Effects.Selfdestruct(ctx);
    }
  }

  /** The effects that change stages, flags, types, move slots or the remembered move, and
      the effects that are not implemented and do nothing. */
  method ApplyState(ctx: BattleContext, e: Effect, ghost bm: BattleMove, ghost world: set<object>) returns (out: Outcome)
    requires ctx.Valid() && Inside(ctx, world) && !Nests(e)
    requires !(e.DamageEffect? || e.FixedDamageEffect? || e.MultistrikeEffect? || e.CutHalfHpEffect?
               || e.OneHitKoEffect? || e.CounterDamageEffect?)
    requires !(e.DrainEffect? || e.RecoilEffect? || e.RecoverHpEffect? || e.SelfdestructEffect?)
    modifies world
    ensures Kept(ctx, world, world)
    ensures ctx.lastMove == old(ctx.lastMove) && bm.currentPp == old(bm.currentPp)
    ensures Steady(ctx) && StagesApplied(ctx, e, out) && FlagsApplied(ctx, e, out)
  {
    if e.StatChangeEffect? || e.StatChangeResetEffect? || e.TypeChangeEffect? {
      out := ApplyStages(ctx, e, bm, world);
    } else {
      out := ApplyFlags(ctx, e, bm, world);
    }
  }

  /** The effects that change stat stages or types. */
  method ApplyStages(ctx: BattleContext, e: Effect, ghost bm: BattleMove, ghost world: set<object>) returns (out: Outcome)
    requires ctx.Valid() && Inside(ctx, world)
    requires e.StatChangeEffect? || e.StatChangeResetEffect? || e.TypeChangeEffect?
    modifies world
    ensures Kept(ctx, world, world)
    ensures ctx.lastMove == old(ctx.lastMove) && bm.currentPp == old(bm.currentPp)
    ensures Steady(ctx) && StagesApplied(ctx, e, out)
  {
    out := Ok;
    match e {
      case StatChangeEffect(target, chance, stages, stat) =>
        out := Effects.StatChange(ctx, target, chance, stages, stat);
      case StatChangeResetEffect =>
        Effects.StatChangeReset(ctx);
      case TypeChangeEffect =>
        out := Effects.TypeChange(ctx);
    }
  }

  /** Charging turns, Mimic, Disable and the effects that are not implemented. */
  method ApplyFlags(ctx: BattleContext, e: Effect, ghost bm: BattleMove, ghost world: set<object>) returns (out: Outcome)
    requires ctx.Valid() && Inside(ctx, world)
    requires e.ChargingTurnEffect? || (e.CopyMoveEffect? && e.replace) || e.DisableEffect? || e.UnimplementedEffect?
    modifies world
    ensures Kept(ctx, world, world)
    ensures ctx.lastMove == old(ctx.lastMove) && bm.currentPp == old(bm.currentPp)
    ensures Steady(ctx) && FlagsApplied(ctx, e, out)
  {
    out := Ok;
    match e {
      case ChargingTurnEffect(semi) =>
        Effects.ChargingTurn(ctx, semi);
      case CopyMoveEffect(_) =>
        out := ApplyMimic(ctx, bm, world);
      case DisableEffect =>
        Effects.Disable(ctx);
      case UnimplementedEffect(_) =>
    }
  }

  /** Mimic, whose copy of a defender's move stays among the objects of the action. */
  method ApplyMimic(ctx: BattleContext, ghost bm: BattleMove, ghost world: set<object>) returns (out: Outcome)
    requires ctx.Valid() && Inside(ctx, world)
    modifies world
    ensures Kept(ctx, world, world)
    ensures ctx.lastMove == old(ctx.lastMove) && bm.currentPp == old(bm.currentPp)
    ensures Steady(ctx) && FlagsApplied(ctx, CopyMoveEffect(true), out)
  {
    ghost var am, dm := ctx.Att().moves, ctx.Def().moves;
    ghost var k := ctx.Roll(0, 0, |dm|);
    out := Effects.Mimic(ctx);
    if out.Ok? {
      InsertWithin(am, dm[k], Effects.FindIndexByName(am, "Mimic"), world);
    }
  }

  /** Mirror Move: fails without a remembered move; otherwise announces the copy, fails again
      when the remembered move is Mirror Move itself, and uses the remembered move. */
  method MirrorMove(ctx: BattleContext, fuel: nat, ghost world: set<object>)
    returns (out: Outcome, ghost world': set<object>)
    requires ctx.Valid() && Inside(ctx, world)
    modifies world
    decreases fuel, 0
    ensures Kept(ctx, world, world')
    ensures var lm := old(ctx.lastMove); var name := old(ctx.Att().species.name);
            && (lm == null ==> out == Ok && ctx.log == old(ctx.log) + Entries(ctx.turn, [Failed]))
            && (lm != null ==> old(ctx.log) + Entries(ctx.turn, [Copied(name, lm.property.name)]) <= ctx.log)
            && (lm != null && lm.property.name == "MirrorMove" ==>
                  out == Ok && ctx.log == old(ctx.log) + Entries(ctx.turn, [Copied(name, lm.property.name), Failed]))
            && (lm != null && lm.property.name != "MirrorMove" && fuel == 0 ==> out == Crash(RecursionLimit))
  {
    world' := world;
    var lm := ctx.lastMove;
    if lm == null {
      ctx.Log(Failed);
      return Ok, world;
    }
    ctx.Log(Copied(ctx.attacker.activePokemon.species.name, lm.property.name));
    if lm.property.name == "MirrorMove" {
      ctx.Log(Failed);
      return Ok, world;
    }
    if fuel == 0 {
      return Crash(RecursionLimit), world;
    }
    ghost var hit, ppBefore, ran;
    out, world', hit, ppBefore, ran := Use(ctx, lm, fuel - 1, world);
  }

  /** Metronome: draws an index into the catalogue without Metronome and uses a new slot of
      that move; an empty catalogue fails the list access. */
  method RandomMove(ctx: BattleContext, fuel: nat, ghost world: set<object>)
    returns (out: Outcome, ghost world': set<object>)
    requires ctx.Valid() && Inside(ctx, world)
    modifies world
    decreases fuel, 0
    ensures Kept(ctx, world, world')
    ensures var moves := NonMetronome(ctx.allMoves);
            && (moves == [] ==> out == Crash(IndexOutOfRange) && ctx.log == old(ctx.log) && ctx.drawn == old(ctx.drawn) + 1)
            && (moves != [] && fuel == 0 ==> out == Crash(RecursionLimit))
  {
    world' := world;
    var moves := NonMetronome(ctx.allMoves);
    var index := ctx.Draw(0, |moves|);
    if |moves| == 0 {
      return Crash(IndexOutOfRange), world;
    }
    if fuel == 0 {
      return Crash(RecursionLimit), world;
    }
    var m := new BattleMove(moves[index]);
    ghost var hit, ppBefore, ran;
    out, world', hit, ppBefore, ran := Use(ctx, m, fuel - 1, world + {m});
  }

  /** Runs `es` in order until one fails or the attacker is left charging; `ran` counts the
      effects that ran. When only the first effect ran and it does not use another move, the
      state is exactly what that effect leaves. */
  method RunEffects(ctx: BattleContext, es: seq<Effect>, fuel: nat, ghost bm: BattleMove, ghost world: set<object>)
    returns (out: Outcome, ran: nat, ghost world': set<object>)
    requires ctx.Valid() && Inside(ctx, world)
    modifies world
    decreases fuel, 2
    ensures Kept(ctx, world, world')
    ensures ran <= |es| && (es != [] ==> 0 < ran)
    ensures !out.Ok? ==> 0 < ran
    ensures out.Ok? && ran < |es| ==> 0 < ran && ctx.Att().isCharging
    ensures Quiet(es) ==> world' == world && ctx.lastMove == old(ctx.lastMove) && bm.currentPp == old(bm.currentPp)
    ensures ran == 1 && !Nests(es[0]) ==> Steady(ctx) && Applied(ctx, es[0], out)
  {
    world' := world;
    out := Ok;
    ran := 0;
    if es == [] {
      return;
    }
    out, world' := ApplyEffect(ctx, es[0], fuel, bm, world);
    ran := 1;
    if !out.Ok? || ctx.attacker.activePokemon.isCharging {
      return;
    }
    while ran < |es|
      invariant 1 <= ran <= |es| && out == Ok
      invariant Kept(ctx, world, world')
      invariant Quiet(es) ==> world' == world && ctx.lastMove == old(ctx.lastMove) && bm.currentPp == old(bm.currentPp)
      invariant ran == 1 && !Nests(es[0]) ==> Steady(ctx) && Applied(ctx, es[0], out)
    {
      out, world' := ApplyEffect(ctx, es[ran], fuel, bm, world');
      ran := ran + 1;
      if !out.Ok? || ctx.attacker.activePokemon.isCharging {
        return;
      }
    }
  }

  /** A hit: the move's effects in order until one fails or the attacker is left charging;
      Pokémon Stadium's engine then forgets the last damage when the current move (which a
      move used from inside may have replaced) is a status move. `ppBefore` is the PP of `bm`
      after the effects, which only a move used from inside can have changed. */
  method OnHit(ctx: BattleContext, bm: BattleMove, fuel: nat, ghost world: set<object>)
    returns (out: Outcome, ghost world': set<object>, ghost ppBefore: int, ghost ran: nat)
    requires ctx.Valid() && Inside(ctx, world) && bm in world
    modifies world
    decreases fuel, 3
    ensures Kept(ctx, world, world')
    ensures Quiet(bm.property.effects) ==> ppBefore == old(bm.currentPp)
    ensures out.Ok? ==>
              && ctx.lastMove == bm && bm.currentPp == ppBefore - 1
              && (ran == |bm.property.effects| || ctx.Att().isCharging)
              && (ctx.variant == Primary && ctx.move.property.category == Status ==> ctx.lastDamage == None)
  {
    out, ran, world' := RunEffects(ctx, bm.property.effects, fuel, bm, world);
    ppBefore := bm.currentPp;
    if out.Ok? {
      Complete(ctx, bm, world');
    }
  }

  /** The end of a hit whose effects all ran: a status move used by Pokémon Stadium's engine
      forgets the last damage, then the bookkeeping of a completed use. */
  method Complete(ctx: BattleContext, bm: BattleMove, ghost world: set<object>)
    requires ctx.Valid() && Inside(ctx, world) && bm in world
    modifies ctx`lastDamage, ctx`lastMove, bm`currentPp
    ensures Kept(ctx, world, world)
    ensures ctx.lastMove == bm && bm.currentPp == old(bm.currentPp) - 1
    ensures ctx.lastDamage == (if ctx.variant == Primary && ctx.move.property.category == Status then None
                               else old(ctx.lastDamage))
  {
    if ctx.variant == Primary && ctx.move.property.category == Status {
      ctx.lastDamage := None;
    }
    ctx.lastMove := bm;
    bm.currentPp := bm.currentPp - 1;
  }

  /** A miss: only the charging-turn and self-destruct effects run, with the same early stop.
      When a charging turn is among them and left the attacker charging, the PP spent below
      is given back first and the miss goes unannounced; otherwise the miss is announced. The
      last damage is forgotten either way. */
  method OnMiss(ctx: BattleContext, bm: BattleMove, fuel: nat, ghost world: set<object>)
    returns (out: Outcome, ghost world': set<object>, ghost ran: nat)
    requires ctx.Valid() && Inside(ctx, world) && bm in world
    modifies world
    decreases fuel, 3
    ensures Kept(ctx, world, world')
    ensures out.Ok? ==>
              var always := AlwaysEffects(bm.property.effects);
              var refunded := HasChargingTurn(always) && ctx.Att().isCharging;
              && ctx.lastMove == bm && ctx.lastDamage == None
              && (ran == |always| || ctx.Att().isCharging)
              && bm.currentPp == (if refunded then old(bm.currentPp) else old(bm.currentPp) - 1)
              && (!refunded ==> |ctx.log| > 0 && ctx.log[|ctx.log| - 1] == LogEntry(ctx.turn, Avoided(ctx.Def().species.name)))
  {
    var always := AlwaysEffects(bm.property.effects);
    AlwaysEffectsQuiet(bm.property.effects);
    out, ran, world' := RunEffects(ctx, always, fuel, bm, world);
    if out.Ok? {
      Settle(ctx, bm, HasChargingTurn(always), world');
    }
  }

  /** The end of a miss whose effects all ran: the refund or the announcement, then the
      bookkeeping of a completed use. */
  method Settle(ctx: BattleContext, bm: BattleMove, charged: bool, ghost world: set<object>)
    requires ctx.Valid() && Inside(ctx, world) && bm in world
    modifies ctx`log, ctx`lastDamage, ctx`lastMove, bm`currentPp
    ensures Kept(ctx, world, world)
    ensures var refunded := charged && ctx.Att().isCharging;
            && ctx.lastMove == bm && ctx.lastDamage == None
            && bm.currentPp == (if refunded then old(bm.currentPp) else old(bm.currentPp) - 1)
            && (!refunded ==> |ctx.log| > 0 && ctx.log[|ctx.log| - 1] == LogEntry(ctx.turn, Avoided(ctx.Def().species.name)))
  {
    if charged && ctx.attacker.activePokemon.isCharging {
      bm.currentPp := bm.currentPp + 1;
    } else {
      ctx.Log(Avoided(ctx.defender.activePokemon.species.name));
    }
    ctx.lastDamage := None;
    ctx.lastMove := bm;
    bm.currentPp := bm.currentPp - 1;
  }

  /** The use of `bm`, already announced and usable, as the current move: the accuracy
      check, then `OnHit` or `OnMiss`. */
  method Resolve(ctx: BattleContext, bm: BattleMove, fuel: nat, ghost world: set<object>)
    returns (out: Outcome, ghost world': set<object>, ghost hit: bool, ghost ppBefore: int, ghost ran: nat)
    requires ctx.Valid() && Inside(ctx, world) && bm in world && ctx.move == bm
    modifies world
    decreases fuel, 4
    ensures Kept(ctx, world, world')
    ensures hit == Calculators.DoesMoveHit(bm.property.target == Self, old(ctx.Def().isInvulnerable),
                                           old(ctx.Def().isFainted), bm.property.accuracy,
                                           old(ctx.Att().statStages.GetStage(Accuracy)),
                                           old(ctx.Def().statStages.GetStage(Evasion)),
                                           old(ctx.Roll(0, 0, 256)))
    ensures !hit || Quiet(bm.property.effects) ==> ppBefore == old(bm.currentPp)
    ensures out.Ok? ==>
              var es := bm.property.effects;
              var always := AlwaysEffects(es);
              var refunded := !hit && HasChargingTurn(always) && ctx.Att().isCharging;
              && ctx.lastMove == bm
              && bm.currentPp == (if refunded then ppBefore else ppBefore - 1)
              && (ran == (if hit then |es| else |always|) || ctx.Att().isCharging)
              && (hit && ctx.variant == Primary && ctx.move.property.category == Status ==> ctx.lastDamage == None)
              && (!hit ==> ctx.lastDamage == None)
              && (!hit && !refunded ==> |ctx.log| > 0 && ctx.log[|ctx.log| - 1] == LogEntry(ctx.turn, Avoided(ctx.Def().species.name)))
  {
    ppBefore, ran := bm.currentPp, 0;
    var hits := ctx.DoesMoveHit();
    hit := hits;
    if hits {
      out, world', ppBefore, ran := OnHit(ctx, bm, fuel, world);
    } else {
      out, world', ran := OnMiss(ctx, bm, fuel, world);
    }
  }

  /** The use of `bm` as the current move by an attacker that is not recharging: the
      announcement, the usability check, the accuracy check, then `OnHit` or `OnMiss`. */
  method Proceed(ctx: BattleContext, bm: BattleMove, fuel: nat, ghost world: set<object>)
    returns (out: Outcome, ghost world': set<object>, ghost hit: bool, ghost ppBefore: int, ghost ran: nat)
    requires ctx.Valid() && Inside(ctx, world) && bm in world && ctx.move == bm
    modifies world
    decreases fuel, 5
    ensures Kept(ctx, world, world')
    ensures !old(bm.CanBeUsed()) ==>
              && out == Ok && ctx.log == old(ctx.log) + Entries(ctx.turn, [Used(old(ctx.Att().species.name), bm.property.name)])
              && ctx.lastMove == old(ctx.lastMove) && bm.currentPp == old(bm.currentPp)
              && ctx.lastDamage == old(ctx.lastDamage) && ctx.drawn == old(ctx.drawn)
    ensures old(bm.CanBeUsed()) ==>
              && old(ctx.log) + Entries(ctx.turn, [Used(old(ctx.Att().species.name), bm.property.name)]) <= ctx.log
              && hit == Calculators.DoesMoveHit(bm.property.target == Self, old(ctx.Def().isInvulnerable),
                                                old(ctx.Def().isFainted), bm.property.accuracy,
                                                old(ctx.Att().statStages.GetStage(Accuracy)),
                                                old(ctx.Def().statStages.GetStage(Evasion)),
                                                old(ctx.Roll(0, 0, 256)))
              && (!hit || Quiet(bm.property.effects) ==> ppBefore == old(bm.currentPp))
              && (out.Ok? ==>
                    var es := bm.property.effects;
                    var always := AlwaysEffects(es);
                    var refunded := !hit && HasChargingTurn(always) && ctx.Att().isCharging;
                    && ctx.lastMove == bm
                    && bm.currentPp == (if refunded then ppBefore else ppBefore - 1)
                    && (ran == (if hit then |es| else |always|) || ctx.Att().isCharging)
                    && (hit && ctx.variant == Primary && ctx.move.property.category == Status ==> ctx.lastDamage == None)
                    && (!hit ==> ctx.lastDamage == None)
                    && (!hit && !refunded ==> |ctx.log| > 0 && ctx.log[|ctx.log| - 1] == LogEntry(ctx.turn, Avoided(ctx.Def().species.name))))
  {
    world', hit, ppBefore, ran := world, false, bm.currentPp, 0;
    ctx.Log(Used(ctx.attacker.activePokemon.species.name, bm.property.name));
    if !bm.CanBeUsed() {
      out := Ok;
      return;
    }
    out, world', hit, ppBefore, ran := Resolve(ctx, bm, fuel, world);
  }

  /** Uses `bm` as the current move (`BattleMove.Use`). A recharging attacker only runs the
      move's last effect, and a move without effects fails there. Otherwise the use is
      announced; a disabled move or one without PP stops there. Past those checks the accuracy
      check decides between `OnHit` and `OnMiss`, and a use that completes becomes the
      remembered move and spends one PP unless a miss refunded it. `fuel` bounds the moves
      used from inside moves. */
  method Use(ctx: BattleContext, bm: BattleMove, fuel: nat, ghost world: set<object>)
    returns (out: Outcome, ghost world': set<object>, ghost hit: bool, ghost ppBefore: int, ghost ran: nat)
    requires ctx.Valid() && Inside(ctx, world) && bm in world
    modifies world
    decreases fuel, 6
    ensures Kept(ctx, world, world')
    ensures var es := bm.property.effects;
            old(ctx.Att().isRecharging) ==>
              && (es == [] ==> out == Crash(EmptySequence) && ctx.log == old(ctx.log))
              && (es != [] && !Nests(es[|es| - 1]) ==>
                    ctx.lastMove == old(ctx.lastMove) && bm.currentPp == old(bm.currentPp))
    ensures !old(ctx.Att().isRecharging) && !old(bm.CanBeUsed()) ==>
              && out == Ok && ctx.log == old(ctx.log) + Entries(ctx.turn, [Used(old(ctx.Att().species.name), bm.property.name)])
              && ctx.lastMove == old(ctx.lastMove) && bm.currentPp == old(bm.currentPp)
              && ctx.lastDamage == old(ctx.lastDamage) && ctx.drawn == old(ctx.drawn)
    ensures !old(ctx.Att().isRecharging) && old(bm.CanBeUsed()) ==>
              && old(ctx.log) + Entries(ctx.turn, [Used(old(ctx.Att().species.name), bm.property.name)]) <= ctx.log
              && hit == Calculators.DoesMoveHit(bm.property.target == Self, old(ctx.Def().isInvulnerable),
                                                old(ctx.Def().isFainted), bm.property.accuracy,
                                                old(ctx.Att().statStages.GetStage(Accuracy)),
                                                old(ctx.Def().statStages.GetStage(Evasion)),
                                                old(ctx.Roll(0, 0, 256)))
              && (!hit || Quiet(bm.property.effects) ==> ppBefore == old(bm.currentPp))
              && (out.Ok? ==>
                    var es := bm.property.effects;
                    var always := AlwaysEffects(es);
                    var refunded := !hit && HasChargingTurn(always) && ctx.Att().isCharging;
                    && ctx.lastMove == bm
                    && bm.currentPp == (if refunded then ppBefore else ppBefore - 1)
                    && (ran == (if hit then |es| else |always|) || ctx.Att().isCharging)
                    && (hit && ctx.variant == Primary && ctx.move.property.category == Status ==> ctx.lastDamage == None)
                    && (!hit ==> ctx.lastDamage == None)
                    && (!hit && !refunded ==> |ctx.log| > 0 && ctx.log[|ctx.log| - 1] == LogEntry(ctx.turn, Avoided(ctx.Def().species.name))))
  {
    world', hit, ppBefore, ran := world, false, bm.currentPp, 0;
    ctx.move := bm;
    if ctx.attacker.activePokemon.isRecharging {
      out, world' := Recharge(ctx, bm, fuel, world);
    } else {
      out, world', hit, ppBefore, ran := Proceed(ctx, bm, fuel, world);
    }
  }

  /** The use of `bm` as the current move by a recharging attacker: only the move's last
      effect runs, and a move without effects fails. */
  method Recharge(ctx: BattleContext, bm: BattleMove, fuel: nat, ghost world: set<object>)
    returns (out: Outcome, ghost world': set<object>)
    requires ctx.Valid() && Inside(ctx, world) && bm in world && ctx.move == bm
    modifies world
    decreases fuel, 4
    ensures Kept(ctx, world, world')
    ensures var es := bm.property.effects;
            && (es == [] ==> out == Crash(EmptySequence) && ctx.log == old(ctx.log))
            && (es != [] && !Nests(es[|es| - 1]) ==>
                  && ctx.lastMove == old(ctx.lastMove) && bm.currentPp == old(bm.currentPp)
                  && Steady(ctx) && Applied(ctx, es[|es| - 1], out))
  {
    world' := world;
    var es := bm.property.effects;
    if |es| == 0 {
      out := Crash(EmptySequence);
      return;
    }
    out, world' := ApplyEffect(ctx, es[|es| - 1], fuel, bm, world);
  }
}
