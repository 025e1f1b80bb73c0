/** The round driver (`Game`): the turn counter, the forced switches of fainted combatants,
    the two trainers' choices, the order of the two actions by priority, speed and a tie rule,
    the attack and switch actions, and the end-of-battle check. The generator of each action
    and the draw of the tie rule are inputs. */
module Game {
  import opened Numerics
  import opened Models
  import opened Stats
  import opened Combatants
  import opened Trainers
  import opened Context
  import MoveUse

  datatype Side = SideA | SideB

  /** One action of a round, by the side that performs it. */
  datatype Step = AttackBy(side: Side) | SwitchBy(side: Side)

  function Other(s: Side): Side {
    if s == SideA then SideB else SideA
  }

  /** The priority of a choice: a switch (no move) goes at 10, a move at its own priority. */
  function Priority(action: BattleMove?): int {
    if action == null then 10 else action.property.priority
  }

  /** The side that acts first: the higher priority, then the higher speed, and on a full tie
      the draw of a fresh generator in [1, 2), where 1 means side A. */
  function FirstSide(priorityA: int, priorityB: int, speedA: int, speedB: int, tieRaw: int): Side {
    if priorityA > priorityB then SideA
    else if priorityA < priorityB then SideB
    else if speedA > speedB then SideA
    else if speedA < speedB then SideB
    else if Pick(tieRaw, 1, 2) == 1 then SideA
    else SideB
  }

  /** The order is lexicographic on (priority, speed), and a full tie always goes to side A,
      since the range [1, 2) holds only 1. */
  lemma FirstSideOrder(priorityA: int, priorityB: int, speedA: int, speedB: int, tieRaw: int)
    ensures FirstSide(priorityA, priorityB, speedA, speedB, tieRaw) == SideA <==>
            priorityA > priorityB || (priorityA == priorityB && speedA >= speedB)
  {
    assert Pick(tieRaw, 1, 2) == 1;
  }

  /** Swapping the two sides swaps the first side, except on a full tie. */
  lemma FirstSideSwap(priorityA: int, priorityB: int, speedA: int, speedB: int, tieRaw: int)
    requires priorityA != priorityB || speedA != speedB
    ensures FirstSide(priorityB, priorityA, speedB, speedA, tieRaw) == Other(FirstSide(priorityA, priorityB, speedA, speedB, tieRaw))
  {
  }

  /** The actions of a round, from whether the first and the second side chose a move: both
      attack in order; a first side that switches goes before the second's attack; in every
      other case both sides switch, the first one first, even a first side that chose a move. */
  function Schedule(first: Side, firstAttacks: bool, secondAttacks: bool): (r: seq<Step>) {
    if firstAttacks && secondAttacks then [AttackBy(first), AttackBy(Other(first))]
    else if !firstAttacks && secondAttacks then [SwitchBy(first), AttackBy(Other(first))]
    else [SwitchBy(first), SwitchBy(Other(first))]
  }

  /** Each side acts exactly once, the first side first. The second side attacks exactly
      when it chose a move; the first side attacks exactly when both chose a move. */
  lemma ScheduleShape(first: Side, firstAttacks: bool, secondAttacks: bool)
    ensures var r := Schedule(first, firstAttacks, secondAttacks);
            && |r| == 2 && r[0].side == first && r[1].side == Other(first)
            && (r[0].AttackBy? <==> firstAttacks && secondAttacks)
            && (r[1].AttackBy? <==> secondAttacks)
  {
  }

  /** With every move below the switch priority 10, a side that chose a move attacks and a
      side that chose to switch switches: a switch then always goes first, so the case where
      the first side's move is turned into a switch cannot arise. */
  lemma {:induction false} ScheduleHonoursChoices(moveA: BattleMove?, moveB: BattleMove?, speedA: int, speedB: int, tieRaw: int)
    requires moveA != null ==> moveA.property.priority < 10
    requires moveB != null ==> moveB.property.priority < 10
    ensures var first := FirstSide(Priority(moveA), Priority(moveB), speedA, speedB, tieRaw);
            var moves := if first == SideA then (moveA, moveB) else (moveB, moveA);
            var r := Schedule(first, moves.0 != null, moves.1 != null);
            forall k :: 0 <= k < 2 ==>
              (r[k].AttackBy? <==> (if r[k].side == SideA then moveA else moveB) != null)
  {
    var first := FirstSide(Priority(moveA), Priority(moveB), speedA, speedB, tieRaw);
    var moves := if first == SideA then (moveA, moveB) else (moveB, moveA);
    if moves.0 != null && moves.1 == null {
      FirstSideOrder(Priority(moveA), Priority(moveB), speedA, speedB, tieRaw);
      assert false;
    }
  }

  /** The roster entries still standing, in roster order (`FindAll(p => !p.IsFainted)`). */
  function Standing(ps: seq<BattlePokemon>): (r: seq<BattlePokemon>)
    reads ps
    ensures |r| <= |ps|
  {
    if ps == [] then []
    else (if !ps[0].isFainted then [ps[0]] else []) + Standing(ps[1..])
  }

  /** A trainer has lost when none of its roster is left standing. */
  predicate HasPlayerLost(t: Trainer)
    reads t.pokemons
  {
    |Standing(t.pokemons)| == 0
  }

  /** Counting the standing entries and asking every entry agree. */
  lemma {:induction false} StandingEmptyIff(ps: seq<BattlePokemon>)
    ensures |Standing(ps)| == 0 <==> forall i :: 0 <= i < |ps| ==> ps[i].isFainted
  {
    if ps != [] {
      StandingEmptyIff(ps[1..]);
      assert forall i :: 1 <= i < |ps| ==> ps[i] == ps[1..][i - 1];
    }
  }

  lemma HasPlayerLostIff(t: Trainer)
    ensures HasPlayerLost(t) <==> t.HasLost()
  {
    StandingEmptyIff(t.pokemons);
  }

  /** Every combatant of both teams, side A's first. */
  function Fighters(a: Trainer, b: Trainer): seq<BattlePokemon> {
    a.pokemons + b.pokemons
  }

  ghost function Bodies(fs: seq<BattlePokemon>): set<object> {
    set i | 0 <= i < |fs| :: fs[i] as object
  }

  ghost function StageSet(fs: seq<BattlePokemon>): set<object> {
    set i | 0 <= i < |fs| :: fs[i].statStages as object
  }

  /** Two different trainers, each with a roster entry active; no combatant is on both teams
      or twice on one, and every combatant has its own well-formed stat stages. */
  ghost predicate Sound(a: Trainer, b: Trainer)
    reads a`activePokemon, b`activePokemon, StageSet(Fighters(a, b))
  {
    var fs := Fighters(a, b);
    && a != b && a.activePokemon in a.pokemons && b.activePokemon in b.pokemons
    && (forall i, j :: 0 <= i < j < |fs| ==> fs[i] != fs[j] && fs[i].statStages != fs[j].statStages)
    && (forall i :: 0 <= i < |fs| ==> fs[i].Valid())
  }

  /** `world` holds everything a round can change: the context and both trainers, every
      combatant with its stages, its current and its species' type lists and its move slots,
      the remembered move and both last actions; and the context's sides, when set, are the
      two trainers. */
  ghost predicate Arena(ctx: BattleContext, a: Trainer, b: Trainer, world: set<object>)
    reads ctx`attacker, ctx`defender, ctx`lastMove, a`lastAction, b`lastAction, Bodies(Fighters(a, b))
  {
    var fs := Fighters(a, b);
    && ctx in world && a in world && b in world
    && (ctx.attacker == null || ctx.attacker == a || ctx.attacker == b)
    && (ctx.defender == null || ctx.defender == a || ctx.defender == b)
    && (forall i :: 0 <= i < |fs| ==>
          fs[i] in world && fs[i].statStages in world && fs[i].types in world && fs[i].species.types in world)
    && (forall i, k :: 0 <= i < |fs| && 0 <= k < |fs[i].moves| ==> fs[i].moves[k] in world)
    && (ctx.lastMove != null ==> ctx.lastMove in world)
    && (a.lastAction != null ==> a.lastAction in world)
    && (b.lastAction != null ==> b.lastAction in world)
  }

  ghost predicate Ready(ctx: BattleContext, a: Trainer, b: Trainer, world: set<object>)
    reads ctx`attacker, ctx`defender, ctx`lastMove, a`lastAction, b`lastAction, a`activePokemon, b`activePokemon
    reads Bodies(Fighters(a, b)), StageSet(Fighters(a, b))
  {
    Sound(a, b) && Arena(ctx, a, b, world)
  }

  /** The world only grew, by objects allocated since. */
  twostate predicate Grown(world: set<object>, new world': set<object>) {
    world <= world' && forall o :: o in world' && o !in world ==> fresh(o)
  }

  /** A trainer's roster entries and their stat stages. */
  ghost function Team(t: Trainer): set<object> {
    (set p | p in t.pokemons :: p as object) + (set p | p in t.pokemons :: p.statStages as object)
  }

  /** The world holds each team. */
  lemma TeamInWorld(ctx: BattleContext, a: Trainer, b: Trainer, t: Trainer, world: set<object>)
    requires Arena(ctx, a, b, world) && (t == a || t == b)
    ensures {t as object} + Team(t) <= world
  {
    forall o | o in Team(t) ensures o in world {
      var p: BattlePokemon :| p in t.pokemons && (o == p || o == p.statStages);
      var i := FighterIndex(a, b, t, p);
    }
  }

  /** The two teams share no combatant and no stages. */
  lemma TeamsApart(a: Trainer, b: Trainer)
    requires Sound(a, b)
    ensures Team(a) !! Team(b)
  {
    forall o | o in Team(a) ensures o !in Team(b) {
      var p: BattlePokemon :| p in a.pokemons && (o == p || o == p.statStages);
      var i := FighterIndex(a, b, a, p);
      if o in Team(b) {
        var q: BattlePokemon :| q in b.pokemons && (o == q || o == q.statStages);
        var j := FighterIndex(a, b, b, q);
        assert false;
      }
    }
  }

  /** The trainer facing `t`. */
  function Rival(t: Trainer, a: Trainer, b: Trainer): Trainer {
    if t == a then b else a
  }

  /** The outcome of a switch decision of `t` from its present candidates and input. */
  function SwitchOutcome(t: Trainer): Outcome
    reads t, t.pokemons
  {
    SelectionOutcome(SwitchPick(t.kind, |t.GetPokemonToSwitch()|, t.feed))
  }

  /** `t` must replace its active combatant: it has fainted and a candidate is left. */
  predicate MustReplace(t: Trainer)
    reads t, t.pokemons, t.activePokemon
  {
    t.activePokemon.isFainted && t.CanSwitchPokemon()
  }

  /** What a switch action of `t` leaves behind: the outcome of its decision, on success an
      active combatant taken from its candidates and otherwise the same one, and its last
      action kept. */
  twostate predicate Switched(t: Trainer, out: Outcome)
    reads t
  {
    && out == old(SwitchOutcome(t))
    && (out.Ok? ==> t.activePokemon in old(t.GetPokemonToSwitch()))
    && (!out.Ok? ==> t.activePokemon == old(t.activePokemon))
    && t.lastAction == old(t.lastAction)
  }

  /** What the forced switch of `t` leaves behind: a switch action when a replacement was due,
      and otherwise the same active combatant and success. */
  twostate predicate Replenished(t: Trainer, out: Outcome)
    reads t
  {
    if old(MustReplace(t)) then Switched(t, out)
    else out == Ok && t.activePokemon == old(t.activePokemon) && t.lastAction == old(t.lastAction)
  }

  /** A trainer whose fields and team were left alone keeps its candidates, its switch
      outcome and whether it must replace its active combatant. */
  twostate lemma Undisturbed(t: Trainer)
    requires unchanged(t) && unchanged(Team(t)) && t.activePokemon in t.pokemons
    ensures t.GetPokemonToSwitch() == old(t.GetPokemonToSwitch())
    ensures SwitchOutcome(t) == old(SwitchOutcome(t)) && ForcedOutcome(t) == old(ForcedOutcome(t))
  {
    forall i | 0 <= i < |t.pokemons| ensures unchanged(t.pokemons[i]) {
      assert t.pokemons[i] in t.pokemons;
    }
  }

  /** The outcome of the forced switch of `t`: its switch decision's when a replacement is
      due, and success otherwise. */
  function ForcedOutcome(t: Trainer): Outcome
    reads t, t.pokemons, t.activePokemon
  {
    if MustReplace(t) then SwitchOutcome(t) else Ok
  }

  /** A team member is one of the fighters. */
  lemma FighterIndex(a: Trainer, b: Trainer, t: Trainer, p: BattlePokemon) returns (i: nat)
    requires (t == a || t == b) && p in t.pokemons
    ensures i < |Fighters(a, b)| && Fighters(a, b)[i] == p
    ensures t == a ==> i < |a.pokemons|
    ensures t != a ==> |a.pokemons| <= i
  {
    var k :| 0 <= k < |t.pokemons| && t.pokemons[k] == p;
    i := if t == a then k else |a.pokemons| + k;
  }

  /** Switches `player` to the candidate its switch decision picks (`SwitchAction`): the
      leaving combatant, unless fainted, is called back, the incoming one is reset and sent
      out, and the remembered move and damage are forgotten. A decision that fails or never
      ends changes nothing else. */
  method SwitchAction(ctx: BattleContext, player: Trainer, ghost a: Trainer, ghost b: Trainer, ghost world: set<object>)
    returns (out: Outcome, ghost world': set<object>)
    requires Ready(ctx, a, b, world) && (player == a || player == b)
    modifies ctx`log, ctx`lastMove, ctx`lastDamage, player, Team(player)
    ensures Ready(ctx, a, b, world') && Grown(world, world')
    ensures player.lastAction == old(player.lastAction)
    ensures unchanged(Rival(player, a, b)) && unchanged(Team(Rival(player, a, b)))
    ensures var s := SwitchPick(player.kind, |old(player.GetPokemonToSwitch())|, old(player.feed));
            && out == SelectionOutcome(s)
            && (!out.Ok? ==> player.activePokemon == old(player.activePokemon) && ctx.log == old(ctx.log))
            && (out.Ok? ==>
                  var p := player.activePokemon;
                  var leaving := old(player.activePokemon);
                  && p == old(player.GetPokemonToSwitch())[s.index]
                  && p.statStages.stages == ZeroStages() && !p.isCharging && !p.isRecharging && !p.isInvulnerable
                  && ctx.lastMove == null && ctx.lastDamage == None
                  && (!old(leaving.isFainted) ==>
                        ctx.log == old(ctx.log) + Entries(ctx.turn, [Returned(leaving.species.name), Go(p.species.name)]))
                  && (old(leaving.isFainted) ==> ctx.log == old(ctx.log) + Entries(ctx.turn, [Go(p.species.name)])))
  {
    assert Rival(player, a, b) != player;
    world' := world;
    var p;
    out, p := player.SwitchPokemon();
    if !out.Ok? {
      return;
    }
    ghost var ip := FighterIndex(a, b, player, p);
    world' := Replace(ctx, player, p, a, b, world);
  }

  /** The switch itself once the decision picked `p`. */
  method Replace(ctx: BattleContext, player: Trainer, p: BattlePokemon, ghost a: Trainer, ghost b: Trainer, ghost world: set<object>)
    returns (ghost world': set<object>)
    requires Ready(ctx, a, b, world) && (player == a || player == b) && p in player.pokemons && p != player.activePokemon
    modifies ctx`log, ctx`lastMove, ctx`lastDamage, player, p, p.statStages
    ensures Ready(ctx, a, b, world') && Grown(world, world')
    ensures ctx.attacker == old(ctx.attacker) && ctx.defender == old(ctx.defender)
    ensures player.activePokemon == p && player.lastAction == old(player.lastAction)
    ensures player.feed == old(player.feed) && player.lockChoice == old(player.lockChoice)
    ensures unchanged(Rival(player, a, b)) && unchanged(Team(Rival(player, a, b)))
    ensures p.statStages.stages == ZeroStages() && !p.isCharging && !p.isRecharging && !p.isInvulnerable
    ensures ctx.lastMove == null && ctx.lastDamage == None
    ensures var leaving := old(player.activePokemon);
            && (!old(leaving.isFainted) ==>
                  ctx.log == old(ctx.log) + Entries(ctx.turn, [Returned(leaving.species.name), Go(p.species.name)]))
            && (old(leaving.isFainted) ==> ctx.log == old(ctx.log) + Entries(ctx.turn, [Go(p.species.name)]))
  {
    TeamsApart(a, b);
    var leaving := player.activePokemon;
    if !leaving.isFainted {
      ctx.Log(Returned(leaving.species.name));
    }
    world' := Install(ctx, player, p, a, b, world);
    SendOut(ctx, p.species.name, a, b, world');
  }

  /** Announces the incoming combatant and forgets the remembered move and damage. */
  method SendOut(ctx: BattleContext, name: string, ghost a: Trainer, ghost b: Trainer, ghost world: set<object>)
    requires Ready(ctx, a, b, world)
    modifies ctx`log, ctx`lastMove, ctx`lastDamage
    ensures Ready(ctx, a, b, world)
    ensures ctx.log == old(ctx.log) + Entries(ctx.turn, [Go(name)])
    ensures ctx.lastMove == null && ctx.lastDamage == None
  {
    ctx.Log(Go(name));
    ctx.lastMove := null;
    ctx.lastDamage := None;
  }

  /** Makes roster entry `p` the active combatant of `player` (`SetActivePokemon`). */
  method Install(ctx: BattleContext, player: Trainer, p: BattlePokemon, ghost a: Trainer, ghost b: Trainer, ghost world: set<object>)
    returns (ghost world': set<object>)
    requires Ready(ctx, a, b, world) && (player == a || player == b) && p in player.pokemons
    modifies player, p, p.statStages
    ensures Ready(ctx, a, b, world') && Grown(world, world')
    ensures player.activePokemon == p && player.lastAction == old(player.lastAction)
    ensures player.feed == old(player.feed) && player.lockChoice == old(player.lockChoice)
    ensures p.statStages.stages == ZeroStages() && !p.isCharging && !p.isRecharging && !p.isInvulnerable
  {
    ghost var ip := FighterIndex(a, b, player, p);
    player.SetActivePokemon(p);
    world' := world + MoveSet(p.moves);
    ghost var fs := Fighters(a, b);
    forall i | 0 <= i < |fs| ensures fs[i].Valid() {
      if fs[i] != p {
        assert fs[i].statStages != fs[ip].statStages by {
          if i < ip { } else if ip < i { }
        }
      }
    }
  }

  /** Sends in a replacement when the active combatant has fainted and a candidate is left
      (`SwitchPokemonIfRequired`); `fainted` tells whether the active combatant had fainted,
      switched or not. */
  method SwitchPokemonIfRequired(ctx: BattleContext, player: Trainer, ghost a: Trainer, ghost b: Trainer, ghost world: set<object>)
    returns (out: Outcome, fainted: bool, ghost world': set<object>)
    requires Ready(ctx, a, b, world) && (player == a || player == b)
    modifies ctx`log, ctx`lastMove, ctx`lastDamage, player, Team(player)
    ensures Ready(ctx, a, b, world') && Grown(world, world')
    ensures fainted == old(player.activePokemon.isFainted)
    ensures old(ctx.log) <= ctx.log && ctx.turn == old(ctx.turn)
    ensures Replenished(player, out)
    ensures unchanged(Rival(player, a, b)) && unchanged(Team(Rival(player, a, b)))
    ensures !old(MustReplace(player)) ==>
              && world' == world && unchanged(player.activePokemon)
              && ctx.log == old(ctx.log) && ctx.lastMove == old(ctx.lastMove) && ctx.lastDamage == old(ctx.lastDamage)
    ensures old(MustReplace(player)) && out.Ok? ==> ctx.lastMove == null && ctx.lastDamage == None
  {
    assert Rival(player, a, b) != player;
    world' := world;
    fainted := player.activePokemon.isFainted;
    out := Ok;
    if fainted && player.CanSwitchPokemon() {
      out, world' := SwitchAction(ctx, player, a, b, world);
    }
  }

  /** With the two trainers as the context's sides and a move set, the context is ready for
      a move use: the two active combatants are different fighters. */
  lemma ContextValid(ctx: BattleContext, a: Trainer, b: Trainer, world: set<object>)
    requires Ready(ctx, a, b, world) && ctx.move != null
    requires (ctx.attacker == a && ctx.defender == b) || (ctx.attacker == b && ctx.defender == a)
    ensures ctx.Valid()
  {
    var ia := FighterIndex(a, b, ctx.attacker, ctx.Att());
    var id := FighterIndex(a, b, ctx.defender, ctx.Def());
    assert ia != id;
    var fs := Fighters(a, b);
    if ia < id {
      assert fs[ia] != fs[id] && fs[ia].statStages != fs[id].statStages;
    } else {
      assert fs[id] != fs[ia] && fs[id].statStages != fs[ia].statStages;
    }
  }

  /** The move use of an attack action, then the attacker remembers the move the context
      remembers as its last action (`Context.Move.Use(Context)`; `attacker.LastAction =
      Context.LastMove`). The use reaches only the context, the two trainers, the two active
      combatants and the moves they hold, so every other combatant keeps its state. */
  method Strike(ctx: BattleContext, move: BattleMove, fuel: nat, ghost a: Trainer, ghost b: Trainer, ghost world: set<object>)
    returns (out: Outcome, ghost world': set<object>)
    requires Ready(ctx, a, b, world) && ctx.Valid() && move in world
    requires (ctx.attacker == a && ctx.defender == b) || (ctx.attacker == b && ctx.defender == a)
    modifies world
    ensures Ready(ctx, a, b, world') && Grown(world, world')
    ensures ctx.attacker == old(ctx.attacker) && ctx.defender == old(ctx.defender) && ctx.move != null
    ensures ctx.Att() == old(ctx.Att()) && ctx.Def() == old(ctx.Def()) && ctx.defender.lastAction == old(ctx.defender.lastAction)
    ensures ctx.turn == old(ctx.turn) && old(ctx.log) <= ctx.log
    ensures out.Ok? ==> ctx.attacker.lastAction == ctx.lastMove
    ensures !out.Ok? ==> ctx.attacker.lastAction == old(ctx.attacker.lastAction)
    ensures !old(ctx.Att().isRecharging) ==>
              old(ctx.log) + Entries(ctx.turn, [Used(old(ctx.Att().species.name), move.property.name)]) <= ctx.log
    ensures out.Ok? && !old(ctx.Att().isRecharging) && old(move.CanBeUsed()) ==> ctx.attacker.lastAction == move
  {
    ghost var W, ia, id := Footprint(ctx, move, a, b, world);
    ghost var W';
    out, W' := Launch(ctx, move, fuel, W);
    world' := world + W';
    if out.Ok? {
      Remember(ctx, a, b, world');
    }
  }

  /** What a move use of the two active combatants can reach: inside the round's world, and
      clear of every other combatant and its stages. */
  lemma Footprint(ctx: BattleContext, move: BattleMove, a: Trainer, b: Trainer, world: set<object>)
    returns (W: set<object>, ia: nat, id: nat)
    requires Ready(ctx, a, b, world) && move in world
    requires (ctx.attacker == a && ctx.defender == b) || (ctx.attacker == b && ctx.defender == a)
    ensures W <= world && MoveUse.Inside(ctx, W) && move in W
    ensures ia < |Fighters(a, b)| && Fighters(a, b)[ia] == ctx.Att()
    ensures id < |Fighters(a, b)| && Fighters(a, b)[id] == ctx.Def()
    ensures forall i :: 0 <= i < |Fighters(a, b)| && i != ia && i != id ==>
              Fighters(a, b)[i] !in W && Fighters(a, b)[i].statStages !in W
  {
    var att, def := ctx.Att(), ctx.Def();
    ia := FighterIndex(a, b, ctx.attacker, att);
    id := FighterIndex(a, b, ctx.defender, def);
    W := {ctx, ctx.attacker, ctx.defender, att, def, att.statStages, def.statStages, att.types, def.types, move}
         + MoveSet(att.moves) + MoveSet(def.moves) + (if ctx.lastMove != null then {ctx.lastMove} else {});
    var fs := Fighters(a, b);
    forall i | 0 <= i < |fs| && i != ia && i != id
      ensures fs[i] !in W && fs[i].statStages !in W
    {
      assert fs[i] != fs[ia] && fs[i].statStages != fs[ia].statStages by { if i < ia { } else { } }
      assert fs[i] != fs[id] && fs[i].statStages != fs[id].statStages by { if i < id { } else { } }
    }
  }

  /** The attacker's trainer remembers the context's last move as its last action. */
  method Remember(ctx: BattleContext, ghost a: Trainer, ghost b: Trainer, ghost world: set<object>)
    requires Ready(ctx, a, b, world) && (ctx.attacker == a || ctx.attacker == b)
    modifies ctx.attacker`lastAction
    ensures Ready(ctx, a, b, world)
    ensures ctx.attacker.lastAction == ctx.lastMove
  {
    ctx.attacker.lastAction := ctx.lastMove;
  }

  /** A move use, with what an attack action relies on: the sides and their state as kept
      by every use, the announcement of the move, and the move remembered when it went off. */
  method Launch(ctx: BattleContext, move: BattleMove, fuel: nat, ghost world: set<object>)
    returns (out: Outcome, ghost world': set<object>)
    requires ctx.Valid() && MoveUse.Inside(ctx, world) && move in world
    modifies world
    ensures MoveUse.Kept(ctx, world, world')
    ensures !old(ctx.Att().isRecharging) ==>
              old(ctx.log) + Entries(ctx.turn, [Used(old(ctx.Att().species.name), move.property.name)]) <= ctx.log
    ensures out.Ok? && !old(ctx.Att().isRecharging) && old(move.CanBeUsed()) ==> ctx.lastMove == move
  {
    ghost var hit, ppBefore, ran;
    out, world', hit, ppBefore, ran := MoveUse.Use(ctx, move, fuel, world);
  }

  /** What an attack action depends on, as it starts: the log so far, the attacker's active
      combatant, whether it has fainted or is recharging, the attacker's last action, and
      whether the move can be used. */
  datatype Stance = Stance(log: seq<LogEntry>, active: BattlePokemon, fainted: bool, recharging: bool,
                           lastAction: BattleMove?, usable: bool)

  function StanceOf(ctx: BattleContext, attacker: Trainer, move: BattleMove): Stance
    reads ctx, attacker, attacker.activePokemon, move
  {
    Stance(ctx.log, attacker.activePokemon, attacker.activePokemon.isFainted, attacker.activePokemon.isRecharging,
           attacker.lastAction, move.CanBeUsed())
  }

  /** What an attack action with `move` that started from stance `s` leaves of the attacker:
      the move is used exactly when the active combatant was standing, which then stays
      active; a use by an attacker not recharging is announced after the log of `s`; an
      attacker that did not use the move keeps its last action. */
  predicate Announced(ctx: BattleContext, move: BattleMove, attacker: Trainer, used: bool, s: Stance)
    reads ctx, attacker
  {
    && (used <==> !s.fainted)
    && (used ==> attacker.activePokemon == s.active)
    && (!used ==> attacker.lastAction == s.lastAction)
    && (used && !s.recharging ==> s.log + Entries(ctx.turn, [Used(s.active.species.name, move.property.name)]) <= ctx.log)
  }

  /** On success of a use, the attacker keeps the remembered move as its last action, which
      is `move` itself when the attacker was not recharging and the move could be used. */
  predicate Remembered(ctx: BattleContext, move: BattleMove, attacker: Trainer, out: Outcome, used: bool, s: Stance)
    reads ctx, attacker
  {
    && (used && out.Ok? ==> attacker.lastAction == ctx.lastMove)
    && (used && out.Ok? && !s.recharging && s.usable ==> attacker.lastAction == move)
  }

  /** `attacker` uses `move` on `defender` (`AttackAction`): the context takes the two sides,
      the move and a fresh generator; a fainted active combatant is replaced if possible, and
      the move is used only when the attacker's active combatant had not fainted. */
  method AttackAction(ctx: BattleContext, move: BattleMove, attacker: Trainer, defender: Trainer, source: nat -> int, fuel: nat,
                      ghost a: Trainer, ghost b: Trainer, ghost world: set<object>)
    returns (out: Outcome, ghost used: bool, ghost world': set<object>)
    requires Ready(ctx, a, b, world) && move in world
    requires (attacker == a && defender == b) || (attacker == b && defender == a)
    modifies world
    ensures Ready(ctx, a, b, world') && Grown(world, world')
    ensures ctx.attacker == attacker && ctx.defender == defender && ctx.move != null
    ensures ctx.turn == old(ctx.turn) && old(ctx.log) <= ctx.log
    ensures Announced(ctx, move, attacker, used, old(StanceOf(ctx, attacker, move)))
    ensures Remembered(ctx, move, attacker, out, used, old(StanceOf(ctx, attacker, move)))
    ensures defender.activePokemon == old(defender.activePokemon) && defender.lastAction == old(defender.lastAction)
  {
    Prepare(ctx, attacker, defender, move, source, a, b, world);
    out, used, world' := Engage(ctx, move, fuel, a, b, world);
  }

  /** The context takes the two sides, the move and a fresh generator (`Context.Refresh`). */
  method Prepare(ctx: BattleContext, attacker: Trainer, defender: Trainer, move: BattleMove, source: nat -> int,
                 ghost a: Trainer, ghost b: Trainer, ghost world: set<object>)
    requires Ready(ctx, a, b, world)
    requires (attacker == a && defender == b) || (attacker == b && defender == a)
    modifies ctx
    ensures Ready(ctx, a, b, world)
    ensures ctx.attacker == attacker && ctx.defender == defender && ctx.move == move && ctx.source == source
    ensures ctx.turn == old(ctx.turn) && ctx.log == old(ctx.log)
  {
    ctx.Refresh(attacker, defender, move, source);
  }

  /** The attack once the context is set: the forced switch of a fainted attacker, then the
      move use when the attacker had not fainted. */
  method Engage(ctx: BattleContext, move: BattleMove, fuel: nat, ghost a: Trainer, ghost b: Trainer, ghost world: set<object>)
    returns (out: Outcome, ghost used: bool, ghost world': set<object>)
    requires Ready(ctx, a, b, world) && move in world && ctx.move != null
    requires (ctx.attacker == a && ctx.defender == b) || (ctx.attacker == b && ctx.defender == a)
    modifies world
    ensures Ready(ctx, a, b, world') && Grown(world, world')
    ensures ctx.attacker == old(ctx.attacker) && ctx.defender == old(ctx.defender) && ctx.move != null
    ensures ctx.turn == old(ctx.turn) && old(ctx.log) <= ctx.log
    ensures Announced(ctx, move, ctx.attacker, used, old(StanceOf(ctx, ctx.attacker, move)))
    ensures Remembered(ctx, move, ctx.attacker, out, used, old(StanceOf(ctx, ctx.attacker, move)))
    ensures ctx.Def() == old(ctx.Def()) && ctx.defender.lastAction == old(ctx.defender.lastAction)
  {
    TeamInWorld(ctx, a, b, ctx.attacker, world);
    var fainted;
    out, fainted, world' := SwitchPokemonIfRequired(ctx, ctx.attacker, a, b, world);
    used := !fainted;
    if out.Crash? || fainted {
      return;
    }
    ContextValid(ctx, a, b, world');
    out, world' := Strike(ctx, move, fuel, a, b, world');
  }

  /** Each trainer's active combatant is one of the fighters and has well-formed stages. */
  lemma ActivesValid(ctx: BattleContext, a: Trainer, b: Trainer, world: set<object>)
    requires Ready(ctx, a, b, world)
    ensures a.activePokemon.Valid() && b.activePokemon.Valid()
  {
    var ia := FighterIndex(a, b, a, a.activePokemon);
    var ib := FighterIndex(a, b, b, b.activePokemon);
  }

  /** The trainer of a side. */
  function TrainerOf(side: Side, a: Trainer, b: Trainer): Trainer {
    if side == SideA then a else b
  }

  /** The choice of a side. */
  function ChoiceOf(side: Side, moveA: BattleMove?, moveB: BattleMove?): BattleMove? {
    if side == SideA then moveA else moveB
  }

  /** The side that acts first (the ordering part of `AssignAndExecuteOrder`): by priority,
      then by the speed after stages, then by the draw `tieRaw` of a fresh generator in
      [1, 2). It is side A exactly when A's priority is higher, or equal with A at least as
      fast. */
  method AssignOrder(a: Trainer, b: Trainer, moveA: BattleMove?, moveB: BattleMove?, tieRaw: int) returns (first: Side)
    requires a.activePokemon.Valid() && b.activePokemon.Valid()
    ensures first == FirstSide(Priority(moveA), Priority(moveB), a.activePokemon.GetSpeed(), b.activePokemon.GetSpeed(), tieRaw)
    ensures var pA, pB, sA, sB := Priority(moveA), Priority(moveB), a.activePokemon.GetSpeed(), b.activePokemon.GetSpeed();
            first == SideA <==> pA > pB || (pA == pB && sA >= sB)
  {
    var priorityA := if moveA == null then 10 else moveA.property.priority;
    var priorityB := if moveB == null then 10 else moveB.property.priority;
    if priorityA > priorityB {
      first := SideA;
    } else if priorityA < priorityB {
      first := SideB;
    } else {
      var speedA := a.activePokemon.GetSpeed();
      var speedB := b.activePokemon.GetSpeed();
      if speedA > speedB {
        first := SideA;
      } else if speedA < speedB {
        first := SideB;
      } else if Pick(tieRaw, 1, 2) == 1 {
        first := SideA;
      } else {
        first := SideB;
      }
    }
    FirstSideOrder(priorityA, priorityB, a.activePokemon.GetSpeed(), b.activePokemon.GetSpeed(), tieRaw);
  }

  /** What the round's actions leave behind when both sides chose a move and `full` tells
      whether the second attack ran: the first attack against the round's start; the second,
      when it ran, against the stance `mid` it started from, which keeps the second side's
      active combatant and last action from the start and whose log holds the first attack's
      announcement. The first side's last action is then its move when the use succeeded. */
  twostate predicate AttacksRan(ctx: BattleContext, firstT: Trainer, secondT: Trainer, firstMove: BattleMove, secondMove: BattleMove,
                                out: Outcome, full: bool, used1: bool, used2: bool, new mid: Stance)
    reads *
  {
    var s1 := old(StanceOf(ctx, firstT, firstMove));
    && Announced(ctx, firstMove, firstT, used1, s1)
    && (full && used1 && !s1.recharging && s1.usable ==> firstT.lastAction == firstMove)
    && (!full ==> !out.Ok?)
    && (full ==>
          && mid.active == old(secondT.activePokemon) && mid.lastAction == old(secondT.lastAction)
          && old(ctx.log) <= mid.log
          && (used1 && !s1.recharging ==> s1.log + Entries(ctx.turn, [Used(s1.active.species.name, firstMove.property.name)]) <= mid.log)
          && Announced(ctx, secondMove, secondT, used2, mid) && Remembered(ctx, secondMove, secondT, out, used2, mid))
  }

  /** What the round's actions leave behind when the first side switches and the second
      attacks: the switch decision of the first side, and when it succeeded (`full`) the
      second attack, against the second side's stance at the start with the log `mid` the
      switch left, which extends the log at the start. */
  twostate predicate SwitchAttackRan(ctx: BattleContext, firstT: Trainer, secondT: Trainer, secondMove: BattleMove,
                                     out: Outcome, full: bool, used: bool, mid: seq<LogEntry>)
    reads *
  {
    var o1 := old(SwitchOutcome(firstT));
    var s2 := old(StanceOf(ctx, secondT, secondMove)).(log := mid);
    && Switched(firstT, o1)
    && (full <==> o1.Ok?)
    && (!full ==> out == o1 && secondT.activePokemon == old(secondT.activePokemon) && secondT.lastAction == old(secondT.lastAction))
    && (full ==> old(ctx.log) <= mid && Announced(ctx, secondMove, secondT, used, s2) && Remembered(ctx, secondMove, secondT, out, used, s2))
  }

  /** What the round's actions leave behind when both sides switch: the first side's switch
      decision, and when it succeeded (`full`) the second side's, each from its state at the
      start; neither side's last action changes, even that of a first side that chose a move. */
  twostate predicate SwitchesRan(firstT: Trainer, secondT: Trainer, out: Outcome, full: bool)
    reads *
  {
    var o1 := old(SwitchOutcome(firstT));
    && Switched(firstT, o1)
    && (full <==> o1.Ok?)
    && (!full ==> out == o1 && secondT.activePokemon == old(secondT.activePokemon) && secondT.lastAction == old(secondT.lastAction))
    && (full ==> Switched(secondT, out))
  }

  /** Runs the two actions of a round in the order `Schedule` gives (the execution part of
      `AssignAndExecuteOrder`); `trace` records each action as it starts. A fault ends the
      round at the action that raised it. What each action leaves behind is stated, case by
      case, by `AttacksRan`, `SwitchAttackRan` and `SwitchesRan`. */
  method ExecuteOrder(ctx: BattleContext, first: Side, a: Trainer, b: Trainer, moveA: BattleMove?, moveB: BattleMove?,
                      sourceFirst: nat -> int, sourceSecond: nat -> int, fuel: nat, ghost world: set<object>)
    returns (out: Outcome, ghost trace: seq<Step>, ghost used1: bool, ghost used2: bool, ghost mid: Stance, ghost world': set<object>)
    requires Ready(ctx, a, b, world)
    requires (moveA != null ==> moveA in world) && (moveB != null ==> moveB in world)
    modifies world
    ensures Ready(ctx, a, b, world') && Grown(world, world')
    ensures ctx.turn == old(ctx.turn) && old(ctx.log) <= ctx.log
    ensures var plan := Schedule(first, ChoiceOf(first, moveA, moveB) != null, ChoiceOf(Other(first), moveA, moveB) != null);
            && 0 < |trace| && trace <= plan
            && (out.Ok? ==> trace == plan)
    ensures Ran(ctx, first, a, b, moveA, moveB, out, |trace| == 2, used1, used2, mid)
  {
    var firstT, secondT := TrainerOf(first, a, b), TrainerOf(Other(first), a, b);
    var firstMove, secondMove := ChoiceOf(first, moveA, moveB), ChoiceOf(Other(first), moveA, moveB);
    if firstMove != null && secondMove != null {
      out, trace, used1, used2, mid, world' := BothAttack(ctx, first, firstT, secondT, firstMove, secondMove, sourceFirst, sourceSecond, fuel, a, b, world);
    } else if firstMove == null && secondMove != null {
      ghost var log;
      out, trace, used2, log, world' := SwitchThenAttack(ctx, first, firstT, secondT, secondMove, sourceFirst, fuel, a, b, world);
      used1, mid := false, old(StanceOf(ctx, secondT, secondMove)).(log := log);
    } else {
      out, trace, world' := BothSwitch(ctx, first, firstT, secondT, a, b, world);
      used1, used2, mid := false, false, Stance([], a.activePokemon, false, false, null, false);
    }
  }

  /** What the round's actions leave behind, by the two choices in the order `first` gives. */
  twostate predicate Ran(ctx: BattleContext, first: Side, a: Trainer, b: Trainer, moveA: BattleMove?, moveB: BattleMove?,
                         out: Outcome, full: bool, used1: bool, used2: bool, new mid: Stance)
    reads *
  {
    var firstT, secondT := TrainerOf(first, a, b), TrainerOf(Other(first), a, b);
    var firstMove, secondMove := ChoiceOf(first, moveA, moveB), ChoiceOf(Other(first), moveA, moveB);
    if firstMove != null && secondMove != null then
      AttacksRan(ctx, firstT, secondT, firstMove, secondMove, out, full, used1, used2, mid)
    else if firstMove == null && secondMove != null then
      SwitchAttackRan(ctx, firstT, secondT, secondMove, out, full, used2, mid.log)
    else
      SwitchesRan(firstT, secondT, out, full)
  }

  /** Both chose a move: the first side attacks, then the second. */
  method BothAttack(ctx: BattleContext, ghost first: Side, firstT: Trainer, secondT: Trainer, firstMove: BattleMove, secondMove: BattleMove,
                    sourceFirst: nat -> int, sourceSecond: nat -> int, fuel: nat, ghost a: Trainer, ghost b: Trainer, ghost world: set<object>)
    returns (out: Outcome, ghost trace: seq<Step>, ghost used1: bool, ghost used2: bool, ghost mid: Stance, ghost world': set<object>)
    requires Ready(ctx, a, b, world) && firstMove in world && secondMove in world
    requires firstT == TrainerOf(first, a, b) && secondT == TrainerOf(Other(first), a, b)
    modifies world
    ensures Ready(ctx, a, b, world') && Grown(world, world')
    ensures ctx.turn == old(ctx.turn) && old(ctx.log) <= ctx.log
    ensures trace == [AttackBy(first)] || trace == [AttackBy(first), AttackBy(Other(first))]
    ensures out.Ok? ==> trace == [AttackBy(first), AttackBy(Other(first))]
    ensures AttacksRan(ctx, firstT, secondT, firstMove, secondMove, out, |trace| == 2, used1, used2, mid)
  {
    trace := [AttackBy(first)];
    used2, mid := false, Stance([], firstT.activePokemon, false, false, null, false);
    out, used1, world' := AttackAction(ctx, firstMove, firstT, secondT, sourceFirst, fuel, a, b, world);
    if !out.Ok? {
      return;
    }
    trace := trace + [AttackBy(Other(first))];
    mid := StanceOf(ctx, secondT, secondMove);
    out, used2, world' := AttackAction(ctx, secondMove, secondT, firstT, sourceSecond, fuel, a, b, world');
  }

  /** The first side switches, then the second attacks. */
  method SwitchThenAttack(ctx: BattleContext, ghost first: Side, firstT: Trainer, secondT: Trainer, secondMove: BattleMove,
                          source: nat -> int, fuel: nat, ghost a: Trainer, ghost b: Trainer, ghost world: set<object>)
    returns (out: Outcome, ghost trace: seq<Step>, ghost used: bool, ghost mid: seq<LogEntry>, ghost world': set<object>)
    requires Ready(ctx, a, b, world) && secondMove in world
    requires firstT == TrainerOf(first, a, b) && secondT == TrainerOf(Other(first), a, b)
    modifies world
    ensures Ready(ctx, a, b, world') && Grown(world, world')
    ensures ctx.turn == old(ctx.turn) && old(ctx.log) <= ctx.log
    ensures trace == [SwitchBy(first)] || trace == [SwitchBy(first), AttackBy(Other(first))]
    ensures out.Ok? ==> trace == [SwitchBy(first), AttackBy(Other(first))]
    ensures SwitchAttackRan(ctx, firstT, secondT, secondMove, out, |trace| == 2, used, mid)
  {
    trace := [SwitchBy(first)];
    used := false;
    TeamInWorld(ctx, a, b, firstT, world);
    out, world' := Yield(ctx, firstT, secondT, secondMove, a, b, world);
    mid := ctx.log;
    if !out.Ok? {
      return;
    }
    trace := trace + [AttackBy(Other(first))];
    out, used, world' := AttackAction(ctx, secondMove, secondT, firstT, source, fuel, a, b, world');
  }

  /** The switch of the first side before the second side's attack: the second side's
      stance for that attack is the one it had before the switch, with the log the switch
      left. */
  method Yield(ctx: BattleContext, firstT: Trainer, secondT: Trainer, secondMove: BattleMove,
               ghost a: Trainer, ghost b: Trainer, ghost world: set<object>)
    returns (out: Outcome, ghost world': set<object>)
    requires Ready(ctx, a, b, world) && secondMove in world
    requires (firstT == a && secondT == b) || (firstT == b && secondT == a)
    modifies ctx`log, ctx`lastMove, ctx`lastDamage, firstT, Team(firstT)
    ensures Ready(ctx, a, b, world') && Grown(world, world')
    ensures ctx.turn == old(ctx.turn) && old(ctx.log) <= ctx.log
    ensures Switched(firstT, out)
    ensures StanceOf(ctx, secondT, secondMove) == old(StanceOf(ctx, secondT, secondMove)).(log := ctx.log)
    ensures secondT.activePokemon == old(secondT.activePokemon)
  {
    out, world' := Switch(ctx, firstT, a, b, world);
    Undisturbed(secondT);
  }

  /** Every other case: both sides switch, the first side first. */
  method BothSwitch(ctx: BattleContext, ghost first: Side, firstT: Trainer, secondT: Trainer,
                    ghost a: Trainer, ghost b: Trainer, ghost world: set<object>)
    returns (out: Outcome, ghost trace: seq<Step>, ghost world': set<object>)
    requires Ready(ctx, a, b, world)
    requires firstT == TrainerOf(first, a, b) && secondT == TrainerOf(Other(first), a, b)
    modifies world
    ensures Ready(ctx, a, b, world') && Grown(world, world')
    ensures ctx.turn == old(ctx.turn) && old(ctx.log) <= ctx.log
    ensures trace == [SwitchBy(first)] || trace == [SwitchBy(first), SwitchBy(Other(first))]
    ensures out.Ok? ==> trace == [SwitchBy(first), SwitchBy(Other(first))]
    ensures SwitchesRan(firstT, secondT, out, |trace| == 2)
  {
    trace := [SwitchBy(first)];
    TeamInWorld(ctx, a, b, firstT, world);
    out, world' := Switch(ctx, firstT, a, b, world);
    Undisturbed(secondT);
    if !out.Ok? {
      return;
    }
    trace := trace + [SwitchBy(Other(first))];
    TeamInWorld(ctx, a, b, secondT, world');
    out, world' := Switch(ctx, secondT, a, b, world');
  }

  /** A switch action as one step of a round: the round's frame holds again, the log only
      grew, the switch decision's outcome and new active combatant are those of `Switched`,
      and the other side and its team are untouched. */
  method Switch(ctx: BattleContext, player: Trainer, ghost a: Trainer, ghost b: Trainer, ghost world: set<object>)
    returns (out: Outcome, ghost world': set<object>)
    requires Ready(ctx, a, b, world) && (player == a || player == b)
    modifies ctx`log, ctx`lastMove, ctx`lastDamage, player, Team(player)
    ensures Ready(ctx, a, b, world') && Grown(world, world')
    ensures ctx.turn == old(ctx.turn) && old(ctx.log) <= ctx.log
    ensures Switched(player, out)
    ensures unchanged(Rival(player, a, b)) && unchanged(Team(Rival(player, a, b)))
  {
    out, world' := SwitchAction(ctx, player, a, b, world);
  }

  /** Orders the two choices and runs them (`AssignAndExecuteOrder`). */
  method AssignAndExecuteOrder(ctx: BattleContext, a: Trainer, b: Trainer, moveA: BattleMove?, moveB: BattleMove?,
                               sourceFirst: nat -> int, sourceSecond: nat -> int, tieRaw: int, fuel: nat, ghost world: set<object>)
    returns (out: Outcome, ghost first: Side, ghost trace: seq<Step>, ghost used1: bool, ghost used2: bool, ghost mid: Stance,
             ghost world': set<object>)
    requires Ready(ctx, a, b, world)
    requires (moveA != null ==> moveA in world) && (moveB != null ==> moveB in world)
    modifies world
    ensures Ready(ctx, a, b, world') && Grown(world, world')
    ensures ctx.turn == old(ctx.turn) && old(ctx.log) <= ctx.log
    ensures old(a.activePokemon.Valid() && b.activePokemon.Valid())
            && first == FirstSide(Priority(moveA), Priority(moveB), old(a.activePokemon.GetSpeed()), old(b.activePokemon.GetSpeed()), tieRaw)
    ensures var plan := Schedule(first, ChoiceOf(first, moveA, moveB) != null, ChoiceOf(Other(first), moveA, moveB) != null);
            && 0 < |trace| && trace <= plan
            && (out.Ok? ==> trace == plan)
    ensures Ran(ctx, first, a, b, moveA, moveB, out, |trace| == 2, used1, used2, mid)
  {
    ActivesValid(ctx, a, b, world);
    var side := AssignOrder(a, b, moveA, moveB, tieRaw);
    first := side;
    out, trace, used1, used2, mid, world' := ExecuteOrder(ctx, side, a, b, moveA, moveB, sourceFirst, sourceSecond, fuel, world);
  }

  /** The move slots of the context's two sides lie in the round's world. */
  lemma SidesMovesInWorld(ctx: BattleContext, a: Trainer, b: Trainer, world: set<object>)
    requires Ready(ctx, a, b, world)
    ensures ctx.attacker != null ==> MoveSet(ctx.attacker.activePokemon.moves) <= world
    ensures ctx.defender != null ==> MoveSet(ctx.defender.activePokemon.moves) <= world
  {
    var ia := FighterIndex(a, b, a, a.activePokemon);
    var ib := FighterIndex(a, b, b, b.activePokemon);
  }

  /** Advances the turn (`Context.NextTurn`) within the round's frame. */
  method Tick(ctx: BattleContext, ghost a: Trainer, ghost b: Trainer, ghost world: set<object>) returns (out: Outcome)
    requires Ready(ctx, a, b, world)
    modifies world
    ensures Ready(ctx, a, b, world)
    ensures out.Ok? ==> ctx.turn == old(ctx.turn) + 1
    ensures old(ctx.turn) <= 0 ==> out == Ok
    ensures old(ctx.turn) > 0 && old(ctx.attacker) == null ==> out == Crash(NullReference)
    ensures old(ctx.log) <= ctx.log
  {
    SidesMovesInWorld(ctx, a, b, world);
    out := ctx.NextTurn();
  }

  /** A trainer's choice for the round (`ChooseBattleAction`): a move it holds in the world,
      or no move for a switch. */
  method Choose(ctx: BattleContext, t: Trainer, ghost a: Trainer, ghost b: Trainer, ghost world: set<object>)
    returns (out: Outcome, action: BattleMove?)
    requires Ready(ctx, a, b, world) && (t == a || t == b)
    modifies t`feed
    ensures Ready(ctx, a, b, world)
    ensures out.Ok? && action != null ==> action in world
    ensures old(t.lockChoice) ==> out == Ok && action == old(t.lastAction)
    ensures !old(t.lockChoice) && out.Ok? && action != null ==> action in t.activePokemon.moves && action.CanBeUsed()
    ensures !old(t.lockChoice) && out.Ok? && action == null ==> t.kind == Player && t.CanSwitchPokemon()
  {
    var it := FighterIndex(a, b, t, t.activePokemon);
    out, action := t.ChooseAction();
    if action != null && action in t.activePokemon.moves {
      var k :| 0 <= k < |t.activePokemon.moves| && t.activePokemon.moves[k] == action;
    }
  }

  /** One round (`PlayRound`): the turn advances, both sides replace a fainted combatant
      when they can, both choose, the choices run in order, and the battle goes on exactly
      when neither trainer has lost. A fault ends the round where it arises. */
  method PlayRound(ctx: BattleContext, a: Trainer, b: Trainer, sourceFirst: nat -> int, sourceSecond: nat -> int,
                   tieRaw: int, fuel: nat, ghost world: set<object>)
    returns (out: Outcome, going: bool, ghost world': set<object>)
    requires Ready(ctx, a, b, world)
    modifies world
    ensures Ready(ctx, a, b, world') && Grown(world, world')
    ensures old(ctx.log) <= ctx.log
    ensures out.Ok? ==> ctx.turn == old(ctx.turn) + 1
    ensures out.Ok? ==> (going <==> !HasPlayerLost(a) && !HasPlayerLost(b))
    ensures !out.Ok? ==> !going
  {
    going, world' := false, world;
    out := Tick(ctx, a, b, world);
    if !out.Ok? {
      return;
    }
    out, world' := Replenish(ctx, a, b, world);
    if !out.Ok? {
      return;
    }
    var moveA, moveB;
    out, moveA := Choose(ctx, a, a, b, world');
    if !out.Ok? {
      return;
    }
    out, moveB := Choose(ctx, b, a, b, world');
    if !out.Ok? {
      return;
    }
    ghost var first, trace, used1, used2, mid;
    out, first, trace, used1, used2, mid, world' := AssignAndExecuteOrder(ctx, a, b, moveA, moveB, sourceFirst, sourceSecond, tieRaw, fuel, world');
    if !out.Ok? {
      return;
    }
    if HasPlayerLost(a) {
      return Ok, false, world';
    }
    if HasPlayerLost(b) {
      return Ok, false, world';
    }
    going := true;
  }

  /** The forced switches at the start of a round, side A's first: A's as `Replenished`
      states it, then, unless A's decision faulted, B's from its state at the start, which
      A's switch leaves untouched. */
  method Replenish(ctx: BattleContext, a: Trainer, b: Trainer, ghost world: set<object>)
    returns (out: Outcome, ghost world': set<object>)
    requires Ready(ctx, a, b, world)
    modifies world
    ensures Ready(ctx, a, b, world') && Grown(world, world')
    ensures ctx.turn == old(ctx.turn) && old(ctx.log) <= ctx.log
    ensures var outA := old(ForcedOutcome(a));
            && Replenished(a, outA)
            && (outA.Ok? ==> Replenished(b, out))
            && (!outA.Ok? ==> out == outA && b.activePokemon == old(b.activePokemon) && b.lastAction == old(b.lastAction))
  {
    var fainted;
    TeamInWorld(ctx, a, b, a, world);
    out, fainted, world' := SwitchPokemonIfRequired(ctx, a, a, b, world);
    Undisturbed(b);
    if !out.Ok? {
      return;
    }
    ghost var world1 := world';
    TeamInWorld(ctx, a, b, b, world1);
    out, fainted, world' := SwitchPokemonIfRequired(ctx, b, a, b, world1);
  }
}
