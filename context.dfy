/** The battle context: who attacks whom with which move, the generator the calculators draw
    from, the damage and move remembered across actions, the turn counter and the battle log;
    and the calculators as they read the context. */
module Context {
  import opened Numerics
  import opened Models
  import opened Stats
  import opened Combatants
  import opened Trainers
  import TypeChart
  import Calculators
  import DataLoader

  /** Which copy of the engine a context follows where the two copies differ: the
      trainer-based engine, or the older combatant-based one. */
  datatype Variant = Primary | Root

  /** A log line, as the event it reports and the names it shows. */
  datatype Message =
    | Used(user: string, move: string)
    | Avoided(target: string)
    | Effectiveness(text: string)
    | CriticalHit
    | Received(target: string, amount: int)
    | Fainted(target: string)
    | HitTimes(count: int)
    | StatChanged(target: string, text: string)
    | StatsReset
    | Countered(user: string, move: string)
    | Failed
    | HpFull(user: string)
    | Drained(user: string, amount: int)
    | Recoiled(user: string, amount: int)
    | Recovered(user: string, amount: int)
    | Disabled(user: string, move: string)
    | AlreadyDisabled(user: string, move: string)
    | Charging(user: string, text: string)
    | Learned(user: string)
    | Copied(user: string, move: string)
    | TypeChanged(user: string, newType: PokemonType)
    | KnockedOut
    | NoLongerDisabled(owner: string, move: string)
    | Returned(user: string)
    | Go(user: string)

  /** A log entry: the line prefixed with the turn it was written in. */
  datatype LogEntry = LogEntry(turn: int, message: Message)

  function Entries(turn: int, ms: seq<Message>): (r: seq<LogEntry>)
    ensures |r| == |ms|
    ensures forall i :: 0 <= i < |ms| ==> r[i] == LogEntry(turn, ms[i])
  {
    if ms == [] then [] else [LogEntry(turn, ms[0])] + Entries(turn, ms[1..])
  }

  lemma EntriesAppend(turn: int, ms: seq<Message>, ns: seq<Message>)
    ensures Entries(turn, ms + ns) == Entries(turn, ms) + Entries(turn, ns)
  {
  }

  /** Two appends to a log are one append of both line lists. */
  lemma Extend(log: seq<LogEntry>, turn: int, ms: seq<Message>, ns: seq<Message>)
    ensures log + Entries(turn, ms) + Entries(turn, ns) == log + Entries(turn, ms + ns)
  {
    EntriesAppend(turn, ms, ns);
  }

  /** The effectiveness line, if the multiplier has one. */
  function EffectivenessLine(multiplier: real): seq<Message> {
    match TypeChart.GetLogMessage(multiplier)
    case Some(text) => [Effectiveness(text)]
    case None => []
  }

  function LineIf(b: bool, m: Message): seq<Message> {
    if b then [m] else []
  }

  /** How many of the first `n` elements of `s` are `x`. */
  ghost function Occurrences<T>(s: seq<T>, x: T, n: nat): (c: nat)
    requires n <= |s|
    ensures c <= n
  {
    if n == 0 then 0
    else Occurrences(s, x, n - 1) + (if s[n - 1] == x then 1 else 0)
  }

  /** The count is the multiplicity of `x` in the prefix. */
  lemma {:induction false} OccurrencesMultiplicity<T>(s: seq<T>, x: T, n: nat)
    requires n <= |s|
    ensures Occurrences(s, x, n) == multiset(s[..n])[x]
  {
    if n > 0 {
      OccurrencesMultiplicity(s, x, n - 1);
      assert s[..n] == s[..n - 1] + [s[n - 1]];
    }
  }

  /** What a tick reads and writes of a move slot: the disable duration and flag, and the PP
      it must leave alone. */
  datatype SlotState = SlotState(duration: int, disabled: bool, pp: int)

  ghost function SlotOf(x: BattleMove): SlotState
    reads x
  {
    SlotState(x.disableDuration, x.isDisabled, x.currentPp)
  }

  /** The slot states of `ds`, position by position. */
  ghost function SlotStates(ds: seq<BattleMove>): (r: seq<SlotState>)
    reads ds
    ensures |r| == |ds| && forall j {:trigger r[j]} :: 0 <= j < |ds| ==> r[j] == SlotOf(ds[j])
  {
    if ds == [] then [] else [SlotOf(ds[0])] + SlotStates(ds[1..])
  }

  /** `x` has been ticked `count` times since it was in state `s`, and its PP is untouched. */
  ghost predicate TickedFrom(x: BattleMove, s: SlotState, count: nat)
    reads x
  {
    x.disableDuration == s.duration - count
    && x.isDisabled == (s.disabled && (count == 0 || x.disableDuration > 0))
    && x.currentPp == s.pp
  }

  /** Before the tick at position `i` of `ds`, whose slots started in the states `s0`, every
      slot has been ticked once per occurrence of it before `i`. */
  ghost predicate TickedUpTo(ds: seq<BattleMove>, s0: seq<SlotState>, i: nat)
    requires |s0| == |ds| && i <= |ds|
    reads ds
  {
    forall j {:trigger TickedFrom(ds[j], s0[j], Occurrences(ds, ds[j], i))} ::
      0 <= j < |ds| ==> TickedFrom(ds[j], s0[j], Occurrences(ds, ds[j], i))
  }

  /** Whether the tick at position `j` of `ds` leaves its move disabled, read off the states
      `s0` before any tick: that tick is the move's `Occurrences(ds, ds[j], j + 1)`-th, so the
      move stays disabled exactly when it was and its duration exceeds that count. */
  ghost predicate TickLeavesDisabled(ds: seq<BattleMove>, s0: seq<SlotState>, j: nat)
    requires j < |ds| == |s0|
  {
    s0[j].disabled && s0[j].duration - Occurrences(ds, ds[j], j + 1) > 0
  }

  /** How many of the first `n` ticks of `ds` leave their move disabled. */
  ghost function TicksLeavingDisabled(ds: seq<BattleMove>, s0: seq<SlotState>, n: nat): (c: nat)
    requires n <= |ds| == |s0|
    ensures c <= n
  {
    if n == 0 then 0
    else TicksLeavingDisabled(ds, s0, n - 1) + (if TickLeavesDisabled(ds, s0, n - 1) then 1 else 0)
  }

  /** What the damage formula reads of one combatant. */
  datatype Fighter = Fighter(level: int, baseSpeed: int, stats: BattleStats, stages: map<Stat, int>,
                             types: seq<PokemonType>)

  function FighterOf(p: BattlePokemon): (f: Fighter)
    reads p`types, p.types`items, p.statStages`stages
  {
    Fighter(p.level, p.species.baseStats.speed, p.stats, p.statStages.stages, p.types.items)
  }

  /** The current move and the two combatants, as far as the damage formula reads them. */
  datatype Matchup = Matchup(move: Move, attacker: Fighter, defender: Fighter) {
    predicate Valid() {
      (forall s: Stat :: s in attacker.stages && ValidStage(attacker.stages[s]))
      && (forall s: Stat :: s in defender.stages && ValidStage(defender.stages[s]))
    }
  }

  /** The stat a critical hit reads raw and anything else reads at its stage. */
  function StatFor(f: Fighter, stat: Stat, value: int, critical: bool): int
    requires stat in f.stages && ValidStage(f.stages[stat])
  {
    if critical then value else StagedStat(value, f.stages[stat])
  }

  /** The defender's multiplier against the move. */
  function MatchupEffectiveness(m: Matchup): real {
    TypeChart.Effectiveness(m.move.moveType, m.defender.types)
  }

  /** The damage formula on a matchup: Physical moves use Attack against Defense and every
      other category SpAttack against SpDefense; the same-type bonus reads the attacker's
      current types and a move without power counts as power 0. */
  function MatchupDamage(m: Matchup, critical: bool, effectiveness: real, randomFactor: int): (r: Option<int>)
    requires m.Valid()
    ensures r.Some? ==> 0 <= r.value < 256
    ensures r.Some? && effectiveness == 0.0 ==> r.value == 0
  {
    var physical := m.move.category == Physical;
    var attack := if physical then StatFor(m.attacker, Attack, m.attacker.stats.attack, critical)
                  else StatFor(m.attacker, SpAttack, m.attacker.stats.spAttack, critical);
    var defense := if physical then StatFor(m.defender, Defense, m.defender.stats.defense, critical)
                   else StatFor(m.defender, SpDefense, m.defender.stats.spDefense, critical);
    var power := if m.move.power.Some? then m.move.power.value else 0;
    Calculators.CalculateDamage(m.attacker.level, critical, power, attack, defense,
                                m.move.moveType in m.attacker.types, effectiveness, randomFactor)
  }

  class BattleContext {
    var attacker: Trainer?
    var defender: Trainer?
    var move: BattleMove?
    /** The raw outputs of the generator installed by the last `Refresh`, and how many of
        them have been drawn. */
    var source: nat -> int
    var drawn: nat
    var lastDamage: Option<int>
    var lastMove: BattleMove?
    /** The move catalogue: the values of the loaded dictionary, in their order. */
    const allMoves: seq<Move>
    const variant: Variant
    var turn: int
    var log: seq<LogEntry>

    /** A context over a successfully loaded move list: the catalogue lists the loaded
        moves in record order (`DataLoader.CatalogueIndexed`). */
    constructor (records: seq<DataLoader.MoveRecord>, variant: Variant, source: nat -> int)
      requires DataLoader.IndexMoves(records).Success?
      ensures allMoves == DataLoader.Catalogue(records) && this.variant == variant && this.source == source
      ensures attacker == null && defender == null && move == null && lastMove == null
      ensures lastDamage == None && turn == 0 && log == [] && drawn == 0
    {
      allMoves := DataLoader.Catalogue(records);
      this.variant := variant;
      this.source := source;
      attacker := null;
      defender := null;
      move := null;
      lastMove := null;
      lastDamage := None;
      turn := 0;
      log := [];
      drawn := 0;
    }

    function Att(): BattlePokemon
      reads this`attacker, attacker`activePokemon
      requires attacker != null
    {
      attacker.activePokemon
    }

    function Def(): BattlePokemon
      reads this`defender, defender`activePokemon
      requires defender != null
    {
      defender.activePokemon
    }

    ghost function Actives(): set<object>
      reads this`attacker, this`defender, attacker, defender
    {
      (if attacker != null then {attacker.activePokemon} else {})
      + (if defender != null then {defender.activePokemon} else {})
    }

    ghost function StageObjects(): set<object>
      reads this`attacker, this`defender, attacker, defender
    {
      (if attacker != null then {attacker.activePokemon.statStages} else {})
      + (if defender != null then {defender.activePokemon.statStages} else {})
    }

    /** Ready for an action: both sides and a move are set, the two active combatants are
        different objects with their own, well-formed stat stages. */
    ghost predicate Valid()
      reads this`attacker, this`defender, this`move, attacker, defender, StageObjects()
    {
      attacker != null && defender != null && move != null
      && Att() != Def() && Att().statStages != Def().statStages
      && Att().Valid() && Def().Valid()
    }

    /** Everything an action can touch: the context, both trainers, both active combatants
        with their stages, type lists and move slots, and the current and last moves. */
    ghost function Arena(): set<object>
      reads this`attacker, this`defender, this`move, this`lastMove, attacker, defender, Actives()
    {
      {this}
      + (if attacker != null then {attacker as object, Att(), Att().statStages, Att().types} + MoveSet(Att().moves) else {})
      + (if defender != null then {defender as object, Def(), Def().statStages, Def().types} + MoveSet(Def().moves) else {})
      + (if move != null then {move as object} else {})
      + (if lastMove != null then {lastMove as object} else {})
    }

    /** The k-th raw value still to be drawn, mapped into [lo, hi). */
    function Roll(k: nat, lo: int, hi: int): int
      reads this`source, this`drawn
      requires lo <= hi
    {
      Pick(source(drawn + k), lo, hi)
    }

    /** Installs the sides and the move of a new action and a new generator; the remembered
        damage and move, the turn and the log are kept. */
    method Refresh(attacker: Trainer, defender: Trainer, move: BattleMove, source: nat -> int)
      modifies this
      ensures this.attacker == attacker && this.defender == defender && this.move == move
      ensures this.source == source && drawn == 0
      ensures lastDamage == old(lastDamage) && lastMove == old(lastMove)
      ensures turn == old(turn) && log == old(log)
    {
      this.attacker := attacker;
      this.defender := defender;
      this.move := move;
      this.source := source;
      drawn := 0;
    }

    /** Appends exactly one entry, tagged with the current turn. */
    method Log(message: Message)
      modifies this`log
      ensures log == old(log) + [LogEntry(turn, message)]
    {
      log := log + [LogEntry(turn, message)];
    }

    /** Appends the line `m` when `b` holds. */
    method LogIf(b: bool, m: Message)
      modifies this`log
      ensures log == old(log) + Entries(turn, LineIf(b, m))
    {
      if b {
        Log(m);
      }
    }

    /** Appends the effectiveness line of a multiplier, if it has one. */
    method LogEffectiveness(effectiveness: real)
      modifies this`log
      ensures log == old(log) + Entries(turn, EffectivenessLine(effectiveness))
    {
      var msg := TypeChart.GetLogMessage(effectiveness);
      if msg.Some? {
        Log(Effectiveness(msg.value));
      }
    }

    /** `Range.Next(lo, hi)`: consumes one raw value. */
    method Draw(lo: int, hi: int) returns (v: int)
      requires lo <= hi
      modifies this`drawn
      ensures v == old(Roll(0, lo, hi)) && drawn == old(drawn) + 1
      ensures lo < hi ==> lo <= v < hi
    {
      v := Pick(source(drawn), lo, hi);
      drawn := drawn + 1;
    }

    /** Ticks every move of `p` that is disabled on entry, once per occurrence in its list;
        each tick that leaves the move disabled logs a line naming the context's current
        move rather than the ticked one, and a null current move fails at the first such
        tick, `at`, with the ticks before it and its own done. `ds` is the list ticked and
        `s0` the states its slots had on entry. */
    method CheckDisabledMoves(p: BattlePokemon)
      returns (out: Outcome, ghost at: nat, ghost ds: seq<BattleMove>, ghost s0: seq<SlotState>)
      modifies this`log, p.GetDisabledMoves()
      ensures unchanged(this`attacker, this`defender, this`move, this`turn)
      ensures unchanged(this`source, this`drawn, this`lastDamage, this`lastMove)
      ensures ds == old(p.GetDisabledMoves())
      ensures |s0| == |ds| && forall j {:trigger s0[j]} :: 0 <= j < |ds| ==> s0[j] == old(SlotOf(ds[j]))
      ensures old(log) <= log
      ensures forall i :: |old(log)| <= i < |log| ==>
                move != null && log[i] == LogEntry(turn, NoLongerDisabled(p.species.name, move.property.name))
      ensures out == Ok || (move == null && out == Crash(NullReference))
      ensures move != null ==> out == Ok
      ensures move == null ==> log == old(log)
      ensures out.Ok? ==> |log| - |old(log)| == TicksLeavingDisabled(ds, s0, |ds|) && TickedUpTo(ds, s0, |ds|)
      ensures out.Crash? ==>
                && at < |ds| && TicksLeavingDisabled(ds, s0, at) == 0 && TickLeavesDisabled(ds, s0, at)
                && TickedUpTo(ds, s0, at + 1)
    {
      var disabledMoves := p.GetDisabledMoves();
      ds, s0 := disabledMoves, SlotStates(disabledMoves);
      out, at := TickAll(p, disabledMoves, s0);
    }

    /** The loop of `CheckDisabledMoves` over the list `ds` whose slots start in the states
        `s0`. */
    method TickAll(p: BattlePokemon, ds: seq<BattleMove>, ghost s0: seq<SlotState>) returns (out: Outcome, ghost at: nat)
      requires |s0| == |ds| && TickedUpTo(ds, s0, 0)
      modifies this`log, ds
      ensures old(log) <= log
      ensures forall i :: |old(log)| <= i < |log| ==>
                move != null && log[i] == LogEntry(turn, NoLongerDisabled(p.species.name, move.property.name))
      ensures out == Ok || (move == null && out == Crash(NullReference))
      ensures move != null ==> out == Ok
      ensures move == null ==> log == old(log)
      ensures out.Ok? ==> |log| - |old(log)| == TicksLeavingDisabled(ds, s0, |ds|) && TickedUpTo(ds, s0, |ds|)
      ensures out.Crash? ==>
                && at < |ds| && TicksLeavingDisabled(ds, s0, at) == 0 && TickLeavesDisabled(ds, s0, at)
                && TickedUpTo(ds, s0, at + 1)
    {
      var i := 0;
      out, at := Ok, 0;
      while i < |ds|
        invariant 0 <= i <= |ds| && out == Ok
        invariant old(log) <= log && |log| - |old(log)| == TicksLeavingDisabled(ds, s0, i)
        invariant move == null ==> log == old(log)
        invariant forall j :: |old(log)| <= j < |log| ==>
                    move != null && log[j] == LogEntry(turn, NoLongerDisabled(p.species.name, move.property.name))
        invariant TickedUpTo(ds, s0, i)
      {
        out := TickStep(p, ds[i], ds, i, s0);
        if !out.Ok? {
          at := i;
          return;
        }
        i := i + 1;
      }
    }

    /** The tick at position `i` of `CheckDisabledMoves`: the move there is un-disabled once,
        and a tick that leaves it disabled logs its line, which needs a current move. */
    method TickStep(p: BattlePokemon, m: BattleMove, ghost ds: seq<BattleMove>, ghost i: nat, ghost s0: seq<SlotState>)
      returns (out: Outcome)
      requires i < |ds| == |s0| && ds[i] == m && TickedUpTo(ds, s0, i)
      modifies this`log, m`disableDuration, m`isDisabled
      ensures TickedUpTo(ds, s0, i + 1)
      ensures var still := TickLeavesDisabled(ds, s0, i);
              && (!still ==> out == Ok && log == old(log))
              && (still && move == null ==> out == Crash(NullReference) && log == old(log))
              && (still && move != null ==>
                    out == Ok && log == old(log) + [LogEntry(turn, NoLongerDisabled(p.species.name, move.property.name))])
    {
      var still := m.UnDisable();
      forall j | 0 <= j < |ds|
        ensures TickedFrom(ds[j], s0[j], Occurrences(ds, ds[j], i + 1))
      {
        assert old(TickedFrom(ds[j], s0[j], Occurrences(ds, ds[j], i)));
      }
      out := Ok;
      if still {
        if move == null {
          return Crash(NullReference);
        }
        Log(NoLongerDisabled(p.species.name, move.property.name));
      }
    }

    /** Advances the turn; from the second turn on, first ticks the disabled moves of both
        active combatants of the last action (which fails before any action was set up). */
    method NextTurn() returns (out: Outcome)
      modifies this
      modifies if attacker != null then MoveSet(attacker.activePokemon.moves) else {}
      modifies if defender != null then MoveSet(defender.activePokemon.moves) else {}
      ensures out.Ok? ==> turn == old(turn) + 1
      ensures old(turn) <= 0 ==> out == Ok && log == old(log)
      ensures old(turn) > 0 && old(attacker) == null ==> out == Crash(NullReference)
      ensures attacker == old(attacker) && defender == old(defender) && move == old(move)
      ensures source == old(source) && drawn == old(drawn)
      ensures lastDamage == old(lastDamage) && lastMove == old(lastMove)
      ensures old(log) <= log
    {
      if turn > 0 {
        if attacker == null {
          return Crash(NullReference);
        }
        ghost var at, ds, s0;
        out, at, ds, s0 := CheckDisabledMoves(attacker.activePokemon);
        if out.Crash? {
          return;
        }
        if defender == null {
          return Crash(NullReference);
        }
        out, at, ds, s0 := CheckDisabledMoves(defender.activePokemon);
        if out.Crash? {
          return;
        }
      }
      turn := turn + 1;
      out := Ok;
    }

    // -------------------------------------------------------------------------------
    // The calculators as they read the context

    /** The accuracy check's inputs read off the context. */
    ghost predicate AccuracyNeedsRoll()
      reads this`attacker, this`defender, this`move, attacker, defender, Actives(), StageObjects()
      requires Valid()
    {
      Calculators.AccuracyNeedsRoll(move.property.target == Self, Def().isInvulnerable, Def().isFainted,
                                    move.property.accuracy)
    }

    ghost predicate HitsOn(roll: int)
      reads this`attacker, this`defender, this`move, attacker, defender, Actives(), StageObjects()
      requires Valid()
    {
      Calculators.DoesMoveHit(move.property.target == Self, Def().isInvulnerable, Def().isFainted,
                              move.property.accuracy, Att().statStages.GetStage(Accuracy),
                              Def().statStages.GetStage(Evasion), roll)
    }

    /** The accuracy check of the current move: draws only when it reaches the roll. */
    method DoesMoveHit() returns (hit: bool)
      requires Valid()
      modifies this`drawn
      ensures hit == old(HitsOn(Roll(0, 0, 256)))
      ensures drawn == old(drawn) + (if old(AccuracyNeedsRoll()) then 1 else 0)
    {
      if move.property.target == Self {
        return true;
      }
      var d := defender.activePokemon;
      if d.isInvulnerable || d.isFainted {
        return false;
      }
      if move.property.accuracy.None? {
        return true;
      }
      var accuracy := Div(move.property.accuracy.value * 255, 100);
      accuracy := attacker.activePokemon.GetAccuracy(accuracy);
      accuracy := d.GetEvasion(accuracy);
      accuracy := Clamp(accuracy, 1, 255);
      var roll := Draw(0, 256);
      hit := roll <= accuracy;
    }

    /** The critical-hit check: always one draw. */
    method IsCriticalHit(ratio: CriticalRatio) returns (critical: bool)
      requires Valid()
      modifies this`drawn
      ensures critical == Calculators.IsCriticalHit(old(CurrentMatchup()).attacker.baseSpeed, ratio, old(Roll(0, 0, 256)))
      ensures drawn == old(drawn) + 1
    {
      var speed := attacker.activePokemon.species.baseStats.speed;
      var threshold := Div(speed + 76, 4);
      if ratio != High {
        threshold := Min(threshold, 255);
      }
      var roll := Draw(0, 256);
      critical := roll < threshold;
    }

    /** The chance check of a secondary effect: draws only for a configured chance. */
    method EffectOccurs(chance: Option<int>) returns (occurs: bool)
      requires Valid()
      modifies this`drawn
      ensures occurs == Calculators.EffectOccurs(chance, old(Roll(0, 0, 256)))
      ensures drawn == old(drawn) + (if chance.Some? then 1 else 0)
    {
      if chance.None? {
        return true;
      }
      var threshold := Div(chance.value * 255, 100);
      var roll := Draw(0, 256);
      occurs := roll <= threshold;
    }

    /** The damage inputs of the current action as a value. */
    function CurrentMatchup(): (m: Matchup)
      reads this`attacker, this`defender, this`move, attacker`activePokemon, defender`activePokemon
      reads Att()`types, Def()`types, Att().types`items, Def().types`items
      reads Att().statStages`stages, Def().statStages`stages
      requires attacker != null && defender != null && move != null
    {
      Matchup.Matchup(move.property, FighterOf(Att()), FighterOf(Def()))
    }

    /** The damage calculation: divides by zero before it looks at the effectiveness, and
        draws its random factor only for a non-zero effectiveness. */
    method CalculateDamage(critical: bool, effectiveness: real) returns (out: Outcome, damage: int)
      requires Valid()
      modifies this`drawn
      ensures var r := MatchupDamage(old(CurrentMatchup()), critical, effectiveness, old(Roll(0, 217, 256)));
              && (out.Ok? <==> r.Some?) && (!out.Ok? ==> out == Crash(DivideByZero))
              && (out.Ok? ==> damage == r.value)
      ensures out.Ok? ==> 0 <= damage < 256
      ensures drawn == old(drawn) + (if out.Ok? && effectiveness != 0.0 then 1 else 0)
    {
      var p := move.property;
      var power := if p.power.Some? then p.power.value else 0;
      var a := attacker.activePokemon;
      var d := defender.activePokemon;
      var attack := if p.category == Physical then a.GetAttack(critical) else a.GetSpAttack(critical);
      var defense := if p.category == Physical then d.GetDefense(critical) else d.GetSpDefense(critical);
      var stab := p.moveType in a.types.items;
      assert CurrentMatchup().Valid();
      if Calculators.BaseDamage(a.level, critical, power, attack, defense).None? {
        return Crash(DivideByZero), 0;
      }
      if effectiveness == 0.0 {
        return Ok, 0;
      }
      var randomModifier := Draw(217, 256);
      damage := Calculators.CalculateDamage(a.level, critical, power, attack, defense, stab, effectiveness,
                                            randomModifier).value;
      out := Ok;
    }
  }

  /** An effect that started on a valid context keeps its sides, its active combatants, its
      current move and its remembered move; the predicates that say what an effect did
      compare the state it leaves with the one it started from under this condition. */
  twostate predicate Steady(ctx: BattleContext)
    reads *
  {
    && old(ctx.Valid())
    && ctx.attacker == old(ctx.attacker) && ctx.defender == old(ctx.defender)
    && ctx.move == old(ctx.move) && ctx.lastMove == old(ctx.lastMove)
    && ctx.Att() == old(ctx.Att()) && ctx.Def() == old(ctx.Def())
  }
}
