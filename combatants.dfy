/** The runtime state of a battle: a move slot with its PP and disable countdown, and a
    combatant with its HP, faint flag, turn flags, stat stages, current types and move slots. */
module Combatants {
  import opened Numerics
  import opened Models
  import opened Stats

  /** A move slot: the definition with the PP left and the disable countdown. */
  class BattleMove {
    const property: Move
    var currentPp: int
    const maxPp: int
    var isDisabled: bool
    var disableDuration: int

    /** A fresh slot has full PP and is not disabled. */
    constructor (move: Move)
      ensures property == move && currentPp == move.pp && maxPp == move.pp
      ensures !isDisabled && disableDuration == 0
    {
      property := move;
      currentPp := move.pp;
      maxPp := move.pp;
      isDisabled := false;
      disableDuration := 0;
    }

    /** Usable exactly when not disabled and some PP is left. */
    predicate CanBeUsed()
      reads this
    {
      !isDisabled && currentPp > 0
    }

    /** Sets the countdown and disables the move, even for a duration of 0. */
    method Disable(duration: int)
      modifies this`disableDuration, this`isDisabled
      ensures disableDuration == duration && isDisabled
    {
      disableDuration := duration;
      isDisabled := true;
    }

    /** One tick of the countdown: the move is re-enabled once the countdown reaches 0 or
        below; the result is whether it is still disabled. */
    method UnDisable() returns (stillDisabled: bool)
      modifies this`disableDuration, this`isDisabled
      ensures disableDuration == old(disableDuration) - 1
      ensures isDisabled == (old(isDisabled) && disableDuration > 0)
      ensures stillDisabled == isDisabled
    {
      disableDuration := disableDuration - 1;
      if disableDuration <= 0 {
        isDisabled := false;
      }
      stillDisabled := isDisabled;
    }
  }

  /** The objects of a move list. */
  ghost function MoveSet(ms: seq<BattleMove>): set<object> {
    set i | 0 <= i < |ms| :: ms[i]
  }

  /** `ms` holds one fresh-state slot per definition of `defs`, in order. */
  ghost predicate FullMoves(ms: seq<BattleMove>, defs: seq<Move>)
    reads ms
  {
    |ms| == |defs| &&
    forall i :: 0 <= i < |ms| ==>
      ms[i].property == defs[i] && ms[i].currentPp == defs[i].pp && ms[i].maxPp == defs[i].pp
      && !ms[i].isDisabled && ms[i].disableDuration == 0
  }

  /** One new slot per definition, in order. */
  method NewMoves(defs: seq<Move>) returns (ms: seq<BattleMove>)
    ensures FullMoves(ms, defs)
    ensures forall i :: 0 <= i < |ms| ==> fresh(ms[i])
  {
    ms := [];
    var i := 0;
    while i < |defs|
      invariant 0 <= i <= |defs|
      invariant |ms| == i
      invariant forall k :: 0 <= k < i ==> fresh(ms[k])
      invariant forall k :: 0 <= k < i ==>
        ms[k].property == defs[k] && ms[k].currentPp == defs[k].pp && ms[k].maxPp == defs[k].pp
        && !ms[k].isDisabled && ms[k].disableDuration == 0
    {
      var m := new BattleMove(defs[i]);
      ms := ms + [m];
      i := i + 1;
    }
  }

  /** The slots of `ms` that are disabled, in list order. */
  function DisabledAmong(ms: seq<BattleMove>): (r: seq<BattleMove>)
    reads ms
    ensures |r| <= |ms|
    ensures forall i :: 0 <= i < |r| ==> r[i] in ms && r[i].isDisabled
    ensures forall i :: 0 <= i < |ms| && ms[i].isDisabled ==> ms[i] in r
  {
    if ms == [] then []
    else (if ms[0].isDisabled then [ms[0]] else []) + DisabledAmong(ms[1..])
  }
  /** The disabled moves keep their list order and multiplicity: filtering a concatenation
      concatenates the filtered parts, and a one-move list keeps its move exactly when it is
      disabled. */
  lemma {:induction false} DisabledAmongConcat(xs: seq<BattleMove>, ys: seq<BattleMove>)
    ensures DisabledAmong(xs + ys) == DisabledAmong(xs) + DisabledAmong(ys)
    ensures |xs| == 1 ==> DisabledAmong(xs) == (if xs[0].isDisabled then xs else [])
  {
    if xs == [] {
      Regroup(ys, ys, ys);
    } else {
      var head := if xs[0].isDisabled then [xs[0]] else [];
      SplitHead(xs, ys);
      DisabledAmongConcat(xs[1..], ys);
      Regroup(head, DisabledAmong(xs[1..]), DisabledAmong(ys));
    }
  }


  /** A stat scaled by a stage of the main multiplier table. */
  function StagedStat(value: int, stage: int): int
    requires ValidStage(stage)
  {
    var f := GetMultiplier(stage);
    Div(value * f.numerator, f.denominator)
  }

  /** At stage 0 a stat is unscaled; over the stage range it lies between a quarter and four
      times its value. */
  lemma StagedStatBounds(value: int, stage: int)
    requires ValidStage(stage) && value >= 0
    ensures StagedStat(0 + value, 0) == value
    ensures value / 4 <= StagedStat(value, stage) <= 4 * value
  {
    var f := GetMultiplier(stage);
    assert value * 25 <= value * f.numerator <= value * 400 by {
      assert value * (f.numerator - 25) >= 0;
      assert value * (400 - f.numerator) >= 0;
    }
    DivMonotone(value * 25, value * f.numerator, 100);
    DivMonotone(value * f.numerator, value * 400, 100);
    assert value * 25 / 100 == value / 4;
    assert value * 400 / 100 == 4 * value;
  }

  /** A higher stage never lowers a non-negative stat. */
  lemma StagedStatMonotone(value: int, s: int, t: int)
    requires -6 <= s <= t <= 6 && value >= 0
    ensures StagedStat(value, s) <= StagedStat(value, t)
  {
    if s < t {
      MultiplierStrictlyIncreasing(s, t);
    }
    ScaleMonotoneInFactor(value, GetMultiplier(s).numerator, GetMultiplier(t).numerator, 100);
  }

  lemma ScaleMonotoneInFactor(value: int, n1: int, n2: int, d: int)
    requires value >= 0 && 0 <= n1 <= n2 && d > 0
    ensures value * n1 / d <= value * n2 / d
  {
    assert value * n1 <= value * n2 by {
      assert value * (n2 - n1) >= 0;
    }
    DivMonotone(value * n1, value * n2, d);
  }

  /** A combatant: one species on the field with its current state. */
  class BattlePokemon {
    const species: Pokemon
    const level: int
    const stats: BattleStats
    const statStages: StatStages
    var currentHp: int
    var isFainted: bool
    var types: TypeList
    var moves: seq<BattleMove>
    var isInvulnerable: bool
    var isCharging: bool
    var isRecharging: bool

    ghost predicate Valid()
      reads statStages
    {
      statStages.Valid()
    }

    /** HP within [0, MaxHp], with the faint flag set exactly at 0. */
    ghost predicate HpInRange()
      reads this
    {
      0 <= currentHp <= stats.maxHp && (isFainted <==> currentHp == 0)
    }

    /** Enters the battle at full HP, with neutral stages, the species' own type list and
        one fresh slot per species move. */
    constructor (pokemon: Pokemon, level: int)
      requires level >= 1 && pokemon.baseStats.hp >= 0
      ensures species == pokemon && this.level == level && stats == Calculate(pokemon, level)
      ensures Valid() && fresh(statStages) && statStages.stages == ZeroStages()
      ensures HpInRange() && currentHp == stats.maxHp && !isFainted
      ensures types == pokemon.types
      ensures FullMoves(moves, pokemon.moves) && forall i :: 0 <= i < |moves| ==> fresh(moves[i])
      ensures !isInvulnerable && !isCharging && !isRecharging
    {
      var ms := NewMoves(pokemon.moves);
      species := pokemon;
      types := pokemon.types;
      this.level := level;
      stats := Calculate(pokemon, level);
      statStages := new StatStages();
      isFainted := false;
      moves := ms;
      currentHp := Calculate(pokemon, level).maxHp;
      isInvulnerable := false;
      isCharging := false;
      isRecharging := false;
      StatFormulas(pokemon.baseStats.hp, level);
    }

    /** Resets what switching out resets: stages, types (the species' list), moves (fresh
        slots) and the three turn flags; HP and the faint flag are kept. */
    method SwitchedOut()
      requires Valid()
      modifies this, statStages
      ensures Valid() && statStages.stages == ZeroStages()
      ensures types == species.types
      ensures FullMoves(moves, species.moves) && forall i :: 0 <= i < |moves| ==> fresh(moves[i])
      ensures !isInvulnerable && !isCharging && !isRecharging
      ensures currentHp == old(currentHp) && isFainted == old(isFainted)
    {
      statStages.Reset();
      types := species.types;
      var ms := NewMoves(species.moves);
      moves := ms;
      isInvulnerable := false;
      isCharging := false;
      isRecharging := false;
    }

    function GetDisabledMoves(): (r: seq<BattleMove>)
      reads this, moves
      ensures forall i :: 0 <= i < |r| ==> r[i] in moves && r[i].isDisabled
      ensures forall i :: 0 <= i < |moves| && moves[i].isDisabled ==> moves[i] in r
      ensures r == DisabledAmong(moves)
    {
      DisabledAmong(moves)
    }

    /** Loses at most the current HP; the faint flag records whether HP reached 0 or below. */
    method TakeDamage(damage: int) returns (taken: int)
      requires 0 <= damage < 256
      modifies this`currentHp, this`isFainted
      ensures taken == Min(old(currentHp), damage)
      ensures currentHp == old(currentHp) - taken
      ensures isFainted == (currentHp <= 0)
      ensures old(currentHp) >= 0 ==> 0 <= taken && currentHp >= 0
      ensures old(HpInRange()) ==> HpInRange()
    {
      var maxDamage := currentHp;
      taken := Min(maxDamage, damage);
      currentHp := currentHp - taken;
      isFainted := currentHp <= 0;
    }

    method Knockout()
      modifies this`currentHp, this`isFainted
      ensures currentHp == 0 && isFainted
      ensures stats.maxHp >= 0 ==> HpInRange()
    {
      currentHp := 0;
      isFainted := true;
    }

    /** Gains at most the missing HP; the faint flag is left as it was. */
    method RestoreHp(hp: int) returns (recovered: int)
      modifies this`currentHp
      ensures recovered == Min(hp, stats.maxHp - old(currentHp))
      ensures currentHp == old(currentHp) + recovered
      ensures isFainted == old(isFainted)
      ensures old(currentHp) <= stats.maxHp ==> currentHp <= stats.maxHp
      ensures hp >= 0 && old(currentHp) <= stats.maxHp ==> recovered >= 0
    {
      var maxRecovery := stats.maxHp - currentHp;
      recovered := Min(hp, maxRecovery);
      currentHp := currentHp + recovered;
    }

    function GetAttack(critical: bool): int
      reads statStages
      requires Valid()
    {
      if critical then stats.attack else StagedStat(stats.attack, statStages.GetStage(Attack))
    }

    function GetDefense(critical: bool): int
      reads statStages
      requires Valid()
    {
      if critical then stats.defense else StagedStat(stats.defense, statStages.GetStage(Defense))
    }

    function GetSpAttack(critical: bool): int
      reads statStages
      requires Valid()
    {
      if critical then stats.spAttack else StagedStat(stats.spAttack, statStages.GetStage(SpAttack))
    }

    function GetSpDefense(critical: bool): int
      reads statStages
      requires Valid()
    {
      if critical then stats.spDefense else StagedStat(stats.spDefense, statStages.GetStage(SpDefense))
    }

    /** Speed is always staged: there is no critical-hit exemption. */
    function GetSpeed(): int
      reads statStages
      requires Valid()
    {
      StagedStat(stats.speed, statStages.GetStage(Speed))
    }

    /** Scales an accuracy value by this combatant's Accuracy stage. */
    function GetAccuracy(moveAccuracy: int): int
      reads statStages
      requires Valid()
    {
      var f := GetAccuracyEvasionMultiplier(statStages.GetStage(Accuracy), Accuracy);
      Div(moveAccuracy * f.numerator, f.denominator)
    }

    /** Scales an accuracy value by this combatant's Evasion stage. */
    function GetEvasion(moveAccuracy: int): int
      reads statStages
      requires Valid()
    {
      var f := GetAccuracyEvasionMultiplier(statStages.GetStage(Evasion), Evasion);
      Div(moveAccuracy * f.numerator, f.denominator)
    }

    /** A critical hit reads the raw stats; otherwise each getter reads its own stage, and at
        neutral stages every getter returns the raw stat. */
    lemma GettersAtNeutralStages(critical: bool)
      requires Valid()
      requires forall s: Stat :: statStages.stages[s] == 0
      ensures GetAttack(critical) == stats.attack && GetDefense(critical) == stats.defense
      ensures GetSpAttack(critical) == stats.spAttack && GetSpDefense(critical) == stats.spDefense
      ensures GetSpeed() == stats.speed
      ensures forall x :: GetAccuracy(x) == x && GetEvasion(x) == x
    {
      assert statStages.GetStage(Attack) == 0 && statStages.GetStage(Defense) == 0;
      assert statStages.GetStage(SpAttack) == 0 && statStages.GetStage(SpDefense) == 0;
      assert statStages.GetStage(Speed) == 0;
      assert statStages.GetStage(Accuracy) == 0 && statStages.GetStage(Evasion) == 0;
    }
  }
}
