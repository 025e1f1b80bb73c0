/** The immutable definitions a battle is built from: enumerations, moves with their
    configured effect lists, and species. */
module Models {

  datatype Option<T> = None | Some(value: T)

  datatype PokemonType =
    | Normal | Fire | Water | Electric | Grass | Ice | Fighting | Poison
    | Ground | Flying | Psychic | Bug | Rock | Ghost | Dragon

  datatype MoveCategory = Physical | Special | Status

  datatype Targets = Self | Enemy | All

  datatype CriticalRatio = NormalRatio | High

  /** The seven stats that carry a stage. */
  datatype Stat = Attack | Defense | SpAttack | SpDefense | Speed | Accuracy | Evasion

  /** A status condition is only carried through loading; its effect is not implemented. */
  type StatusId = int

  /** The closed set of move effects, each with its configuration. The five effects the
      program leaves unimplemented (Status, DamageReduction, Fixated, LeechSeed, Transform)
      share one no-op variant that records which one it was. */
  datatype Effect =
    | ChargingTurnEffect(semiInvulnerableTurn: bool)
    | CopyMoveEffect(replace: bool)
    | CounterDamageEffect(category: MoveCategory)
    | CutHalfHpEffect
    | DamageEffect(criticalRatio: CriticalRatio)
    | DisableEffect
    | DrainEffect(percent: int)
    | FixedDamageEffect(fixedPower: Option<int>)
    | MultistrikeEffect(criticalRatio: CriticalRatio, minHits: int, maxHits: int)
    | OneHitKoEffect
    | RandomMoveEffect
    | RecoilEffect(percent: int)
    | RecoverHpEffect(percent: int)
    | SelfdestructEffect
    | StatChangeEffect(target: Targets, chance: Option<int>, stages: int, affectedStat: Stat)
    | StatChangeResetEffect
    | TypeChangeEffect
    | UnimplementedEffect(name: string)
  {
    /** The effects that run even when the move misses. */
    predicate AlwaysRuns() {
      ChargingTurnEffect? || SelfdestructEffect?
    }
  }

  /** A move definition. */
  datatype Move = Move(
    name: string,
    moveType: PokemonType,
    category: MoveCategory,
    power: Option<int>,
    accuracy: Option<int>,
    pp: int,
    priority: int,
    target: Targets,
    effects: seq<Effect>)

  datatype BaseStats = BaseStats(hp: int, attack: int, defense: int, spAttack: int, spDefense: int, speed: int)

  /** The species' type list. It is a mutable list object in the program: a combatant's
      current types alias it, so an in-place change is seen through every alias. */
  class TypeList {
    var items: seq<PokemonType>

    constructor (items: seq<PokemonType>)
      ensures this.items == items
    {
      this.items := items;
    }
  }

  /** A species definition. */
  datatype Pokemon = Pokemon(id: int, name: string, types: TypeList, baseStats: BaseStats, moves: seq<Move>)

  /** The program's exceptions, which end it; a model operation that hits one returns
      `Crash` and its callers stop at once, as an exception would unwind them. */
  datatype Fault =
    | DivideByZero        // defense scaled to 0 in the damage formula
    | IndexOutOfRange     // list index or Insert position outside the list
    | EmptySequence       // Enumerable.Last() on an empty effect list
    | NotImplementedTarget // stat change aimed at Targets.All
    | RangeArgument       // Random.Next(lo, hi) with lo > hi
    | NullReference       // a context field read before the first Refresh
    | RecursionLimit      // nested Use deeper than the supplied fuel (stack overflow)

  /** How an operation ends: normally, with one of the program's exceptions, or waiting
      forever: a console prompt whose supplied lines never satisfy it, or a retry loop whose
      supplied draws never let it exit. */
  datatype Outcome = Ok | Crash(fault: Fault) | Stuck
}
