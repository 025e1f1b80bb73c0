/** Building the definitions from their loaded records (`DataLoader`): configured effects
    from effect records with the checks on their required fields, moves from move records,
    the case-insensitive move index, and species with their moves resolved by name. Reading
    the files and decoding the JSON text are not part of this model: the records arrive as
    values. */
module DataLoader {
  import opened Models

  /** The effect types a record may name. */
  datatype EffectKind =
    | ChargingTurn | CopyMove | CounterDamage | Damage | DamageReduction | Disable | Drain
    | Fixated | FixedDamage | CutHalfHp | LeechSeed | Multistrike | OneHitKo | RandomMove
    | Recoil | RecoverHp | Selfdestruct | StatChange | StatChangeReset | Status | Transform
    | TypeChange

  /** An effect record; every field but the percentage may be absent. */
  datatype EffectRecord = EffectRecord(
    effectType: Option<EffectKind>,
    semiInvulnerableTurn: Option<bool>,
    replace: Option<bool>,
    criticalRatio: Option<CriticalRatio>,
    affectedStat: Option<Stat>,
    percent: int,
    minHits: Option<int>,
    maxHits: Option<int>,
    fixedPower: Option<int>,
    target: Option<Targets>,
    chance: Option<int>,
    stages: Option<int>,
    status: Option<StatusId>,
    duration: Option<int>)

  /** A move record. */
  datatype MoveRecord = MoveRecord(
    name: string,
    moveType: PokemonType,
    category: MoveCategory,
    power: Option<int>,
    accuracy: Option<int>,
    pp: int,
    priority: int,
    target: Targets,
    effects: seq<EffectRecord>)

  /** The base stats of a species record, with the special stats under their long names. */
  datatype StatsRecord = StatsRecord(hp: int, attack: int, defense: int, specialAttack: int, specialDefense: int, speed: int)

  /** A species record: its moves are given by name. */
  datatype SpeciesRecord = SpeciesRecord(id: int, name: string, types: seq<PokemonType>, baseStats: StatsRecord, moves: seq<string>)

  /** Why loading stops: an effect record without a field its type requires
      (`InvalidDataException`), a record without a known effect type
      (`NotSupportedException`), two moves whose names differ only in case (the dictionary
      refuses the second key), or a species naming a move that is not defined. */
  datatype LoadError =
    | MissingField(kind: EffectKind)
    | UnknownEffectType
    | DuplicateMove(name: string)
    | UnknownMove(species: string, move: string)

  datatype Result<T> = Success(value: T) | Failure(error: LoadError)

  /** The required fields of each effect type: present in `r`, where `move` is the move the
      effect belongs to (Damage and Multistrike need that move's power). */
  predicate Complete(kind: EffectKind, r: EffectRecord, move: Move) {
    match kind
    case ChargingTurn => r.semiInvulnerableTurn.Some?
    case CopyMove => r.replace.Some?
    case Damage => move.power.Some? && r.criticalRatio.Some?
    case DamageReduction => r.affectedStat.Some? && r.duration.Some?
    case Fixated => r.minHits.Some? && r.maxHits.Some?
    case Multistrike => r.minHits.Some? && r.maxHits.Some? && r.criticalRatio.Some? && move.power.Some?
    case StatChange => r.target.Some? && r.stages.Some? && r.affectedStat.Some?
    case Status => r.target.Some? && r.status.Some?
    case _ => true
  }

  /** The effect type a configured effect was built from. */
  function KindOf(e: Effect): Option<EffectKind> {
    match e
    case ChargingTurnEffect(_) => Some(ChargingTurn)
    case CopyMoveEffect(_) => Some(CopyMove)
    case CounterDamageEffect(_) => Some(CounterDamage)
    case CutHalfHpEffect => Some(CutHalfHp)
    case DamageEffect(_) => Some(Damage)
    case DisableEffect => Some(Disable)
    case DrainEffect(_) => Some(Drain)
    case FixedDamageEffect(_) => Some(FixedDamage)
    case MultistrikeEffect(_, _, _) => Some(Multistrike)
    case OneHitKoEffect => Some(OneHitKo)
    case RandomMoveEffect => Some(RandomMove)
    case RecoilEffect(_) => Some(Recoil)
    case RecoverHpEffect(_) => Some(RecoverHp)
    case SelfdestructEffect => Some(Selfdestruct)
    case StatChangeEffect(_, _, _, _) => Some(StatChange)
    case StatChangeResetEffect => Some(StatChangeReset)
    case TypeChangeEffect => Some(TypeChange)
    case UnimplementedEffect(name) =>
      if name == "DamageReduction" then Some(DamageReduction)
      else if name == "Fixated" then Some(Fixated)
      else if name == "LeechSeed" then Some(LeechSeed)
      else if name == "Status" then Some(EffectKind.Status)
      else if name == "Transform" then Some(Transform)
      else None
  }

  /** The effect an effect record configures for `move` (`CreateEffect`). A record without
      an effect type is refused as unknown; one that lacks a field its type requires is
      refused as invalid. */
  function CreateEffect(r: EffectRecord, move: Move): (e: Result<Effect>)
    ensures r.effectType.None? ==> e == Failure(UnknownEffectType)
    ensures r.effectType.Some? ==>
              && (e.Success? <==> Complete(r.effectType.value, r, move))
              && (e.Failure? ==> e.error == MissingField(r.effectType.value))
  {
    match r.effectType
    case None => Failure(UnknownEffectType)
    case Some(kind) =>
      match kind
      case ChargingTurn =>
        if r.semiInvulnerableTurn.None? then Failure(MissingField(kind))
        else Success(ChargingTurnEffect(r.semiInvulnerableTurn.value))
      case CopyMove =>
        if r.replace.None? then Failure(MissingField(kind))
        else Success(CopyMoveEffect(r.replace.value))
      case CounterDamage => Success(CounterDamageEffect(move.category))
      case CutHalfHp => Success(CutHalfHpEffect)
      case Damage =>
        if move.power.None? || r.criticalRatio.None? then Failure(MissingField(kind))
        else Success(DamageEffect(r.criticalRatio.value))
      case DamageReduction =>
        if r.affectedStat.None? || r.duration.None? then Failure(MissingField(kind))
        else Success(UnimplementedEffect("DamageReduction"))
      case Disable => Success(DisableEffect)
      case Drain => Success(DrainEffect(r.percent))
      case Fixated =>
        if r.minHits.None? || r.maxHits.None? then Failure(MissingField(kind))
        else Success(UnimplementedEffect("Fixated"))
      case FixedDamage => Success(FixedDamageEffect(r.fixedPower))
      case LeechSeed => Success(UnimplementedEffect("LeechSeed"))
      case Multistrike =>
        if r.minHits.None? || r.maxHits.None? || r.criticalRatio.None? || move.power.None? then Failure(MissingField(kind))
        else Success(MultistrikeEffect(r.criticalRatio.value, r.minHits.value, r.maxHits.value))
      case OneHitKo => Success(OneHitKoEffect)
      case RandomMove => Success(RandomMoveEffect)
      case Recoil => Success(RecoilEffect(r.percent))
      case RecoverHp => Success(RecoverHpEffect(r.percent))
      case Selfdestruct => Success(SelfdestructEffect)
      case StatChange =>
        if r.target.None? || r.stages.None? || r.affectedStat.None? then Failure(MissingField(kind))
        else Success(StatChangeEffect(r.target.value, r.chance, r.stages.value, r.affectedStat.value))
      case StatChangeReset => Success(StatChangeResetEffect)
      case Status =>
        if r.target.None? || r.status.None? then Failure(MissingField(kind))
        else Success(UnimplementedEffect("Status"))
      case Transform => Success(UnimplementedEffect("Transform"))
      case TypeChange => Success(TypeChangeEffect)
  }

  /** A built effect has the type its record names. */
  lemma CreatedKind(r: EffectRecord, move: Move)
    requires CreateEffect(r, move).Success?
    ensures KindOf(CreateEffect(r, move).value) == r.effectType
  {
  }

  /** A record with only the effect type set. */
  function Bare(kind: EffectKind): EffectRecord {
    EffectRecord(Some(kind), None, None, None, None, 0, None, None, None, None, None, None, None, None)
  }

  /** The record an implemented effect is written as. */
  function Describe(e: Effect): EffectRecord
    requires !e.UnimplementedEffect?
  {
    match e
    case ChargingTurnEffect(semi) => Bare(ChargingTurn).(semiInvulnerableTurn := Some(semi))
    case CopyMoveEffect(replace) => Bare(CopyMove).(replace := Some(replace))
    case CounterDamageEffect(_) => Bare(CounterDamage)
    case CutHalfHpEffect => Bare(CutHalfHp)
    case DamageEffect(ratio) => Bare(Damage).(criticalRatio := Some(ratio))
    case DisableEffect => Bare(Disable)
    case DrainEffect(percent) => Bare(Drain).(percent := percent)
    case FixedDamageEffect(power) => Bare(FixedDamage).(fixedPower := power)
    case MultistrikeEffect(ratio, lo, hi) => Bare(Multistrike).(criticalRatio := Some(ratio), minHits := Some(lo), maxHits := Some(hi))
    case OneHitKoEffect => Bare(OneHitKo)
    case RandomMoveEffect => Bare(RandomMove)
    case RecoilEffect(percent) => Bare(Recoil).(percent := percent)
    case RecoverHpEffect(percent) => Bare(RecoverHp).(percent := percent)
    case SelfdestructEffect => Bare(Selfdestruct)
    case StatChangeEffect(target, chance, stages, stat) =>
      Bare(StatChange).(target := Some(target), chance := chance, stages := Some(stages), affectedStat := Some(stat))
    case StatChangeResetEffect => Bare(StatChangeReset)
    case TypeChangeEffect => Bare(TypeChange)
  }

  /** Which effects a move can be configured with: a counter takes the move's own category,
      and the damaging effects need a move with a power. */
  predicate Configurable(e: Effect, move: Move) {
    && !e.UnimplementedEffect?
    && (e.CounterDamageEffect? ==> e.category == move.category)
    && (e.DamageEffect? || e.MultistrikeEffect? ==> move.power.Some?)
  }

  /** Writing a configurable effect as a record and building it again gives it back. */
  lemma DescribeThenCreate(e: Effect, move: Move)
    requires Configurable(e, move)
    ensures CreateEffect(Describe(e), move) == Success(e)
  {
  }

  /** A counter always takes the category of the move it belongs to, whatever the record
      says otherwise. */
  lemma CounterTakesMoveCategory(r: EffectRecord, move: Move)
    requires r.effectType == Some(CounterDamage)
    ensures CreateEffect(r, move) == Success(CounterDamageEffect(move.category))
  {
  }

  /** The effects of an effect list, or the refusal of the first record that fails (the
      records are built one by one, in order, and the first exception ends the load). */
  function CreateEffects(rs: seq<EffectRecord>, move: Move): (r: Result<seq<Effect>>)
    ensures r.Success? ==> |r.value| == |rs|
    ensures r.Success? ==> forall i :: 0 <= i < |rs| ==> CreateEffect(rs[i], move) == Success(r.value[i])
    ensures r.Failure? ==> exists i :: 0 <= i < |rs| && CreateEffect(rs[i], move) == Failure(r.error)
                                       && forall j :: 0 <= j < i ==> CreateEffect(rs[j], move).Success?
  {
    if rs == [] then Success([])
    else match CreateEffect(rs[0], move)
      case Failure(err) => Failure(err)
      case Success(e) =>
        match CreateEffects(rs[1..], move)
        case Failure(err) =>
          assert forall j :: 1 <= j < |rs| ==> rs[j] == rs[1..][j - 1];
          Failure(err)
        case Success(es) =>
          assert forall j :: 1 <= j < |rs| ==> rs[j] == rs[1..][j - 1];
          Success([e] + es)
  }

  /** The effect lists that load are exactly those whose every record loads. */
  lemma {:induction false} CreateEffectsSucceeds(rs: seq<EffectRecord>, move: Move)
    ensures CreateEffects(rs, move).Success? <==> forall i :: 0 <= i < |rs| ==> CreateEffect(rs[i], move).Success?
  {
    if rs != [] {
      CreateEffectsSucceeds(rs[1..], move);
      assert forall j :: 1 <= j < |rs| ==> rs[j] == rs[1..][j - 1];
    }
  }

  /** The move a move record defines (`MapMove`): its fields copied unchanged and its
      effects built in record order for this very move. */
  function MapMove(r: MoveRecord): (m: Result<Move>)
    ensures m.Success? ==>
              && m.value.name == r.name && m.value.moveType == r.moveType && m.value.category == r.category
              && m.value.power == r.power && m.value.accuracy == r.accuracy && m.value.pp == r.pp
              && m.value.priority == r.priority && m.value.target == r.target
              && |m.value.effects| == |r.effects|
              && forall i :: 0 <= i < |r.effects| ==> CreateEffect(r.effects[i], m.value) == Success(m.value.effects[i])
    ensures m.Failure? <==> exists i :: 0 <= i < |r.effects| && CreateEffect(r.effects[i], Shell(r)).Failure?
  {
    var shell := Shell(r);
    CreateEffectsSucceeds(r.effects, shell);
    match CreateEffects(r.effects, shell)
    case Failure(err) => Failure(err)
    case Success(es) =>
      var m := shell.(effects := es);
      ShellSuffices(r.effects, shell, m);
      Success(m)
  }

  /** The move of a record before its effects are added. */
  function Shell(r: MoveRecord): Move {
    Move(r.name, r.moveType, r.category, r.power, r.accuracy, r.pp, r.priority, r.target, [])
  }

  /** Building an effect reads only the move's category and power. */
  lemma ShellSuffices(rs: seq<EffectRecord>, shell: Move, m: Move)
    requires m.category == shell.category && m.power == shell.power
    ensures forall i :: 0 <= i < |rs| ==> CreateEffect(rs[i], m) == CreateEffect(rs[i], shell)
  {
  }

  /** A move's effects are refused exactly when one of its records is refused. */
  lemma MapMoveFailsIff(r: MoveRecord)
    ensures MapMove(r).Failure? <==> exists i :: 0 <= i < |r.effects| && CreateEffect(r.effects[i], Shell(r)).Failure?
  {
  }

  /** ASCII letters to upper case, the rest unchanged: how move names are compared. */
  function Upper(c: char): char {
    if 'a' <= c <= 'z' then (c as int - 'a' as int + 'A' as int) as char else c
  }

  function Fold(s: string): (r: string)
    ensures |r| == |s| && forall i :: 0 <= i < |s| ==> r[i] == Upper(s[i])
  {
    if s == [] then [] else [Upper(s[0])] + Fold(s[1..])
  }

  /** Folding twice is folding once. */
  lemma FoldIdempotent(s: string)
    ensures Fold(Fold(s)) == Fold(s)
  {
  }

  /** The move index, keyed by folded name (`ToDictionary` with an ordinal case-insensitive
      comparer): each record is mapped in turn and added under its name, and a name that is
      already present, up to case, is refused. */
  function IndexMoves(rs: seq<MoveRecord>): (r: Result<map<string, Move>>)
    ensures r.Success? ==> forall i :: 0 <= i < |rs| ==> Fold(rs[i].name) in r.value
    ensures r.Success? ==> forall i :: 0 <= i < |rs| ==> MapMove(rs[i]) == Success(r.value[Fold(rs[i].name)])
    decreases |rs|
  {
    if rs == [] then Success(map[])
    else
      var init := rs[..|rs| - 1];
      assert forall i :: 0 <= i < |init| ==> init[i] == rs[i];
      match IndexMoves(init)
      case Failure(err) => Failure(err)
      case Success(idx) => AddMove(idx, rs[|rs| - 1])
  }

  /** The moves of the records in record order: the order in which the dictionary built by
      `ToDictionary` lists its values, and so the order of Metronome's pool. */
  function Catalogue(rs: seq<MoveRecord>): (c: seq<Move>)
    requires forall i :: 0 <= i < |rs| ==> MapMove(rs[i]).Success?
    ensures |c| == |rs| && forall i :: 0 <= i < |rs| ==> Success(c[i]) == MapMove(rs[i])
  {
    if rs == [] then [] else [MapMove(rs[0]).value] + Catalogue(rs[1..])
  }

  /** A loaded index holds as many moves as there are records, and the catalogue lists them
      in record order: its `i`-th move is the one stored under the `i`-th record's name, and
      every stored move appears in it. */
  lemma CatalogueIndexed(rs: seq<MoveRecord>)
    requires IndexMoves(rs).Success?
    ensures forall i :: 0 <= i < |rs| ==> MapMove(rs[i]).Success?
    ensures var idx, c := IndexMoves(rs).value, Catalogue(rs);
            && |c| == |idx|
            && (forall i :: 0 <= i < |rs| ==> c[i] == idx[Fold(rs[i].name)])
            && (forall k :: k in idx ==> exists i :: 0 <= i < |rs| && c[i] == idx[k])
  {
    IndexContents(rs);
    LoadedNamesDistinct(rs);
    DistinctNamesCount(rs);
    var idx, c := IndexMoves(rs).value, Catalogue(rs);
    assert |idx| == |idx.Keys|;
    forall k | k in idx ensures exists i :: 0 <= i < |rs| && c[i] == idx[k] {
      assert k in Names(rs);
      var i :| 0 <= i < |rs| && Fold(rs[i].name) == k;
      assert c[i] == idx[k];
    }
  }

  /** Records whose names are distinct up to case have as many folded names as records. */
  lemma {:induction false} DistinctNamesCount(rs: seq<MoveRecord>)
    requires DistinctNames(rs)
    ensures |Names(rs)| == |rs|
    decreases |rs|
  {
    if rs != [] {
      var init := rs[..|rs| - 1];
      assert DistinctNames(init) by {
        forall i, j | 0 <= i < j < |init| ensures Fold(init[i].name) != Fold(init[j].name) {
          assert init[i] == rs[i] && init[j] == rs[j];
        }
      }
      DistinctNamesCount(init);
      NamesSplit(rs);
      forall i | 0 <= i < |init| ensures Fold(init[i].name) != Fold(rs[|rs| - 1].name) {
        assert init[i] == rs[i];
      }
    }
  }

  /** One step of the index: the record is mapped, then added under its folded name unless
      that name is already present. */
  function AddMove(idx: map<string, Move>, r: MoveRecord): (res: Result<map<string, Move>>)
    ensures res.Success? <==> MapMove(r).Success? && Fold(r.name) !in idx
    ensures res.Success? ==> res.value == idx[Fold(r.name) := MapMove(r).value]
  {
    match MapMove(r)
    case Failure(err) => Failure(err)
    case Success(m) =>
      if Fold(r.name) in idx then Failure(DuplicateMove(r.name))
      else Success(idx[Fold(r.name) := m])
  }

  /** A loaded index holds exactly the folded names of the records, and under each record's
      name the move that record maps to. */
  lemma {:induction false} IndexContents(rs: seq<MoveRecord>)
    requires IndexMoves(rs).Success?
    ensures IndexMoves(rs).value.Keys == Names(rs)
    ensures forall i :: 0 <= i < |rs| ==> MapMove(rs[i]) == Success(IndexMoves(rs).value[Fold(rs[i].name)])
    decreases |rs|
  {
    if rs != [] {
      var init, last := rs[..|rs| - 1], rs[|rs| - 1];
      assert rs == init + [last];
      IndexStep(rs);
      IndexContents(init);
      NamesSplit(rs);
      IndexEntries(init, last, IndexMoves(init).value);
    }
  }

  /** Every entry of `init + [last]`, once `idx` indexes `init` and `last` is added under a
      new name. */
  lemma IndexEntries(init: seq<MoveRecord>, last: MoveRecord, idx: map<string, Move>)
    requires MapMove(last).Success? && Fold(last.name) !in idx && idx.Keys == Names(init)
    requires forall j :: 0 <= j < |init| ==> MapMove(init[j]) == Success(idx[Fold(init[j].name)])
    ensures var rs, r := init + [last], idx[Fold(last.name) := MapMove(last).value];
            forall i :: 0 <= i < |rs| ==> MapMove(rs[i]) == Success(r[Fold(rs[i].name)])
  {
    forall i | 0 <= i < |init + [last]|
      ensures MapMove((init + [last])[i]) == Success(idx[Fold(last.name) := MapMove(last).value][Fold((init + [last])[i].name)])
    {
      IndexEntry(init, last, idx, i);
    }
  }

  /** The entry of record `i` of `init + [last]`, once `idx` indexes `init` and `last` is
      added under a new name. */
  lemma IndexEntry(init: seq<MoveRecord>, last: MoveRecord, idx: map<string, Move>, i: int)
    requires 0 <= i <= |init| && MapMove(last).Success? && Fold(last.name) !in idx && idx.Keys == Names(init)
    requires forall j :: 0 <= j < |init| ==> MapMove(init[j]) == Success(idx[Fold(init[j].name)])
    ensures var rs := init + [last];
            MapMove(rs[i]) == Success(idx[Fold(last.name) := MapMove(last).value][Fold(rs[i].name)])
  {
    var rs := init + [last];
    var key := Fold(last.name);
    var r := idx[key := MapMove(last).value];
    if i < |init| {
      var k := Fold(init[i].name);
      assert rs[i] == init[i];
      assert k in Names(init);
      assert k != key && r[k] == idx[k];
    } else {
      assert rs[i] == last;
    }
  }

  /** The index of a non-empty list is the index of all but its last record, with the last
      one added under a name not yet present. */
  lemma IndexStep(rs: seq<MoveRecord>)
    requires rs != [] && IndexMoves(rs).Success?
    ensures var init, last := rs[..|rs| - 1], rs[|rs| - 1];
            && IndexMoves(init).Success? && MapMove(last).Success? && Fold(last.name) !in IndexMoves(init).value
            && IndexMoves(rs).value == IndexMoves(init).value[Fold(last.name) := MapMove(last).value]
  {
  }

  /** The folded names of a list of move records. */
  ghost function Names(rs: seq<MoveRecord>): set<string> {
    set i | 0 <= i < |rs| :: Fold(rs[i].name)
  }

  lemma NamesSplit(rs: seq<MoveRecord>)
    requires rs != []
    ensures Names(rs) == Names(rs[..|rs| - 1]) + {Fold(rs[|rs| - 1].name)}
  {
    var init := rs[..|rs| - 1];
    forall k | k in Names(rs) ensures k in Names(init) + {Fold(rs[|rs| - 1].name)} {
      var i :| 0 <= i < |rs| && Fold(rs[i].name) == k;
      if i < |init| {
        assert init[i] == rs[i];
      }
    }
    forall k | k in Names(init) ensures k in Names(rs) {
      var i :| 0 <= i < |init| && Fold(init[i].name) == k;
      assert rs[i] == init[i];
    }
  }

  /** Two names equal up to case find the same move. */
  lemma LookupIgnoresCase(idx: map<string, Move>, s: string, t: string)
    requires Fold(s) == Fold(t)
    ensures Lookup(idx, s) == Lookup(idx, t)
  {
  }

  /** A move of the index by name, compared up to case (`TryGetValue`). */
  function Lookup(idx: map<string, Move>, name: string): (r: Option<Move>)
    ensures r.Some? <==> Fold(name) in idx
    ensures r.Some? ==> r.value == idx[Fold(name)]
  {
    if Fold(name) in idx then Some(idx[Fold(name)]) else None
  }

  /** Every move loaded into the index is found again under its own name, in any case. */
  lemma IndexFindsEveryMove(rs: seq<MoveRecord>, i: int, name: string)
    requires IndexMoves(rs).Success? && 0 <= i < |rs| && Fold(name) == Fold(rs[i].name)
    ensures MapMove(rs[i]).Success? && Lookup(IndexMoves(rs).value, name) == Some(MapMove(rs[i]).value)
  {
    IndexContents(rs);
    assert Fold(rs[i].name) in Names(rs);
  }

  /** No two names of the records are equal up to case. */
  ghost predicate DistinctNames(rs: seq<MoveRecord>) {
    forall i, j :: 0 <= i < j < |rs| ==> Fold(rs[i].name) != Fold(rs[j].name)
  }

  /** The index loads exactly when every record maps and no two names are equal up to case. */
  lemma IndexMovesSucceeds(rs: seq<MoveRecord>)
    ensures IndexMoves(rs).Success? <==> (forall i :: 0 <= i < |rs| ==> MapMove(rs[i]).Success?) && DistinctNames(rs)
  {
    if IndexMoves(rs).Success? {
      IndexContents(rs);
      LoadedNamesDistinct(rs);
    } else if forall i :: 0 <= i < |rs| ==> MapMove(rs[i]).Success? {
      if DistinctNames(rs) {
        DistinctNamesLoad(rs);
      }
    }
  }

  lemma {:induction false} LoadedNamesDistinct(rs: seq<MoveRecord>)
    requires IndexMoves(rs).Success?
    ensures DistinctNames(rs)
    decreases |rs|
  {
    if rs != [] {
      var init := rs[..|rs| - 1];
      LoadedNamesDistinct(init);
      LastNameNew(rs);
      forall i, j | 0 <= i < j < |rs| ensures Fold(rs[i].name) != Fold(rs[j].name) {
        if j < |rs| - 1 {
          assert rs[i] == init[i] && rs[j] == init[j];
        }
      }
    }
  }

  /** The last record of a loaded index has a name none of the earlier ones has. */
  lemma LastNameNew(rs: seq<MoveRecord>)
    requires rs != [] && IndexMoves(rs).Success?
    ensures IndexMoves(rs[..|rs| - 1]).Success?
    ensures forall i :: 0 <= i < |rs| - 1 ==> Fold(rs[i].name) != Fold(rs[|rs| - 1].name)
  {
    var init, last := rs[..|rs| - 1], rs[|rs| - 1];
    assert IndexMoves(init).Success? && Fold(last.name) !in IndexMoves(init).value;
    IndexContents(init);
    forall i | 0 <= i < |init| ensures Fold(rs[i].name) != Fold(last.name) {
      assert rs[i] == init[i];
      assert Fold(init[i].name) in Names(init);
    }
  }

  lemma {:induction false} DistinctNamesLoad(rs: seq<MoveRecord>)
    requires forall i :: 0 <= i < |rs| ==> MapMove(rs[i]).Success?
    requires DistinctNames(rs)
    ensures IndexMoves(rs).Success?
    decreases |rs|
  {
    if rs != [] {
      var init, last := rs[..|rs| - 1], rs[|rs| - 1];
      assert forall i :: 0 <= i < |init| ==> rs[i] == init[i];
      assert DistinctNames(init) by {
        forall i, j | 0 <= i < j < |init| ensures Fold(init[i].name) != Fold(init[j].name) {
          assert Fold(rs[i].name) != Fold(rs[j].name);
        }
      }
      DistinctNamesLoad(init);
      IndexContents(init);
      forall k | k in Names(init) ensures k != Fold(last.name) {
        var i :| 0 <= i < |init| && Fold(init[i].name) == k;
        assert Fold(rs[i].name) != Fold(rs[|rs| - 1].name);
      }
      assert MapMove(rs[|rs| - 1]).Success?;
    }
  }

  /** The moves a species names, resolved in order; the first name that is not defined
      stops the load, naming both the species and the move. */
  function ResolveMoves(species: string, names: seq<string>, idx: map<string, Move>): (r: Result<seq<Move>>)
    ensures r.Success? ==> |r.value| == |names| && forall k :: 0 <= k < |names| ==> Lookup(idx, names[k]) == Some(r.value[k])
    ensures r.Failure? ==> exists k :: 0 <= k < |names| && r.error == UnknownMove(species, names[k])
                                       && Lookup(idx, names[k]).None?
                                       && forall j :: 0 <= j < k ==> Lookup(idx, names[j]).Some?
  {
    if names == [] then Success([])
    else match Lookup(idx, names[0])
      case None => Failure(UnknownMove(species, names[0]))
      case Some(m) =>
        assert forall j :: 1 <= j < |names| ==> names[j] == names[1..][j - 1];
        match ResolveMoves(species, names[1..], idx)
        case Failure(err) => Failure(err)
        case Success(ms) => Success([m] + ms)
  }

  /** The names resolve exactly when every one of them is defined. */
  lemma {:induction false} ResolveMovesSucceeds(species: string, names: seq<string>, idx: map<string, Move>)
    ensures ResolveMoves(species, names, idx).Success? <==> forall k :: 0 <= k < |names| ==> Fold(names[k]) in idx
  {
    if names != [] {
      ResolveMovesSucceeds(species, names[1..], idx);
      assert forall j :: 1 <= j < |names| ==> names[j] == names[1..][j - 1];
    }
  }

  /** The base stats of a species record, the special stats renamed. */
  function MapStats(s: StatsRecord): BaseStats {
    BaseStats(s.hp, s.attack, s.defense, s.specialAttack, s.specialDefense, s.speed)
  }

  function StatsOf(b: BaseStats): StatsRecord {
    StatsRecord(b.hp, b.attack, b.defense, b.spAttack, b.spDefense, b.speed)
  }

  /** The stat mapping is a bijection: it loses nothing and adds nothing. */
  lemma MapStatsBijective(s: StatsRecord, b: BaseStats)
    ensures StatsOf(MapStats(s)) == s && MapStats(StatsOf(b)) == b
    ensures MapStats(s).spAttack == s.specialAttack && MapStats(s).spDefense == s.specialDefense
  {
  }

  /** `p` is the species record `r` with its moves resolved through `idx`. */
  ghost predicate Built(p: Pokemon, r: SpeciesRecord, idx: map<string, Move>)
    reads p.types
  {
    && p.id == r.id && p.name == r.name && p.types.items == r.types
    && p.baseStats == MapStats(r.baseStats)
    && ResolveMoves(r.name, r.moves, idx) == Success(p.moves)
  }

  /** The species of the species records (`LoadPokemons`, after decoding), in record order,
      each with a type list of its own. The first record naming an undefined move stops the
      load with that species and move. */
  method LoadPokemons(rs: seq<SpeciesRecord>, idx: map<string, Move>) returns (r: Result<seq<Pokemon>>)
    ensures r.Success? <==> forall i :: 0 <= i < |rs| ==> ResolveMoves(rs[i].name, rs[i].moves, idx).Success?
    ensures r.Success? ==> |r.value| == |rs|
    ensures r.Success? ==> forall i :: 0 <= i < |rs| ==> fresh(r.value[i].types) && Built(r.value[i], rs[i], idx)
    ensures r.Failure? ==> exists i :: 0 <= i < |rs| && ResolveMoves(rs[i].name, rs[i].moves, idx) == Failure(r.error)
                                       && forall j :: 0 <= j < i ==> ResolveMoves(rs[j].name, rs[j].moves, idx).Success?
  {
    var result: seq<Pokemon> := [];
    var i := 0;
    while i < |rs|
      invariant 0 <= i <= |rs| && |result| == i
      invariant forall k :: 0 <= k < i ==> ResolveMoves(rs[k].name, rs[k].moves, idx).Success?
      invariant forall k :: 0 <= k < i ==> fresh(result[k].types) && Built(result[k], rs[k], idx)
    {
      var dto := rs[i];
      var moves := ResolveMoves(dto.name, dto.moves, idx);
      if moves.Failure? {
        return Failure(moves.error);
      }
      var types := new TypeList(dto.types);
      result := result + [Pokemon(dto.id, dto.name, types, MapStats(dto.baseStats), moves.value)];
      i := i + 1;
    }
    r := Success(result);
  }
}
