/** A trainer: a roster of combatants, the active one, the locked choice of a multi-turn
    move, and the decisions of a computer or a console player. A decision reads the trainer's
    `feed`: for a computer the raw outputs of the generator it creates for each draw, for a
    player the console lines, each already read as an integer (a line that is not a number is
    any integer outside the menu). */
module Trainers {
  import opened Numerics
  import opened Models
  import opened Stats
  import opened Combatants

  datatype TrainerKind = Computer | Player

  /** The result of a selection loop over a feed: the index chosen and how many feed values
      it consumed, the exception it raised, or the feed ran out before the loop exited. */
  datatype Selection = Selected(index: nat, consumed: nat) | Faulted(fault: Fault) | Exhausted

  function Later(s: Selection, k: nat): Selection {
    if s.Selected? then Selected(s.index, s.consumed + k) else s
  }

  function SelectionOutcome(s: Selection): Outcome {
    match s
    case Selected(_, _) => Ok
    case Faulted(f) => Crash(f)
    case Exhausted => Stuck
  }

  /** The computer's move loop: draw an index in [0, count) until it names a usable move. */
  function ComputerMovePick(ms: seq<BattleMove>, feed: seq<int>): (s: Selection)
    reads ms
    ensures s.Selected? ==> s.index < |ms| && ms[s.index].CanBeUsed() && 1 <= s.consumed <= |feed|
    ensures s.Faulted? <==> |ms| == 0 && |feed| > 0
    decreases |feed|
  {
    if |feed| == 0 then Exhausted
    else if |ms| == 0 then Faulted(IndexOutOfRange)
    else if ms[Pick(feed[0], 0, |ms|)].CanBeUsed() then Selected(Pick(feed[0], 0, |ms|), 1)
    else Later(ComputerMovePick(ms, feed[1..]), 1)
  }

  /** The player's move prompt: read lines until one is in [1, count] and names a usable move. */
  function PlayerMovePick(ms: seq<BattleMove>, lines: seq<int>): (s: Selection)
    reads ms
    ensures s.Selected? ==> s.index < |ms| && ms[s.index].CanBeUsed() && 1 <= s.consumed <= |lines|
    ensures !s.Faulted?
    decreases |lines|
  {
    if |lines| == 0 then Exhausted
    else if 1 <= lines[0] <= |ms| && ms[lines[0] - 1].CanBeUsed() then Selected(lines[0] - 1, 1)
    else Later(PlayerMovePick(ms, lines[1..]), 1)
  }

  function MovePick(kind: TrainerKind, ms: seq<BattleMove>, feed: seq<int>): (s: Selection)
    reads ms
    ensures s.Selected? ==> s.index < |ms| && ms[s.index].CanBeUsed() && 1 <= s.consumed <= |feed|
  {
    if kind == Computer then ComputerMovePick(ms, feed) else PlayerMovePick(ms, feed)
  }

  /** The player's two-way menu: read lines until one is 1 (fight) or 2 (switch). */
  function MenuPick(lines: seq<int>): (s: Selection)
    ensures s.Selected? ==> 1 <= s.index <= 2 && 1 <= s.consumed <= |lines|
    ensures !s.Faulted?
    decreases |lines|
  {
    if |lines| == 0 then Exhausted
    else if 1 <= lines[0] <= 2 then Selected(lines[0], 1)
    else Later(MenuPick(lines[1..]), 1)
  }

  /** The switch decision among `count` candidates: the computer draws an index (and fails on
      an empty list), the player reads lines until one is in [1, count]. */
  function SwitchPick(kind: TrainerKind, count: nat, feed: seq<int>): (s: Selection)
    ensures s.Selected? ==> s.index < count && 1 <= s.consumed <= |feed|
    ensures s.Faulted? <==> kind == Computer && count == 0 && |feed| > 0
    ensures kind == Player && count == 0 ==> s == Exhausted
    decreases |feed|
  {
    if |feed| == 0 then Exhausted
    else if kind == Computer then
      (if count == 0 then Faulted(IndexOutOfRange) else Selected(Pick(feed[0], 0, count), 1))
    else if 1 <= feed[0] <= count then Selected(feed[0] - 1, 1)
    else Later(SwitchPick(kind, count, feed[1..]), 1)
  }

  /** With no usable move the loop never exits: however long the feed, nothing is selected,
      so the computer's draw loop and the player's prompt run forever. */
  lemma {:induction false} NoUsableMoveNeverSelected(kind: TrainerKind, ms: seq<BattleMove>, feed: seq<int>)
    requires |ms| > 0
    requires forall i :: 0 <= i < |ms| ==> !ms[i].CanBeUsed()
    ensures MovePick(kind, ms, feed) == Exhausted
    decreases |feed|
  {
    if |feed| > 0 {
      NoUsableMoveNeverSelected(kind, ms, feed[1..]);
    }
  }

  /** Every usable move can be chosen: by a draw of its index, or by typing its number. */
  lemma UsableMoveReachable(kind: TrainerKind, ms: seq<BattleMove>, i: nat)
    requires i < |ms| && ms[i].CanBeUsed()
    ensures MovePick(kind, ms, if kind == Computer then [i] else [i + 1]) == Selected(i, 1)
  {
  }

  /** The roster entries that are not fainted and not the active one, in roster order. */
  function Candidates(ps: seq<BattlePokemon>, active: BattlePokemon): (r: seq<BattlePokemon>)
    reads ps
    ensures |r| <= |ps|
    ensures forall i :: 0 <= i < |r| ==> r[i] in ps && !r[i].isFainted && r[i] != active
    ensures forall i :: 0 <= i < |ps| && !ps[i].isFainted && ps[i] != active ==> ps[i] in r
  {
    if ps == [] then []
    else (if !ps[0].isFainted && ps[0] != active then [ps[0]] else []) + Candidates(ps[1..], active)
  }
  /** The candidates keep roster order and multiplicity: filtering a concatenation
      concatenates the filtered parts, and a one-member roster keeps its member exactly when
      it is standing and not the active one. */
  lemma {:induction false} CandidatesConcat(xs: seq<BattlePokemon>, ys: seq<BattlePokemon>, active: BattlePokemon)
    ensures Candidates(xs + ys, active) == Candidates(xs, active) + Candidates(ys, active)
    ensures |xs| == 1 ==> Candidates(xs, active) == (if !xs[0].isFainted && xs[0] != active then xs else [])
  {
    if xs == [] {
      Regroup(ys, ys, ys);
    } else {
      var head := if !xs[0].isFainted && xs[0] != active then [xs[0]] else [];
      SplitHead(xs, ys);
      CandidatesConcat(xs[1..], ys, active);
      Regroup(head, Candidates(xs[1..], active), Candidates(ys, active));
    }
  }


  class Trainer {
    const name: string
    const pokemons: seq<BattlePokemon>
    const kind: TrainerKind
    var activePokemon: BattlePokemon
    var lastAction: BattleMove?
    var lockChoice: bool
    var feed: seq<int>

    ghost function Roster(): set<object> {
      set i | 0 <= i < |pokemons| :: pokemons[i]
    }

    /** Starts with the first roster entry active; the program always builds a team of one
        to six combatants. */
    constructor (name: string, pokemons: seq<BattlePokemon>, kind: TrainerKind, feed: seq<int>)
      requires |pokemons| > 0
      ensures this.name == name && this.pokemons == pokemons && this.kind == kind && this.feed == feed
      ensures activePokemon == pokemons[0] && lastAction == null && !lockChoice
    {
      this.name := name;
      this.pokemons := pokemons;
      this.kind := kind;
      this.feed := feed;
      activePokemon := pokemons[0];
      lastAction := null;
      lockChoice := false;
    }

    function GetPokemonToSwitch(): seq<BattlePokemon>
      reads this, pokemons
    {
      Candidates(pokemons, activePokemon)
    }

    predicate CanSwitchPokemon()
      reads this, pokemons
    {
      |GetPokemonToSwitch()| > 0
    }

    /** A switch is possible exactly when some roster entry other than the active one is
        still standing. */
    lemma CanSwitchIff()
      ensures CanSwitchPokemon() <==>
              exists i :: 0 <= i < |pokemons| && !pokemons[i].isFainted && pokemons[i] != activePokemon
    {
      if CanSwitchPokemon() {
        var c := GetPokemonToSwitch()[0];
        var i :| 0 <= i < |pokemons| && pokemons[i] == c;
      }
    }

    /** The trainer has no combatant left standing. */
    predicate HasLost()
      reads this, pokemons
    {
      forall i :: 0 <= i < |pokemons| ==> pokemons[i].isFainted
    }

    /** Once lost, no switch is possible. */
    lemma LostCannotSwitch()
      requires HasLost()
      ensures !CanSwitchPokemon()
    {
      CanSwitchIff();
    }

    /** Resets the incoming combatant and makes it active; the roster, the locked choice and
        the last action stay. */
    method SetActivePokemon(p: BattlePokemon)
      requires p.Valid()
      modifies this, p, p.statStages
      ensures activePokemon == p
      ensures lastAction == old(lastAction) && lockChoice == old(lockChoice) && feed == old(feed)
      ensures p.Valid() && p.statStages.stages == ZeroStages()
      ensures p.types == p.species.types
      ensures FullMoves(p.moves, p.species.moves) && forall i :: 0 <= i < |p.moves| ==> fresh(p.moves[i])
      ensures !p.isInvulnerable && !p.isCharging && !p.isRecharging
      ensures p.currentHp == old(p.currentHp) && p.isFainted == old(p.isFainted)
    {
      p.SwitchedOut();
      activePokemon := p;
    }

    /** The move loop of the trainer's kind over its feed. */
    method ChooseMove() returns (out: Outcome, move: BattleMove?)
      modifies this`feed
      ensures var s := MovePick(kind, activePokemon.moves, old(feed));
              && out == SelectionOutcome(s)
              && (s.Selected? ==> move == activePokemon.moves[s.index] && feed == old(feed)[s.consumed..])
      ensures out.Ok? ==> move != null && move in activePokemon.moves && move.CanBeUsed()
    {
      var ms := activePokemon.moves;
      ghost var f0 := feed;
      var k := 0;
      move := null;
      assert f0[0..] == f0;
      while k < |feed|
        invariant 0 <= k <= |feed| && feed == f0
        invariant MovePick(kind, ms, f0) == Later(MovePick(kind, ms, f0[k..]), k)
        decreases |feed| - k
      {
        var raw := feed[k];
        assert f0[k..][0] == raw && f0[k..][1..] == f0[k + 1..];
        if kind == Computer {
          var index := Pick(raw, 0, |ms|);
          if |ms| == 0 {
            return Crash(IndexOutOfRange), null;
          }
          if ms[index].CanBeUsed() {
            assert ComputerMovePick(ms, f0[k..]) == Selected(index, 1);
            feed := feed[k + 1..];
            return Ok, ms[index];
          }
        } else if 1 <= raw <= |ms| && ms[raw - 1].CanBeUsed() {
          assert PlayerMovePick(ms, f0[k..]) == Selected(raw - 1, 1);
          feed := feed[k + 1..];
          return Ok, ms[raw - 1];
        }
        k := k + 1;
      }
      out := Stuck;
    }

    /** The switch decision over the roster's candidates. */
    method SwitchPokemon() returns (out: Outcome, p: BattlePokemon?)
      modifies this`feed
      ensures var s := SwitchPick(kind, |GetPokemonToSwitch()|, old(feed));
              && out == SelectionOutcome(s)
              && (s.Selected? ==> p == GetPokemonToSwitch()[s.index] && feed == old(feed)[s.consumed..])
      ensures out.Ok? ==> p != null && p in pokemons && !p.isFainted && p != activePokemon
    {
      var candidates := GetPokemonToSwitch();
      ghost var f0 := feed;
      var k := 0;
      p := null;
      assert f0[0..] == f0;
      while k < |feed|
        invariant 0 <= k <= |feed| && feed == f0
        invariant SwitchPick(kind, |candidates|, f0) == Later(SwitchPick(kind, |candidates|, f0[k..]), k)
        decreases |feed| - k
      {
        var raw := feed[k];
        assert f0[k..][0] == raw && f0[k..][1..] == f0[k + 1..];
        if kind == Computer {
          if |candidates| == 0 {
            return Crash(IndexOutOfRange), null;
          }
          feed := feed[k + 1..];
          return Ok, candidates[Pick(raw, 0, |candidates|)];
        } else if 1 <= raw <= |candidates| {
          feed := feed[k + 1..];
          return Ok, candidates[raw - 1];
        }
        k := k + 1;
      }
      out := Stuck;
    }

    /** The action for this turn: the locked last action, a switch (`null`: only a player who
        can switch and picks it from the menu), or a usable move of the active combatant. */
    method ChooseAction() returns (out: Outcome, action: BattleMove?)
      modifies this`feed
      ensures old(lockChoice) ==> out == Ok && action == old(lastAction) && feed == old(feed)
      ensures !old(lockChoice) && out.Ok? && action != null ==> action in activePokemon.moves && action.CanBeUsed()
      ensures !old(lockChoice) && out.Ok? && action == null ==> kind == Player && CanSwitchPokemon()
      ensures kind == Computer && !old(lockChoice) ==> out == SelectionOutcome(ComputerMovePick(activePokemon.moves, old(feed)))
    {
      if lockChoice {
        return Ok, lastAction;
      }
      if kind == Player && CanSwitchPokemon() {
        var s := MenuPick(feed);
        if s.Exhausted? {
          return Stuck, null;
        }
        feed := feed[s.consumed..];
        if s.index == 2 {
          return Ok, null;
        }
      }
      out, action := ChooseMove();
    }
  }
}
