# Pokémon Stadium battle engine, modelled in Dafny

This project models the battle engine of a console Gen-I / Pokémon Stadium simulator written
in C#. Two trainers each field a team of battle Pokémon. Every round the engine does the following:

- advances the turn counter and ticks down disabled moves;
- replaces fainted active Pokémon;
- asks each trainer for a move or a switch;
- orders the two actions by move priority, then by staged speed, then by a coin flip;
- executes the actions through the move effects, which write to a battle log.

The model covers these parts of the engine:

- the stat-stage tables and the stat formulas;
- the type-effectiveness chart;
- the accuracy, critical-hit and damage calculators;
- the battle Pokémon and battle moves;
- the trainers;
- the shared battle context;
- every implemented move effect;
- the round logic;
- the move/effect loader.

The repository contains two copies of the engine that differ in a few places. The first is the
`PokemonStadiumSrc/` copy, whose battle context holds the two trainers. The second is the
`Battle/` + `Models/` copy, whose context holds the two combatants. A `Variant` field of the
context (`Primary` for the first, `Root` for the second) selects between them. The copies differ
in these places:

- the number of multistrike hits;
- whether a multistrike records its last damage before or after the faint check;
- the extra accuracy roll of Super Fang;
- clearing the last damage after a Status move.

Modelling conventions:

- **Exceptions.** .NET exceptions the engine can raise are results. An operation returns
  `Outcome = Ok | Crash(Fault) | Stuck`. `Fault` names the exception: a division by zero, an index
  out of range, `Last()` on an empty list, `NotImplementedException`, `ArgumentOutOfRangeException`,
  a null dereference, or a stack overflow. `Stuck` is a player prompt that never receives a valid
  answer.
- **Randomness.** The shared `System.Random` is a stream `source: nat -> int` plus a cursor
  `drawn`. `Pick(raw, lo, hi)` maps a raw value into `[lo, hi)`, and `Refresh` installs a new
  stream.
- **Player input.** The console lines a human player types are a `feed` of already-parsed
  integers.
- **Log.** The battle log is a sequence of `LogEntry(turn, message)` values with one constructor
  per message kind.
- **Nesting.** Mirror Move and Metronome nest move uses. A `fuel` argument bounds the nesting, and
  running out of fuel is the stack-overflow crash.
- **Framing.** Each class keeps its own validity predicate. A ghost `world` set frames what a battle
  step may change.

## Model

| member | source | states |
|---|---|---|
| Numerics.Div | Battle/Calculators/DamageCalculator.cs:24-29 | C# integer division: equals Euclidean division for a non-negative dividend and positive divisor, is non-negative when the signs agree, and 0 for a zero dividend |
| Numerics.DivRemainder | Battle/Calculators/DamageCalculator.cs:24-29 | C# division truncates toward zero: the remainder is 0 or has the dividend's sign, and is smaller than the divisor in magnitude |
| Numerics.DivSigns | Battle/Calculators/DamageCalculator.cs:24-29 | negating the dividend or the divisor negates the quotient; -7 / 2 is -3, where Euclidean division gives -4 |
| Numerics.ToByte | Battle/Calculators/DamageCalculator.cs:42 | the `(byte)` cast: result in [0, 256), congruent to the input modulo 256, identity on byte values |
| Numerics.Clamp | Battle/Stats/StatStages.cs:29 | `Math.Clamp`: result within the bounds, the input itself when inside, the nearer bound otherwise |
| Numerics.Min | Battle/Core/BattlePokemon.cs:63 | `Math.Min`: one of the two arguments and at most both |
| Numerics.Trunc | Battle/Calculators/DamageCalculator.cs:35 | the `(int)` cast of a double truncates toward zero for both signs |
| Numerics.Pick | PokemonStadiumSrc/Battle/Core/BattleContext.cs:11 | `Random.Next(lo, hi)` yields a value in [lo, hi), and `lo` for an empty range |
| Numerics.PickCoversRange | PokemonStadiumSrc/Battle/Core/BattleContext.cs:11 | every value of the range is produced by some raw draw |
| Stats.GetMultiplier | Battle/Stats/StatStageMultipliers.cs:8-27 | stage multipliers are hundredths between 25/100 and 400/100, exactly 1 at stage 0, 25 at -6 and 400 at +6 |
| Stats.MultiplierStrictlyIncreasing | Battle/Stats/StatStageMultipliers.cs:12-24 | a higher stage always gives a strictly larger multiplier |
| Stats.MultiplierReciprocalBound | Battle/Stats/StatStageMultipliers.cs:12-24 | raising then lowering by the same stage never gains: the product of the two multipliers is at most 1, exactly 1 only at stages 0, ±2, ±3 and ±6 |
| Stats.GetAccuracyEvasionMultiplier | Battle/Stats/StatStageMultipliers.cs:29-52 | accuracy/evasion multipliers are positive fractions, exactly 1 at stage 0 |
| Stats.EvasionIsNegatedAccuracy | Battle/Stats/StatStageMultipliers.cs:31 | an evasion stage reads the accuracy table at the negated stage |
| Stats.AccuracyStrictlyIncreasing | Battle/Stats/StatStageMultipliers.cs:35-47 | the accuracy table is strictly increasing in the stage |
| Stats.AccuracyScaleMonotone | Battle/Stats/StatStageMultipliers.cs:35-47 | scaling a non-negative value by the accuracy table is monotone in the stage |
| Stats.StatStages.constructor | Battle/Stats/StatStages.cs:8-17 | a new stage vector has all seven stats at stage 0 |
| Stats.StatStages.GetStage | Battle/Stats/StatStages.cs:20-25 | the stored stage of the stat, always within [-6, 6] (every stat is keyed, so the missing-key throw cannot occur) |
| Stats.StatStages.ChangeStat | Battle/Stats/StatStages.cs:26-31 | the stat's stage becomes the clamped sum and every other stat is unchanged |
| Stats.StatStages.Reset | Battle/Stats/StatStages.cs:33-40 | all seven stages become 0 |
| Stats.AllStatsKeyed | Battle/Stats/StatStages.cs:8-17 | the stage vector's key set covers every stat |
| Stats.LogMessageTotal | Battle/Stats/StatStages.cs:42-53 | every stage change has exactly one message, the stat name followed by its tier; a change of 3 or more is "drastic" and of -2 or less "harshly" |
| Stats.UnchangedMessageEnding | Battle/Stats/StatStages.cs:49 | an unchanged stage says "cannot go any higher!" at +6 and otherwise "lover!", with the source's spelling |
| Stats.Calculate | Battle/Stats/StatCalculator.cs:7-18 | each battle stat is computed from its own base stat with the HP or the other-stat formula |
| Stats.StatFormulas | Battle/Stats/StatCalculator.cs:20-24 | the two Gen-I formulas, and the lower bounds level + 10 for HP and 5 for the others |
| Stats.StatsMonotone | Battle/Stats/StatCalculator.cs:20-24 | the stats grow with both base stat and level |
| TypeChart.SingleMultiplierValues | PokemonStadiumSrc/Battle/Calculators/TypeEffectivenessChart.cs:169-177 | a single-type multiplier is one of 0, ½, 1 or 2, and it is 0 exactly for the five immunities of the chart |
| TypeChart.GetMultiplier | PokemonStadiumSrc/Battle/Calculators/TypeEffectivenessChart.cs:157-167 | the loop returns the product of the single multipliers over the defender's types |
| TypeChart.EffectivenessEmpty | PokemonStadiumSrc/Battle/Calculators/TypeEffectivenessChart.cs:159 | a defender with no types takes neutral damage |
| TypeChart.EffectivenessZeroIff | PokemonStadiumSrc/Battle/Calculators/TypeEffectivenessChart.cs:157-177 | the multiplier is 0 exactly when one of the defender's types is immune |
| TypeChart.EffectivenessOrderIndependent | PokemonStadiumSrc/Battle/Calculators/TypeEffectivenessChart.cs:157-167 | the multiplier depends only on the multiset of defender types, not their order |
| TypeChart.EffectivenessTwoTypesRange | PokemonStadiumSrc/Battle/Calculators/TypeEffectivenessChart.cs:157-177 | for one or two defender types the multiplier is one of 0, ¼, ½, 1, 2, 4 |
| TypeChart.EffectivenessNonNegative | PokemonStadiumSrc/Battle/Calculators/TypeEffectivenessChart.cs:157-167 | the multiplier is never negative |
| TypeChart.GetLogMessage | PokemonStadiumSrc/Battle/Calculators/TypeEffectivenessChart.cs:178-188 | no message exactly at 1, "no effect" exactly at 0, "super effective" exactly above 1, "not very effective" exactly strictly between 0 and 1 |
| TypeChart.NoEffectMessageIffImmune | PokemonStadiumSrc/Battle/Calculators/TypeEffectivenessChart.cs:178-188 | the "no effect" line is logged exactly when an immunity applies |
| Calculators.AccuracyThreshold | Battle/Calculators/AccuracyCalculator.cs:14-17 | the staged accuracy threshold always lies in [1, 255] |
| Calculators.AccuracyShortCircuits | Battle/Calculators/AccuracyCalculator.cs:10-12 | self-targeted moves always hit; an invulnerable or fainted defender is always missed; a move without accuracy always hits otherwise |
| Calculators.HitIffRollWithinThreshold | Battle/Calculators/AccuracyCalculator.cs:14-19 | otherwise a move hits exactly when the roll is at most the threshold, so rolls 0 and 1 always hit |
| Calculators.PerfectAccuracyAlwaysHits | Battle/Calculators/AccuracyCalculator.cs:14-19 | a 100-accuracy move at neutral stages hits on every roll (threshold 255 is capped) |
| Calculators.ThresholdMonotoneInAccuracyStage | Battle/Calculators/AccuracyCalculator.cs:15 | raising the attacker's accuracy stage never lowers the threshold |
| Calculators.EvasionStepMonotone | Battle/Calculators/AccuracyCalculator.cs:16 | scaling by an evasion stage and clamping to [1, 255] never reverses the order of two thresholds |
| Calculators.ThresholdAntitoneInEvasionStage | Battle/Calculators/AccuracyCalculator.cs:16 | raising the defender's evasion stage never raises the threshold |
| Calculators.HighRatioOnlyLiftsCap | Battle/Calculators/CriticalHitCalculator.cs:13-18 | the high-ratio threshold differs from the normal one only by lifting the 255 cap, which matters only for base speed above 943 |
| Calculators.CriticalMonotoneInBaseSpeed | Battle/Calculators/CriticalHitCalculator.cs:13-21 | a faster species has at least the critical-hit chance of a slower one on every roll |
| Calculators.ScaleStats | Battle/Calculators/DamageCalculator.cs:24-28 | both stats are quartered when either exceeds 255, otherwise both are kept |
| Calculators.BaseDamage | Battle/Calculators/DamageCalculator.cs:8-29 | the base formula fails exactly when the scaled defense is 0 |
| Calculators.DivideByZeroIff | Battle/Calculators/DamageCalculator.cs:24-29 | the division by zero happens exactly when the defense is 0, or below 4 while the attack exceeds 255 |
| Calculators.SmallDefenseDividesByZero | Battle/Calculators/DamageCalculator.cs:24-29 | concrete case: attack 300 against defense 3 crashes |
| Calculators.RandomizedDamage | Battle/Calculators/DamageCalculator.cs:38-40 | the random factor never takes damage below 1 |
| Calculators.CalculateDamage | Battle/Calculators/DamageCalculator.cs:8-43 | fails exactly when the base formula fails; otherwise a byte, and 0 against an immune defender |
| Calculators.DamageAtLeastOne | Battle/Calculators/DamageCalculator.cs:33-42 | against a non-immune defender damage is at least 1 before the byte cast |
| Calculators.ByteCastWrapsAt256 | Battle/Calculators/DamageCalculator.cs:42 | concrete case: a computed 256 is dealt as 0 |
| Calculators.RandomFactorMonotone | Battle/Calculators/DamageCalculator.cs:38-39 | a larger random factor never lowers damage |
| Calculators.ChanceExtremes | Models/Moves/Effects/IMoveEffect.cs:10-16 | a 100 % chance always occurs, a 0 % chance only on roll 0 |
| Calculators.ChanceMonotone | Models/Moves/Effects/IMoveEffect.cs:10-16 | a larger chance occurs whenever a smaller one does |
| Calculators.RollHits | PokemonStadiumSrc/Models/Moves/Effects/MultistrikeEffect.cs:57-67 | the Gen-I 2–5 hit distribution always yields 2 to 5 hits |
| Calculators.RollHitsTable | PokemonStadiumSrc/Models/Moves/Effects/MultistrikeEffect.cs:59-66 | 2 hits for rolls below 96, 3 below 192, 4 below 224, 5 above; monotone in the roll |
| Combatants.BattleMove.constructor | PokemonStadiumSrc/Battle/Core/BattleMove.cs:18-23 | a new battle move has full PP and is not disabled |
| Combatants.BattleMove.Disable | PokemonStadiumSrc/Battle/Core/BattleMove.cs:83-87 | the move is disabled for the given duration |
| Combatants.BattleMove.UnDisable | PokemonStadiumSrc/Battle/Core/BattleMove.cs:89-94 | the duration drops by one; the move stays disabled exactly while the duration is positive, and the result reports that |
| Combatants.NewMoves | Battle/Core/BattlePokemon.cs:29 | one fresh battle move per move definition, in order |
| Combatants.DisabledAmong | Battle/Core/BattlePokemon.cs:57 | exactly the disabled moves of the list |
| Combatants.DisabledAmongConcat | Battle/Core/BattlePokemon.cs:57 | the filter keeps list order and multiplicity: it distributes over concatenation and keeps a single move exactly when it is disabled |
| Combatants.StagedStatBounds | Battle/Core/BattlePokemon.cs:81-116 | a staged stat is the stat itself at stage 0 and stays between a quarter and four times it |
| Combatants.StagedStatMonotone | Battle/Core/BattlePokemon.cs:81-116 | a higher stage never gives a lower staged stat |
| Combatants.BattlePokemon.constructor | Battle/Core/BattlePokemon.cs:21-34 | stats from the formulas, full HP, neutral stages, the species' types and fresh moves, no flags |
| Combatants.BattlePokemon.SwitchedOut | Battle/Core/BattlePokemon.cs:47-55 | stages reset, types and moves restored from the species, flags cleared, HP and fainted state kept |
| Combatants.BattlePokemon.GetDisabledMoves | Battle/Core/BattlePokemon.cs:57 | exactly the Pokémon's disabled moves |
| Combatants.BattlePokemon.TakeDamage | Battle/Core/BattlePokemon.cs:60-67 | loses the damage capped at the current HP, faints exactly at HP ≤ 0, returns the loss, keeps HP in range |
| Combatants.BattlePokemon.Knockout | Battle/Core/BattlePokemon.cs:68-72 | HP 0 and fainted |
| Combatants.BattlePokemon.RestoreHp | Battle/Core/BattlePokemon.cs:73-79 | gains the amount capped at the missing HP, never exceeds max HP, returns the gain |
| Combatants.BattlePokemon.GettersAtNeutralStages | Battle/Core/BattlePokemon.cs:81-128 | at neutral stages every getter returns the plain stat, and accuracy/evasion return the move accuracy unchanged |
| Trainers.ComputerMovePick | Battle/Trainers/ComputerTrainer.cs:15-23 | a redraw-until-usable pick selects only a usable move and faults only when the move list is empty |
| Trainers.PlayerMovePick | Battle/Trainers/PlayerTrainer.cs:37-57 | the prompt loop selects only a usable move and never faults |
| Trainers.MenuPick | Battle/Trainers/PlayerTrainer.cs:19-33 | the menu loop accepts only option 1 or 2 |
| Trainers.SwitchPick | Battle/Trainers/ComputerTrainer.cs:25-29 | selects an index among the candidates; a computer with no candidate faults, a player with none is stuck |
| Trainers.NoUsableMoveNeverSelected | Battle/Trainers/ComputerTrainer.cs:17-21 | with moves but none usable, neither kind of trainer ever selects: the pick runs out of input |
| Trainers.UsableMoveReachable | Battle/Trainers/PlayerTrainer.cs:48-54 | every usable move can be chosen with a single input |
| Trainers.Candidates | Battle/Trainers/Trainer.cs:26-29 | exactly the non-fainted team members other than the active one |
| Trainers.CandidatesConcat | Battle/Trainers/Trainer.cs:26-29 | the candidates keep roster order and multiplicity: the filter distributes over concatenation and keeps a single entry exactly when it is standing and not active |
| Trainers.Trainer.constructor | Battle/Trainers/Trainer.cs:13-18 | the first team member is active, with no last action and no lock |
| Trainers.Trainer.CanSwitchIff | Battle/Trainers/Trainer.cs:22-29 | switching is possible exactly when some other team member has not fainted |
| Trainers.Trainer.LostCannotSwitch | Battle/Trainers/Trainer.cs:22-29 | a trainer who has lost cannot switch |
| Trainers.Trainer.SetActivePokemon | Battle/Trainers/Trainer.cs:31-35 | the new active Pokémon is switched in: stages reset, types and moves restored, flags cleared, HP kept |
| Trainers.Trainer.ChooseMove | Battle/Trainers/ComputerTrainer.cs:15-23 | the outcome of the trainer's move pick; on success a usable move of the active Pokémon |
| Trainers.Trainer.SwitchPokemon | Battle/Trainers/PlayerTrainer.cs:59-73 | the outcome of the switch pick; on success a non-fainted team member other than the active one |
| Trainers.Trainer.ChooseAction | Battle/Trainers/PlayerTrainer.cs:10-35 | a locked trainer repeats the last action without input; otherwise a usable move, or (players only) a switch that is possible |
| Context.Entries | PokemonStadiumSrc/Battle/Core/BattleContext.cs:27-32 | every logged message is tagged with the current turn, in order |
| Context.MatchupDamage | Battle/Calculators/DamageCalculator.cs:8-43 | damage of the current matchup is a byte, and 0 against an immune defender |
| Context.BattleContext.constructor | PokemonStadiumSrc/Battle/Core/BattleContext.cs:8-17 | turn 0, empty log, no combatants, no last move or damage; the catalogue is the loaded moves in record order |
| Context.BattleContext.Refresh | PokemonStadiumSrc/Battle/Core/BattleContext.cs:20-26 | installs attacker, defender, move and a new random stream; keeps turn, log, last move and damage |
| Context.BattleContext.Log | PokemonStadiumSrc/Battle/Core/BattleContext.cs:27-32 | appends one entry for the current turn |
| Context.BattleContext.Draw | PokemonStadiumSrc/Battle/Core/BattleContext.cs:11 | returns the next value of the stream in range and advances the cursor by one |
| Context.BattleContext.CheckDisabledMoves | PokemonStadiumSrc/Battle/Core/BattleContext.cs:34-45 | each listed move is ticked in list order, once per listing, against the slot states before the call; exactly one "no longer disabled" line, naming the current move, per tick that leaves its move disabled; with no current move, a null-reference crash at the first such tick, after the earlier ticks |
| Context.BattleContext.TickAll | PokemonStadiumSrc/Battle/Core/BattleContext.cs:38-44 | the loop over the disabled moves: the ticks so far follow the snapshot, and the lines written count the ticks that left a move disabled |
| Context.BattleContext.TickStep | PokemonStadiumSrc/Battle/Core/BattleContext.cs:40-43 | one tick: the slot steps from its state after its earlier listings, and a line is written (or the null-reference crash raised) exactly when the move stays disabled |
| Context.BattleContext.NextTurn | PokemonStadiumSrc/Battle/Core/BattleContext.cs:47-55 | turn advances by one; no ticking on the first turn; a crash when ticking without an attacker |
| Context.BattleContext.DoesMoveHit | Battle/Calculators/AccuracyCalculator.cs:8-21 | the accuracy decision on the current stream value, which is consumed only when the roll is needed |
| Context.BattleContext.IsCriticalHit | Battle/Calculators/CriticalHitCalculator.cs:11-24 | the critical decision on the next stream value |
| Context.BattleContext.EffectOccurs | Models/Moves/Effects/IMoveEffect.cs:10-16 | the chance decision on the next stream value, consumed only when there is a chance |
| Context.BattleContext.CalculateDamage | Battle/Calculators/DamageCalculator.cs:8-43 | the damage of the current matchup, a division-by-zero crash exactly when the formula fails, the random roll drawn only for a non-immune defender |
| Effects.Strike | Models/Moves/Effects/DamageEffect.cs:22-27 | the defender loses the damage capped at its HP; received and fainted lines logged when they apply |
| Effects.Opening | Models/Moves/Effects/DamageEffect.cs:16-20 | effectiveness of the matchup and the critical roll, with their log lines |
| Effects.Hit | Models/Moves/Effects/DamageEffect.cs:21-28 | on a division by zero nothing changes; otherwise the defender takes the capped damage and the last damage records it |
| Effects.Damage | Models/Moves/Effects/DamageEffect.cs:14-29 | the whole damaging effect: effectiveness and critical lines, then the capped damage, its lines and the recorded last damage |
| Effects.FixedDamage | PokemonStadiumSrc/Models/Moves/Effects/FixedDamageEffect.cs:14-26 | the fixed power, or the attacker's level when absent, cut to a byte, capped at HP and recorded |
| Effects.HalvingLeavesHp | PokemonStadiumSrc/Models/Moves/Effects/CutHalfHpEffect.cs:16-18 | below 512 HP Super Fang takes exactly half and always leaves at least 1 HP |
| Effects.HalvingWrapsAt512 | PokemonStadiumSrc/Models/Moves/Effects/CutHalfHpEffect.cs:16-18 | concrete cases: the byte cut makes half of 512 HP deal 0 and half of 1023 HP deal 255 |
| Effects.HalvingHits | Models/Moves/Effects/CutHalfHpEffect.cs:11 | the second copy rolls accuracy again and logs a miss; the first copy always proceeds |
| Effects.Halve | PokemonStadiumSrc/Models/Moves/Effects/CutHalfHpEffect.cs:9-19 | an immune defender is untouched; otherwise it loses half its HP (byte-cut, capped) |
| Effects.CutHalfHp | Models/Moves/Effects/CutHalfHpEffect.cs:9-25 | Super Fang in both copies: miss, immune or halving, each with its log lines |
| Effects.OneHitKo | PokemonStadiumSrc/Models/Moves/Effects/OneHitKoEffect.cs:9-18 | an immune defender is untouched; otherwise it is knocked out with both lines |
| Effects.Counter | PokemonStadiumSrc/Models/Moves/Effects/CounterDamageEffect.cs:14-26 | fails without last damage, last move or a matching category; otherwise deals twice the last damage cut to a byte |
| Effects.Drain | Models/Moves/Effects/DrainEffect.cs:13-27 | a full-HP attacker only logs; otherwise it heals the given share of the last damage, capped at max HP |
| Effects.Recoil | Models/Moves/Effects/RecoilEffect.cs:13-23 | the attacker loses the given share of the last damage, byte-cut and capped, when positive |
| Effects.RecoverHp | Models/Moves/Effects/RecoverHpEffect.cs:13-23 | a full-HP attacker only logs; otherwise it heals the share of max HP, capped at max HP |
| Effects.Selfdestruct | PokemonStadiumSrc/Models/Moves/Effects/SelfdestructEffect.cs:8-12 | the attacker faints with HP 0 and the line is logged |
| Effects.StatChange | PokemonStadiumSrc/Models/Moves/Effects/StatChangeEffect.cs:20-46 | on a successful chance roll the targeted side's stage changes (clamped) with its message, the other side untouched; target All crashes as not implemented |
| Effects.Shift | PokemonStadiumSrc/Models/Moves/Effects/StatChangeEffect.cs:39-44 | the target's stage moves by the change, clamped to [-6, 6], every other stage is kept, and one line reports the change |
| Effects.StatChangeReset | Models/Moves/Effects/StatChangeResetEffect.cs:8-13 | both combatants' stages become neutral and the line is logged |
| Effects.Disable | Models/Moves/Effects/DisableEffect.cs:8-26 | fails without a last move; disables it for a drawn duration below 7, or reports it already disabled without drawing |
| Effects.ChargeStepLocksOnEntry | Models/Moves/Effects/ChargingTurnEffect.cs:14-35 | Hyper Beam flips only the recharge flag, other charging moves only the charge flag, and the choice lock follows the flipped flag |
| Effects.ChargeStepTwice | Models/Moves/Effects/ChargingTurnEffect.cs:14-35 | two charging steps restore every flag and leave the lock equal to the original flag |
| Effects.ToggleRecharge | Models/Moves/Effects/ChargingTurnEffect.cs:16-25 | the recharge flag flips, the choice lock equals the new flag, and the recharge line is logged exactly when the flag was set |
| Effects.ToggleCharge | Models/Moves/Effects/ChargingTurnEffect.cs:26-35 | the charge flag flips, the choice lock equals the new flag, and the charging line is logged exactly when the flag becomes set |
| Effects.ChargingTurn | Models/Moves/Effects/ChargingTurnEffect.cs:12-50 | one charging step on the attacker's flags and lock, logging the move's charging text when it enters the state |
| Effects.TypeChange | PokemonStadiumSrc/Models/Moves/Effects/TypeChangeEffect.cs:8-13 | the attacker takes the defender's first type; when both share one type list or it is empty, the list is cleared and the index crash follows |
| Effects.FindIndexByName | Models/Moves/Effects/CopyMoveEffect.cs:19 | the first index with the name, or -1 exactly when none has it |
| Effects.Mimic | Models/Moves/Effects/CopyMoveEffect.cs:16-22 | a random defender move is inserted at Mimic's slot; crashes when the defender has no moves or Mimic is absent |
| Multistrike.PlanHits | PokemonStadiumSrc/Models/Moves/Effects/MultistrikeEffect.cs:23-31 | 2–5 rolls use the Gen-I table; other ranges draw within range in the first copy and are fixed at 2 in the second; an inverted range crashes |
| Multistrike.LandBlow | PokemonStadiumSrc/Models/Moves/Effects/MultistrikeEffect.cs:35-46 | one blow crashes exactly when the damage formula fails, and otherwise counts one strike |
| Multistrike.FailureIgnoresRoll | Battle/Calculators/DamageCalculator.cs:24-39 | whether a blow divides by zero does not depend on its random roll |
| Multistrike.VolleyStrikes | PokemonStadiumSrc/Models/Moves/Effects/MultistrikeEffect.cs:33-47 | the volley never lands more blows than planned and stops only on a faint or a crash |
| Multistrike.VolleyCount | PokemonStadiumSrc/Models/Moves/Effects/MultistrikeEffect.cs:33-47 | the reported count is the blows landed, minus the fainting blow |
| Multistrike.VolleyDraws | PokemonStadiumSrc/Models/Moves/Effects/MultistrikeEffect.cs:35 | one random draw per landed blow, none against an immune defender |
| Multistrike.VolleyHp | PokemonStadiumSrc/Models/Moves/Effects/MultistrikeEffect.cs:36 | the defender's HP never rises during a volley and never drops below 0 |
| Multistrike.VolleyFailsFirst | PokemonStadiumSrc/Models/Moves/Effects/MultistrikeEffect.cs:35 | a failing formula crashes on the first blow with nothing landed |
| Multistrike.FirstBlowKoReportsNothing | PokemonStadiumSrc/Models/Moves/Effects/MultistrikeEffect.cs:42-55 | a first blow that faints the defender leaves the hit count 0, so no summary is logged |
| Multistrike.ImmuneVolley | PokemonStadiumSrc/Models/Moves/Effects/MultistrikeEffect.cs:33-47 | against an immune defender every planned blow lands for 0 damage: nothing drawn, no line written, HP kept, every blow counted and 0 remembered |
| Multistrike.EnginesDifferOnlyInLast | Models/Moves/Effects/MultistrikeEffect.cs:41-46 | the two copies' volleys agree in everything but the recorded last damage, which differs only when the volley ends on a knockout |
| Multistrike.Round | PokemonStadiumSrc/Models/Moves/Effects/MultistrikeEffect.cs:34-46 | one loop iteration performs one step of the volley function |
| Multistrike.Step | PokemonStadiumSrc/Models/Moves/Effects/MultistrikeEffect.cs:34-46 | one round either ends the volley, its state being the volley function's final state, or leaves the rest of the volley to run from the new state with one more blow counted |
| Multistrike.Blow | PokemonStadiumSrc/Models/Moves/Effects/MultistrikeEffect.cs:35-40 | one blow's damage from the formula and the next stream value |
| Multistrike.Strikes | PokemonStadiumSrc/Models/Moves/Effects/MultistrikeEffect.cs:33-47 | the loop's final state and log are those of the volley function |
| Multistrike.ChooseHits | PokemonStadiumSrc/Models/Moves/Effects/MultistrikeEffect.cs:23-31 | the hit count is the plan for the next stream value |
| Multistrike.Prepare | PokemonStadiumSrc/Models/Moves/Effects/MultistrikeEffect.cs:21-31 | effectiveness, critical roll and hit plan, in stream order |
| Multistrike.Summarise | PokemonStadiumSrc/Models/Moves/Effects/MultistrikeEffect.cs:49-55 | effectiveness, critical and hit-count lines |
| Multistrike.Volley | PokemonStadiumSrc/Models/Moves/Effects/MultistrikeEffect.cs:33-55 | the volley and its summary, with the defender's HP and the log given by the volley function |
| Multistrike.Apply | PokemonStadiumSrc/Models/Moves/Effects/MultistrikeEffect.cs:19-56 | the whole multistrike effect, agreeing with the volley function on HP, fainting, last damage and log |
| MoveUse.AlwaysEffects | PokemonStadiumSrc/Battle/Core/BattleMove.cs:57 | exactly the charging-turn and self-destruct effects of the move |
| MoveUse.AlwaysEffectsConcat | PokemonStadiumSrc/Battle/Core/BattleMove.cs:57 | the always-effects keep list order and multiplicity: the filter distributes over concatenation and keeps a single effect exactly when it is a charging turn or a self-destruct |
| MoveUse.AlwaysEffectsQuiet | PokemonStadiumSrc/Battle/Core/BattleMove.cs:57 | the effects run on a miss never nest another move use |
| MoveUse.NonMetronome | PokemonStadiumSrc/Models/Moves/Effects/RandomMoveEffect.cs:10 | exactly the loaded moves other than Metronome |
| MoveUse.NonMetronomeConcat | PokemonStadiumSrc/Models/Moves/Effects/RandomMoveEffect.cs:10 | the pool keeps load order and multiplicity: the filter distributes over concatenation and keeps a single move exactly when it is not Metronome |
| MoveUse.ApplyEffect | Models/Moves/Effects/IMoveEffect.cs:5-7 | dispatch to the effect; an effect that does not use another move keeps the world, last move and PP and leaves exactly what its own operation promises (`Applied`: damage, fixed damage, volley, halving, one-hit KO, Counter, drain, recoil, recovery, self-destruct, stat change and reset, type change, disable, charging turn, Mimic, or nothing for a stub) |
| MoveUse.ApplyDamaging | Models/Moves/Effects/IMoveEffect.cs:5-7 | the damaging effects leave what Damage, the volley, FixedDamage, CutHalfHp, OneHitKo or Counter promises |
| MoveUse.ApplyStrike | Models/Moves/Effects/DamageEffect.cs:14-29 | a damage effect or a volley leaves what its operation promises |
| MoveUse.ApplyVolley | PokemonStadiumSrc/Models/Moves/Effects/MultistrikeEffect.cs:19-56 | a multistrike leaves what the whole volley promises for some run of blows |
| MoveUse.ApplyBlow | Models/Moves/Effects/IMoveEffect.cs:5-7 | fixed damage, halving, one-hit KO and Counter leave what their operations promise |
| MoveUse.ApplyFixed | PokemonStadiumSrc/Models/Moves/Effects/FixedDamageEffect.cs:14-26 | the fixed-damage effect leaves what FixedDamage promises |
| MoveUse.ApplyHalving | Models/Moves/Effects/CutHalfHpEffect.cs:9-25 | Super Fang leaves what CutHalfHp promises |
| MoveUse.ApplyFinisher | PokemonStadiumSrc/Models/Moves/Effects/OneHitKoEffect.cs:9-18 | a one-hit KO or Counter leaves what its operation promises |
| MoveUse.ApplyHp | Models/Moves/Effects/IMoveEffect.cs:5-7 | drain, recoil, recovery and self-destruct leave what their operations promise |
| MoveUse.ApplyState | Models/Moves/Effects/IMoveEffect.cs:5-7 | the stage, type and flag effects leave what their operations promise |
| MoveUse.ApplyStages | PokemonStadiumSrc/Models/Moves/Effects/StatChangeEffect.cs:20-46 | stat change, stat reset and type change leave what their operations promise |
| MoveUse.ApplyFlags | Models/Moves/Effects/DisableEffect.cs:8-26 | charging turn, Mimic, disable and the stubs leave what their operations promise (a stub changes nothing) |
| MoveUse.ApplyMimic | Models/Moves/Effects/CopyMoveEffect.cs:16-22 | Mimic leaves what its operation promises |
| MoveUse.MirrorMove | Models/Moves/Effects/CopyMoveEffect.cs:24-38 | fails without a last move, fails after logging when the last move is Mirror Move, otherwise logs the copy and uses it |
| MoveUse.RandomMove | PokemonStadiumSrc/Models/Moves/Effects/RandomMoveEffect.cs:8-14 | crashes on an empty pool after one draw; otherwise uses a random non-Metronome move |
| MoveUse.RunEffects | PokemonStadiumSrc/Battle/Core/BattleMove.cs:48-52 | runs the effects in order and stops early only on a crash or when the attacker is left charging; when only the first effect ran and it uses no other move, the state is exactly what that effect promises |
| MoveUse.OnHit | PokemonStadiumSrc/Battle/Core/BattleMove.cs:46-54 | the effects run until one starts a charge, PP drops by one, the move becomes the last move, and a Status move clears the last damage in the first copy |
| MoveUse.Complete | PokemonStadiumSrc/Battle/Core/BattleMove.cs:53-73 | after the effects of a hit: a Status move clears the last damage in the first copy, the move becomes the last move and its PP drops by one |
| MoveUse.OnMiss | PokemonStadiumSrc/Battle/Core/BattleMove.cs:55-73 | only the always-effects run; the first charging turn refunds its PP and skips the miss line; the last damage is cleared |
| MoveUse.Resolve | PokemonStadiumSrc/Battle/Core/BattleMove.cs:45-73 | the calculator's accuracy decision on the state before the roll picks the hit or miss path; the move becomes the last move, PP drops by one unless a first charging turn refunds it, and a miss clears the last damage and logs the avoid line unless refunded |
| MoveUse.Settle | PokemonStadiumSrc/Battle/Core/BattleMove.cs:63-73 | refund or miss line, cleared damage, last move and PP after a miss |
| MoveUse.Proceed | PokemonStadiumSrc/Battle/Core/BattleMove.cs:42-74 | logs the use; an unusable move changes nothing else; otherwise the accuracy decision of the calculator picks hit or miss |
| MoveUse.Use | PokemonStadiumSrc/Battle/Core/BattleMove.cs:37-81 | a recharging attacker only runs the last effect (crash on none); otherwise the use line, the accuracy decision, PP and last move as the hit and miss paths say |
| MoveUse.Recharge | PokemonStadiumSrc/Battle/Core/BattleMove.cs:76-80 | runs only the last effect, which leaves exactly what its operation promises (for a charging turn, the recharge cleared) with last move and PP kept; an empty list crashes with nothing logged |
| Game.FirstSideOrder | Services/Game.cs:46-96 | side A goes first exactly on higher priority, or equal priority and at least equal speed: the tie-break draws from [1, 2), which only holds 1, so side A wins every full tie |
| Game.FirstSideSwap | Services/Game.cs:46-79 | without a full tie, swapping the sides swaps the order |
| Game.ScheduleShape | Services/Game.cs:100-115 | each side acts once, the first side first; the second attacks exactly when it chose a move, the first exactly when both did |
| Game.ScheduleHonoursChoices | Services/Game.cs:41-115 | with every move priority below the switch priority 10, each side attacks exactly when it chose a move and switches otherwise |
| Game.StandingEmptyIff | Services/Game.cs:118-121 | no one is standing exactly when every team member has fainted |
| Game.HasPlayerLostIff | Services/Game.cs:118-121 | the round's loss test agrees with the trainer's own |
| Game.SwitchAction | Services/Game.cs:133-141 | outcome of the switch pick; on success the return line for a standing Pokémon, the go line, and last move and damage cleared |
| Game.SwitchPokemonIfRequired | Services/Game.cs:142-150 | switches exactly when the active Pokémon fainted and a switch is possible, with the switch decision's outcome and a new active Pokémon from the candidates, and reports whether it had fainted; the other trainer and its team are untouched |
| Game.Switch | Services/Game.cs:133-141 | a switch action: the decision's outcome, on success a new active Pokémon from the candidates and otherwise the same one, the last action kept, the other trainer and its team untouched |
| Game.Yield | Services/Game.cs:107-108 | the first side's switch leaves the second side's active Pokémon, its fainted and recharging flags, its last action and its move's usability as they were |
| Game.Strike | Services/Game.cs:128-129 | the move is used and its last move becomes the attacker's last action |
| Game.AttackAction | Services/Game.cs:123-131 | refreshes the context; the move is used exactly when the attacker was not fainted, and then its use line is written (unless recharging) and on success the last action becomes the remembered move, which is the move itself when it could be used; otherwise the last action is kept; the defender keeps its active Pokémon and last action |
| Game.AssignOrder | Services/Game.cs:41-96 | the first side is the one the priority/speed/coin ordering picks |
| Game.ExecuteOrder | Services/Game.cs:100-115 | the steps run are a non-empty prefix of the schedule, all of it when nothing fails; each step leaves what `Ran` states for the case: the attacks' use lines, fainted checks and last actions, the switches' decisions and new active Pokémon, and in the "first moved, second switched" case both sides switch with their last actions kept |
| Game.BothAttack | Services/Game.cs:100-104 | the first attack against the round's start, and when it succeeded the second against the state it started from, whose log holds the first use line; on success of both the first side's last action is its move when usable |
| Game.SwitchThenAttack | Services/Game.cs:105-109 | the first side's switch decision, and when it succeeded the second side's attack against its own state at the round's start |
| Game.BothSwitch | Services/Game.cs:110-114 | the first side's switch decision, and when it succeeded the second side's, each from the round's start; neither last action changes |
| Game.AssignAndExecuteOrder | Services/Game.cs:41-117 | the first side is the one the ordering picks from the priorities and the staged speeds, the steps run are a prefix of the schedule for the two choices, all of it when nothing fails, and each step leaves what `Ran` states |
| Game.Tick | Services/Game.cs:13 | the turn advances unless the tick crashes |
| Game.Choose | Services/Game.cs:36-40 | the trainer's action: the locked last action, a usable move, or a possible switch |
| Game.PlayRound | Services/Game.cs:10-35 | the turn advances, and the battle goes on exactly when neither trainer has lost |
| Game.Replenish | Services/Game.cs:14-15 | side A's forced switch (the decision's outcome and a candidate when A's active Pokémon fainted and a candidate is left, nothing otherwise), then, unless A's decision failed, side B's on its state at the start |
| Game.Undisturbed | Services/Game.cs:14-15 | a trainer whose fields and team were left alone keeps its candidates, its switch outcome and whether it must switch |
| Game.TeamsApart | Services/Game.cs:14-15 | the two teams share no Pokémon and no stage vector |
| DataLoader.CreateEffect | PokemonStadiumSrc/Services/DataLoader.cs:111-181 | each known effect kind builds its effect from the record's fields; an unknown kind is rejected |
| DataLoader.CreatedKind | PokemonStadiumSrc/Services/DataLoader.cs:113-179 | a built effect has the kind the record named |
| DataLoader.DescribeThenCreate | PokemonStadiumSrc/Services/DataLoader.cs:111-181 | every configurable effect is rebuilt from its own description |
| DataLoader.CounterTakesMoveCategory | PokemonStadiumSrc/Services/DataLoader.cs:127 | Counter takes the category of the move being loaded |
| DataLoader.CreateEffects | PokemonStadiumSrc/Services/DataLoader.cs:55-57 | one effect per record in order, or the error of a failing record |
| DataLoader.CreateEffectsSucceeds | PokemonStadiumSrc/Services/DataLoader.cs:55-57 | the list loads exactly when every record does |
| DataLoader.MapMove | PokemonStadiumSrc/Services/DataLoader.cs:40-60 | the move's fields are copied and its effects built, failing exactly when one effect fails |
| DataLoader.MapMoveFailsIff | PokemonStadiumSrc/Services/DataLoader.cs:40-60 | a move fails to load exactly when one of its effects does |
| DataLoader.Fold | PokemonStadiumSrc/Services/DataLoader.cs:33 | the case-insensitive key keeps the length and upper-cases each ASCII letter |
| DataLoader.FoldIdempotent | PokemonStadiumSrc/Services/DataLoader.cs:33 | folding twice is folding once |
| DataLoader.AddMove | PokemonStadiumSrc/Services/DataLoader.cs:33-37 | adding a move fails on a bad move or a name already present ignoring case |
| DataLoader.IndexMoves | PokemonStadiumSrc/Services/DataLoader.cs:27-38 | a loaded dictionary has every record's folded name as a key, holding the move that record maps to |
| DataLoader.CatalogueIndexed | PokemonStadiumSrc/Services/DataLoader.cs:33-37 | the dictionary's values in insertion order: one move per record, the `i`-th being the one stored under the `i`-th record's name, and every stored move among them |
| DataLoader.DistinctNamesCount | PokemonStadiumSrc/Services/DataLoader.cs:33-37 | records with names distinct up to case give as many keys as records |
| DataLoader.IndexContents | PokemonStadiumSrc/Services/DataLoader.cs:27-38 | the dictionary's keys are exactly the folded names, each mapped to its own move |
| DataLoader.IndexMovesSucceeds | PokemonStadiumSrc/Services/DataLoader.cs:27-38 | loading succeeds exactly when every move maps and the names are distinct ignoring case |
| DataLoader.LoadedNamesDistinct | PokemonStadiumSrc/Services/DataLoader.cs:33-37 | a successful load has case-insensitively distinct names |
| DataLoader.DistinctNamesLoad | PokemonStadiumSrc/Services/DataLoader.cs:33-37 | distinct names and valid moves always load |
| DataLoader.Lookup | PokemonStadiumSrc/Services/DataLoader.cs:77 | finds a move exactly when its folded name is a key |
| DataLoader.LookupIgnoresCase | PokemonStadiumSrc/Services/DataLoader.cs:77 | names equal up to case look up the same move |
| DataLoader.IndexFindsEveryMove | PokemonStadiumSrc/Services/DataLoader.cs:27-38 | every loaded move is found under any spelling of its name |
| DataLoader.ResolveMoves | PokemonStadiumSrc/Services/DataLoader.cs:75-82 | a species' move names resolve in order, or fail naming an unknown move |
| DataLoader.ResolveMovesSucceeds | PokemonStadiumSrc/Services/DataLoader.cs:75-82 | resolution succeeds exactly when every name is known |
| DataLoader.MapStatsBijective | PokemonStadiumSrc/Services/DataLoader.cs:84-92 | the stat mapping loses nothing and swaps nothing |
| DataLoader.LoadPokemons | PokemonStadiumSrc/Services/DataLoader.cs:65-107 | one species per record, built with its resolved moves and stats, failing exactly on an unknown move |

## Left out

- Program.cs and the menus around a battle are not modelled: they are console I/O and wiring.
- Console output is not modelled. This covers the screen clearing and slow writing in `Log`, the
  "disabled"/"no PP" lines of `CanBeUsed`, `DisplayInBattleInformation` and the win/lose lines of
  `PlayRound`. The model keeps the battle log and the return values.
- Player prompts are modelled as a feed of already-parsed integers. A line that does not parse is
  taken as one rejected input.
- Reading JSON files is not modelled. The data-transfer classes are records whose fields the
  loader reads.
- The internals of `System.Random` are not modelled. It is an arbitrary stream of values. The speed
  tie of the round is decided by a raw value passed in.
- The stub effects (Bide, Fixated, LeechSeed, Status, Transform, DamageReduction, …) are one no-op
  effect. Only the loader's choice of kind is modelled for them.
- Doubles are modelled as exact reals. The type multipliers are 0, ½, 1 and 2 and their products,
  which a double represents exactly.
- Stack overflow from unbounded Mirror Move / Metronome nesting is bounded by a fuel argument.
  Running out of fuel is a crash, so nesting deeper than the fuel is not modelled.
- The second copy's `BattleContext.NextTurn` ticks the combatants stored in the context. The model
  ticks the trainers' current active Pokémon. The two differ only after a switch between turns.
- The stat-stage tables throw on a stage outside [-6, 6]. That throw is unreachable, because every
  stage is clamped.
- MoveUse.Use: a nested use (Mirror Move, Metronome) is framed only by the battle invariant. Its
  exact effect on HP and log is not restated.
- MoveUse.Recharge: when the last effect nests a move use, only the battle invariant is stated.
- MoveUse.RunEffects: the state after two or more effects is not stated as the composition of each
  effect's promise; the list order and the stop after charging are stated through `ran`, and the
  single-effect case exactly.
- MoveUse.OnHit: states what the effects' run promises (order, early stop) and the bookkeeping after
  it, not what each effect did to HP, stages and log.
- MoveUse.OnMiss: states the always-effects' run and the bookkeeping after it, not what a charging
  turn or self-destruct did to HP and flags.
- MoveUse.Resolve: states the accuracy decision and the bookkeeping of each path, not the effects'
  results.
- MoveUse.Proceed: states the use line, the usability check and the accuracy decision, not the
  effects' results.
- MoveUse.MirrorMove: the nested use of the copied move is framed only by the battle invariant.
- MoveUse.RandomMove: the nested use of the drawn move is framed only by the battle invariant.
- Context.BattleContext.NextTurn: states the turn advance and the crash. The per-move ticks are
  stated by CheckDisabledMoves, not repeated here.
- Game.PlayRound: states the turn, the log growth and the loss test, not the full state after the
  round.
- Game.AttackAction: states when the move is used and how the last action changes, not the move's
  own effects.
- Game.ExecuteOrder: what the second attack of "both attack" leaves is stated against the state it
  started from (a ghost snapshot of log, fainted and recharging flags), since the first attack can
  change those; the effects of each move are not restated here.
- Game.BothAttack: whether the second attacker was still standing and not recharging when its turn
  came is taken from the snapshot, not from the round's start.
- DataLoader.Fold: only ASCII letters are folded, while `StringComparer.OrdinalIgnoreCase` also
  folds other letters ("é" and "É" are one key there, two keys here). For names written in ASCII the
  two folds agree.
- DataLoader.CatalogueIndexed: the catalogue follows record order because a .NET `Dictionary`
  that has had nothing removed lists its values in insertion order. That is how the runtime
  behaves, not a documented guarantee, and the model takes it as given.
- C# `int` is 32 bits wide; the model's integers are unbounded, so 32-bit overflow is not modelled.
  This concerns the products in the stat formulas (`2 * baseStat * level`), the damage formula
  (`(2 * level * critical / 5 + 2) * power * attack / defense` and `damage * randomModifier`) and
  the shares in Drain and Recoil (`amount * percent`). For the game's inputs (level 1 to 100 as
  the level prompt accepts, base stats and power at most 255) the largest intermediate stays near
  3.2·10^8, below 2^31, so the two agree. Species or move data with much larger numbers would wrap
  in the program and not here. The narrowing casts to `byte` are modelled exactly.
- Combatants.BattlePokemon.constructor: species data is taken to have a non-negative base HP. The
  Gen-I data meets this, but neither the loader nor the constructor checks it. With a negative base
  HP the program would start a Pokémon at non-positive HP that is not fainted, a state the model's
  HP invariant does not represent.
- Trainers.Trainer.ChooseAction: for a player, states the properties of the choice, not the exact
  menu outcome for a given feed.
- The stat getters of `BattlePokemon` carry no contract of their own. They are covered by
  StagedStatBounds, StagedStatMonotone and GettersAtNeutralStages.
