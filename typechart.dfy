/** The Generation-I type chart. Its multipliers are doubles in the program but only take
    the values 0, 1/2, 1, 2 and their products, so they are exact rationals here. */
module TypeChart {
  import opened Models

  /** One row of the chart: the listed defence types of an attack type and their
      multipliers. Every attack type has a row; a pair that is not listed is neutral. */
  function ChartRow(attack: PokemonType): map<PokemonType, real> {
    match attack
    case Normal => map[Rock := 0.5, Ghost := 0.0]
    case Fire => map[Grass := 2.0, Ice := 2.0, Bug := 2.0, Fire := 0.5, Water := 0.5, Rock := 0.5, Dragon := 0.5]
    case Water => map[Fire := 2.0, Ground := 2.0, Rock := 2.0, Water := 0.5, Grass := 0.5, Dragon := 0.5]
    case Electric => map[Water := 2.0, Flying := 2.0, Electric := 0.5, Grass := 0.5, Dragon := 0.5, Ground := 0.0]
    case Grass => map[Water := 2.0, Ground := 2.0, Rock := 2.0, Fire := 0.5, Grass := 0.5, Poison := 0.5,
                      Flying := 0.5, Bug := 0.5, Dragon := 0.5]
    case Ice => map[Grass := 2.0, Ground := 2.0, Flying := 2.0, Dragon := 2.0, Fire := 0.5, Water := 0.5, Ice := 0.5]
    case Fighting => map[Normal := 2.0, Ice := 2.0, Rock := 2.0, Poison := 0.5, Flying := 0.5, Psychic := 0.5,
                         Bug := 0.5, Ghost := 0.0]
    case Poison => map[Grass := 2.0, Poison := 0.5, Ground := 0.5, Rock := 0.5, Ghost := 0.5]
    case Ground => map[Fire := 2.0, Electric := 2.0, Poison := 2.0, Rock := 2.0, Grass := 0.5, Bug := 0.5, Flying := 0.0]
    case Flying => map[Grass := 2.0, Fighting := 2.0, Bug := 2.0, Electric := 0.5, Rock := 0.5]
    case Psychic => map[Fighting := 2.0, Poison := 2.0, Psychic := 0.5]
    case Bug => map[Grass := 2.0, Psychic := 2.0, Fire := 0.5, Fighting := 0.5, Poison := 0.5, Flying := 0.5, Ghost := 0.5]
    case Rock => map[Fire := 2.0, Ice := 2.0, Flying := 2.0, Bug := 2.0, Fighting := 0.5, Ground := 0.5]
    case Ghost => map[Psychic := 2.0, Ghost := 2.0, Normal := 0.0]
    case Dragon => map[Dragon := 2.0]
  }

  /** A chart value: immune, resisted, neutral or super effective. */
  predicate IsChartValue(m: real) {
    m == 0.0 || m == 0.5 || m == 1.0 || m == 2.0
  }

  /** The five immunities of the chart. */
  predicate IsImmunity(attack: PokemonType, defense: PokemonType) {
    (attack == Normal && defense == Ghost) || (attack == Fighting && defense == Ghost) ||
    (attack == Electric && defense == Ground) || (attack == Ground && defense == Flying) ||
    (attack == Ghost && defense == Normal)
  }

  /** The multiplier of one attack type against one defence type; an unlisted pair is 1. */
  function GetSingleMultiplier(attack: PokemonType, defense: PokemonType): real {
    var row := ChartRow(attack);
    if defense in row then row[defense] else 1.0
  }

  /** Every single multiplier is 0, 1/2, 1 or 2, and it is 0 exactly for the five immunities. */
  lemma SingleMultiplierValues(attack: PokemonType, defense: PokemonType)
    ensures IsChartValue(GetSingleMultiplier(attack, defense))
    ensures GetSingleMultiplier(attack, defense) == 0.0 <==> IsImmunity(attack, defense)
  {
    if attack.Normal? || attack.Fire? || attack.Water? || attack.Electric? || attack.Grass? {
      FirstRowsValues(attack, defense);
    } else if attack.Ice? || attack.Fighting? || attack.Poison? || attack.Ground? || attack.Flying? {
      MiddleRowsValues(attack, defense);
    } else {
      LastRowsValues(attack, defense);
    }
  }

  /** `SingleMultiplierValues` for the rows Normal to Grass. */
  lemma FirstRowsValues(attack: PokemonType, defense: PokemonType)
    requires attack.Normal? || attack.Fire? || attack.Water? || attack.Electric? || attack.Grass?
    ensures IsChartValue(GetSingleMultiplier(attack, defense))
    ensures GetSingleMultiplier(attack, defense) == 0.0 <==> IsImmunity(attack, defense)
  {
    match attack
    case Normal =>
    case Fire =>
    case Water =>
    case Electric =>
    case Grass =>
    case _ =>
  }

  /** `SingleMultiplierValues` for the rows Ice to Flying. */
  lemma MiddleRowsValues(attack: PokemonType, defense: PokemonType)
    requires attack.Ice? || attack.Fighting? || attack.Poison? || attack.Ground? || attack.Flying?
    ensures IsChartValue(GetSingleMultiplier(attack, defense))
    ensures GetSingleMultiplier(attack, defense) == 0.0 <==> IsImmunity(attack, defense)
  {
    match attack
    case Ice =>
    case Fighting =>
    case Poison =>
    case Ground =>
    case Flying =>
    case _ =>
  }

  /** `SingleMultiplierValues` for the rows Psychic to Dragon. */
  lemma LastRowsValues(attack: PokemonType, defense: PokemonType)
    requires attack.Psychic? || attack.Bug? || attack.Rock? || attack.Ghost? || attack.Dragon?
    ensures IsChartValue(GetSingleMultiplier(attack, defense))
    ensures GetSingleMultiplier(attack, defense) == 0.0 <==> IsImmunity(attack, defense)
  {
    match attack
    case Psychic =>
    case Bug =>
    case Rock =>
    case Ghost =>
    case Dragon =>
    case _ =>
  }

  /** One step of the fold: the running product times the next factor. Naming the step
      lets the proofs below match products by their arguments. */
  function Times(product: real, factor: real): real {
    product * factor
  }

  /** The product of the factors `f` gives a type list, folded left to right from 1.0. */
  function ProductOver(f: PokemonType -> real, types: seq<PokemonType>): real {
    if |types| == 0 then 1.0
    else Times(ProductOver(f, types[..|types| - 1]), f(types[|types| - 1]))
  }

  /** One attack type's row of the chart as a function of the defence type. */
  function Row(attack: PokemonType): PokemonType -> real {
    defense => GetSingleMultiplier(attack, defense)
  }

  /** The effectiveness of an attack type against a defender's type list: the product of
      the single multipliers, folded left to right from 1.0 as the program's loop does. */
  function Effectiveness(attack: PokemonType, defenderTypes: seq<PokemonType>): real {
    ProductOver(Row(attack), defenderTypes)
  }

  /** The program's loop: starts from 1.0 and multiplies in one defender type at a time. */
  method GetMultiplier(attack: PokemonType, defenderTypes: seq<PokemonType>) returns (multiplier: real)
    ensures multiplier == Effectiveness(attack, defenderTypes)
  {
    multiplier := 1.0;
    var i := 0;
    while i < |defenderTypes|
      invariant 0 <= i <= |defenderTypes|
      invariant multiplier == ProductOver(Row(attack), defenderTypes[..i])
    {
      assert defenderTypes[..i + 1][..i] == defenderTypes[..i];
      multiplier := multiplier * GetSingleMultiplier(attack, defenderTypes[i]);
      i := i + 1;
    }
    assert defenderTypes[..i] == defenderTypes;
  }

  /** No defender types: neutral. */
  lemma EffectivenessEmpty(attack: PokemonType)
    ensures Effectiveness(attack, []) == 1.0
  {
  }

  /** A product is 0 exactly when one factor is. */
  lemma {:induction false} ProductZeroIff(f: PokemonType -> real, types: seq<PokemonType>)
    ensures ProductOver(f, types) == 0.0 <==> exists i :: 0 <= i < |types| && f(types[i]) == 0.0
  {
    if |types| > 0 {
      var n := |types| - 1;
      var init := types[..n];
      ProductZeroIff(f, init);
      if exists i :: 0 <= i < |types| && f(types[i]) == 0.0 {
        var i :| 0 <= i < |types| && f(types[i]) == 0.0;
        if i < n {
          assert init[i] == types[i];
        }
      }
      if exists i :: 0 <= i < |init| && f(init[i]) == 0.0 {
        var i :| 0 <= i < |init| && f(init[i]) == 0.0;
        assert types[i] == init[i];
      }
    }
  }

  /** The product is 0 exactly when one of the defender's types is immune to the attack. */
  lemma EffectivenessZeroIff(attack: PokemonType, defenderTypes: seq<PokemonType>)
    ensures Effectiveness(attack, defenderTypes) == 0.0
            <==> exists i :: 0 <= i < |defenderTypes| && IsImmunity(attack, defenderTypes[i])
  {
    ProductZeroIff(Row(attack), defenderTypes);
    forall i | 0 <= i < |defenderTypes|
      ensures Row(attack)(defenderTypes[i]) == 0.0 <==> IsImmunity(attack, defenderTypes[i])
    {
      SingleMultiplierValues(attack, defenderTypes[i]);
    }
  }

  /** The last factor of a non-empty product. */
  lemma ProductLast(f: PokemonType -> real, s: seq<PokemonType>)
    requires |s| > 0
    ensures ProductOver(f, s) == Times(ProductOver(f, s[..|s| - 1]), f(s[|s| - 1]))
  {
  }

  /** Taking one type out of the list divides its factor out of the product. */
  lemma {:induction false} ProductRemove(f: PokemonType -> real, s: seq<PokemonType>, k: nat)
    requires k < |s|
    ensures ProductOver(f, s) == Times(ProductOver(f, s[..k] + s[k + 1..]), f(s[k]))
    decreases |s|
  {
    var n := |s| - 1;
    if k < n {
      ProductRemove(f, s[..n], k);
      ProductRemoveStep(f, s, k);
    } else {
      assert s[..k] + s[k + 1..] == s[..n];
      ProductLast(f, s);
    }
  }

  /** The inductive step of `ProductRemove`: removing a type before the last one. */
  lemma ProductRemoveStep(f: PokemonType -> real, s: seq<PokemonType>, k: nat)
    requires k < |s| - 1
    requires var init := s[..|s| - 1];
             ProductOver(f, init) == Times(ProductOver(f, init[..k] + init[k + 1..]), f(init[k]))
    ensures ProductOver(f, s) == Times(ProductOver(f, s[..k] + s[k + 1..]), f(s[k]))
  {
    var n := |s| - 1;
    var init := s[..n];
    var t := s[..k] + s[k + 1..];
    var u := init[..k] + init[k + 1..];
    RemoveBeforeLast(s, k);
    ProductLast(f, s);
    ProductLast(f, t);
    Rearrange(ProductOver(f, s), ProductOver(f, init), ProductOver(f, t), ProductOver(f, u), f(s[k]), f(s[n]));
  }

  /** Removing an element before the last one keeps the last one last. */
  lemma RemoveBeforeLast<T>(s: seq<T>, k: nat)
    requires k < |s| - 1
    ensures var t := s[..k] + s[k + 1..];
            s[..|s| - 1][k] == s[k] && t[..|t| - 1] == s[..|s| - 1][..k] + s[..|s| - 1][k + 1..] && t[|t| - 1] == s[|s| - 1]
  {
  }

  /** The arithmetic step of `ProductRemove`, on the products as plain numbers. */
  lemma Rearrange(ps: real, pInit: real, pt: real, pu: real, b: real, c: real)
    requires pInit == Times(pu, b) && ps == Times(pInit, c) && pt == Times(pu, c)
    ensures ps == Times(pt, b)
  {
  }

  /** Dropping the last element removes one occurrence of it from the multiset. */
  lemma MultisetInit<T>(s: seq<T>)
    requires |s| > 0
    ensures multiset(s[..|s| - 1]) == multiset(s) - multiset{s[|s| - 1]}
  {
    assert s == s[..|s| - 1] + [s[|s| - 1]];
  }

  /** Removing the element at `k` removes one occurrence of it from the multiset. */
  lemma MultisetRemoveAt<T>(s: seq<T>, k: nat)
    requires k < |s|
    ensures multiset(s[..k] + s[k + 1..]) == multiset(s) - multiset{s[k]}
  {
    assert s == s[..k] + [s[k]] + s[k + 1..];
    assert multiset(s) == multiset(s[..k]) + multiset{s[k]} + multiset(s[k + 1..]);
  }

  /** A permutation of a non-empty list holds its last element somewhere, and the rest of
      the list is a permutation of what remains once that one is taken out. */
  lemma MatchLast<T>(s: seq<T>, t: seq<T>) returns (k: nat)
    requires |s| > 0 && multiset(s) == multiset(t)
    ensures k < |t| && t[k] == s[|s| - 1] && multiset(s[..|s| - 1]) == multiset(t[..k] + t[k + 1..])
  {
    MultisetInit(s);
    assert s[|s| - 1] in multiset(t);
    k :| 0 <= k < |t| && t[k] == s[|s| - 1];
    MultisetRemoveAt(t, k);
  }

  /** A product over a type list does not depend on the list's order. */
  lemma {:induction false} ProductOrderIndependent(f: PokemonType -> real, s: seq<PokemonType>, t: seq<PokemonType>)
    requires multiset(s) == multiset(t)
    ensures ProductOver(f, s) == ProductOver(f, t)
    decreases |s|
  {
    if |s| > 0 {
      var n := |s| - 1;
      var k := MatchLast(s, t);
      var t' := t[..k] + t[k + 1..];
      ProductOrderIndependent(f, s[..n], t');
      ProductOrderStep(f, s, t, k);
    } else {
      assert |t| == 0;
    }
  }

  /** The inductive step of `ProductOrderIndependent`: the last type of `s` sits at `k` in
      `t`, and the products of the rest agree. */
  lemma ProductOrderStep(f: PokemonType -> real, s: seq<PokemonType>, t: seq<PokemonType>, k: nat)
    requires |s| > 0 && k < |t| && t[k] == s[|s| - 1]
    requires ProductOver(f, s[..|s| - 1]) == ProductOver(f, t[..k] + t[k + 1..])
    ensures ProductOver(f, s) == ProductOver(f, t)
  {
    ProductRemove(f, t, k);
    ProductLast(f, s);
  }

  /** The effectiveness does not depend on the order of the defender's types. */
  lemma EffectivenessOrderIndependent(attack: PokemonType, s: seq<PokemonType>, t: seq<PokemonType>)
    requires multiset(s) == multiset(t)
    ensures Effectiveness(attack, s) == Effectiveness(attack, t)
  {
    ProductOrderIndependent(Row(attack), s, t);
  }

  /** With at most two defender types the product is one of 0, 1/4, 1/2, 1, 2 and 4. */
  lemma EffectivenessTwoTypesRange(attack: PokemonType, defenderTypes: seq<PokemonType>)
    requires |defenderTypes| <= 2
    ensures var m := Effectiveness(attack, defenderTypes);
            m == 0.0 || m == 0.25 || m == 0.5 || m == 1.0 || m == 2.0 || m == 4.0
  {
    if |defenderTypes| >= 1 {
      var a := GetSingleMultiplier(attack, defenderTypes[0]);
      SingleMultiplierValues(attack, defenderTypes[0]);
      var one := defenderTypes[..1];
      ProductLast(Row(attack), one);
      assert one[..0] == [];
      assert Row(attack)(one[0]) == a;
      assert Effectiveness(attack, one) == a;
      if |defenderTypes| == 2 {
        var b := GetSingleMultiplier(attack, defenderTypes[1]);
        SingleMultiplierValues(attack, defenderTypes[1]);
        ProductLast(Row(attack), defenderTypes);
        assert defenderTypes[..|defenderTypes| - 1] == one;
        assert Row(attack)(defenderTypes[1]) == b;
        assert Effectiveness(attack, defenderTypes) == a * b;
      } else {
        assert defenderTypes == one;
      }
    }
  }

  /** A product of non-negative factors is non-negative. */
  lemma {:induction false} ProductNonNegative(f: PokemonType -> real, types: seq<PokemonType>)
    requires forall d :: f(d) >= 0.0
    ensures ProductOver(f, types) >= 0.0
  {
    if |types| > 0 {
      ProductNonNegative(f, types[..|types| - 1]);
    }
  }

  /** No effectiveness is negative. */
  lemma EffectivenessNonNegative(attack: PokemonType, defenderTypes: seq<PokemonType>)
    ensures Effectiveness(attack, defenderTypes) >= 0.0
  {
    forall d ensures Row(attack)(d) >= 0.0 {
      SingleMultiplierValues(attack, d);
    }
    ProductNonNegative(Row(attack), defenderTypes);
  }

  const NoEffectText := "It has no effect!"
  const SuperEffectiveText := "It's super effective!"
  const NotVeryEffectiveText := "It's not very effective!"

  /** The effectiveness line: none for a neutral hit. The program's "unknown multiplier"
      arm would only match a NaN, which an exact rational never is. */
  function GetLogMessage(multiplier: real): (msg: Option<string>)
    ensures msg == None <==> multiplier == 1.0
    ensures msg == Some(NoEffectText) <==> multiplier == 0.0
    ensures msg == Some(SuperEffectiveText) <==> multiplier > 1.0
    ensures msg == Some(NotVeryEffectiveText) <==> multiplier < 1.0 && multiplier != 0.0
  {
    if multiplier == 0.0 then Some(NoEffectText)
    else if multiplier > 1.0 then Some(SuperEffectiveText)
    else if multiplier < 1.0 then Some(NotVeryEffectiveText)
    else None
  }

  /** Against a type list, "no effect" is printed exactly when one type is immune. */
  lemma NoEffectMessageIffImmune(attack: PokemonType, defenderTypes: seq<PokemonType>)
    ensures GetLogMessage(Effectiveness(attack, defenderTypes)) == Some(NoEffectText)
            <==> exists i :: 0 <= i < |defenderTypes| && IsImmunity(attack, defenderTypes[i])
  {
    EffectivenessZeroIff(attack, defenderTypes);
  }
}
