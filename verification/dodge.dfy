/** The intended dodge-chance adjustment of `take_damage`: the modifier of the
    attacker's kind against the defender's kind moves the defender's dodge
    chance, and each uniform draw in [0, 1) lands when it is at least that
    chance. Probabilities are exact reals here. */
module Dodge {
  import opened Entities
  import opened Modifiers
  import opened Damage

  predicate IsProbability(p: real) {
    0.0 <= p <= 1.0
  }

  /** Strong halves the dodge chance, weak halves the chance of being hit,
      balanced leaves it as it is. */
  function EffectiveDodge(m: Modifier, dodge: real): (r: real)
    ensures IsProbability(dodge) ==> IsProbability(r)
    ensures IsProbability(dodge) && m == Strong ==> r <= dodge && r == dodge / 2.0
    ensures IsProbability(dodge) && m == Weak ==> dodge <= r && 1.0 - r == (1.0 - dodge) / 2.0
    ensures m == Balanced ==> r == dodge
  {
    match m
    case Strong => dodge / 2.0
    case Weak => 1.0 - (1.0 - dodge) / 2.0
    case Balanced => dodge
  }

  /** Per-draw outcomes: a draw at least the dodge chance lands. */
  function Outcomes(draws: seq<real>, dodge: real): (lands: seq<bool>)
    ensures |lands| == |draws|
    ensures forall i :: 0 <= i < |draws| ==> (lands[i] <==> dodge <= draws[i])
  {
    seq(|draws|, i requires 0 <= i < |draws| => dodge <= draws[i])
  }

  /** The volley an attack produces from the raw draws. */
  function DrawVolley(attacker: CombatEntity, defender: CombatEntity, dodge: real, bigShot: bool, draws: seq<real>): (v: Volley)
    ensures v.bigShot == bigShot && |v.lands| == |draws|
    ensures ModifierFor(attacker, defender) == Balanced ==>
      forall i :: 0 <= i < |draws| ==> (v.lands[i] <==> dodge <= draws[i])
    ensures ModifierFor(attacker, defender) == Strong ==>
      forall i :: 0 <= i < |draws| ==> (v.lands[i] <==> dodge / 2.0 <= draws[i])
    ensures ModifierFor(attacker, defender) == Weak ==>
      forall i :: 0 <= i < |draws| ==> (v.lands[i] <==> (1.0 + dodge) / 2.0 <= draws[i])
  {
    Volley(bigShot, Outcomes(draws, EffectiveDodge(ModifierFor(attacker, defender), dodge)))
  }

  /** Pointwise fewer landings never count more. */
  lemma {:induction false} CountTrueMonotone(a: seq<bool>, b: seq<bool>)
    requires |a| == |b|
    requires forall i :: 0 <= i < |a| ==> a[i] ==> b[i]
    ensures CountTrue(a) <= CountTrue(b)
  {
    if |a| > 0 {
      assert forall i :: 0 <= i < |a[1..]| ==> a[1..][i] == a[i + 1] && b[1..][i] == b[i + 1];
      CountTrueMonotone(a[1..], b[1..]);
    }
  }

  /** A lower dodge chance lets at least as much damage land, whatever the draws. */
  lemma LowerDodgeLandsMore(damage: int, bigShot: bool, draws: seq<real>, low: real, high: real)
    requires low <= high
    requires |draws| >= NeededDraws(bigShot, damage)
    requires 0 <= damage
    ensures LandedDamage(damage, Volley(bigShot, Outcomes(draws, high)))
         <= LandedDamage(damage, Volley(bigShot, Outcomes(draws, low)))
  {
    var h := Outcomes(draws, high);
    var l := Outcomes(draws, low);
    if !bigShot {
      var n := Max0(damage);
      assert forall i :: 0 <= i < n ==> h[..n][i] ==> l[..n][i];
      CountTrueMonotone(h[..n], l[..n]);
    }
  }

  /** Landed damage of the same draws under each modifier. */
  function LandedUnder(m: Modifier, damage: int, bigShot: bool, draws: seq<real>, dodge: real): int
    requires |draws| >= NeededDraws(bigShot, damage)
  {
    LandedDamage(damage, Volley(bigShot, Outcomes(draws, EffectiveDodge(m, dodge))))
  }

  /** With the same draws, a strong attack lands at least as much as a balanced
      one, and a balanced one at least as much as a weak one. */
  lemma ModifierOrdersLandedDamage(damage: int, bigShot: bool, draws: seq<real>, dodge: real)
    requires IsProbability(dodge) && 0 <= damage
    requires |draws| >= NeededDraws(bigShot, damage)
    ensures LandedUnder(Weak, damage, bigShot, draws, dodge) <= LandedUnder(Balanced, damage, bigShot, draws, dodge)
    ensures LandedUnder(Balanced, damage, bigShot, draws, dodge) <= LandedUnder(Strong, damage, bigShot, draws, dodge)
  {
    var s, b, w := EffectiveDodge(Strong, dodge), dodge, EffectiveDodge(Weak, dodge);
    LowerDodgeLandsMore(damage, bigShot, draws, b, w);
    LowerDodgeLandsMore(damage, bigShot, draws, s, b);
  }

  /** An attacker whose kind is strong against the defender's kind leaves the
      defender no healthier than the same draws would at the unadjusted dodge chance. */
  lemma StrongAttackHitsHarder(attacker: CombatEntity, defender: CombatEntity, dodge: real, bigShot: bool, draws: seq<real>)
    requires ModifierFor(attacker, defender) == Strong
    requires IsProbability(dodge) && 0 <= attacker.firepower
    requires |draws| >= NeededDraws(bigShot, attacker.firepower)
    ensures Attack(attacker, defender, DrawVolley(attacker, defender, dodge, bigShot, draws)).hp
         <= Attack(attacker, defender, Volley(bigShot, Outcomes(draws, dodge))).hp
    ensures Attack(attacker, defender, DrawVolley(attacker, defender, dodge, bigShot, draws)).shields
         <= Attack(attacker, defender, Volley(bigShot, Outcomes(draws, dodge))).shields
  {
    ModifierOrdersLandedDamage(attacker.firepower, bigShot, draws, dodge);
    ApplyDamageMonotone(defender,
      LandedUnder(Balanced, attacker.firepower, bigShot, draws, dodge),
      LandedUnder(Strong, attacker.firepower, bigShot, draws, dodge));
  }
}
