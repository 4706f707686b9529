/** Damage resolution of util.py (`take_damage`, `attack`), with the random
    dodge draws replaced by their outcomes. */
module Damage {
  import opened Wrappers
  import opened Entities

  function Max0(x: int): nat {
    if x < 0 then 0 else x
  }

  function Min(a: int, b: int): int {
    if a <= b then a else b
  }

  /** Number of `true` entries: how many damage points landed. */
  function CountTrue(s: seq<bool>): (n: nat)
    ensures n <= |s|
    ensures n == |s| <==> forall i :: 0 <= i < |s| ==> s[i]
    ensures n == 0 <==> forall i :: 0 <= i < |s| ==> !s[i]
  {
    if |s| == 0 then 0
    else
      assert forall i :: 1 <= i < |s| ==> s[1..][i - 1] == s[i];
      (if s[0] then 1 else 0) + CountTrue(s[1..])
  }

  /** The outcome of the random draws of one incoming attack. `bigShot` is the
      attacker's mode; `lands[i]` says whether draw `i` was at least the
      effective dodge chance (the point lands). A big shot uses one draw for
      all the damage, otherwise there is one draw per damage point. */
  datatype Volley = Volley(bigShot: bool, lands: seq<bool>)

  /** How many draws `take_damage` makes: one for a big shot, else one per damage point. */
  function NeededDraws(bigShot: bool, damage: int): nat {
    if bigShot then 1 else Max0(damage)
  }

  /** The volley has a draw for every roll `take_damage` makes. */
  predicate Covers(v: Volley, damage: int) {
    |v.lands| >= NeededDraws(v.bigShot, damage)
  }

  /** How much of the incoming damage lands (`actual_damage`). */
  function LandedDamage(damage: int, v: Volley): (landed: int)
    requires Covers(v, damage)
    ensures 0 <= damage ==> 0 <= landed <= damage
    ensures v.bigShot ==> landed == 0 || landed == damage
    ensures v.bigShot ==> (landed == damage <==> v.lands[0] || damage == 0)
    ensures !v.bigShot ==> 0 <= landed <= Max0(damage)
    ensures !v.bigShot ==> (landed == Max0(damage) <==> forall i :: 0 <= i < Max0(damage) ==> v.lands[i])
    ensures !v.bigShot ==> (landed == 0 <==> forall i :: 0 <= i < Max0(damage) ==> !v.lands[i])
  {
    if v.bigShot then
      (if v.lands[0] then damage else 0)
    else
      var drawn := v.lands[..Max0(damage)];
      assert forall i :: 0 <= i < Max0(damage) ==> drawn[i] == v.lands[i];
      CountTrue(drawn)
  }

  /** Applies landed damage: shields absorb first, the overflow comes off hp,
      and hp is clamped at 0. */
  function ApplyDamage(e: CombatEntity, landed: int): (r: CombatEntity)
    ensures r == e.(hp := r.hp, shields := r.shields)
    ensures r.shields == Max0(e.shields - landed)
    ensures r.hp == Max0(e.hp - Max0(landed - e.shields))
    ensures r.hp < e.hp ==> r.shields == 0
    ensures 0 <= landed && 0 <= e.shields ==> r.shields <= e.shields
    ensures 0 <= landed && 0 <= e.hp ==> r.hp <= e.hp
    ensures 0 <= landed && 0 <= e.shields && 0 <= e.hp ==>
      (e.shields - r.shields) + (e.hp - r.hp) == Min(landed, e.shields + e.hp)
    ensures Valid(e) && 0 <= landed ==> Valid(r)
  {
    var shieldDamage := Min(landed, e.shields);
    var hp := e.hp - (landed - shieldDamage);
    e.(shields := e.shields - shieldDamage, hp := if hp <= 0 then 0 else hp)
  }

  /** `take_damage` with the dodge outcomes and the big-shot mode given. */
  function TakeDamage(e: CombatEntity, damage: int, v: Volley): (r: CombatEntity)
    requires Covers(v, damage)
    ensures r == e.(hp := r.hp, shields := r.shields)
    ensures r.hp >= 0
    ensures 0 <= damage && 0 <= e.shields ==> r.shields <= e.shields
    ensures 0 <= damage && 0 <= e.hp ==> r.hp <= e.hp
    ensures 0 <= damage && 0 <= e.shields && 0 <= e.hp ==>
      (e.shields - r.shields) + (e.hp - r.hp) <= damage
    ensures Valid(e) && 0 <= damage ==> Valid(r)
    ensures v.bigShot && !v.lands[0] && 0 <= e.hp && 0 <= e.shields ==> r == e
  {
    ApplyDamage(e, LandedDamage(damage, v))
  }

  /** `attack`: the other entity takes this entity's firepower as incoming damage. */
  function Attack(attacker: CombatEntity, defender: CombatEntity, v: Volley): (r: CombatEntity)
    requires Covers(v, attacker.firepower)
    ensures r == defender.(hp := r.hp, shields := r.shields)
    ensures Valid(attacker) && Valid(defender) ==>
      Valid(r) && (defender.shields - r.shields) + (defender.hp - r.hp) <= attacker.firepower
    ensures attacker.firepower == 0 && Valid(defender) ==> r == defender
  {
    TakeDamage(defender, attacker.firepower, v)
  }

  /** Applying landed damage in two parts has the same effect as applying the
      sum at once, so the per-point total of `take_damage` is the same as
      applying each landed point on its own. */
  lemma ApplyDamageAdditive(e: CombatEntity, a: int, b: int)
    requires 0 <= a && 0 <= b
    ensures ApplyDamage(ApplyDamage(e, a), b) == ApplyDamage(e, a + b)
  {
  }

  /** More landed damage never leaves an entity healthier. */
  lemma ApplyDamageMonotone(e: CombatEntity, a: int, b: int)
    requires a <= b
    ensures ApplyDamage(e, b).hp <= ApplyDamage(e, a).hp
    ensures ApplyDamage(e, b).shields <= ApplyDamage(e, a).shields
  {
  }

  /** Shields 6 and hp 10 taking 8 points that all land end at shields 0 and hp 8. */
  lemma ShieldAbsorptionExample(e: CombatEntity)
    requires e.shields == 6 && e.hp == 10
    ensures TakeDamage(e, 8, Volley(false, [true, true, true, true, true, true, true, true])) == e.(shields := 0, hp := 8)
    ensures TakeDamage(e, 8, Volley(true, [true])) == e.(shields := 0, hp := 8)
  {
  }

  /** However large the overkill, a destroyed entity sits at exactly hp 0. */
  lemma OverkillClampsAtZero(e: CombatEntity, damage: int, v: Volley)
    requires Covers(v, damage)
    requires e.shields >= 0 && e.hp >= 0 && LandedDamage(damage, v) >= e.shields + e.hp
    ensures TakeDamage(e, damage, v).hp == 0
    ensures TakeDamage(e, damage, v).shields == 0
  {
  }

  /** `take_damage` as written: it reads `self.dodge_chance` and
      `attacker.big_shot`, neither of which the record declares. */
  function TakeDamageAsWritten(self: CombatEntity, damage: int, attacker: CombatEntity, v: Volley): Result<CombatEntity, Fault>
    requires Covers(v, damage)
  {
    var dodgeChance :- GetAttr(self, "dodge_chance");
    var bigShot :- GetAttr(attacker, "big_shot");
    Success(TakeDamage(self, damage, v))
  }

  /** As written, every call of `take_damage` raises before any damage is applied. */
  lemma TakeDamageAsWrittenAlwaysRaises(self: CombatEntity, damage: int, attacker: CombatEntity, v: Volley)
    requires Covers(v, damage)
    ensures TakeDamageAsWritten(self, damage, attacker, v) == Failure(AttributeError("CombatEntity", "dodge_chance"))
  {
  }
}
