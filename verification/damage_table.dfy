/** `run_simulation` of damage_table.py: hit a defender of `hp` hit points with
    `firepower` per hit (doubled on a crit) until its hp is at most 0, and count
    the hits. The uniform draws of `random.random()` are passed in. */
module DamageTable {

  /** Ceiling of `a / b` for `a > 0`. */
  function CeilDiv(a: int, b: int): int
    requires b > 0
  {
    (a + b - 1) / b
  }

  /** A draw in [0, 1) is a crit when it is below `critChance / 100`. */
  predicate IsCrit(draw: real, critChance: int) {
    draw < critChance as real / 100.0
  }

  predicate AreDraws(draws: seq<real>) {
    forall i :: 0 <= i < |draws| ==> 0.0 <= draws[i] < 1.0
  }

  function CritRolls(draws: seq<real>, critChance: int): (crits: seq<bool>)
    ensures |crits| == |draws|
    ensures forall i :: 0 <= i < |draws| ==> (crits[i] <==> IsCrit(draws[i], critChance))
    ensures AreDraws(draws) && critChance <= 0 ==> forall i :: 0 <= i < |draws| ==> !crits[i]
    ensures AreDraws(draws) && 100 <= critChance ==> forall i :: 0 <= i < |draws| ==> crits[i]
  {
    seq(|draws|, i requires 0 <= i < |draws| => IsCrit(draws[i], critChance))
  }

  /** Damage of one hit. */
  function HitDamage(firepower: int, crit: bool): int {
    if crit then firepower * 2 else firepower
  }

  /** Hits needed when no hit is a crit. */
  function NoCritHits(hp: int, firepower: int): (n: nat)
    requires firepower > 0
    decreases hp
  {
    if hp <= 0 then 0 else 1 + NoCritHits(hp - firepower, firepower)
  }

  lemma {:induction false} NoCritHitsMonotone(a: int, b: int, firepower: int)
    requires firepower > 0 && a <= b
    ensures NoCritHits(a, firepower) <= NoCritHits(b, firepower)
    decreases b
  {
    if a > 0 {
      NoCritHitsMonotone(a - firepower, b - firepower, firepower);
    }
  }

  /** The hit count of the loop for a given sequence of crit outcomes; there
      must be an outcome for every hit the slowest kill needs. */
  function HitsToKill(hp: int, firepower: int, crits: seq<bool>): (n: nat)
    requires firepower > 0 && |crits| >= NoCritHits(hp, firepower)
    ensures hp <= 0 <==> n == 0
    ensures NoCritHits(hp, 2 * firepower) <= n <= NoCritHits(hp, firepower)
    ensures (forall i :: 0 <= i < |crits| ==> !crits[i]) ==> n == NoCritHits(hp, firepower)
    ensures (forall i :: 0 <= i < |crits| ==> crits[i]) ==> n == NoCritHits(hp, 2 * firepower)
    decreases hp
  {
    if hp <= 0 then 0
    else
      var rest := hp - HitDamage(firepower, crits[0]);
      NoCritHitsMonotone(rest, hp - firepower, firepower);
      NoCritHitsMonotone(hp - 2 * firepower, rest, 2 * firepower);
      assert forall i :: 0 <= i < |crits[1..]| ==> crits[1..][i] == crits[i + 1];
      1 + HitsToKill(rest, firepower, crits[1..])
  }

  /** Total damage of a sequence of hits. */
  function TotalDamage(firepower: int, crits: seq<bool>): int {
    if |crits| == 0 then 0 else HitDamage(firepower, crits[0]) + TotalDamage(firepower, crits[1..])
  }

  /** The loop stops at the first hit that brings hp to 0 or below: each hit
      takes exactly `firepower` or `2 * firepower`, the hits before the last
      leave hp positive, and the last one does not. */
  lemma {:induction false} LastHitIsKillingBlow(hp: int, firepower: int, crits: seq<bool>)
    requires firepower > 0 && |crits| >= NoCritHits(hp, firepower) && hp > 0
    ensures var n := HitsToKill(hp, firepower, crits);
      && hp - TotalDamage(firepower, crits[..n]) <= 0
      && 0 < hp - TotalDamage(firepower, crits[..n - 1])
    decreases hp
  {
    var n := HitsToKill(hp, firepower, crits);
    var rest := hp - HitDamage(firepower, crits[0]);
    NoCritHitsMonotone(rest, hp - firepower, firepower);
    assert crits[..n][1..] == crits[1..][..n - 1];
    if rest > 0 {
      LastHitIsKillingBlow(rest, firepower, crits[1..]);
      assert crits[..n - 1][1..] == crits[1..][..n - 2];
    } else {
      assert n == 1;
      assert crits[..1][1..] == [];
    }
  }

  lemma DivUnique(x: int, b: int, q: int)
    requires b > 0 && q * b <= x < (q + 1) * b
    ensures x / b == q
  {
    var d := x / b;
    assert d * b <= x < d * b + b;
    if d < q {
      MulLeft(d + 1, q, b);
      assert false;
    } else if d > q {
      MulLeft(q + 1, d, b);
      assert false;
    }
  }

  lemma MulLeft(a: int, c: int, b: int)
    requires a <= c && 0 <= b
    ensures a * b <= c * b && (a - 1) * b == a * b - b
  {
    assert c * b - a * b == (c - a) * b;
  }

  /** With no crits the hit count is the ceiling of hp over firepower. */
  lemma {:induction false} NoCritHitsIsCeil(hp: int, firepower: int)
    requires firepower > 0 && hp > 0
    ensures NoCritHits(hp, firepower) == CeilDiv(hp, firepower)
    decreases hp
  {
    if hp <= firepower {
      DivUnique(hp + firepower - 1, firepower, 1);
    } else {
      NoCritHitsIsCeil(hp - firepower, firepower);
      var q := CeilDiv(hp - firepower, firepower);
      var x := hp - firepower + firepower - 1;
      assert q * firepower <= x < (q + 1) * firepower;
      DivUnique(hp + firepower - 1, firepower, q + 1);
    }
  }

  /** The hit count lies between the all-crit and the no-crit ceilings, and
      reaches each when every hit, or no hit, is a crit. */
  lemma HitCountBounds(hp: int, firepower: int, crits: seq<bool>)
    requires firepower > 0 && |crits| >= NoCritHits(hp, firepower) && hp > 0
    ensures CeilDiv(hp, 2 * firepower) <= HitsToKill(hp, firepower, crits) <= CeilDiv(hp, firepower)
    ensures (forall i :: 0 <= i < |crits| ==> !crits[i]) ==> HitsToKill(hp, firepower, crits) == CeilDiv(hp, firepower)
    ensures (forall i :: 0 <= i < |crits| ==> crits[i]) ==> HitsToKill(hp, firepower, crits) == CeilDiv(hp, 2 * firepower)
  {
    NoCritHitsIsCeil(hp, firepower);
    NoCritHitsIsCeil(hp, 2 * firepower);
  }

  /** One iteration of the loop after `k` hits: hit `k` uses outcome `k`, then
      the rest of the kill uses the outcomes after it. */
  lemma HitsToKillStep(hp: int, firepower: int, crits: seq<bool>, k: nat)
    requires firepower > 0 && hp > 0 && k <= |crits| && |crits| - k >= NoCritHits(hp, firepower)
    ensures k < |crits|
    ensures |crits| - (k + 1) >= NoCritHits(hp - HitDamage(firepower, crits[k]), firepower)
    ensures HitsToKill(hp, firepower, crits[k..])
         == 1 + HitsToKill(hp - HitDamage(firepower, crits[k]), firepower, crits[k + 1..])
  {
  }

  /** The hit count of the draws, in terms of the crit chance: between the two
      ceilings, and at one of them when the crit chance is 0 or 100. */
  lemma CritChanceBounds(hp: int, firepower: int, critChance: int, draws: seq<real>)
    requires firepower > 0 && |draws| >= NoCritHits(hp, firepower) && AreDraws(draws) && hp > 0
    ensures var n := HitsToKill(hp, firepower, CritRolls(draws, critChance));
      && CeilDiv(hp, 2 * firepower) <= n <= CeilDiv(hp, firepower)
      && (critChance <= 0 ==> n == CeilDiv(hp, firepower))
      && (100 <= critChance ==> n == CeilDiv(hp, 2 * firepower))
  {
    HitCountBounds(hp, firepower, CritRolls(draws, critChance));
  }

  /** The loop invariant of `RunSimulation` after `k` hits with `left` hp remaining. */
  predicate LoopInvariant(hp: int, firepower: int, crits: seq<bool>, left: int, k: nat) {
    && (left <= 0 || firepower > 0)
    && (hp <= 0 ==> left <= 0 && k == 0)
    && k <= |crits|
    && (firepower > 0 ==> |crits| - k >= NoCritHits(left, firepower))
    && (firepower > 0 && |crits| >= NoCritHits(hp, firepower) ==>
          k + HitsToKill(left, firepower, crits[k..]) == HitsToKill(hp, firepower, crits))
  }

  /** One iteration keeps the loop invariant. */
  lemma LoopInvariantKept(hp: int, firepower: int, crits: seq<bool>, left: int, k: nat)
    requires LoopInvariant(hp, firepower, crits, left, k) && left > 0
    ensures k < |crits|
    ensures LoopInvariant(hp, firepower, crits, left - HitDamage(firepower, crits[k]), k + 1)
  {
    HitsToKillStep(left, firepower, crits, k);
  }

  /** On exit the loop has counted the kill, and the counts meet the ceilings. */
  lemma LoopExit(hp: int, firepower: int, critChance: int, draws: seq<real>, left: int, k: nat)
    requires hp <= 0 || firepower > 0
    requires firepower > 0 ==> |draws| >= NoCritHits(hp, firepower)
    requires AreDraws(draws)
    requires LoopInvariant(hp, firepower, CritRolls(draws, critChance), left, k) && left <= 0
    ensures hp <= 0 ==> k == 0
    ensures firepower > 0 ==> k == HitsToKill(hp, firepower, CritRolls(draws, critChance))
    ensures 0 < hp ==> CeilDiv(hp, 2 * firepower) <= k <= CeilDiv(hp, firepower)
    ensures 0 < hp && critChance <= 0 ==> k == CeilDiv(hp, firepower)
    ensures 0 < hp && 100 <= critChance ==> k == CeilDiv(hp, 2 * firepower)
  {
    if 0 < hp {
      CritChanceBounds(hp, firepower, critChance, draws);
    }
  }

  /** `run_simulation` with its draws given. With hp at most 0 the loop is
      skipped whatever the firepower; otherwise it ends only for positive firepower. */
  method RunSimulation(hp: int, firepower: int, critChance: int, draws: seq<real>) returns (numHits: nat)
    requires hp <= 0 || firepower > 0
    requires firepower > 0 ==> |draws| >= NoCritHits(hp, firepower)
    requires AreDraws(draws)
    ensures hp <= 0 ==> numHits == 0
    ensures firepower > 0 ==> numHits == HitsToKill(hp, firepower, CritRolls(draws, critChance))
    ensures 0 < hp ==> CeilDiv(hp, 2 * firepower) <= numHits <= CeilDiv(hp, firepower)
    ensures 0 < hp && critChance <= 0 ==> numHits == CeilDiv(hp, firepower)
    ensures 0 < hp && 100 <= critChance ==> numHits == CeilDiv(hp, 2 * firepower)
  {
    ghost var crits := CritRolls(draws, critChance);
    var left := hp;
    numHits := 0;
    assert crits[0..] == crits;
    while left > 0
      invariant LoopInvariant(hp, firepower, crits, left, numHits)
      invariant |crits| == |draws|
      decreases left
    {
      LoopInvariantKept(hp, firepower, crits, left, numHits);
      var damage := if draws[numHits] < critChance as real / 100.0 then firepower * 2 else firepower;
      assert damage == HitDamage(firepower, crits[numHits]);
      left := left - damage;
      numHits := numHits + 1;
    }
    LoopExit(hp, firepower, critChance, draws, left, numHits);
  }
}
