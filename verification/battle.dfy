/** One round of the console loop of util.py: the chosen attacker hits the
    chosen defender, and the defender returns fire if asked and still alive.
    The entity list may hold `None` separators between the two fleets. */
module Battle {
  import opened Wrappers
  import opened Entities
  import opened Damage

  /** An entry of the entity list: a `None` separator or an entity. */
  datatype Slot = Separator | Unit(e: CombatEntity)

  predicate AllValid(fleet: seq<Slot>) {
    forall i :: 0 <= i < |fleet| ==> fleet[i].Unit? ==> Valid(fleet[i].e)
  }

  /** The list `main` starts from when there is no save file. */
  function StarterFleet(): (fleet: seq<Slot>)
    ensures |fleet| == 10
    ensures fleet[5] == Separator
    ensures forall i :: 0 <= i < 10 && i != 5 ==> fleet[i].Unit? && FullHealth(fleet[i].e)
    ensures AllValid(fleet)
  {
    [
      Unit(NewSniper("[A] Sniper #1")),
      Unit(NewDreadnought("[A] Dreadnought #1")),
      Unit(NewScout("[A] Scout #3")),
      Unit(NewScout("[A] Scout #4")),
      Unit(NewDestroyer("[A] Destroyer #2")),
      Separator,
      Unit(NewScout("[D] Scout #1")),
      Unit(NewScout("[D] Scout #2")),
      Unit(NewDestroyer("[D] Destroyer #1")),
      Unit(NewPlanetaryTurret("[D] Planetary Turret"))
    ]
  }

  /** The precondition of a round: both indices were accepted by the prompt
      (they lie in the list) and each entity's volley has enough draws. */
  predicate RoundInputs(fleet: seq<Slot>, atk: nat, def: nat, first: Volley, reply: Volley) {
    && atk < |fleet| && def < |fleet|
    && (fleet[atk].Unit? ==> Covers(first, fleet[atk].e.firepower))
    && (fleet[def].Unit? ==> Covers(reply, fleet[def].e.firepower))
  }

  /** `atk_entity.attack(def_entity)`, then return fire when requested and the
      defender survived. The list is re-read between the two attacks, so an
      entity chosen as both attacker and defender takes both hits. Choosing a
      separator raises on `None`. */
  function Round(fleet: seq<Slot>, atk: nat, def: nat, returnFire: bool, first: Volley, reply: Volley): (r: Result<seq<Slot>, Fault>)
    requires RoundInputs(fleet, atk, def, first, reply)
    ensures r.Success? <==> fleet[atk].Unit? && fleet[def].Unit?
    ensures fleet[atk].Separator? ==> r == Failure(AttributeError("NoneType", "attack"))
    ensures fleet[atk].Unit? && fleet[def].Separator? ==> r == Failure(AttributeError("NoneType", "name"))
    ensures r.Success? ==> |r.value| == |fleet|
    ensures r.Success? ==> forall i :: 0 <= i < |fleet| && i != atk && i != def ==> r.value[i] == fleet[i]
    ensures r.Success? ==> forall i :: 0 <= i < |fleet| ==> r.value[i].Unit? == fleet[i].Unit?
    ensures r.Success? && AllValid(fleet) ==> AllValid(r.value)
  {
    if fleet[atk].Separator? then Failure(AttributeError("NoneType", "attack"))
    else if fleet[def].Separator? then Failure(AttributeError("NoneType", "name"))
    else
      var hit := Attack(fleet[atk].e, fleet[def].e, first);
      var afterFirst := fleet[def := Unit(hit)];
      if returnFire && hit.hp > 0 then
        var counter := Attack(hit, afterFirst[atk].e, reply);
        Success(afterFirst[atk := Unit(counter)])
      else
        Success(afterFirst)
  }

  /** With distinct attacker and defender: the defender takes the attacker's
      firepower once, and the attacker is touched only if return fire was asked
      for and the defender is still alive, in which case it takes the
      defender's firepower. */
  lemma RoundDistinct(fleet: seq<Slot>, atk: nat, def: nat, returnFire: bool, first: Volley, reply: Volley)
    requires RoundInputs(fleet, atk, def, first, reply)
    requires atk != def && fleet[atk].Unit? && fleet[def].Unit?
    ensures var r := Round(fleet, atk, def, returnFire, first, reply);
      var hit := TakeDamage(fleet[def].e, fleet[atk].e.firepower, first);
      && r.Success?
      && r.value[def] == Unit(hit)
      && (returnFire && hit.hp > 0 ==>
            r.value[atk] == Unit(TakeDamage(fleet[atk].e, fleet[def].e.firepower, reply)))
      && (!(returnFire && hit.hp > 0) ==> r.value[atk] == fleet[atk])
  {
  }

  /** An entity that attacks itself takes its own firepower, and takes it again
      when return fire was asked for and it survived the first hit. */
  lemma RoundSelfTarget(fleet: seq<Slot>, i: nat, returnFire: bool, first: Volley, reply: Volley)
    requires RoundInputs(fleet, i, i, first, reply)
    requires fleet[i].Unit?
    ensures var r := Round(fleet, i, i, returnFire, first, reply);
      var e := fleet[i].e;
      var once := TakeDamage(e, e.firepower, first);
      && r.Success?
      && r.value[i] == Unit(if returnFire && once.hp > 0 then TakeDamage(once, e.firepower, reply) else once)
  {
  }

  /** A destroyed attacker still deals damage: nothing checks its hp before the first attack. */
  lemma DestroyedAttackerStillHits(fleet: seq<Slot>, atk: nat, def: nat, first: Volley, reply: Volley)
    requires RoundInputs(fleet, atk, def, first, reply)
    requires atk != def && fleet[atk].Unit? && fleet[def].Unit?
    requires Destroyed(fleet[atk].e) && Valid(fleet[def].e) && fleet[def].e.hp > 0
    requires first.bigShot && first.lands[0] && fleet[atk].e.firepower > 0
    ensures var r := Round(fleet, atk, def, false, first, reply);
      r.Success? && r.value[def].e.hp + r.value[def].e.shields < fleet[def].e.hp + fleet[def].e.shields
  {
  }
}
