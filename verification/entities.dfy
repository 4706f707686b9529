/** The combat entity record of util.py and its factory presets. */
module Entities {
  import opened Wrappers

  /** A ship, turret or structure that can attack and take damage.
      Every field is a Python `int` or `str`, so nothing here is bounded. */
  datatype CombatEntity = CombatEntity(
    kind: string,
    name: string,
    maxHp: int,
    maxShields: int,
    hp: int,
    shields: int,
    firepower: int,
    critChance: int
  )

  /** The intended state invariant; the record itself does not enforce it.
      `0 <= firepower` is this model's own addition: the source states no
      bound on firepower anywhere. */
  predicate Valid(e: CombatEntity) {
    && 0 <= e.hp <= e.maxHp
    && 0 <= e.shields <= e.maxShields
    && 0 <= e.firepower
    && 0 <= e.critChance <= 100
  }

  predicate FullHealth(e: CombatEntity) {
    e.hp == e.maxHp && e.shields == e.maxShields
  }

  /** Destroyed entities are only reported, never removed. */
  predicate Destroyed(e: CombatEntity) {
    e.hp <= 0
  }

  /** `CombatEntity.new_ship`: the given stats become both the maximum and the current values. */
  function NewShip(kind: string, name: string, hp: int, shields: int, firepower: int, critChance: int): (e: CombatEntity)
    ensures FullHealth(e)
    ensures e.maxHp == hp && e.maxShields == shields
    ensures e.kind == kind && e.name == name && e.firepower == firepower && e.critChance == critChance
    ensures 0 <= hp && 0 <= shields && 0 <= firepower && 0 <= critChance <= 100 ==> Valid(e)
  {
    CombatEntity(kind, name, hp, shields, hp, shields, firepower, critChance)
  }

  /** The stat block of a preset: maximum hp, maximum shields, firepower, crit chance. */
  datatype Stats = Stats(hp: int, shields: int, firepower: int, critChance: int)

  predicate HasStats(e: CombatEntity, kind: string, name: string, s: Stats) {
    && e.kind == kind && e.name == name
    && e.maxHp == s.hp && e.maxShields == s.shields
    && e.firepower == s.firepower && e.critChance == s.critChance
    && FullHealth(e)
  }

  function NewScout(name: string): (e: CombatEntity)
    ensures HasStats(e, "scout", name, Stats(8, 2, 4, 0)) && Valid(e)
  {
    NewShip("scout", name, 8, 2, 4, 0)
  }

  function NewDestroyer(name: string): (e: CombatEntity)
    ensures HasStats(e, "destroyer", name, Stats(12, 6, 6, 0)) && Valid(e)
  {
    NewShip("destroyer", name, 12, 6, 6, 0)
  }

  function NewSniper(name: string): (e: CombatEntity)
    ensures HasStats(e, "sniper", name, Stats(5, 0, 10, 0)) && Valid(e)
  {
    NewShip("sniper", name, 5, 0, 10, 0)
  }

  function NewDreadnought(name: string): (e: CombatEntity)
    ensures HasStats(e, "dreadnought", name, Stats(30, 10, 8, 0)) && Valid(e)
  {
    NewShip("dreadnought", name, 30, 10, 8, 0)
  }

  function NewPlanetaryTurret(name: string): (e: CombatEntity)
    ensures HasStats(e, "planetary_turret", name, Stats(25, 0, 8, 0)) && Valid(e)
  {
    NewShip("planetary_turret", name, 25, 0, 8, 0)
  }

  /** A Python exception that ends the script. */
  datatype Fault =
    | AttributeError(owner: string, attribute: string)
    | ValidationError(field: string)

  /** The attribute names a `CombatEntity` declares. */
  const DeclaredFields: set<string> :=
    {"kind", "name", "max_hp", "max_shields", "hp", "shields", "firepower", "crit_chance"}

  datatype AttrValue = IntAttr(i: int) | StrAttr(s: string)

  /** The attributes `take_damage` reads that the record does not declare. */
  const UndeclaredReads: set<string> := {"dodge_chance", "big_shot"}

  /** Python attribute access `e.<attribute>` on the pydantic record, for its
      data fields. Methods and inherited attributes are not modelled. */
  function GetAttr(e: CombatEntity, attribute: string): (r: Result<AttrValue, Fault>)
    ensures attribute in DeclaredFields ==> r.Success?
    ensures attribute == "hp" ==> r == Success(IntAttr(e.hp))
    ensures attribute == "shields" ==> r == Success(IntAttr(e.shields))
    ensures attribute == "firepower" ==> r == Success(IntAttr(e.firepower))
    ensures r.Failure? ==> r.error == AttributeError("CombatEntity", attribute)
  {
    match attribute
    case "kind" => Success(StrAttr(e.kind))
    case "name" => Success(StrAttr(e.name))
    case "max_hp" => Success(IntAttr(e.maxHp))
    case "max_shields" => Success(IntAttr(e.maxShields))
    case "hp" => Success(IntAttr(e.hp))
    case "shields" => Success(IntAttr(e.shields))
    case "firepower" => Success(IntAttr(e.firepower))
    case "crit_chance" => Success(IntAttr(e.critChance))
    case _ => Failure(AttributeError("CombatEntity", attribute))
  }

  /** Reading either undeclared attribute raises AttributeError. */
  lemma UndeclaredReadsRaise(e: CombatEntity, attribute: string)
    requires attribute in UndeclaredReads
    ensures GetAttr(e, attribute) == Failure(AttributeError("CombatEntity", attribute))
  {
  }
}
