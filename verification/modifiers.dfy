/** The (attacker, defender) attack-modifier table of util.py and its lookup. */
module Modifiers {
  import opened Entities

  /** Whether the attacker's attack is strong, weak or balanced against the defender. */
  datatype Modifier = Strong | Weak | Balanced

  /** A Python dictionary key as used with the table: either a string (an entity
      kind) or a class object, identified by its class name. */
  datatype PyKey = Str(s: string) | Type(className: string)

  /** The listed entries; every other pair falls back to `Balanced`. */
  const AttackModifiers: map<(PyKey, PyKey), Modifier> := map[
    (Str("scout"), Str("sniper")) := Strong,
    (Str("sniper"), Str("scout")) := Weak,
    (Str("scout"), Str("dreadnought")) := Strong,
    (Str("dreadnought"), Str("scout")) := Weak,
    (Str("scout"), Str("planetary_turret")) := Strong,
    (Str("planetary_turret"), Str("scout")) := Weak,
    (Str("sniper"), Str("dreadnought")) := Strong,
    (Str("dreadnought"), Str("sniper")) := Weak,
    (Str("dreadnought"), Str("destroyer")) := Strong,
    (Str("destroyer"), Str("dreadnought")) := Weak
  ]

  /** The kind pairs in which the attacker is strong. */
  const StrongPairs: set<(string, string)> := {
    ("scout", "sniper"),
    ("scout", "dreadnought"),
    ("scout", "planetary_turret"),
    ("sniper", "dreadnought"),
    ("dreadnought", "destroyer")
  }

  /** Indexing the `defaultdict`: a missing key yields its default. */
  function Lookup(attacker: PyKey, defender: PyKey): (m: Modifier)
    ensures (attacker, defender) !in AttackModifiers ==> m == Balanced
    ensures (attacker, defender) in AttackModifiers ==> m == AttackModifiers[(attacker, defender)]
  {
    if (attacker, defender) in AttackModifiers then AttackModifiers[(attacker, defender)] else Balanced
  }

  /** The intended lookup: keyed by the two entities' kind strings. */
  function ModifierFor(attacker: CombatEntity, defender: CombatEntity): (m: Modifier)
    ensures m == Strong <==> (attacker.kind, defender.kind) in StrongPairs
    ensures m == Weak <==> (defender.kind, attacker.kind) in StrongPairs
  {
    Lookup(Str(attacker.kind), Str(defender.kind))
  }

  /** The lookup as written: keyed by `type(attacker)` and `type(self)`, which for
      every entity is the class `CombatEntity`. */
  function ModifierAsWritten(attacker: CombatEntity, defender: CombatEntity): Modifier {
    Lookup(Type("CombatEntity"), Type("CombatEntity"))
  }

  /** The table lists exactly the strong pairs and their mirrors, and nothing
      keyed by anything other than kind strings. */
  lemma StrongExactlyOnListedPairs(a: string, b: string)
    ensures Lookup(Str(a), Str(b)) == Strong <==> (a, b) in StrongPairs
    ensures Lookup(Str(a), Str(b)) == Weak <==> (b, a) in StrongPairs
  {
  }

  /** Every listed `(a, b) = strong` is mirrored by `(b, a) = weak` and vice versa. */
  lemma StrongMirrorsWeak(a: PyKey, b: PyKey)
    ensures Lookup(a, b) == Strong <==> Lookup(b, a) == Weak
  {
  }

  /** No key is listed against itself. */
  lemma SelfIsBalanced(a: PyKey)
    ensures Lookup(a, a) == Balanced
  {
  }

  /** Class-object keys never occur in the table. */
  lemma TypeKeysAreBalanced(a: PyKey, b: PyKey)
    requires a.Type? || b.Type?
    ensures Lookup(a, b) == Balanced
  {
  }

  /** As written, every lookup returns the default, whatever the kinds. */
  lemma AsWrittenAlwaysBalanced(attacker: CombatEntity, defender: CombatEntity)
    ensures ModifierAsWritten(attacker, defender) == Balanced
  {
  }

  /** A scout attacking a sniper: strong as intended, balanced as written. */
  lemma ScoutVersusSniperDiffers(attacker: CombatEntity, defender: CombatEntity)
    requires attacker.kind == "scout" && defender.kind == "sniper"
    ensures ModifierFor(attacker, defender) == Strong
    ensures ModifierAsWritten(attacker, defender) == Balanced
    ensures ModifierFor(attacker, defender) != ModifierAsWritten(attacker, defender)
  {
  }
}
