# Combat entity and hits-to-kill model

A Dafny model of the two pieces of integer logic in a hobby space-strategy
game's scripts:

- **util.py**: the `CombatEntity` record and its five factory presets. It also
  covers the `ATTACK_MODIFIERS` table, keyed by (attacker kind, defender kind)
  with `'balanced'` as the fallback. The model follows damage resolution
  (`take_damage`, `attack`): decide how much incoming damage lands, let shields
  absorb it first, take the overflow off hp and clamp hp at 0. It also models
  one round of the console loop, where the attacker hits the defender and the
  defender returns fire if asked and still alive, and the JSON save/load of the
  entity list.
- **damage_table.py**: `run_simulation`, which counts the hits needed to bring
  a defender's hp to 0 or below. Each hit deals `firepower`, or `2 * firepower`
  on a crit.

Randomness is passed in as parameters. A `Volley` holds an attack's dodge
outcomes: one per damage point, or a single one in big-shot mode. The dodge
module builds these outcomes from uniform draws in [0, 1) and the
modifier-adjusted dodge chance. `RunSimulation` takes its crit draws as a
sequence of reals in [0, 1).

Modules: `Wrappers` (the `Result` type), `Entities` (the record, its presets
and attribute access), `Modifiers` (the table), `Damage` (take_damage and
attack), `Dodge` (the dodge-chance adjustment), `Battle` (the entity list and
one round), `Persistence` (save and load) and `DamageTable` (run_simulation).

A comment at damage_table.py:11 says a strong attacker gets +40% crit chance.
util.py does not do this, and the model follows util.py. There, the modifier
changes the defender's dodge chance, and each damage point (or the whole big
shot) is rolled against that chance. The entity field `crit_chance` is stored
and saved but never read. damage_table.py never builds an entity:
`run_simulation` takes its own `crit_chance` parameter
(damage_table.py:10).

No field is range-checked in the source. The model keeps every field an
unbounded integer and handles out-of-range values as the code does. For
example, a big shot with negative firepower raises shields, because
`min(actual_damage, shields)` is then negative. The "never rises" and
validity-preserving contracts are therefore stated for non-negative damage.

## Model

| member | source | states |
|---|---|---|
| Entities.NewShip | util.py:23-33 | a new entity is at full health (hp = max_hp, shields = max_shields) and keeps the given kind, name, firepower and crit chance; it is valid when the stats are in range |
| Entities.NewScout | util.py:74-75 | scout preset: 8 hp, 2 shields, 4 firepower, 0 crit, full health and valid |
| Entities.NewDestroyer | util.py:77-78 | destroyer preset: 12 hp, 6 shields, 6 firepower, 0 crit, full health and valid |
| Entities.NewSniper | util.py:80-81 | sniper preset: 5 hp, 0 shields, 10 firepower, 0 crit, full health and valid |
| Entities.NewDreadnought | util.py:83-84 | dreadnought preset: 30 hp, 10 shields, 8 firepower, 0 crit, full health and valid |
| Entities.NewPlanetaryTurret | util.py:86-87 | planetary turret preset: 25 hp, 0 shields, 8 firepower, 0 crit, full health and valid |
| Entities.GetAttr | util.py:13-20 | reading any of the eight declared fields succeeds, with hp, shields and firepower giving the entity's values; a failed read is an AttributeError naming the attribute |
| Entities.UndeclaredReadsRaise | util.py:38-45 | reading `dodge_chance` or `big_shot`, which the record does not declare, raises AttributeError |
| Modifiers.Lookup | util.py:92-107 | a pair missing from the table yields balanced; a listed pair yields its entry |
| Modifiers.ModifierFor | util.py:36 | the intended kind-keyed lookup is strong exactly when (attacker kind, defender kind) is one of the five strong pairs, and weak exactly when the reversed pair is |
| Modifiers.StrongExactlyOnListedPairs | util.py:92-107 | on kind strings, the lookup is strong exactly on the five listed strong pairs and weak exactly on their mirrors |
| Modifiers.StrongMirrorsWeak | util.py:92-107 | for every pair of keys, (a, b) is strong if and only if (b, a) is weak |
| Modifiers.SelfIsBalanced | util.py:92-107 | no key is listed against itself, so self-matchups are balanced |
| Modifiers.TypeKeysAreBalanced | util.py:36 | a key that is a class object is never in the table, so such a lookup yields balanced |
| Modifiers.AsWrittenAlwaysBalanced | util.py:36 | the as-written lookup keyed by `type(...)` returns balanced for every attacker and defender |
| Modifiers.ScoutVersusSniperDiffers | util.py:36 | scout against sniper is strong under the kind-keyed lookup but balanced as written |
| Damage.CountTrue | util.py:51-54 | the count of landed points is at most the number of draws; it equals that number if and only if every draw lands, and is 0 if and only if none does |
| Damage.LandedDamage | util.py:45-54 | landed damage lies between 0 and the incoming damage; a big shot lands all or nothing, and all of it exactly when its one draw lands; per point, all of it lands exactly when every draw lands and none exactly when no draw lands |
| Damage.ApplyDamage | util.py:57-64 | shields end at max(shields - landed, 0) and hp at max(hp - overflow, 0); hp falls only after shields are empty; together they absorb min(landed, shields + hp); only hp and shields change; validity is kept |
| Damage.TakeDamage | util.py:35-64 | hp is never negative afterwards; hp and shields never rise; at most the incoming damage is absorbed; a dodged big shot changes nothing; only hp and shields change; validity is kept |
| Damage.Attack | util.py:66-68 | the defender takes the attacker's firepower as incoming damage: it loses at most that much, stays valid, and is untouched when firepower is 0 |
| Damage.ApplyDamageAdditive | util.py:57-64 | applying landed damage a and then b is the same as applying a + b at once |
| Damage.ApplyDamageMonotone | util.py:57-64 | more landed damage never leaves more hp or more shields |
| Damage.ShieldAbsorptionExample | util.py:57-64 | shields 6 and hp 10 taking 8 landed points end at shields 0 and hp 8, per point or as one big shot |
| Damage.OverkillClampsAtZero | util.py:60-64 | landed damage at least shields + hp leaves exactly hp 0 and shields 0 |
| Damage.TakeDamageAsWrittenAlwaysRaises | util.py:35-45 | as written, every call of take_damage raises AttributeError on `dodge_chance` before any damage is applied |
| Dodge.EffectiveDodge | util.py:37-42 | a dodge probability stays a probability; strong halves it, weak halves the chance of being hit, balanced keeps it |
| Dodge.Outcomes | util.py:46-53 | a draw lands exactly when it is at least the effective dodge chance |
| Dodge.DrawVolley | util.py:36-53 | the volley keeps the big-shot mode and has one outcome per draw; a draw lands at the dodge chance when balanced, at half of it when strong, and at (1 + dodge) / 2 when weak |
| Dodge.CountTrueMonotone | util.py:51-54 | if every point that lands in one outcome sequence also lands in another, the second lands at least as many points |
| Dodge.LowerDodgeLandsMore | util.py:45-54 | with the same draws, a lower dodge chance lands at least as much damage |
| Dodge.ModifierOrdersLandedDamage | util.py:36-54 | with the same draws, a weak attack lands no more than a balanced one, and a balanced one no more than a strong one |
| Dodge.StrongAttackHitsHarder | util.py:35-68 | a strong attacker leaves the defender with no more hp or shields than the unadjusted dodge chance would |
| Battle.StarterFleet | util.py:128-142 | the default list has ten entries, a separator at index 5 and nine valid full-health entities |
| Battle.Round | util.py:170-179 | a round succeeds exactly when both chosen entries are entities; choosing a separator raises AttributeError; entries other than the two chosen ones are unchanged; validity of the whole list is kept |
| Battle.RoundDistinct | util.py:176-179 | for distinct entries, the defender takes the attacker's firepower; the attacker changes only under requested return fire with a surviving defender, and then takes the defender's firepower |
| Battle.RoundSelfTarget | util.py:170-179 | an entity chosen as both attacker and defender takes its own firepower, and takes it again if return fire was requested and it survived |
| Battle.DestroyedAttackerStillHits | util.py:176 | an attacker already at hp 0 still damages a living defender: nothing checks the attacker's hp |
| Persistence.EncodeEntity | util.py:110-116 | the encoded object has exactly the eight declared field names as keys |
| Persistence.Save | util.py:153-154 | the document has one element per list entry, `null` exactly at the separators |
| Persistence.ParseEntity | util.py:118-121 | a parsed entity re-encodes to the declared-field part of its source object |
| Persistence.DecodeObject | util.py:118-121 | an object without `kind` is returned as the plain dictionary; an object with `kind` that decodes becomes an entity |
| Persistence.Load | util.py:145-146 | a successful load yields one item per document element |
| Persistence.EntityRoundTrip | util.py:110-121 | parsing an encoded entity gives back the same entity |
| Persistence.LoadSaveRoundTrip | util.py:145-154 | loading a saved list gives back the list: same order, entities field by field, separators as `None` |
| DamageTable.CritRolls | damage_table.py:14 | a draw is a crit exactly when it is below crit_chance/100; for draws in [0, 1), crit chance 0 or less never crits and 100 or more always crits |
| DamageTable.NoCritHitsMonotone | damage_table.py:12-17 | more hp never needs fewer no-crit hits |
| DamageTable.HitsToKill | damage_table.py:12-17 | the count is 0 exactly when hp is at most 0; it lies between the all-crit and no-crit counts; with no crits it equals the no-crit count, and with only crits the all-crit count |
| DamageTable.LastHitIsKillingBlow | damage_table.py:13-16 | each hit subtracts exactly firepower or twice firepower; hp is still positive before the last counted hit and at most 0 after it |
| DamageTable.NoCritHitsIsCeil | damage_table.py:12-17 | for hp > 0, the no-crit hit count is the ceiling of hp / firepower |
| DamageTable.HitCountBounds | damage_table.py:12-17 | for hp > 0, hits lie between ceil(hp / (2 * firepower)) and ceil(hp / firepower), reaching each bound when every hit, or no hit, is a crit |
| DamageTable.CritChanceBounds | damage_table.py:12-17 | for hp > 0, the hit count of the draws lies between the two ceilings, and is ceil(hp / firepower) at crit chance 0 or less and ceil(hp / (2 * firepower)) at 100 or more |
| DamageTable.HitsToKillStep | damage_table.py:13-16 | one loop iteration: a hit with the next crit outcome, then the rest of the count, with enough outcomes left |
| DamageTable.RunSimulation | damage_table.py:10-17 | the loop returns 0 when hp is at most 0, whatever the firepower; for positive firepower it returns the modelled hit count, and for hp > 0 it lies between ceil(hp / (2 * firepower)) and ceil(hp / firepower); exactly ceil(hp / firepower) at crit chance 0 or less, and ceil(hp / (2 * firepower)) at 100 or more |

## Left out

- Console I/O is not modelled, because none of it changes entity state. This covers the status display with ANSI colours, the `input` prompts and `get_number`'s re-prompting (util.py:156-194). The model takes the chosen indices and the return-fire answer as parameters. `Battle.Round` requires the indices to be in range, which is what `get_number` guarantees.
- The file system is not modelled: opening, reading and writing `data.json` (util.py:144-154). `Battle.StarterFleet` is the fallback list used when there is no save file. `Persistence.Save`/`Load` work on the already-parsed JSON document, not on text.
- `random.random()` is not modelled. Its draws are parameters: `Volley` holds the dodge outcomes, `Dodge.Outcomes` maps reals in [0, 1) to outcomes, and `RunSimulation` takes its crit draws. The draws are assumed to lie in [0, 1).
- Floating point is not modelled. The dodge-chance adjustment (util.py:37-42) and the crit threshold `crit_chance / 100` (damage_table.py:14) use exact reals, without IEEE rounding.
- Log messages (`print`) are left out, including the "destroyed" message. The model has no destroyed flag beyond hp 0, and neither does the code.
- `avg_damage`, `get_avg_hits`, the numpy statistics and the matplotlib plots (damage_table.py:6-8, 19-68) are left out: they are float means over random runs plus plotting.
- random_market.py is not part of this model. It only samples random offers and prints them.
- Dictionaries without a `kind` key are not modelled past loading. `Persistence.Load` returns them as `Dict` items, and what the console loop then does with them is left out.
- Persistence.ParseEntity: parsing is strict. A field must be present with exactly its JSON type, and the error names the first failing field in declaration order. pydantic's type coercion (for example the string "5" into an int field) and its error report listing every failing field are not modelled.
- Entities.GetAttr: only data fields are modelled. Methods such as `attack` and `take_damage`, and attributes inherited from pydantic's `BaseModel` such as `dict` and `copy`, resolve in Python but yield AttributeError here. The model only reads the declared fields and the two undeclared names in `take_damage`.
- Damage.LandedDamage: requires one outcome per roll (`Covers`, with the count given by `NeededDraws`). The random source never runs out, but an outcome sequence can, so the model states how many outcomes are needed.
- DamageTable.RunSimulation: requires `hp <= 0 || firepower > 0`, because with firepower 0 or less and hp > 0 the loop never terminates. For positive firepower it also requires one draw per hit of the slowest (no-crit) kill.
- DamageTable.HitsToKill: requires `firepower > 0` and enough crit outcomes, for the same reasons as `RunSimulation`.

## Findings

| source | as written | input that shows it | evidently intended | confidence | as-written member | corrected member |
|---|---|---|---|---|---|---|
| util.py:36 | the modifier lookup is keyed by `(type(attacker), type(self))`, which is always `(CombatEntity, CombatEntity)`, but the table is keyed by kind strings | a scout attacking a sniper: the lookup yields `'balanced'`, not `'strong'` | key the lookup on the two kinds | high; not executed | Modifiers.ModifierAsWritten, proved always balanced by Modifiers.AsWrittenAlwaysBalanced and Modifiers.ScoutVersusSniperDiffers | Modifiers.ModifierFor, with Modifiers.StrongExactlyOnListedPairs and Modifiers.ScoutVersusSniperDiffers |
| util.py:38-45 | `take_damage` reads `self.dodge_chance` and `attacker.big_shot`, but `CombatEntity` declares neither field (util.py:13-20) | any call, for example a scout attacking a sniper: AttributeError on `dodge_chance` before any damage is applied | the dodge chance and the big-shot mode are inputs to the attack | high; not executed | Damage.TakeDamageAsWritten, proved always to raise by Damage.TakeDamageAsWrittenAlwaysRaises | Damage.TakeDamage (dodge outcomes and big-shot mode as a `Volley`), with Dodge.EffectiveDodge and Dodge.DrawVolley for the dodge chance |
