/** Saving the entity list as JSON (`MyJSONEncoder`) and loading it back
    (`decode_object_hook`). JSON text itself is not modelled: a document is
    the list of its elements, each `null` or an object. */
module Persistence {
  import opened Wrappers
  import opened Entities
  import opened Battle

  datatype JValue = JStr(s: string) | JInt(i: int)

  datatype Json = JNull | JObject(fields: map<string, JValue>)

  /** What loading yields per element: `None`, an entity, or (for an object
      without a `kind` key) the plain dictionary. */
  datatype Item = NoneItem | Ship(e: CombatEntity) | Dict(fields: map<string, JValue>)

  function AsItem(s: Slot): Item {
    match s
    case Separator => NoneItem
    case Unit(e) => Ship(e)
  }

  function AsItems(fleet: seq<Slot>): (items: seq<Item>)
    ensures |items| == |fleet|
    ensures forall i :: 0 <= i < |fleet| ==> items[i] == AsItem(fleet[i])
  {
    if |fleet| == 0 then [] else [AsItem(fleet[0])] + AsItems(fleet[1..])
  }

  /** `o.dict()`: every field under its Python name. */
  function EncodeEntity(e: CombatEntity): (d: map<string, JValue>)
    ensures d.Keys == DeclaredFields
    ensures "kind" in d
  {
    map[
      "kind" := JStr(e.kind),
      "name" := JStr(e.name),
      "max_hp" := JInt(e.maxHp),
      "max_shields" := JInt(e.maxShields),
      "hp" := JInt(e.hp),
      "shields" := JInt(e.shields),
      "firepower" := JInt(e.firepower),
      "crit_chance" := JInt(e.critChance)
    ]
  }

  function Encode(s: Slot): Json {
    match s
    case Separator => JNull
    case Unit(e) => JObject(EncodeEntity(e))
  }

  /** `json.dump(entities, cls=MyJSONEncoder)`. */
  function Save(fleet: seq<Slot>): (doc: seq<Json>)
    ensures |doc| == |fleet|
    ensures forall i :: 0 <= i < |fleet| ==> (doc[i] == JNull <==> fleet[i].Separator?)
  {
    if |fleet| == 0 then [] else [Encode(fleet[0])] + Save(fleet[1..])
  }

  function GetStr(d: map<string, JValue>, key: string): (r: Result<string, Fault>)
    ensures r.Success? <==> key in d && d[key].JStr?
    ensures r.Success? ==> d[key] == JStr(r.value)
  {
    if key in d && d[key].JStr? then Success(d[key].s) else Failure(ValidationError(key))
  }

  function GetInt(d: map<string, JValue>, key: string): (r: Result<int, Fault>)
    ensures r.Success? <==> key in d && d[key].JInt?
    ensures r.Success? ==> d[key] == JInt(r.value)
  {
    if key in d && d[key].JInt? then Success(d[key].i) else Failure(ValidationError(key))
  }

  /** `CombatEntity.parse_obj`: every declared field must be present with its
      type; extra keys are ignored. */
  function ParseEntity(d: map<string, JValue>): (r: Result<CombatEntity, Fault>)
    ensures r.Success? ==> EncodeEntity(r.value) == map k | k in DeclaredFields && k in d :: d[k]
  {
    var kind :- GetStr(d, "kind");
    var name :- GetStr(d, "name");
    var maxHp :- GetInt(d, "max_hp");
    var maxShields :- GetInt(d, "max_shields");
    var hp :- GetInt(d, "hp");
    var shields :- GetInt(d, "shields");
    var firepower :- GetInt(d, "firepower");
    var critChance :- GetInt(d, "crit_chance");
    Success(CombatEntity(kind, name, maxHp, maxShields, hp, shields, firepower, critChance))
  }

  /** `decode_object_hook`: objects with a `kind` key become entities. */
  function DecodeObject(d: map<string, JValue>): (r: Result<Item, Fault>)
    ensures "kind" !in d ==> r == Success(Dict(d))
    ensures "kind" in d && r.Success? ==> r.value.Ship?
  {
    if "kind" in d then
      var e :- ParseEntity(d);
      Success(Ship(e))
    else
      Success(Dict(d))
  }

  function Decode(j: Json): Result<Item, Fault> {
    match j
    case JNull => Success(NoneItem)
    case JObject(d) => DecodeObject(d)
  }

  /** `json.load(f, object_hook=decode_object_hook)`: the first invalid entity raises. */
  function Load(doc: seq<Json>): (r: Result<seq<Item>, Fault>)
    ensures r.Success? ==> |r.value| == |doc|
  {
    if |doc| == 0 then Success([])
    else
      var head :- Decode(doc[0]);
      var tail :- Load(doc[1..]);
      Success([head] + tail)
  }

  /** One entity survives encoding and parsing unchanged. */
  lemma EntityRoundTrip(e: CombatEntity)
    ensures ParseEntity(EncodeEntity(e)) == Success(e)
  {
  }

  /** Saving and loading reproduces the list: entities field by field, separators as `None`, in order. */
  lemma {:induction false} LoadSaveRoundTrip(fleet: seq<Slot>)
    ensures Load(Save(fleet)) == Success(AsItems(fleet))
  {
    if |fleet| > 0 {
      if fleet[0].Unit? {
        EntityRoundTrip(fleet[0].e);
      }
      LoadSaveRoundTrip(fleet[1..]);
      assert Save(fleet)[1..] == Save(fleet[1..]);
    }
  }
}
