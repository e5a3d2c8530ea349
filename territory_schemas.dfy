/** Territory rule schemas (`assets/js/territorySchemas.js`): base defaults, named
    presets, the three-layer merge that resolves an income or recruit property, gang
    overrides on a copy of a territory, and validation. Objects are maps from keys to
    JSON values; a spread `{ ...a, ...b }` is the map union in which `b` wins. */
module TerritorySchemas {
  import opened Common
  import opened JsText

  datatype Json =
    | JNull
    | JBool(b: bool)
    | JNum(n: int)
    | JStr(s: string)
    | JArr(items: seq<Json>)
    | JObj(fields: map<string, Json>)

  type Object = map<string, Json>

  /** JavaScript truthiness. */
  predicate Truthy(j: Json) {
    match j
    case JNull => false
    case JBool(b) => b
    case JNum(n) => n != 0
    case JStr(s) => s != ""
    case _ => true
  }

  /** `o[key]` is truthy (an absent key is `undefined`). */
  predicate Has(o: Object, key: string) {
    key in o && Truthy(o[key])
  }

  /** `o[key]`, `None` for `undefined`. */
  function Get(o: Object, key: string): (r: Option<Json>)
    ensures r.Some? <==> key in o
    ensures r.Some? ==> r.value == o[key]
  {
    if key in o then Some(o[key]) else None
  }

  /** `j.key` for any value: only an object has own fields. */
  function Field(j: Json, key: string): (r: Option<Json>)
    ensures r.Some? <==> j.JObj? && key in j.fields
  {
    if j.JObj? then Get(j.fields, key) else None
  }

  /** The string a template literal or a property key makes of a value. */
  function ToJsString(j: Json): string
    decreases j
  {
    match j
    case JNull => "null"
    case JBool(b) => if b then "true" else "false"
    case JNum(n) => IntToString(n)
    case JStr(s) => s
    case JArr(items) =>
      Join(seq(|items|, i requires 0 <= i < |items| => if items[i].JNull? then "" else ToJsString(items[i])), ',')
    case JObj(_) => "[object Object]"
  }

  /** `${v}` for a field that may be `undefined`. */
  function FieldText(v: Option<Json>): string {
    if v.None? then "undefined" else ToJsString(v.value)
  }

  /** The own enumerable entries a spread copies from a string: one per character, keyed
      by its index, from index `i` on. */
  function SpreadChars(s: string, i: nat): (r: Object)
    requires i <= |s|
    decreases |s| - i
  {
    if i == |s| then map[] else SpreadChars(s, i + 1)[NatToString(i) := JStr([s[i]])]
  }

  /** The same for an array: one entry per element, keyed by its index. */
  function SpreadItems(items: seq<Json>, i: nat): (r: Object)
    requires i <= |items|
    decreases |items| - i
  {
    if i == |items| then map[] else SpreadItems(items, i + 1)[NatToString(i) := items[i]]
  }

  /** What `...v` copies: an object's fields, a string's characters, an array's items;
      a number or boolean copies nothing. */
  function Spread(j: Json): (r: Object)
    ensures j.JObj? ==> r == j.fields
    ensures j.JNull? || j.JBool? || j.JNum? ==> r == map[]
  {
    match j
    case JObj(fields) => fields
    case JStr(s) => SpreadChars(s, 0)
    case JArr(items) => SpreadItems(items, 0)
    case _ => map[]
  }

  /** `{ ...a, ...b }`: every key of either, with `b`'s value where both have one. */
  function Merge(a: Object, b: Object): (r: Object)
    ensures r.Keys == a.Keys + b.Keys
    ensures forall k :: k in r ==> r[k] == (if k in b then b[k] else a[k])
  {
    a + b
  }

  const IncomeBase: Object :=
    map["count" := JNum(1), "sides" := JNum(6), "multiplier" := JNum(10), "addition" := JNum(0)]

  const RecruitOutcomes: Object :=
    map["0" := JStr("No new recruits."),
        "1" := JStr("Recruit a juve for free."),
        "2" := JStr("Recruit either two juves or one ganger for free.")]

  const RecruitBase: Object :=
    map["count" := JNum(2), "sides" := JNum(6), "target" := JNum(6), "outcomes" := JObj(RecruitOutcomes)]

  const IncomeSchemas: map<string, Object> :=
    map["standard" := map[],
        "withDuplicateEvent" := map["count" := JNum(2), "event" := JObj(map["trigger" := JStr("hasDuplicates")])],
        "userDefinedNumber" := map["count_min" := JNum(0), "count_max" := JNum(100)],
        "deckBased" := map["draw_from_deck" := JNum(1)]]

  const RecruitSchemas: map<string, Object> := map["standard" := map[]]

  /** `getIncomeSchema(schemaName)`: the preset, or no defaults for an unknown name. */
  function GetIncomeSchema(name: string): (r: Object)
    ensures name in IncomeSchemas ==> r == IncomeSchemas[name]
    ensures name !in IncomeSchemas ==> r == map[]
  {
    if name in IncomeSchemas then IncomeSchemas[name] else map[]
  }

  /** `getRecruitSchema(schemaName)` */
  function GetRecruitSchema(name: string): (r: Object)
    ensures name in RecruitSchemas ==> r == RecruitSchemas[name]
    ensures name !in RecruitSchemas ==> r == map[]
  {
    if name in RecruitSchemas then RecruitSchemas[name] else map[]
  }

  /** The base defaults of a schema type: income for `'income'`, recruit for any other. */
  function BaseDefaults(schemaType: string): (r: Object)
    ensures schemaType == "income" ==> r == IncomeBase
    ensures schemaType != "income" ==> r == RecruitBase
  {
    if schemaType == "income" then IncomeBase else RecruitBase
  }

  /** The preset a property selects: none without a truthy `schema`, otherwise the
      named preset of its type (none for an unknown name). */
  function Preset(property: Json, schemaType: string): (r: Object)
    ensures !(Field(property, "schema").Some? && Truthy(Field(property, "schema").value)) ==> r == map[]
  {
    var schema := Field(property, "schema");
    if schema.Some? && Truthy(schema.value) then
      var name := ToJsString(schema.value);
      if schemaType == "income" then GetIncomeSchema(name) else GetRecruitSchema(name)
    else map[]
  }

  /** `resolveProperty(property, schemaType)`: `null` for a falsy property; otherwise the
      per-key merge of the base defaults, then the preset, then the property's own
      fields, each layer winning over the ones before it. */
  function ResolveProperty(property: Json, schemaType: string): (r: Json)
    ensures r.JNull? <==> !Truthy(property)
    ensures Truthy(property) ==> (r.JObj? &&
      r.fields.Keys == BaseDefaults(schemaType).Keys + Preset(property, schemaType).Keys + Spread(property).Keys)
    ensures Truthy(property) ==> forall k :: k in r.fields ==>
      r.fields[k] == (if k in Spread(property) then Spread(property)[k]
                      else if k in Preset(property, schemaType) then Preset(property, schemaType)[k]
                      else BaseDefaults(schemaType)[k])
  {
    if !Truthy(property) then JNull
    else JObj(Merge(Merge(BaseDefaults(schemaType), Preset(property, schemaType)), Spread(property)))
  }

  /** An unknown schema name merges like no schema at all: base defaults, then the
      property. */
  lemma UnknownSchemaIsEmptyPreset(property: Json, schemaType: string)
    requires Truthy(property) && Field(property, "schema").Some?
    requires var name := ToJsString(Field(property, "schema").value);
      if schemaType == "income" then name !in IncomeSchemas else name !in RecruitSchemas
    ensures ResolveProperty(property, schemaType) == JObj(Merge(BaseDefaults(schemaType), Spread(property)))
  {
    assert Preset(property, schemaType) == map[];
    assert Merge(BaseDefaults(schemaType), map[]) == BaseDefaults(schemaType);
  }

  /** A property that sets every key of the base and the preset itself wins everywhere:
      an object property with all those keys resolves to its own fields. */
  lemma OwnFieldsWin(fields: Object, schemaType: string)
    requires BaseDefaults(schemaType).Keys <= fields.Keys
    requires Preset(JObj(fields), schemaType).Keys <= fields.Keys
    ensures ResolveProperty(JObj(fields), schemaType) == JObj(fields)
  {
    var r := ResolveProperty(JObj(fields), schemaType);
    assert r.fields.Keys == fields.Keys;
  }

  /** The fields a gang can override without schema resolution. */
  const PlainOverrides: seq<string> := ["reputation", "battle_special_rules", "fixed_recruit", "fixed_gear"]

  /** Every key `resolveTerritory` may write. */
  const WrittenKeys: set<string> :=
    {"income", "random_recruit", "reputation", "battle_special_rules", "fixed_recruit", "fixed_gear"}

  /** The gang-suffixed key `${prop}_${gangId}`. */
  function GangKey(prop: string, gangId: string): string
  {
    prop + "_" + gangId
  }

  /** The value `resolveTerritory(territory, gangId)` leaves under `key` (`None` for
      absent), read key by key off the input; `gangId` is "" when none is given. */
  function ResolvedValue(territory: Object, gangId: string, key: string): Option<Json> {
    if key == "income" then
      if gangId != "" && Has(territory, GangKey("income", gangId)) then
        Some(ResolveProperty(territory[GangKey("income", gangId)], "income"))
      else if Has(territory, "income") then Some(ResolveProperty(territory["income"], "income"))
      else Get(territory, key)
    else if key == "random_recruit" then
      if gangId != "" && Has(territory, GangKey("random_recruit", gangId)) then
        Some(ResolveProperty(territory[GangKey("random_recruit", gangId)], "recruit"))
      else if Has(territory, "random_recruit") then Some(ResolveProperty(territory["random_recruit"], "recruit"))
      else Get(territory, key)
    else if key in PlainOverrides && gangId != "" && Has(territory, GangKey(key, gangId)) then
      Some(territory[GangKey(key, gangId)])
    else Get(territory, key)
  }

  /** A gang-suffixed key is none of the keys `resolveTerritory` writes, so every override
      is read from the input's own value. */
  lemma GangKeysAreNotWritten(gangId: string, prop: string)
    requires gangId != "" && prop in WrittenKeys
    ensures GangKey(prop, gangId) !in WrittenKeys
  {
    var k := GangKey(prop, gangId);
    assert |k| >= |prop| + 2;
    assert k[0] == prop[0] && k[1] == prop[1];
    assert k[6] == if |prop| > 6 then prop[6] else '_';
  }

  /** The copy after its income and random recruit are schema-resolved and then replaced
      by truthy gang-suffixed overrides. */
  function SchemaResolved(territory: Object, gangId: string): Object {
    var a := if Has(territory, "income") then territory["income" := ResolveProperty(territory["income"], "income")]
             else territory;
    var b := if Has(a, "random_recruit") then a["random_recruit" := ResolveProperty(a["random_recruit"], "recruit")]
             else a;
    if gangId == "" then b
    else
      var c := if Has(b, GangKey("income", gangId)) then b["income" := ResolveProperty(b[GangKey("income", gangId)], "income")]
               else b;
      if Has(c, GangKey("random_recruit", gangId)) then
        c["random_recruit" := ResolveProperty(c[GangKey("random_recruit", gangId)], "recruit")]
      else c
  }

  /** The copy after the plain overrides of `props`, in order. */
  function PlainOverridden(resolved: Object, gangId: string, props: seq<string>): Object
    decreases |props|
  {
    if props == [] then resolved
    else
      var prev := PlainOverridden(resolved, gangId, props[..|props| - 1]);
      var prop := props[|props| - 1];
      if Has(prev, GangKey(prop, gangId)) then prev[prop := prev[GangKey(prop, gangId)]] else prev
  }

  /** The territory `resolveTerritory` returns. */
  function ResolvedTerritory(territory: Object, gangId: string): Object {
    if gangId == "" then SchemaResolved(territory, gangId)
    else PlainOverridden(SchemaResolved(territory, gangId), gangId, PlainOverrides)
  }

  /** A plain override takes the truthy gang-suffixed value of the copy it starts from. */
  lemma {:induction false} PlainOverriddenValue(resolved: Object, gangId: string, props: seq<string>, key: string)
    requires gangId != ""
    requires forall i :: 0 <= i < |props| ==> props[i] in WrittenKeys
    ensures Get(PlainOverridden(resolved, gangId, props), key) ==
      if key in props && Has(resolved, GangKey(key, gangId)) then Some(resolved[GangKey(key, gangId)])
      else Get(resolved, key)
    decreases |props|
  {
    if props != [] {
      var init := props[..|props| - 1];
      var prop := props[|props| - 1];
      assert props == init + [prop];
      var gangProp := GangKey(prop, gangId);
      GangKeysAreNotWritten(gangId, prop);
      assert gangProp !in init;
      PlainOverriddenValue(resolved, gangId, init, gangProp);
      PlainOverriddenValue(resolved, gangId, init, key);
    }
  }

  /** The returned territory agrees with the key-by-key reading on every key. */
  lemma ResolvedTerritoryValue(territory: Object, gangId: string, key: string)
    ensures Get(ResolvedTerritory(territory, gangId), key) == ResolvedValue(territory, gangId, key)
  {
    SchemaResolvedValue(territory, gangId, key);
    if gangId != "" {
      PlainOverriddenValue(SchemaResolved(territory, gangId), gangId, PlainOverrides, key);
      if key in PlainOverrides {
        GangKeysAreNotWritten(gangId, key);
        SchemaResolvedValue(territory, gangId, GangKey(key, gangId));
      }
    }
  }

  /** Schema resolution and the income and recruit overrides write only those two keys,
      reading the overrides from the input. */
  lemma SchemaResolvedValue(territory: Object, gangId: string, key: string)
    ensures key != "income" && key != "random_recruit" ==>
      Get(SchemaResolved(territory, gangId), key) == Get(territory, key)
    ensures key == "income" || key == "random_recruit" ==>
      Get(SchemaResolved(territory, gangId), key) == ResolvedValue(territory, gangId, key)
  {
    if gangId != "" {
      GangKeysAreNotWritten(gangId, "income");
      GangKeysAreNotWritten(gangId, "random_recruit");
    }
  }

  /** `resolveTerritory(territory, gangId)`: a copy of the territory whose income and
      random recruit are schema-resolved, then replaced by truthy gang-suffixed
      overrides, and whose four plain fields take truthy gang-suffixed values. */
  method ResolveTerritory(territory: Object, gangId: string) returns (resolved: Object)
    ensures resolved == ResolvedTerritory(territory, gangId)
    ensures forall k :: Get(resolved, k) == ResolvedValue(territory, gangId, k)
  {
    resolved := territory;
    if Has(resolved, "income") {
      resolved := resolved["income" := ResolveProperty(resolved["income"], "income")];
    }
    if Has(resolved, "random_recruit") {
      resolved := resolved["random_recruit" := ResolveProperty(resolved["random_recruit"], "recruit")];
    }
    if gangId != "" {
      var incomeKey := GangKey("income", gangId);
      var recruitKey := GangKey("random_recruit", gangId);
      if Has(resolved, incomeKey) {
        resolved := resolved["income" := ResolveProperty(resolved[incomeKey], "income")];
      }
      if Has(resolved, recruitKey) {
        resolved := resolved["random_recruit" := ResolveProperty(resolved[recruitKey], "recruit")];
      }
      ghost var schemaResolved := resolved;
      for i := 0 to |PlainOverrides|
        invariant resolved == PlainOverridden(schemaResolved, gangId, PlainOverrides[..i])
      {
        var prop := PlainOverrides[i];
        var gangProp := GangKey(prop, gangId);
        if Has(resolved, gangProp) {
          resolved := resolved[prop := resolved[gangProp]];
        }
        assert PlainOverrides[..i + 1][..i] == PlainOverrides[..i];
      }
      assert PlainOverrides[..|PlainOverrides|] == PlainOverrides;
    }
    forall k
      ensures Get(resolved, k) == ResolvedValue(territory, gangId, k)
    {
      ResolvedTerritoryValue(territory, gangId, k);
    }
  }

  /** Every field other than income, random recruit and the four plain overrides keeps
      its value, gang-suffixed fields included. */
  lemma ResolveKeepsOtherFields(territory: Object, gangId: string, key: string)
    requires key !in WrittenKeys
    ensures Get(ResolvedTerritory(territory, gangId), key) == Get(territory, key)
  {
    ResolvedTerritoryValue(territory, gangId, key);
  }

  /** A gang override needs the gang: without one the plain fields are untouched and
      income and random recruit are only schema-resolved. */
  lemma NoGangNoOverride(territory: Object, key: string)
    ensures key in PlainOverrides ==> Get(ResolvedTerritory(territory, ""), key) == Get(territory, key)
    ensures key == "income" && Has(territory, key) ==>
      Get(ResolvedTerritory(territory, ""), key) == Some(ResolveProperty(territory[key], "income"))
    ensures key == "random_recruit" && Has(territory, key) ==>
      Get(ResolvedTerritory(territory, ""), key) == Some(ResolveProperty(territory[key], "recruit"))
  {
    ResolvedTerritoryValue(territory, "", key);
  }

  /** A truthy gang override wins over the territory's own value, for income and random
      recruit after schema resolution. */
  lemma GangOverrideWins(territory: Object, gangId: string, prop: string)
    requires gangId != "" && prop in WrittenKeys && Has(territory, GangKey(prop, gangId))
    ensures prop == "income" ==>
      Get(ResolvedTerritory(territory, gangId), prop) == Some(ResolveProperty(territory[GangKey(prop, gangId)], "income"))
    ensures prop == "random_recruit" ==>
      Get(ResolvedTerritory(territory, gangId), prop) == Some(ResolveProperty(territory[GangKey(prop, gangId)], "recruit"))
    ensures prop in PlainOverrides ==>
      Get(ResolvedTerritory(territory, gangId), prop) == Some(territory[GangKey(prop, gangId)])
  {
    ResolvedTerritoryValue(territory, gangId, prop);
  }

  /** Names every plain object inherits from `Object.prototype`; indexing a schema table
      with one of them gives a truthy value. */
  const ObjectPrototypeMembers: set<string> :=
    {"constructor", "hasOwnProperty", "isPrototypeOf", "propertyIsEnumerable", "toString",
     "valueOf", "toLocaleString", "__proto__", "__defineGetter__", "__defineSetter__",
     "__lookupGetter__", "__lookupSetter__"}

  /** `!!this.incomeSchemas[name]` as written: own presets and inherited members. */
  predicate SchemaFoundAsWritten(presets: map<string, Object>, name: string) {
    name in presets || name in ObjectPrototypeMembers
  }

  /** Whether a name is one of the presets, the check the validator means to make. */
  predicate KnownSchema(presets: map<string, Object>, name: string) {
    name in presets
  }

  /** As written, the income schema name "toString" passes validation though no preset
      has that name. */
  lemma PrototypeNamePassesAsWritten()
    ensures SchemaFoundAsWritten(IncomeSchemas, "toString") && !KnownSchema(IncomeSchemas, "toString")
    ensures SchemaFoundAsWritten(RecruitSchemas, "constructor") && !KnownSchema(RecruitSchemas, "constructor")
  {
  }

  /** `Territory ${id} references unknown ${kind} schema: ${name}` */
  function UnknownSchemaMessage(id: string, kind: string, name: string): string {
    "Territory " + id + " references unknown " + kind + " schema: " + name
  }

  /** The error a schema reference adds: none without a truthy property with a truthy
      `schema`, none for a known preset. */
  function SchemaErrors(territory: Object, field: string, presets: map<string, Object>, kind: string): (r: seq<string>)
    ensures |r| <= 1
    ensures r == [] <==> !(Has(territory, field) && Field(territory[field], "schema").Some? &&
                           Truthy(Field(territory[field], "schema").value)) ||
                         KnownSchema(presets, ToJsString(Field(territory[field], "schema").value))
  {
    if Has(territory, field) && Field(territory[field], "schema").Some? && Truthy(Field(territory[field], "schema").value) then
      var name := ToJsString(Field(territory[field], "schema").value);
      if KnownSchema(presets, name) then []
      else [UnknownSchemaMessage(FieldText(Get(territory, "id")), kind, name)]
    else []
  }

  /** The errors `validateTerritory` reports, in order: missing name, missing level,
      unknown income schema, unknown recruit schema. */
  function TerritoryErrors(territory: Object): (r: seq<string>)
    ensures |r| <= 4
    ensures r == [] <==> (Has(territory, "name") && Has(territory, "level") &&
                          SchemaErrors(territory, "income", IncomeSchemas, "income") == [] &&
                          SchemaErrors(territory, "random_recruit", RecruitSchemas, "recruit") == [])
  {
    var id := FieldText(Get(territory, "id"));
    (if Has(territory, "name") then [] else ["Territory " + id + " missing name"]) +
    (if Has(territory, "level") then [] else ["Territory " + id + " missing level"]) +
    SchemaErrors(territory, "income", IncomeSchemas, "income") +
    SchemaErrors(territory, "random_recruit", RecruitSchemas, "recruit")
  }

  /** With the check as meant, a territory whose income names "toString" is reported. */
  lemma PrototypeNameReported(territory: Object)
    requires "income" in territory && territory["income"] == JObj(map["schema" := JStr("toString")])
    ensures TerritoryErrors(territory) != []
  {
    assert Field(territory["income"], "schema") == Some(JStr("toString"));
  }

  /** `validateTerritory(territory)`: the errors pushed in order, and valid iff none. */
  method ValidateTerritory(territory: Object) returns (valid: bool, errors: seq<string>)
    ensures errors == TerritoryErrors(territory)
    ensures valid <==> errors == []
  {
    errors := [];
    var id := FieldText(Get(territory, "id"));
    if !Has(territory, "name") {
      errors := errors + ["Territory " + id + " missing name"];
    }
    if !Has(territory, "level") {
      errors := errors + ["Territory " + id + " missing level"];
    }
    assert errors == (if Has(territory, "name") then [] else ["Territory " + id + " missing name"]) +
                     (if Has(territory, "level") then [] else ["Territory " + id + " missing level"]);
    ghost var basic := errors;
    if Has(territory, "income") && Field(territory["income"], "schema").Some? && Truthy(Field(territory["income"], "schema").value) {
      var name := ToJsString(Field(territory["income"], "schema").value);
      if !KnownSchema(IncomeSchemas, name) {
        errors := errors + [UnknownSchemaMessage(id, "income", name)];
      }
    }
    assert errors == basic + SchemaErrors(territory, "income", IncomeSchemas, "income");
    ghost var withIncome := errors;
    if Has(territory, "random_recruit") && Field(territory["random_recruit"], "schema").Some? &&
       Truthy(Field(territory["random_recruit"], "schema").value) {
      var name := ToJsString(Field(territory["random_recruit"], "schema").value);
      if !KnownSchema(RecruitSchemas, name) {
        errors := errors + [UnknownSchemaMessage(id, "recruit", name)];
      }
    }
    assert errors == withIncome + SchemaErrors(territory, "random_recruit", RecruitSchemas, "recruit");
    valid := |errors| == 0;
  }

  /** The errors of a list of territories, in input order. */
  function AllErrors(territories: seq<Object>): seq<string> {
    if territories == [] then []
    else AllErrors(territories[..|territories| - 1]) + TerritoryErrors(territories[|territories| - 1])
  }

  /** The list is valid exactly when every territory is. */
  lemma {:induction false} AllErrorsEmptyIff(territories: seq<Object>)
    ensures AllErrors(territories) == [] <==> forall i :: 0 <= i < |territories| ==> TerritoryErrors(territories[i]) == []
  {
    if territories != [] {
      var init := territories[..|territories| - 1];
      AllErrorsEmptyIff(init);
      assert forall i :: 0 <= i < |init| ==> init[i] == territories[i];
    }
  }

  /** `validateAll(territories)`: the errors of each invalid territory appended in input
      order, and valid iff there are none. */
  method ValidateAll(territories: seq<Object>) returns (valid: bool, errors: seq<string>)
    ensures errors == AllErrors(territories)
    ensures valid <==> forall i :: 0 <= i < |territories| ==> TerritoryErrors(territories[i]) == []
  {
    errors := [];
    for i := 0 to |territories|
      invariant errors == AllErrors(territories[..i])
    {
      var ok, errs := ValidateTerritory(territories[i]);
      if !ok {
        errors := errors + errs;
      }
      assert territories[..i + 1][..i] == territories[..i];
    }
    assert territories[..|territories|] == territories;
    AllErrorsEmptyIff(territories);
    valid := |errors| == 0;
  }
}
