/** What an engine stage accepts, and the schema published for it (engine.py). */
module EngineRequest {
  import opened Json
  import opened Contracts
  import opened JsonSchema
  import ComfyRequest

  const INPUTS := "inputs"
  const ENGINE_CONTRACT_VERSION := 1

  datatype Domain = Choices(values: seq<Json>) | Range(low: int, high: int)

  datatype Setting = Setting(name: string, domain: Domain)

  datatype EngineStage = EngineStage(
    capabilityId: string,
    inputs: seq<string>,
    requiredInputs: seq<string>,
    settings: seq<Setting>,
    requiredSettings: seq<string>,
    oneOfSettings: seq<string>)

  predicate IsSetting(stage: EngineStage, name: string) {
    exists s | s in stage.settings :: s.name == name
  }

  /** What a recipe's stages keep: settings have distinct names and scalar choices, and the
   *  settings a job must carry are declared. */
  predicate WellFormed(stage: EngineStage) {
    && (forall i, j | 0 <= i < j < |stage.settings| :: stage.settings[i].name != stage.settings[j].name)
    && !IsSetting(stage, INPUTS)
    && (forall s, v | s in stage.settings && s.domain.Choices? && v in s.domain.values :: v.JInt? || v.JStr?)
    && (forall name | name in stage.requiredSettings :: IsSetting(stage, name))
    && (forall name | name in stage.oneOfSettings :: IsSetting(stage, name))
  }

  // ----- the validator

  /** `_checked_setting` lets the value through; a choice is looked up with Python's `==`. */
  predicate CheckedSetting(d: Domain, v: Json) {
    match d
    case Choices(values) => !v.JBool? && exists x | x in values :: PyEq(x, v)
    case Range(low, high) => v.JInt? && low <= v.i <= high
  }

  predicate InputsOk(stage: EngineStage, bound: Json, granted: seq<string>) {
    && bound.JObj?
    && (forall k | k in bound.fields :: k in stage.inputs && bound.fields[k].JStr? && bound.fields[k].s in granted)
    && (forall name | name in stage.requiredInputs :: name in bound.fields)
    && (forall k | k in granted :: k in ComfyRequest.KeysBound(bound))
  }

  predicate SettingOk(s: Setting, payload: map<string, Json>) {
    s.name in payload ==> CheckedSetting(s.domain, payload[s.name])
  }

  /** How many of the listed names the fields hold. */
  function CountIn(names: seq<string>, fields: map<string, Json>): nat {
    if names == [] then 0
    else CountIn(names[..|names| - 1], fields) + if names[|names| - 1] in fields then 1 else 0
  }

  /** The settings among the payload's fields. */
  function SettingsIn(payload: map<string, Json>): map<string, Json> {
    payload - {INPUTS}
  }

  predicate Accepts(stage: EngineStage, payload: map<string, Json>, granted: seq<string>) {
    && (forall k | k in payload :: IsSetting(stage, k) || k == INPUTS)
    && InputsOk(stage, ComfyRequest.Requested(payload, INPUTS), granted)
    && (forall s | s in stage.settings :: SettingOk(s, payload))
    && (forall name | name in stage.requiredSettings :: name in payload)
    && (stage.oneOfSettings == [] || ExactlyOne(stage.oneOfSettings, SettingsIn(payload)))
  }

  lemma {:induction false} NoneCounted(names: seq<string>, fields: map<string, Json>)
    ensures CountIn(names, fields) == 0 <==> forall i | 0 <= i < |names| :: names[i] !in fields
  {
    if names != [] {
      NoneCounted(names[..|names| - 1], fields);
    }
  }

  /** The validator counts; the schema asks for exactly one valid branch. */
  lemma {:induction false} OneCounted(names: seq<string>, fields: map<string, Json>)
    ensures CountIn(names, fields) == 1 <==> ExactlyOne(names, fields)
  {
    if names != [] {
      var n := |names| - 1;
      var front := names[..n];
      OneCounted(front, fields);
      NoneCounted(front, fields);
      if names[n] in fields {
        if CountIn(front, fields) == 0 {
          assert forall j | 0 <= j < |names| && j != n :: names[j] == front[j];
        }
        if ExactlyOne(names, fields) {
          var i :| 0 <= i < |names| && names[i] in fields && forall j | 0 <= j < |names| && j != i :: names[j] !in fields;
          assert i == n;
          assert forall j | 0 <= j < n :: front[j] == names[j];
        }
      } else {
        if ExactlyOne(front, fields) {
          var i :| 0 <= i < n && front[i] in fields && forall j | 0 <= j < n && j != i :: front[j] !in fields;
          assert forall j | 0 <= j < |names| && j != i :: names[j] !in fields by {
            assert forall j | 0 <= j < n :: front[j] == names[j];
          }
          assert names[i] in fields;
        }
        if ExactlyOne(names, fields) {
          var i :| 0 <= i < |names| && names[i] in fields && forall j | 0 <= j < |names| && j != i :: names[j] !in fields;
          assert front[i] in fields;
          assert forall j | 0 <= j < n :: front[j] == names[j];
        }
      }
    }
  }

  /** The input bindings of `validate`. */
  method CheckInputs(stage: EngineStage, bound: Json, granted: seq<string>) returns (ok: bool)
    ensures ok <==> InputsOk(stage, bound, granted)
  {
    if !bound.JObj? {
      return false;
    }
    var names := set k | k in stage.inputs;
    if bound.fields.Keys - names != {} {
      var k :| k in bound.fields.Keys - names;
      return false;
    }
    assert forall k | k in bound.fields :: k in stage.inputs by {
      forall k | k in bound.fields ensures k in stage.inputs {
        assert k !in bound.fields.Keys - names;
      }
    }
    for n := 0 to |stage.requiredInputs|
      invariant forall i | 0 <= i < n :: stage.requiredInputs[i] in bound.fields
    {
      if stage.requiredInputs[n] !in bound.fields {
        assert stage.requiredInputs[n] in stage.requiredInputs;
        return false;
      }
    }
    var todo := bound.fields.Keys;
    while todo != {}
      invariant todo <= bound.fields.Keys
      invariant forall k | k in bound.fields && k !in todo :: bound.fields[k].JStr? && bound.fields[k].s in granted
    {
      var name :| name in todo;
      if !bound.fields[name].JStr? || bound.fields[name].s !in granted {
        return false;
      }
      todo := todo - {name};
    }
    var unbound := set k | k in granted && k !in ComfyRequest.KeysBound(bound);
    if unbound != {} {
      var k :| k in unbound;
      return false;
    }
    assert forall k | k in granted :: k in ComfyRequest.KeysBound(bound) by {
      forall k | k in granted ensures k in ComfyRequest.KeysBound(bound) {
        assert k !in unbound;
      }
    }
    ok := true;
  }

  /** The settings of `validate`: every declared setting the payload carries, checked. */
  method CheckSettings(stage: EngineStage, payload: map<string, Json>) returns (r: Option<map<string, Json>>)
    requires WellFormed(stage)
    requires forall k | k in payload :: IsSetting(stage, k) || k == INPUTS
    ensures r.Some? <==> forall s | s in stage.settings :: SettingOk(s, payload)
    ensures r.Some? ==> r.value == SettingsIn(payload)
  {
    var inputs: map<string, Json> := map[];
    for n := 0 to |stage.settings|
      invariant forall s | s in stage.settings[..n] :: SettingOk(s, payload) && (s.name in payload ==> s.name in inputs)
      invariant forall k | k in inputs :: k in payload && k != INPUTS && inputs[k] == payload[k]
    {
      var s := stage.settings[n];
      assert s in stage.settings && s.name != INPUTS;
      if s.name in payload {
        if !CheckedSetting(s.domain, payload[s.name]) {
          assert !SettingOk(s, payload);
          return None;
        }
        inputs := inputs[s.name := payload[s.name]];
      }
      assert stage.settings[..n + 1] == stage.settings[..n] + [s];
    }
    assert stage.settings[..|stage.settings|] == stage.settings;
    assert inputs == SettingsIn(payload);
    r := Some(inputs);
  }

  /** The plugin's `validate`, given the stage the recipe names for the leased capability. */
  method Validate(stage: Option<EngineStage>, lease: LeaseGrant) returns (r: Option<map<string, Json>>)
    requires stage.Some? ==> WellFormed(stage.value)
    ensures r.Some? <==>
      stage.Some? && lease.contractVersion == ENGINE_CONTRACT_VERSION && Accepts(stage.value, lease.payload, lease.inputKeys)
    ensures r.Some? ==>
      r.value == lease.payload[INPUTS := ComfyRequest.Requested(lease.payload, INPUTS)]
  {
    if stage.None? || lease.contractVersion != ENGINE_CONTRACT_VERSION {
      return None;
    }
    var payload := lease.payload;
    var unknown := set k | k in payload && !IsSetting(stage.value, k) && k != INPUTS;
    if unknown != {} {
      var k :| k in unknown;
      return None;
    }
    assert forall k | k in payload :: IsSetting(stage.value, k) || k == INPUTS by {
      forall k | k in payload ensures IsSetting(stage.value, k) || k == INPUTS {
        assert k !in unknown;
      }
    }
    var bound := ComfyRequest.Requested(payload, INPUTS);
    var ok := CheckInputs(stage.value, bound, lease.inputKeys);
    if !ok {
      return None;
    }
    var inputs := CheckSettings(stage.value, payload);
    if inputs.None? {
      return None;
    }
    ok := CheckPresence(stage.value, payload, inputs.value);
    if !ok {
      return None;
    }
    r := Some(inputs.value[INPUTS := bound]);
  }

  /** The settings a job must carry: all the required ones, and one of the alternatives if any. */
  method CheckPresence(stage: EngineStage, payload: map<string, Json>, inputs: map<string, Json>) returns (ok: bool)
    requires WellFormed(stage) && inputs == SettingsIn(payload)
    ensures ok <==>
      && (forall name | name in stage.requiredSettings :: name in payload)
      && (stage.oneOfSettings == [] || ExactlyOne(stage.oneOfSettings, SettingsIn(payload)))
  {
    for n := 0 to |stage.requiredSettings|
      invariant forall i | 0 <= i < n :: stage.requiredSettings[i] in payload
    {
      var name := stage.requiredSettings[n];
      assert name in stage.requiredSettings;
      if name !in inputs {
        return false;
      }
    }
    OneCounted(stage.oneOfSettings, inputs);
    ok := stage.oneOfSettings == [] || CountIn(stage.oneOfSettings, inputs) == 1;
  }

  // ----- the published schema

  function DomainSchema(d: Domain): Schema {
    match d
    case Choices(values) => Enum(values)
    case Range(low, high) => Typed(TInteger, None, None, Some(low as real), Some(high as real))
  }

  function InputsSchema(stage: EngineStage): Schema {
    Object(map k | k in stage.inputs :: Typed(TString, None, None, None, None),
           (set k | k in stage.requiredInputs), [])
  }

  ghost predicate IsInputSchema(stage: EngineStage, s: Schema) {
    && s.Object? && s.oneOf == stage.oneOfSettings
    && INPUTS in s.properties && s.properties[INPUTS] == InputsSchema(stage)
    && (forall e | e in stage.settings :: e.name in s.properties && s.properties[e.name] == DomainSchema(e.domain))
    && (forall k | k in s.properties :: k == INPUTS || IsSetting(stage, k))
    && s.required == {INPUTS} + set k | k in stage.requiredSettings
  }

  /** `_input_schema`. */
  method InputSchema(stage: EngineStage) returns (s: Schema)
    requires WellFormed(stage)
    ensures IsInputSchema(stage, s)
  {
    var properties: map<string, Schema> := map[INPUTS := InputsSchema(stage)];
    for n := 0 to |stage.settings|
      invariant INPUTS in properties && properties[INPUTS] == InputsSchema(stage)
      invariant forall i | 0 <= i < n ::
          stage.settings[i].name in properties && properties[stage.settings[i].name] == DomainSchema(stage.settings[i].domain)
      invariant forall k | k in properties :: k == INPUTS || IsSetting(stage, k)
    {
      assert stage.settings[n] in stage.settings && IsSetting(stage, stage.settings[n].name);
      properties := properties[stage.settings[n].name := DomainSchema(stage.settings[n].domain)];
    }
    s := Object(properties, {INPUTS} + (set k | k in stage.requiredSettings), stage.oneOfSettings);
  }

  // ----- the two agree

  predicate NoIntegralFloats(stage: EngineStage, payload: map<string, Json>) {
    forall s | s in stage.settings && s.domain.Range? && s.name in payload ::
      !(payload[s.name].JReal? && Integral(payload[s.name]))
  }

  /** Python's `==` on scalar choices is JSON equality once booleans are ruled out. */
  lemma ChoiceIsEnum(values: seq<Json>, v: Json)
    requires forall x | x in values :: x.JInt? || x.JStr?
    ensures CheckedSetting(Choices(values), v) <==> Conforms(Enum(values), v)
  {
    forall x | x in values ensures !v.JBool? && PyEq(x, v) <==> SameScalar(x, v) {
    }
  }

  lemma SettingMeetsSchema(d: Domain, v: Json)
    requires d.Choices? ==> forall x | x in d.values :: x.JInt? || x.JStr?
    ensures CheckedSetting(d, v) <==> Conforms(DomainSchema(d), v) && !(d.Range? && v.JReal? && Integral(v))
  {
    if d.Choices? {
      ChoiceIsEnum(d.values, v);
    }
  }

  lemma InputsMeetSchema(stage: EngineStage, bound: Json, granted: seq<string>)
    ensures InputsOk(stage, bound, granted) <==>
      Conforms(InputsSchema(stage), bound) && ComfyRequest.KeysBound(bound) == set k | k in granted
  {
    var s := InputsSchema(stage);
    if InputsOk(stage, bound, granted) {
      assert forall k | k in bound.fields :: k in s.properties;
    }
    if Conforms(s, bound) && ComfyRequest.KeysBound(bound) == set k | k in granted {
      forall k | k in bound.fields ensures k in stage.inputs && bound.fields[k].JStr? && bound.fields[k].s in granted {
        assert k in s.properties && Conforms(s.properties[k], bound.fields[k]);
        assert bound.fields[k].s in ComfyRequest.KeysBound(bound);
      }
      forall name | name in stage.requiredInputs ensures name in bound.fields {
        assert name in s.required;
      }
      forall k | k in granted ensures k in ComfyRequest.KeysBound(bound) {
        assert k in set k | k in granted;
      }
    }
  }

  lemma ConformsByPart(stage: EngineStage, s: Schema, payload: map<string, Json>)
    requires WellFormed(stage) && IsInputSchema(stage, s)
    ensures Conforms(s, JObj(payload)) <==>
      && INPUTS in payload
      && (forall name | name in stage.requiredSettings :: name in payload)
      && (forall k | k in payload :: IsSetting(stage, k) || k == INPUTS)
      && Conforms(InputsSchema(stage), payload[INPUTS])
      && (forall e | e in stage.settings && e.name in payload :: Conforms(DomainSchema(e.domain), payload[e.name]))
      && (stage.oneOfSettings == [] || ExactlyOne(stage.oneOfSettings, payload))
  {
    if Conforms(s, JObj(payload)) {
      assert INPUTS in s.required && INPUTS in payload;
      forall name | name in stage.requiredSettings ensures name in payload {
        assert name in s.required;
      }
    }
  }

  lemma OneOfIgnoresInputs(stage: EngineStage, payload: map<string, Json>)
    requires WellFormed(stage)
    ensures ExactlyOne(stage.oneOfSettings, SettingsIn(payload)) <==> ExactlyOne(stage.oneOfSettings, payload)
  {
    forall i | 0 <= i < |stage.oneOfSettings|
      ensures stage.oneOfSettings[i] in SettingsIn(payload) <==> stage.oneOfSettings[i] in payload
    {
      assert stage.oneOfSettings[i] in stage.oneOfSettings;
    }
  }

  /** A payload that carries `inputs` is served exactly when it meets the published schema, binds
   *  exactly the granted keys and has no integral float in an integer range. */
  lemma SchemaAgrees(stage: EngineStage, s: Schema, payload: map<string, Json>, granted: seq<string>)
    requires WellFormed(stage) && IsInputSchema(stage, s)
    ensures Accepts(stage, payload, granted) && INPUTS in payload <==>
      && Conforms(s, JObj(payload))
      && NoIntegralFloats(stage, payload)
      && ComfyRequest.KeysBound(ComfyRequest.Requested(payload, INPUTS)) == set k | k in granted
  {
    ConformsByPart(stage, s, payload);
    OneOfIgnoresInputs(stage, payload);
    InputsMeetSchema(stage, ComfyRequest.Requested(payload, INPUTS), granted);
    forall e | e in stage.settings && e.name in payload
      ensures CheckedSetting(e.domain, payload[e.name]) <==>
        Conforms(DomainSchema(e.domain), payload[e.name])
        && !(e.domain.Range? && payload[e.name].JReal? && Integral(payload[e.name]))
    {
      SettingMeetsSchema(e.domain, payload[e.name]);
    }
  }

  /** Payloads without `inputs` are the only other disagreement, and they are served exactly when
   *  they would be with an empty map there, nothing is granted and no input is required. */
  lemma MissingInputs(stage: EngineStage, s: Schema, payload: map<string, Json>, granted: seq<string>)
    requires WellFormed(stage) && IsInputSchema(stage, s) && INPUTS !in payload
    ensures !Conforms(s, JObj(payload))
    ensures Accepts(stage, payload, granted) <==>
      && granted == [] && stage.requiredInputs == []
      && Accepts(stage, payload[INPUTS := JObj(map[])], [])
  {
    var filled := payload[INPUTS := JObj(map[])];
    assert INPUTS in s.required;
    assert SettingsIn(filled) == SettingsIn(payload);
    assert ComfyRequest.KeysBound(JObj(map[])) == {};
    assert forall x | x in stage.settings :: x.name != INPUTS && (SettingOk(x, payload) <==> SettingOk(x, filled));
    forall name | name in stage.requiredSettings ensures name in payload <==> name in filled {
      assert IsSetting(stage, name);
    }
    if granted != [] {
      assert granted[0] in granted;
    }
    if stage.requiredInputs != [] {
      assert stage.requiredInputs[0] in stage.requiredInputs;
    }
  }

  /** Stages with a required input need no such condition: a payload is served exactly when it meets the
   *  published schema, binds exactly the granted keys and has no integral float in an integer range. */
  lemma SchemaAgreesWhenInputsRequired(stage: EngineStage, s: Schema, payload: map<string, Json>, granted: seq<string>)
    requires WellFormed(stage) && IsInputSchema(stage, s) && stage.requiredInputs != []
    ensures Accepts(stage, payload, granted) <==>
      && Conforms(s, JObj(payload))
      && NoIntegralFloats(stage, payload)
      && ComfyRequest.KeysBound(ComfyRequest.Requested(payload, INPUTS)) == set k | k in granted
  {
    SchemaAgrees(stage, s, payload, granted);
    if INPUTS !in payload {
      MissingInputs(stage, s, payload, granted);
    }
  }

  // ----- the shipped stages (engine_recipes.py), and what is served or refused against the schema

  const MESH_STAGE := EngineStage(
    "mesh.trellis2.image_to_mesh.v1", ["front", "back", "left", "right"], ["front"],
    [Setting("resolution", Choices([JInt(512), JInt(1024)])), Setting("seed", Range(0, 0x7fff_ffff))],
    ["resolution", "seed"], [])

  const CLEAN_STAGE := EngineStage(
    "mesh.blender.clean.v1", ["mesh", "front", "back", "left", "right"], ["mesh"],
    [Setting("quality_tier", Choices([JStr("draft"), JStr("standard"), JStr("high"), JStr("ultra")])),
     Setting("target_triangles", Range(1_000, 500_000))],
    [], ["quality_tier", "target_triangles"])

  /** Both stages of the shipped recipe are well formed and require an input. */
  lemma ShippedStages()
    ensures WellFormed(MESH_STAGE) && MESH_STAGE.requiredInputs != []
    ensures WellFormed(CLEAN_STAGE) && CLEAN_STAGE.requiredInputs != []
  {
    assert |"resolution"| != |"seed"| && |INPUTS| == 6;
    assert |"quality_tier"| != |"target_triangles"|;
    assert MESH_STAGE.settings[0].name == "resolution" && MESH_STAGE.settings[1].name == "seed";
    assert CLEAN_STAGE.settings[0].name == "quality_tier" && CLEAN_STAGE.settings[1].name == "target_triangles";
    assert MESH_STAGE.settings[0] in MESH_STAGE.settings && MESH_STAGE.settings[1] in MESH_STAGE.settings;
    assert CLEAN_STAGE.settings[0] in CLEAN_STAGE.settings && CLEAN_STAGE.settings[1] in CLEAN_STAGE.settings;
  }

  /** A stage that needs nothing serves the empty payload, which its own schema refuses. */
  lemma EmptyPayloadIsServed(s: Schema)
    requires IsInputSchema(EngineStage("mesh.none.v1", [], [], [], [], []), s)
    ensures Accepts(EngineStage("mesh.none.v1", [], [], [], [], []), map[], []) && !Conforms(s, JObj(map[]))
  {
    assert ComfyRequest.KeysBound(JObj(map[])) == {};
    assert INPUTS in s.required;
  }

  function FloatSeedPayload(): map<string, Json> {
    map[INPUTS := JObj(map["front" := JStr("k")]), "resolution" := JInt(512), "seed" := JReal(1.0)]
  }

  lemma FloatSeedInputsConform()
    ensures Conforms(InputsSchema(MESH_STAGE), JObj(map["front" := JStr("k")]))
  {
    assert MESH_STAGE.requiredInputs[0] == "front" && MESH_STAGE.inputs[0] == "front";
  }

  lemma FloatSeedSettings()
    ensures Conforms(DomainSchema(MESH_STAGE.settings[0].domain), JInt(512))
    ensures Conforms(DomainSchema(MESH_STAGE.settings[1].domain), JReal(1.0))
    ensures !CheckedSetting(MESH_STAGE.settings[1].domain, JReal(1.0))
  {
    assert JInt(512) in [JInt(512), JInt(1024)];
    assert 1.0.Floor == 1;
  }

  /** The shipped mesh stage refuses the seed 1.0, which its schema takes for an integer. */
  lemma IntegralFloatDisagrees(s: Schema)
    requires IsInputSchema(MESH_STAGE, s)
    ensures Conforms(s, JObj(FloatSeedPayload())) && !Accepts(MESH_STAGE, FloatSeedPayload(), ["k"])
  {
    var payload := FloatSeedPayload();
    ShippedStages();
    FloatSeedInputsConform();
    FloatSeedSettings();
    assert |"resolution"| == 10 && |"seed"| == 4 && |INPUTS| == 6;
    assert MESH_STAGE.settings[0] in MESH_STAGE.settings && MESH_STAGE.settings[1] in MESH_STAGE.settings;
    ConformsByPart(MESH_STAGE, s, payload);
    assert !SettingOk(MESH_STAGE.settings[1], payload);
  }
}
