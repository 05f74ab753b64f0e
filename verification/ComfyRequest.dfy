/** What a ComfyUI worker accepts for a template, and the schema the coordinator publishes for it (comfy.py). */
module ComfyRequest {
  import opened Json
  import opened Contracts
  import opened JsonSchema
  import opened Templates

  // ----- the worker's validator

  predicate InRange(e: TemplateInput, x: real) {
    (e.minimum.Some? ==> e.minimum.value <= x) && (e.maximum.Some? ==> x <= e.maximum.value)
  }

  /** `_checked_value` lets the value through; it never changes it. */
  predicate CheckedOk(e: TemplateInput, v: Json) {
    match e.kind
    case BooleanKind => v.JBool?
    case StringKind =>
      && v.JStr?
      && (e.minimum.Some? ==> |v.s| as real >= e.minimum.value)
      && (e.maxLength.Some? ==> |v.s| <= e.maxLength.value)
    case IntegerKind => v.JInt? && InRange(e, v.i as real)
    case _ => (v.JInt? && InRange(e, v.i as real)) || (v.JReal? && InRange(e, v.r))
  }

  /** Whether some declared input has this name. */
  predicate Named(entries: seq<TemplateInput>, name: string) {
    exists e | e in entries :: e.name == name
  }

  function SlotNames(slots: seq<Slot>): set<string> {
    set s | s in slots :: s.name
  }

  /** `payload.get(name, {})` for one kind of media. */
  function Requested(payload: map<string, Json>, media: string): Json {
    if media in payload then payload[media] else JObj(map[])
  }

  /** The payload binds declared slots to granted keys, and every required slot. */
  predicate SlotsOk(slots: seq<Slot>, requested: Json, granted: seq<string>) {
    && requested.JObj?
    && requested.fields.Keys <= SlotNames(slots)
    && (forall s | s in slots && s.required :: s.name in requested.fields)
    && (forall k | k in requested.fields :: requested.fields[k].JStr? && requested.fields[k].s in granted)
  }

  predicate InputOk(e: TemplateInput, payload: map<string, Json>) {
    if e.name in payload then CheckedOk(e, payload[e.name]) else !e.required
  }

  /** The payload names only what the template declares. */
  predicate OnlyDeclared(t: Template, payload: map<string, Json>) {
    forall k | k in payload :: Named(t.inputs, k) || k == IMAGES || (k == AUDIOS && t.audioSlots != [])
  }

  /** The keys the payload binds to slots of one kind. */
  function KeysBound(requested: Json): set<string> {
    if requested.JObj?
    then set k | k in requested.fields && requested.fields[k].JStr? :: requested.fields[k].s
    else {}
  }

  function AllKeysBound(t: Template, payload: map<string, Json>): set<string> {
    KeysBound(Requested(payload, IMAGES))
    + if t.audioSlots == [] then {} else KeysBound(Requested(payload, AUDIOS))
  }

  /** The requests the plugin serves with this template. */
  predicate Accepts(t: Template, payload: map<string, Json>, granted: seq<string>) {
    && OnlyDeclared(t, payload)
    && (forall e | e in t.inputs :: InputOk(e, payload))
    && SlotsOk(t.imageSlots, Requested(payload, IMAGES), granted)
    && (t.audioSlots != [] ==> SlotsOk(t.audioSlots, Requested(payload, AUDIOS), granted))
    && (forall k | k in granted :: k in AllKeysBound(t, payload))
  }

  /** The value the request carries for one declared input: the job's, else the template's default. */
  function ValueFor(e: TemplateInput, payload: map<string, Json>): Option<Json> {
    if e.name in payload then Some(payload[e.name])
    else if e.default.JNull? then None
    else Some(e.default)
  }

  /** `inputs` holds exactly the declared values of the entries and the bound slots. */
  ghost predicate IsRequest(t: Template, payload: map<string, Json>, inputs: map<string, Json>) {
    && IMAGES in inputs && inputs[IMAGES] == Requested(payload, IMAGES)
    && (AUDIOS in inputs <==> t.audioSlots != [])
    && (AUDIOS in inputs ==> inputs[AUDIOS] == Requested(payload, AUDIOS))
    && HoldsEntries(t.inputs, payload, inputs - {IMAGES, AUDIOS})
  }

  /** The fields are the values of these entries and nothing else. */
  ghost predicate HoldsEntries(entries: seq<TemplateInput>, payload: map<string, Json>, fields: map<string, Json>) {
    && (forall e | e in entries :: Holds(e, payload, fields))
    && (forall k | k in fields :: Named(entries, k))
  }

  ghost predicate Holds(e: TemplateInput, payload: map<string, Json>, fields: map<string, Json>) {
    if ValueFor(e, payload).Some?
    then e.name in fields && fields[e.name] == ValueFor(e, payload).value
    else e.name !in fields
  }

  /** `_bound_slots`: the payload's slot to key map for one kind of media, or None when it is refused. */
  method BoundSlots(slots: seq<Slot>, media: string, payload: map<string, Json>, granted: seq<string>)
    returns (r: Option<map<string, Json>>)
    ensures r.Some? <==> SlotsOk(slots, Requested(payload, media), granted)
    ensures r.Some? ==> Requested(payload, media) == JObj(r.value)
  {
    var requested := Requested(payload, media);
    if !requested.JObj? || requested.fields.Keys - SlotNames(slots) != {} {
      return None;
    }
    for n := 0 to |slots|
      invariant forall i | 0 <= i < n && slots[i].required :: slots[i].name in requested.fields
    {
      if slots[n].required && slots[n].name !in requested.fields {
        assert slots[n] in slots;
        return None;
      }
    }
    var bound: map<string, Json> := map[];
    var todo := requested.fields.Keys;
    while todo != {}
      invariant bound.Keys == requested.fields.Keys - todo && todo <= requested.fields.Keys
      invariant forall k | k in bound ::
          bound[k] == requested.fields[k] && bound[k].JStr? && bound[k].s in granted
    {
      var name :| name in todo;
      var key := requested.fields[name];
      if !key.JStr? || key.s !in granted {
        return None;
      }
      bound := bound[name := key];
      todo := todo - {name};
    }
    assert bound == requested.fields;
    r := Some(bound);
  }

  /** The plugin's `validate`, from the registered template on. */
  method Validate(registry: map<string, Template>, lease: LeaseGrant) returns (r: Option<map<string, Json>>)
    requires forall id | id in registry :: ValidTemplate(registry[id])
    ensures r.Some? <==>
      && lease.capabilityId in registry
      && lease.contractVersion == registry[lease.capabilityId].contractVersion
      && Accepts(registry[lease.capabilityId], lease.payload, lease.inputKeys)
    ensures r.Some? ==> IsRequest(registry[lease.capabilityId], lease.payload, r.value)
  {
    if lease.capabilityId !in registry {
      return None;
    }
    var t, payload := registry[lease.capabilityId], lease.payload;
    if lease.contractVersion != t.contractVersion {
      return None;
    }
    var known := KnownKeys(t, payload);
    if !known {
      return None;
    }
    var inputs := FillInputs(t, payload);
    if inputs.None? {
      return None;
    }
    var request := AddMedia(t, payload, lease.inputKeys, inputs.value);
    if request.None? {
      return None;
    }
    var bound := EveryGrantBound(t, payload, lease.inputKeys);
    r := if bound then request else None;
  }

  /** The slot maps of `validate`, added to the filled inputs. */
  method AddMedia(t: Template, payload: map<string, Json>, granted: seq<string>, filled: map<string, Json>)
    returns (r: Option<map<string, Json>>)
    requires HoldsEntries(t.inputs, payload, filled) && IMAGES !in filled && AUDIOS !in filled
    ensures r.Some? <==>
      && SlotsOk(t.imageSlots, Requested(payload, IMAGES), granted)
      && (t.audioSlots != [] ==> SlotsOk(t.audioSlots, Requested(payload, AUDIOS), granted))
    ensures r.Some? ==> IsRequest(t, payload, r.value)
  {
    var images := BoundSlots(t.imageSlots, IMAGES, payload, granted);
    if images.None? {
      return None;
    }
    var request := filled[IMAGES := JObj(images.value)];
    if t.audioSlots != [] {
      var audios := BoundSlots(t.audioSlots, AUDIOS, payload, granted);
      if audios.None? {
        return None;
      }
      request := request[AUDIOS := JObj(audios.value)];
    }
    assert request - {IMAGES, AUDIOS} == filled;
    r := Some(request);
  }

  method KnownKeys(t: Template, payload: map<string, Json>) returns (ok: bool)
    ensures ok <==> OnlyDeclared(t, payload)
  {
    var declared := set e | e in t.inputs :: e.name;
    var media := {IMAGES} + if t.audioSlots == [] then {} else {AUDIOS};
    ok := payload.Keys - declared - media == {};
    if ok {
      forall k | k in payload ensures Named(t.inputs, k) || k in media {
        assert k !in payload.Keys - declared - media;
      }
    }
  }

  method EveryGrantBound(t: Template, payload: map<string, Json>, granted: seq<string>) returns (ok: bool)
    ensures ok <==> forall k | k in granted :: k in AllKeysBound(t, payload)
  {
    var unbound := (set k | k in granted) - AllKeysBound(t, payload);
    ok := unbound == {};
    if ok {
      forall k | k in granted ensures k in AllKeysBound(t, payload) {
        assert k !in unbound;
      }
    }
  }

  /** The declared inputs of `validate`: a checked value, a default, or nothing. */
  method FillInputs(t: Template, payload: map<string, Json>) returns (r: Option<map<string, Json>>)
    requires ValidTemplate(t)
    ensures r.Some? <==> forall e | e in t.inputs :: InputOk(e, payload)
    ensures r.Some? ==> HoldsEntries(t.inputs, payload, r.value) && IMAGES !in r.value && AUDIOS !in r.value
  {
    var inputs: map<string, Json> := map[];
    for n := 0 to |t.inputs|
      invariant forall e | e in t.inputs[..n] :: InputOk(e, payload)
      invariant HoldsEntries(t.inputs[..n], payload, inputs)
      invariant IMAGES !in inputs && AUDIOS !in inputs
    {
      ghost var before := inputs;
      var e := t.inputs[n];
      ValidInput(t, n);
      assert t.inputs[..n + 1] == t.inputs[..n] + [e];
      assert e.name !in inputs;
      if e.name in payload {
        if !CheckedOk(e, payload[e.name]) {
          assert e in t.inputs && !InputOk(e, payload);
          return None;
        }
        inputs := inputs[e.name := payload[e.name]];
      } else if e.required {
        assert e in t.inputs && !InputOk(e, payload);
        return None;
      } else if !e.default.JNull? {
        inputs := inputs[e.name := e.default];
      }
      forall d | d in t.inputs[..n] ensures d.name != e.name && Holds(d, payload, inputs) {
        assert Holds(d, payload, before);
      }
    }
    assert t.inputs[..|t.inputs|] == t.inputs;
    r := Some(inputs);
  }

  // ----- the published schema

  function EntrySchema(e: TemplateInput): Schema {
    if e.kind.StringKind? then Typed(TString, e.minimum, e.maxLength, None, None)
    else
      var t := if e.kind.IntegerKind? then TInteger else if e.kind.BooleanKind? then TBoolean else TNumber;
      Typed(t, None, None, e.minimum, e.maximum)
  }

  function RequiredSlots(slots: seq<Slot>): set<string> {
    set s | s in slots && s.required :: s.name
  }

  function SlotsSchema(slots: seq<Slot>): Schema {
    Object(map k | k in SlotNames(slots) :: Typed(TString, None, None, None, None), RequiredSlots(slots), [])
  }

  function MediaRequired(slots: seq<Slot>, media: string): set<string> {
    if RequiredSlots(slots) == {} then {} else {media}
  }

  function RequiredInputs(entries: seq<TemplateInput>): set<string> {
    set e | e in entries && e.required :: e.name
  }

  /** The schema lists exactly the declared entries and the media maps. */
  ghost predicate IsInputSchema(t: Template, s: Schema) {
    && s.Object? && s.oneOf == []
    && IMAGES in s.properties && s.properties[IMAGES] == SlotsSchema(t.imageSlots)
    && (AUDIOS in s.properties <==> t.audioSlots != [])
    && (AUDIOS in s.properties ==> s.properties[AUDIOS] == SlotsSchema(t.audioSlots))
    && (forall e | e in t.inputs :: e.name in s.properties && s.properties[e.name] == EntrySchema(e))
    && (forall k | k in s.properties :: Named(t.inputs, k) || k == IMAGES || k == AUDIOS)
    && s.required == RequiredInputs(t.inputs) + MediaRequired(t.imageSlots, IMAGES) + MediaRequired(t.audioSlots, AUDIOS)
  }

  /** `input_schema`. */
  method InputSchema(t: Template) returns (s: Schema)
    requires ValidTemplate(t)
    ensures IsInputSchema(t, s)
  {
    var properties, required := EntryProperties(t);
    properties := properties[IMAGES := SlotsSchema(t.imageSlots)];
    if RequiredSlots(t.imageSlots) != {} {
      required := required + {IMAGES};
    }
    if t.audioSlots != [] {
      properties := properties[AUDIOS := SlotsSchema(t.audioSlots)];
      if RequiredSlots(t.audioSlots) != {} {
        required := required + {AUDIOS};
      }
    }
    s := Object(properties, required, []);
  }

  /** The properties list exactly these entries. */
  ghost predicate ListsEntries(entries: seq<TemplateInput>, properties: map<string, Schema>) {
    && (forall e | e in entries :: e.name in properties && properties[e.name] == EntrySchema(e))
    && (forall k | k in properties :: Named(entries, k))
  }

  /** The loop over the declared inputs. */
  method EntryProperties(t: Template) returns (properties: map<string, Schema>, required: set<string>)
    requires ValidTemplate(t)
    ensures ListsEntries(t.inputs, properties) && IMAGES !in properties && AUDIOS !in properties
    ensures required == RequiredInputs(t.inputs)
  {
    properties, required := map[], {};
    for n := 0 to |t.inputs|
      invariant ListsEntries(t.inputs[..n], properties) && IMAGES !in properties && AUDIOS !in properties
      invariant required == RequiredInputs(t.inputs[..n])
    {
      var e := t.inputs[n];
      ValidInput(t, n);
      ghost var before := properties;
      assert t.inputs[..n + 1] == t.inputs[..n] + [e];
      properties := properties[e.name := EntrySchema(e)];
      if e.required {
        required := required + {e.name};
      }
      assert forall d | d in t.inputs[..n] :: d.name in before && d.name != e.name;
    }
    assert t.inputs[..|t.inputs|] == t.inputs;
  }

  // ----- the two agree

  /** No integer input carries a float with a zero fractional part. */
  predicate NoIntegralFloats(t: Template, payload: map<string, Json>) {
    forall e | e in t.inputs && e.kind.IntegerKind? && e.name in payload :: !(payload[e.name].JReal? && Integral(payload[e.name]))
  }

  lemma CheckedMeetsSchema(e: TemplateInput, v: Json)
    requires !e.kind.UnknownKind?
    ensures CheckedOk(e, v) <==> Conforms(EntrySchema(e), v) && !(e.kind.IntegerKind? && v.JReal? && Integral(v))
  {
  }

  /** The slot map meets its schema exactly when it is accepted for the keys it binds itself. */
  lemma SlotsMeetSchema(slots: seq<Slot>, requested: Json, granted: seq<string>)
    ensures SlotsOk(slots, requested, granted) <==>
      Conforms(SlotsSchema(slots), requested) && forall k | k in KeysBound(requested) :: k in granted
  {
    if requested.JObj? && SlotsOk(slots, requested, granted) {
      forall k | k in requested.fields ensures requested.fields[k].s in KeysBound(requested) {
      }
    }
    if requested.JObj? && Conforms(SlotsSchema(slots), requested) {
      forall k | k in requested.fields ensures requested.fields[k].JStr? && requested.fields[k].s in KeysBound(requested) {
        assert k in SlotsSchema(slots).properties;
        assert Conforms(SlotsSchema(slots).properties[k], requested.fields[k]);
      }
      forall s | s in slots && s.required ensures s.name in requested.fields {
        assert s.name in RequiredSlots(slots);
      }
    }
  }

  /** A missing slot map counts as an empty one, and the schema asks for it only when a slot is required. */
  lemma MediaMeetsSchema(slots: seq<Slot>, media: string, payload: map<string, Json>)
    ensures Conforms(SlotsSchema(slots), Requested(payload, media)) <==>
      && MediaRequired(slots, media) <= payload.Keys
      && (media in payload ==> Conforms(SlotsSchema(slots), payload[media]))
  {
    if media !in payload {
      assert SlotsSchema(slots).required == RequiredSlots(slots);
      assert Conforms(SlotsSchema(slots), JObj(map[])) <==> RequiredSlots(slots) == {};
    } else if Conforms(SlotsSchema(slots), payload[media]) {
      assert media in payload.Keys;
    }
  }

  /** The validator serves exactly the payloads that meet the published schema, bind exactly the
   *  granted keys and carry no integral float where an integer is declared. */
  lemma SchemaAgrees(t: Template, s: Schema, payload: map<string, Json>, granted: seq<string>)
    requires ValidTemplate(t) && IsInputSchema(t, s)
    ensures Accepts(t, payload, granted) <==>
      && Conforms(s, JObj(payload))
      && NoIntegralFloats(t, payload)
      && AllKeysBound(t, payload) == set k | k in granted
  {
    EntriesMeetSchema(t, s, payload);
    MediaMeetsSchema(t.imageSlots, IMAGES, payload);
    MediaMeetsSchema(t.audioSlots, AUDIOS, payload);
    SlotsMeetSchema(t.imageSlots, Requested(payload, IMAGES), granted);
    SlotsMeetSchema(t.audioSlots, Requested(payload, AUDIOS), granted);
    ConformsByPart(t, s, payload);
  }

  /** The declared inputs alone. */
  ghost predicate EntriesConform(t: Template, payload: map<string, Json>) {
    && RequiredInputs(t.inputs) <= payload.Keys
    && forall e | e in t.inputs && e.name in payload :: Conforms(EntrySchema(e), payload[e.name])
  }

  lemma EntriesMeetSchema(t: Template, s: Schema, payload: map<string, Json>)
    requires ValidTemplate(t)
    ensures (forall e | e in t.inputs :: InputOk(e, payload)) <==>
      EntriesConform(t, payload) && NoIntegralFloats(t, payload)
  {
    forall e | e in t.inputs && e.name in payload
      ensures CheckedOk(e, payload[e.name]) <==>
        Conforms(EntrySchema(e), payload[e.name]) && !(e.kind.IntegerKind? && payload[e.name].JReal? && Integral(payload[e.name]))
    {
      CheckedMeetsSchema(e, payload[e.name]);
    }
    if EntriesConform(t, payload) {
      forall e | e in t.inputs && e.required ensures e.name in payload {
        assert e.name in RequiredInputs(t.inputs);
      }
    }
  }

  lemma ConformsByPart(t: Template, s: Schema, payload: map<string, Json>)
    requires ValidTemplate(t) && IsInputSchema(t, s)
    ensures Conforms(s, JObj(payload)) <==>
      && OnlyDeclared(t, payload)
      && EntriesConform(t, payload)
      && MediaRequired(t.imageSlots, IMAGES) <= payload.Keys
      && MediaRequired(t.audioSlots, AUDIOS) <= payload.Keys
      && (IMAGES in payload ==> Conforms(SlotsSchema(t.imageSlots), payload[IMAGES]))
      && (AUDIOS in payload ==> Conforms(SlotsSchema(t.audioSlots), payload[AUDIOS]))
  {
  }

  function StepsInput(): TemplateInput {
    TemplateInput("steps", "1", "steps", IntegerKind, None, None, None, JNull, true)
  }

  function StepsTemplate(): Template {
    Template("c.v1", 1, map["1" := Node(JStr("KSampler"), Some(map[]))], [StepsInput()], [], [], "1")
  }

  lemma StepsTemplateIsValid()
    ensures ValidTemplate(StepsTemplate())
  {
    assert Allowlist(StepsTemplate()) == [("steps", "1")];
  }

  /** JSON Schema reads 1.0 as an integer; the validator does not. */
  lemma IntegralFloatDisagrees(s: Schema)
    requires IsInputSchema(StepsTemplate(), s)
    ensures Conforms(s, JObj(map["steps" := JReal(1.0)]))
    ensures !Accepts(StepsTemplate(), map["steps" := JReal(1.0)], [])
  {
    var t, e, payload := StepsTemplate(), StepsInput(), map["steps" := JReal(1.0)];
    StepsTemplateIsValid();
    assert t.inputs == [e];
    assert 1.0.Floor == 1;
    assert Conforms(EntrySchema(e), JReal(1.0));
    assert !NoIntegralFloats(t, payload) by {
      assert e in t.inputs && e.name in payload && payload[e.name] == JReal(1.0);
    }
    assert RequiredSlots([]) == {};
    assert RequiredInputs(t.inputs) == {"steps"};
    assert OnlyDeclared(t, payload) by {
      assert Named(t.inputs, "steps");
    }
    ConformsByPart(t, s, payload);
    SchemaAgrees(t, s, payload, []);
  }
}
