/** What a profile's plugin attests passes the coordinator's configuration check. */
module Attestation {
  import opened Json
  import opened Contracts
  import opened Requirements
  import opened Profiles
  import opened Service
  import opened PoolInvariant
  import opened PoolTheorems
  import opened Authority
  import Agent
  import Templates
  import ComfyRequest
  import Retry
  import Store = JobStore

  /** The manifest's diagnostics carry these versions, as a profile's plugin writes them. */
  predicate Carries(m: OutputManifest, attested: Versions) {
    Get(m.diagnostics, "runtime_versions") == StringMap(attested)
  }

  /** The check on the diagnostics is the comparison of the two version maps. */
  lemma ReportsOnDiagnostics(diagnostics: map<string, Json>, attested: Versions, pinned: Versions)
    requires Get(diagnostics, "runtime_versions") == StringMap(attested)
    ensures ReportsVersions(diagnostics, pinned) <==> Reports(attested, pinned)
  {
    var fields := StringMap(attested).fields;
    forall k | k in pinned
      ensures PyEq(Get(fields, k), JStr(pinned[k])) <==> k in attested && attested[k] == pinned[k]
    {
    }
  }

  /** A record keeps its request over any run. */
  lemma {:induction false} RunKeepsRequest(c: Config, s: State, es: seq<Event>, id: string)
    requires s.jobs.Valid() && Legal(c, s, es) && id in s.jobs.records
    ensures id in Run(c, s, es).jobs.records && Run(c, s, es).jobs.records[id].job == s.jobs.records[id].job
    decreases |es|
  {
    if es != [] {
      StepKeepsValid(c, s, es[0]);
      StepKeepsRequest(c, s, es[0], id);
      RunKeepsRequest(c, Apply(c, s, es[0]), es[1..], id);
    }
  }

  lemma StepKeepsRequest(c: Config, s: State, e: Event, id: string)
    requires s.jobs.Valid() && Enabled(s, e) && id in s.jobs.records
    ensures id in Apply(c, s, e).jobs.records && Apply(c, s, e).jobs.records[id].job == s.jobs.records[id].job
  {
    StepEvolves(c, s, e);
    assert Evolves(s.jobs.records[id], Apply(c, s, e).jobs.records[id], GrantedBy(s, e));
  }

  /** A job that a reachable lease call is granted on a registration prepared for these profiles, and
   *  that pins only keys the plugin of one of them attests, is never refused for its configuration:
   *  whenever that plugin's diagnostics come back, after any further run. */
  lemma GrantedJobPassesConfiguration(c: Config, es: seq<Event>, k: nat, more: seq<Event>,
                                      profiles: seq<string>, inspected: map<string, Versions>, i: nat, m: OutputManifest)
    requires START.jobs.Valid() && Legal(c, START, es) && Reached(c, es).jobs.Valid() && Legal(c, Reached(c, es), more)
    requires k in Reached(c, es).calls && Reached(c, es).calls[k].LeaseCall? && Reached(c, es).calls[k].leaseStage.Granting?
    requires EachInspected(profiles, inspected) && Distinct(profiles) && OneRuntime(profiles, inspected) && i < |profiles|
    requires Reached(c, es).calls[k].leaseStage.worker.runtimeVersions == Merged(profiles, inspected, |profiles|)
    requires Granted(Reached(c, es), k).Some?
    requires var s := Reached(c, es);
             s.jobs.records[Granted(s, k).value].job.requirements.runtimeVersions.Keys <= PluginAttests(profiles, inspected, i).Keys
    requires Carries(m, PluginAttests(profiles, inspected, i))
    ensures var id, t := Granted(Reached(c, es), k).value, Run(c, Reached(c, es), more);
            && id in t.jobs.records
            && ReportsVersions(m.diagnostics, t.jobs.records[id].job.requirements.runtimeVersions)
            && RecordRejection(c, t.jobs.records[id], m) != Some(RecipeConfigurationMismatch)
  {
    var s := Reached(c, es);
    var id := Granted(s, k).value;
    var job := s.jobs.records[id].job;
    GrantFitsCaller(c, es, k);
    var q := Query(s.calls[k].leaseStage.worker, s.calls[k].leaseStage.effective);
    PinnedJobPasses(profiles, inspected, i, job.requirements, q);
    ReportsOnDiagnostics(m.diagnostics, PluginAttests(profiles, inspected, i), job.requirements.runtimeVersions);
    RunKeepsRequest(c, s, more, id);
  }

  /** The job the lease call's next step would be granted. */
  ghost function Granted(s: State, k: nat): (r: Option<string>)
    requires s.jobs.Listed() && k in s.calls && s.calls[k].LeaseCall? && s.calls[k].leaseStage.Granting?
    ensures r.Some? ==> r.value in s.jobs.records
  {
    Store.Choose(s.jobs, Query(s.calls[k].leaseStage.worker, s.calls[k].leaseStage.effective), s.now)
  }

  // ----- the effective inputs of a template's job

  /** `_recipe_input_defaults`: the template's defaults and nothing else. */
  predicate IsDefaults(t: Templates.Template, defaults: map<string, Json>) {
    && (forall e | e in t.inputs :: Get(defaults, e.name) == e.default)
    && (forall k | k in defaults :: ComfyRequest.Named(t.inputs, k))
  }

  /** A media map the recipe attests is one the payload itself carries. */
  predicate MediaCarried(t: Templates.Template, names: seq<string>, payload: map<string, Json>) {
    && (Templates.IMAGES in names ==> Templates.IMAGES in payload)
    && (Templates.AUDIOS in names && t.audioSlots != [] ==> Templates.AUDIOS in payload)
  }

  /** The value the coordinator expects of one attested input. */
  function Expected(payload: map<string, Json>, defaults: map<string, Json>, name: string): Json {
    if name in payload then payload[name] else Get(defaults, name)
  }

  lemma DeclaredValueExpected(t: Templates.Template, payload: map<string, Json>, granted: seq<string>, inputs: map<string, Json>,
                              defaults: map<string, Json>, name: string)
    requires Templates.ValidTemplate(t) && ComfyRequest.Accepts(t, payload, granted) && ComfyRequest.IsRequest(t, payload, inputs)
    requires IsDefaults(t, defaults) && name != Templates.IMAGES && name != Templates.AUDIOS
    ensures Get(inputs, name) == Expected(payload, defaults, name)
  {
    var filled := inputs - {Templates.IMAGES, Templates.AUDIOS};
    if e :| e in t.inputs && e.name == name {
      assert ComfyRequest.Holds(e, payload, filled);
    } else {
      assert !ComfyRequest.Named(t.inputs, name);
      assert name !in filled;
    }
  }

  /** What the plugin holds for a media map is expected exactly when the payload carries it. */
  lemma MediaExpected(t: Templates.Template, payload: map<string, Json>, granted: seq<string>, inputs: map<string, Json>,
                      defaults: map<string, Json>)
    requires Templates.ValidTemplate(t) && ComfyRequest.Accepts(t, payload, granted) && ComfyRequest.IsRequest(t, payload, inputs)
    requires IsDefaults(t, defaults)
    ensures PyEq(Get(inputs, Templates.IMAGES), Expected(payload, defaults, Templates.IMAGES)) <==> Templates.IMAGES in payload
    ensures PyEq(Get(inputs, Templates.AUDIOS), Expected(payload, defaults, Templates.AUDIOS))
            <==> (t.audioSlots != [] ==> Templates.AUDIOS in payload)
  {
    MediaUndeclared(t);
    PyEqReflexive(Get(inputs, Templates.IMAGES));
    PyEqReflexive(Get(inputs, Templates.AUDIOS));
    assert Templates.IMAGES !in defaults && Templates.AUDIOS !in defaults;
    assert t.audioSlots == [] ==> Templates.AUDIOS !in payload;
  }

  lemma MediaUndeclared(t: Templates.Template)
    requires Templates.ValidTemplate(t)
    ensures !ComfyRequest.Named(t.inputs, Templates.IMAGES) && !ComfyRequest.Named(t.inputs, Templates.AUDIOS)
    ensures Templates.IMAGES != Templates.AUDIOS
  {
    forall e | e in t.inputs ensures e.name != Templates.IMAGES && e.name != Templates.AUDIOS {
      var i :| 0 <= i < |t.inputs| && t.inputs[i] == e;
      Templates.ValidInput(t, i);
    }
    assert Templates.IMAGES[0] != Templates.AUDIOS[0];
  }

  /** For every lease a template accepts, the effective inputs its plugin reports pass the coordinator's
   *  comparison exactly when every attested media map is in the payload. */
  lemma EffectiveInputsPass(c: Config, r: JobRecord, recipe: string, t: Templates.Template, granted: seq<string>,
                            inputs: map<string, Json>, diagnostics: map<string, Json>)
    requires Templates.ValidTemplate(t)
    requires ComfyRequest.Accepts(t, r.job.payload, granted) && ComfyRequest.IsRequest(t, r.job.payload, inputs)
    requires IsDefaults(t, c.recipeDefaults(recipe)) && Get(diagnostics, "effective_inputs") == JObj(inputs)
    ensures AttestsInputs(c, r, recipe, diagnostics) <==>
      MediaCarried(t, c.attestedInputs(recipe, r.job.capabilityId), r.job.payload)
  {
    var names, defaults := c.attestedInputs(recipe, r.job.capabilityId), c.recipeDefaults(recipe);
    MediaExpected(t, r.job.payload, granted, inputs, defaults);
    forall i | 0 <= i < |names| && names[i] != Templates.IMAGES && names[i] != Templates.AUDIOS
      ensures PyEq(Get(inputs, names[i]), Expected(r.job.payload, defaults, names[i]))
    {
      DeclaredValueExpected(t, r.job.payload, granted, inputs, defaults, names[i]);
      PyEqReflexive(Get(inputs, names[i]));
    }
    assert AttestsInputs(c, r, recipe, diagnostics) <==>
      forall i | 0 <= i < |names| :: PyEq(Get(inputs, names[i]), Expected(r.job.payload, defaults, names[i]));
  }

  // ----- both recipe checks

  /** What a ComfyUI profile's plugin adds to its diagnostics. */
  predicate ProfileDiagnostics(diagnostics: map<string, Json>, attested: Versions, inputs: map<string, Json>) {
    && Get(diagnostics, "runtime_versions") == StringMap(attested)
    && Get(diagnostics, "effective_inputs") == JObj(inputs)
  }

  /** A job granted on a registration prepared for these profiles, which pins only keys one profile's
   *  plugin attests and which that profile's template accepts: whatever that plugin publishes under a
   *  grant of the job, however often it is retried, attests the job, recipe and all. So a retry of it
   *  meets what `RetryIsNeverRejected` asks of its completions. */
  lemma ProfileOutputAttests(c: Config, es: seq<Event>, k: nat, more: seq<Event>, profiles: seq<string>,
                             inspected: map<string, Versions>, i: nat, t: Templates.Template, inputs: map<string, Json>,
                             output: Agent.PluginOutput, plugin: (string, string))
    requires START.jobs.Valid() && Legal(c, START, es) && Reached(c, es).jobs.Valid() && Legal(c, Reached(c, es), more)
    requires k in Reached(c, es).calls && Reached(c, es).calls[k].LeaseCall? && Reached(c, es).calls[k].leaseStage.Granting?
    requires EachInspected(profiles, inspected) && Distinct(profiles) && OneRuntime(profiles, inspected) && i < |profiles|
    requires Reached(c, es).calls[k].leaseStage.worker.runtimeVersions == Merged(profiles, inspected, |profiles|)
    requires Granted(Reached(c, es), k).Some?
    requires var job := Reached(c, es).jobs.records[Granted(Reached(c, es), k).value].job;
             && job.requirements.runtimeVersions.Keys <= PluginAttests(profiles, inspected, i).Keys
             && FitsTemplate(c, t, job, inputs)
    requires ProfileDiagnostics(output.diagnostics, PluginAttests(profiles, inspected, i), inputs)
    ensures var id, u := Granted(Reached(c, es), k).value, Run(c, Reached(c, es), more);
            && id in u.jobs.records
            && (u.jobs.records[id].claimToken.Some? ==>
                  var r := u.jobs.records[id];
                  Retry.Attests(c, r, output.content,
                                Agent.Manifest(Agent.GrantOf(r), output, c.sha256(output.content), plugin)))
  {
    var s := Reached(c, es);
    var id, u := Granted(s, k).value, Run(c, s, more);
    RunKeepsRequest(c, s, more, id);
    var r := u.jobs.records[id];
    if r.claimToken.Some? {
      var m := Agent.Manifest(Agent.GrantOf(r), output, c.sha256(output.content), plugin);
      GrantedJobPassesConfiguration(c, es, k, more, profiles, inspected, i, m);
      FittingJobAttestsInputs(c, t, r, inputs, m);
      Retry.PublishedManifestAttests(c, r, output, plugin);
    }
  }

  /** The template accepts the job, the recipe the job pins has the template's defaults, and the job
   *  carries every media map the recipe attests. */
  ghost predicate FitsTemplate(c: Config, t: Templates.Template, job: JobSubmission, inputs: map<string, Json>) {
    && Templates.ValidTemplate(t)
    && ComfyRequest.Accepts(t, job.payload, job.inputKeys) && ComfyRequest.IsRequest(t, job.payload, inputs)
    && var recipe := PinnedRecipe(job.requirements.runtimeVersions);
       recipe.Some? ==>
         && IsDefaults(t, c.recipeDefaults(recipe.value))
         && MediaCarried(t, c.attestedInputs(recipe.value, job.capabilityId), job.payload)
  }

  lemma FittingJobAttestsInputs(c: Config, t: Templates.Template, r: JobRecord, inputs: map<string, Json>, m: OutputManifest)
    requires FitsTemplate(c, t, r.job, inputs) && Get(m.diagnostics, "effective_inputs") == JObj(inputs)
    ensures var recipe := PinnedRecipe(r.job.requirements.runtimeVersions);
            recipe.Some? ==> AttestsInputs(c, r, recipe.value, m.diagnostics)
  {
    var recipe := PinnedRecipe(r.job.requirements.runtimeVersions);
    if recipe.Some? {
      EffectiveInputsPass(c, r, recipe.value, t, r.job.inputKeys, inputs, m.diagnostics);
    }
  }
}
