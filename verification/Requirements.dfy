/** Worker requirements: the in-memory predicate and the stored JSON form. */
module Requirements {
  import opened Json
  import opened Contracts

  /** Whether the worker meets every constraint the job states (memory.py). */
  predicate Satisfies(r: JobRequirements, q: WorkerQuery) {
    && (r.workerIds == [] || q.workerId in r.workerIds)
    && (forall k | k in r.runtimeVersions :: k in q.runtimeVersions && q.runtimeVersions[k] == r.runtimeVersions[k])
    && OrZero(r.minVramMb) <= OrZero(q.vramMb)
    && (r.gpuModels == [] || (q.gpuModel.Some? && exists m | m in r.gpuModels :: Lower(m) == Lower(q.gpuModel.value)))
    && (forall l | l in r.labels :: l in q.labels)
  }

  function OrZero(v: Option<int>): int {
    if v.Some? then v.value else 0
  }

  function Strings(xs: seq<string>): (r: Json)
    ensures r.JArr? && |r.items| == |xs|
    ensures forall i | 0 <= i < |xs| :: r.items[i] == JStr(xs[i])
  {
    JArr(seq(|xs|, i requires 0 <= i < |xs| => JStr(xs[i])))
  }

  function StringMap(m: map<string, string>): Json {
    JObj(map k | k in m :: JStr(m[k]))
  }

  /** `as_payload`: only the constraints actually set, so no constraint is `{}`. */
  function AsPayload(r: JobRequirements): map<string, Json> {
    var p := map[];
    var p := if r.minVramMb.Some? then p["min_vram_mb" := JInt(r.minVramMb.value)] else p;
    var p := if r.gpuModels != [] then p["gpu_models" := Strings(r.gpuModels)] else p;
    var p := if r.labels != [] then p["labels" := Strings(r.labels)] else p;
    var p := if r.workerIds != [] then p["worker_ids" := Strings(r.workerIds)] else p;
    if r.runtimeVersions != map[] then p["runtime_versions" := StringMap(r.runtimeVersions)] else p
  }

  /** `payload.get(key) or fallback`. */
  function GetOr(payload: map<string, Json>, key: string, fallback: Json): Json {
    if Truthy(Get(payload, key)) then Get(payload, key) else fallback
  }

  predicate AllStrings(xs: seq<Json>) {
    forall i | 0 <= i < |xs| :: xs[i].JStr?
  }

  /** `str(value)` for an element that is not already a string is `render`. */
  function Rendered(xs: seq<Json>, render: Json -> string): seq<string> {
    seq(|xs|, i requires 0 <= i < |xs| => if xs[i].JStr? then xs[i].s else render(xs[i]))
  }

  /** `from_payload`; the errors are its `TypeError`s. A JSON bool passes as a Python int. */
  function FromPayload(payload: map<string, Json>, render: Json -> string): Result<JobRequirements, string> {
    var minVram := Get(payload, "min_vram_mb");
    var gpuModels := GetOr(payload, "gpu_models", JArr([]));
    var labels := GetOr(payload, "labels", JArr([]));
    if !gpuModels.JArr? || !labels.JArr? then
      Err("requirements gpu_models and labels must be arrays")
    else if !(minVram.JNull? || minVram.JInt? || minVram.JBool?) then
      Err("requirements min_vram_mb must be an integer")
    else
      var workerIds := GetOr(payload, "worker_ids", JArr([]));
      var versions := GetOr(payload, "runtime_versions", JObj(map[]));
      if !workerIds.JArr? || !AllStrings(workerIds.items) then
        Err("requirements worker_ids must be an array of strings")
      else if !versions.JObj? || exists k | k in versions.fields :: !versions.fields[k].JStr? then
        Err("requirements runtime_versions must map strings to strings")
      else
        Ok(JobRequirements(
             match minVram { case JInt(i) => Some(i) case JBool(b) => Some(if b then 1 else 0) case _ => None },
             Rendered(gpuModels.items, render),
             Rendered(labels.items, render),
             Rendered(workerIds.items, render),
             map k | k in versions.fields :: if versions.fields[k].JStr? then versions.fields[k].s else ""))
  }

  /** A value Python's `or` passes over. */
  predicate Falsy(v: Json) {
    v == JNull || v == JBool(false) || v == JInt(0) || v == JReal(0.0) || v == JStr("") || v == JArr([]) || v == JObj(map[])
  }

  lemma Unless(payload: map<string, Json>, key: string, fallback: Json)
    ensures GetOr(payload, key, fallback) == if Falsy(Get(payload, key)) then fallback else Get(payload, key)
  {
    TruthyIsNotFalsy(Get(payload, key));
  }

  /** A column is read exactly when each field it gives is of its kind. */
  lemma FromPayloadAccepts(payload: map<string, Json>, render: Json -> string)
    ensures var vram, gpus, labels := Get(payload, "min_vram_mb"), Get(payload, "gpu_models"), Get(payload, "labels");
            var ids, versions := Get(payload, "worker_ids"), Get(payload, "runtime_versions");
            FromPayload(payload, render).Ok? <==>
              && (vram.JNull? || vram.JInt? || vram.JBool?) && (Falsy(gpus) || gpus.JArr?) && (Falsy(labels) || labels.JArr?)
              && (Falsy(ids) || (ids.JArr? && forall i | 0 <= i < |ids.items| :: ids.items[i].JStr?))
              && (Falsy(versions) || (versions.JObj? && forall k | k in versions.fields :: versions.fields[k].JStr?))
  {
    Unless(payload, "gpu_models", JArr([]));
    Unless(payload, "labels", JArr([]));
    Unless(payload, "worker_ids", JArr([]));
    Unless(payload, "runtime_versions", JObj(map[]));
  }

  /** Each field is read as it is, and what is not given reads as no constraint. */
  lemma FromPayloadReads(payload: map<string, Json>, render: Json -> string)
    requires FromPayload(payload, render).Ok?
    ensures var r, vram := FromPayload(payload, render).value, Get(payload, "min_vram_mb");
            (vram.JNull? <==> r.minVramMb.None?) && (vram.JInt? ==> r.minVramMb == Some(vram.i))
    ensures ListReads(Get(payload, "gpu_models"), FromPayload(payload, render).value.gpuModels)
    ensures ListReads(Get(payload, "labels"), FromPayload(payload, render).value.labels)
    ensures ListReads(Get(payload, "worker_ids"), FromPayload(payload, render).value.workerIds)
    ensures var r, versions := FromPayload(payload, render).value.runtimeVersions, Get(payload, "runtime_versions");
            if Falsy(versions) then r == map[]
            else && versions.JObj? && r.Keys == versions.fields.Keys
                 && forall k | k in versions.fields :: versions.fields[k] == JStr(r[k])
  {
    Unless(payload, "gpu_models", JArr([]));
    Unless(payload, "labels", JArr([]));
    Unless(payload, "worker_ids", JArr([]));
    Unless(payload, "runtime_versions", JObj(map[]));
  }

  lemma TruthyIsNotFalsy(v: Json)
    ensures Truthy(v) <==> !Falsy(v)
  {
  }

  /** A list is read item by item, every string as itself; a value passed over reads as no items. */
  predicate ListReads(v: Json, texts: seq<string>) {
    if Falsy(v) then texts == []
    else v.JArr? && |texts| == |v.items| && forall i | 0 <= i < |v.items| && v.items[i].JStr? :: texts[i] == v.items[i].s
  }

  lemma AsPayloadFields(r: JobRequirements)
    ensures Get(AsPayload(r), "min_vram_mb") == if r.minVramMb.Some? then JInt(r.minVramMb.value) else JNull
    ensures Get(AsPayload(r), "gpu_models") == if r.gpuModels != [] then Strings(r.gpuModels) else JNull
    ensures Get(AsPayload(r), "labels") == if r.labels != [] then Strings(r.labels) else JNull
    ensures Get(AsPayload(r), "worker_ids") == if r.workerIds != [] then Strings(r.workerIds) else JNull
    ensures Get(AsPayload(r), "runtime_versions") ==
            if r.runtimeVersions != map[] then StringMap(r.runtimeVersions) else JNull
    ensures AsPayload(r).Keys <= {"min_vram_mb", "gpu_models", "labels", "worker_ids", "runtime_versions"}
  {
    assert |"min_vram_mb"| == 11 && |"gpu_models"| == 10 && |"labels"| == 6 && |"worker_ids"| == 10;
    assert |"runtime_versions"| == 16;
    assert "gpu_models"[0] != "worker_ids"[0];
  }

  lemma StringsGetOr(r: JobRequirements, key: string, xs: seq<string>)
    requires Get(AsPayload(r), key) == if xs != [] then Strings(xs) else JNull
    ensures GetOr(AsPayload(r), key, JArr([])) == Strings(xs)
  {
    if xs == [] {
      assert Strings(xs) == JArr([]);
    }
  }

  lemma RenderedStrings(xs: seq<string>, render: Json -> string)
    ensures Rendered(Strings(xs).items, render) == xs
  {
  }

  /** Decoding the stored JSON gives back exactly the requirements that were written. */
  lemma RequirementsRoundTrip(r: JobRequirements, render: Json -> string)
    ensures FromPayload(AsPayload(r), render) == Ok(r)
  {
    AsPayloadFields(r);
    StringsGetOr(r, "gpu_models", r.gpuModels);
    StringsGetOr(r, "labels", r.labels);
    StringsGetOr(r, "worker_ids", r.workerIds);
    RenderedStrings(r.gpuModels, render);
    RenderedStrings(r.labels, render);
    RenderedStrings(r.workerIds, render);
    VersionsGetOr(r);
    var fields := StringMap(r.runtimeVersions).fields;
    assert r.runtimeVersions == map k | k in fields :: if fields[k].JStr? then fields[k].s else "";
  }

  lemma VersionsGetOr(r: JobRequirements)
    ensures GetOr(AsPayload(r), "runtime_versions", JObj(map[])) == StringMap(r.runtimeVersions)
  {
    AsPayloadFields(r);
    if r.runtimeVersions == map[] {
      assert StringMap(r.runtimeVersions).fields == map[];
    } else {
      var k :| k in r.runtimeVersions;
      assert k in StringMap(r.runtimeVersions).fields;
    }
  }
}
