/** The SQL forms of the store's predicates (postgres.py), under SQL's three-valued logic. */
module Sql {
  import opened Json
  import opened Contracts
  import opened Requirements
  import opened JobStore
  import opened Text
  import opened Queue

  datatype Truth = Yes | No | Null

  function Of(b: bool): Truth {
    if b then Yes else No
  }

  function And(a: Truth, b: Truth): Truth {
    if a.No? || b.No? then No else if a.Null? || b.Null? then Null else Yes
  }

  function Or(a: Truth, b: Truth): Truth {
    if a.Yes? || b.Yes? then Yes else if a.Null? || b.Null? then Null else No
  }

  /** `x < y` and `x <= y` on a nullable left operand. */
  function Less(x: Option<int>, y: int): Truth {
    if x.None? then Null else Of(x.value < y)
  }

  function Coalesce<T>(x: Option<T>, fallback: T): T {
    if x.Some? then x.value else fallback
  }

  /** `column -> key` of a jsonb object. */
  function Arrow(m: map<string, Json>, key: string): Option<Json> {
    if key in m then Some(m[key]) else None
  }

  predicate Scalar(v: Json) {
    !v.JArr? && !v.JObj?
  }

  /** jsonb `=`: numbers by numeric value, and a boolean is never a number. */
  predicate JsonbEq(a: Json, b: Json)
    decreases a
  {
    match a
    case JInt(_) => !b.JBool? && Numeric(a) == Numeric(b)
    case JReal(_) => !b.JBool? && Numeric(a) == Numeric(b)
    case JArr(xs) => b.JArr? && |xs| == |b.items| && forall i | 0 <= i < |xs| :: JsonbEq(xs[i], b.items[i])
    case JObj(m) => b.JObj? && m.Keys == b.fields.Keys && forall k | k in m :: JsonbEq(m[k], b.fields[k])
    case _ => a == b
  }

  /** jsonb `small <@ big`: the structures match, except that an array also contains a bare scalar. */
  predicate ContainedIn(small: Json, big: Json) {
    if Scalar(small) && big.JArr? then exists k | 0 <= k < |big.items| :: JsonbEq(small, big.items[k])
    else Within(small, big)
  }

  predicate Within(small: Json, big: Json)
    decreases small, 0
  {
    match small
    case JArr(xs) => big.JArr? && forall i | 0 <= i < |xs| :: ElementOf(xs[i], big.items)
    case JObj(m) => big.JObj? && forall k | k in m :: k in big.fields && Within(m[k], big.fields[k])
    case _ => JsonbEq(small, big)
  }

  /** Some element equals the scalar, or contains the array or object. */
  predicate ElementOf(x: Json, items: seq<Json>)
    decreases x, 1
  {
    exists k | 0 <= k < |items| ::
      if Scalar(x) then JsonbEq(x, items[k]) else !Scalar(items[k]) && Within(x, items[k])
  }

  /** The column's JSON as the lease query's casts and array functions need it. */
  predicate TypedRequirements(m: map<string, Json>) {
    && ("min_vram_mb" in m ==> m["min_vram_mb"].JInt?)
    && ("gpu_models" in m ==> m["gpu_models"].JArr? && AllStrings(m["gpu_models"].items))
    && ("worker_ids" in m ==> m["worker_ids"].JArr?)
  }

  function MinVram(m: map<string, Json>): Option<int>
    requires TypedRequirements(m)
  {
    if "min_vram_mb" in m then Some(m["min_vram_mb"].i) else None
  }

  /** `lower($7) IN (SELECT lower(model) FROM jsonb_array_elements_text(models) AS model)`. */
  function LowerIn(model: Option<string>, models: Option<Json>): Truth
    requires models.Some? ==> models.value.JArr? && AllStrings(models.value.items)
  {
    if models.None? || models.value.items == [] then No
    else if model.None? then Null
    else Of(exists i | 0 <= i < |models.value.items| :: Lower(models.value.items[i].s) == Lower(model.value))
  }

  function GpuModelTerm(m: map<string, Json>, gpuModel: Option<string>): Truth
    requires TypedRequirements(m)
  {
    Or(Of(|Coalesce(Arrow(m, "gpu_models"), JArr([])).items| == 0), LowerIn(gpuModel, Arrow(m, "gpu_models")))
  }

  function LabelsTerm(m: map<string, Json>, labels: seq<string>): Truth {
    Of(ContainedIn(Coalesce(Arrow(m, "labels"), JArr([])), Strings(labels)))
  }

  /** `array ? text`: a top-level string element. */
  function HasElement(column: Option<Json>, text: string): Truth {
    if column.None? then Null
    else Of(column.value.JArr? && exists i | 0 <= i < |column.value.items| :: column.value.items[i] == JStr(text))
  }

  function WorkerIdsTerm(m: map<string, Json>, workerId: string): Truth {
    Or(Of(JsonbEq(Coalesce(Arrow(m, "worker_ids"), JArr([])), JArr([]))), HasElement(Arrow(m, "worker_ids"), workerId))
  }

  function VersionsTerm(m: map<string, Json>, versions: map<string, string>): Truth {
    Of(ContainedIn(Coalesce(Arrow(m, "runtime_versions"), JObj(map[])), StringMap(versions)))
  }

  function StatusTerm(r: JobRecord, now: int): Truth {
    Or(Of(r.status.Queued?), And(Of(r.status.Processing?), Less(r.leaseUntil, now)))
  }

  /** The WHERE clause of the lease query, on a row whose requirements column holds `m`. */
  function LeaseWhere(r: JobRecord, m: map<string, Json>, q: WorkerQuery, now: int): Truth
    requires TypedRequirements(m)
  {
    And(Of(r.job.capabilityId in q.capabilityIds),
    And(Of(r.attempts < r.job.attemptBudget),
    And(StatusTerm(r, now),
    And(Of(r.job.tenantId == q.tenantId),
    And(Of(Coalesce(MinVram(m), 0) <= Coalesce(q.vramMb, 0)),
    And(GpuModelTerm(m, q.gpuModel),
    And(LabelsTerm(m, q.labels),
    And(WorkerIdsTerm(m, q.workerId),
        VersionsTerm(m, q.runtimeVersions)))))))))
  }

  lemma AsPayloadTyped(r: JobRequirements)
    ensures TypedRequirements(AsPayload(r))
  {
    AsPayloadFields(r);
  }

  lemma GpuTermAgrees(r: JobRequirements, gpuModel: Option<string>)
    requires TypedRequirements(AsPayload(r))
    ensures GpuModelTerm(AsPayload(r), gpuModel).Yes? <==>
            r.gpuModels == [] || (gpuModel.Some? && exists g | g in r.gpuModels :: Lower(g) == Lower(gpuModel.value))
  {
    AsPayloadFields(r);
    if r.gpuModels != [] && gpuModel.Some? {
      var xs := Strings(r.gpuModels).items;
      assert Arrow(AsPayload(r), "gpu_models") == Some(Strings(r.gpuModels));
      forall g | g in r.gpuModels ensures exists i | 0 <= i < |xs| :: xs[i].s == g {
        var i :| 0 <= i < |r.gpuModels| && r.gpuModels[i] == g;
        assert xs[i].s == g;
      }
      forall i | 0 <= i < |xs| ensures xs[i].s in r.gpuModels {
        assert xs[i].s == r.gpuModels[i];
      }
    }
  }

  /** One string is an element of a text array. */
  lemma ElementOfStrings(x: string, ys: seq<string>)
    ensures ElementOf(JStr(x), Strings(ys).items) <==> x in ys
  {
    if x in ys {
      var k :| 0 <= k < |ys| && ys[k] == x;
      assert JsonbEq(JStr(x), Strings(ys).items[k]);
    }
  }

  lemma ContainedStrings(xs: seq<string>, ys: seq<string>)
    ensures ContainedIn(Strings(xs), Strings(ys)) <==> forall x | x in xs :: x in ys
  {
    forall i | 0 <= i < |xs| ensures ElementOf(Strings(xs).items[i], Strings(ys).items) <==> xs[i] in ys {
      ElementOfStrings(xs[i], ys);
    }
    if x :| x in xs && x !in ys {
      var i :| 0 <= i < |xs| && xs[i] == x;
      assert !ElementOf(Strings(xs).items[i], Strings(ys).items);
    }
  }

  lemma LabelsTermAgrees(r: JobRequirements, labels: seq<string>)
    ensures LabelsTerm(AsPayload(r), labels).Yes? <==> forall l | l in r.labels :: l in labels
  {
    AsPayloadFields(r);
    var small := Coalesce(Arrow(AsPayload(r), "labels"), JArr([]));
    assert small == Strings(r.labels) by {
      if r.labels == [] {
        assert Strings(r.labels) == JArr([]);
      }
    }
    ContainedStrings(r.labels, labels);
  }

  lemma WorkerIdsTermAgrees(r: JobRequirements, workerId: string)
    ensures WorkerIdsTerm(AsPayload(r), workerId).Yes? <==> r.workerIds == [] || workerId in r.workerIds
  {
    AsPayloadFields(r);
    if r.workerIds != [] {
      var xs := Strings(r.workerIds).items;
      assert Arrow(AsPayload(r), "worker_ids") == Some(Strings(r.workerIds));
      forall i | 0 <= i < |xs| ensures xs[i] == JStr(workerId) <==> r.workerIds[i] == workerId {
      }
    }
  }

  lemma ContainedVersions(a: map<string, string>, b: map<string, string>)
    ensures ContainedIn(StringMap(a), StringMap(b)) <==> forall k | k in a :: k in b && b[k] == a[k]
  {
    var small, big := StringMap(a).fields, StringMap(b).fields;
    forall k | k in a && k in b ensures ContainedIn(small[k], big[k]) <==> b[k] == a[k] {
    }
    assert ContainedIn(StringMap(a), StringMap(b)) <==>
           forall k | k in small :: k in big && ContainedIn(small[k], big[k]);
    assert small.Keys == a.Keys;
  }

  lemma VersionsTermAgrees(r: JobRequirements, versions: map<string, string>)
    ensures VersionsTerm(AsPayload(r), versions).Yes? <==>
            forall k | k in r.runtimeVersions :: k in versions && versions[k] == r.runtimeVersions[k]
  {
    AsPayloadFields(r);
    var small := Coalesce(Arrow(AsPayload(r), "runtime_versions"), JObj(map[]));
    assert small == StringMap(r.runtimeVersions) by {
      if r.runtimeVersions == map[] {
        assert StringMap(r.runtimeVersions).fields == map[];
      }
    }
    ContainedVersions(r.runtimeVersions, versions);
  }

  lemma MinVramAgrees(r: JobRequirements)
    ensures TypedRequirements(AsPayload(r)) && MinVram(AsPayload(r)) == r.minVramMb
  {
    AsPayloadTyped(r);
    AsPayloadFields(r);
  }

  /** The query's WHERE clause selects exactly the records the in-memory store would consider. */
  lemma LeaseWhereAgrees(r: JobRecord, q: WorkerQuery, now: int)
    ensures TypedRequirements(AsPayload(r.job.requirements))
    ensures LeaseWhere(r, AsPayload(r.job.requirements), q, now).Yes? <==> Claimable(r, q, now)
  {
    var reqs := r.job.requirements;
    MinVramAgrees(reqs);
    GpuTermAgrees(reqs, q.gpuModel);
    LabelsTermAgrees(reqs, q.labels);
    WorkerIdsTermAgrees(reqs, q.workerId);
    VersionsTermAgrees(reqs, q.runtimeVersions);
  }

  // ----- which candidate each store takes

  /** The WHERE clause holds of the row. */
  ghost predicate Selected(r: JobRecord, q: WorkerQuery, now: int) {
    AsPayloadTyped(r.job.requirements);
    LeaseWhere(r, AsPayload(r.job.requirements), q, now).Yes?
  }

  /** `ORDER BY priority, created_at, job_id`; uuids compare as their canonical texts do. */
  predicate RowLE(a: JobRecord, b: JobRecord) {
    || a.job.priority < b.job.priority
    || (a.job.priority == b.job.priority && a.createdAt < b.createdAt)
    || (a.job.priority == b.job.priority && a.createdAt == b.createdAt && StringLE(a.job.jobId, b.job.jobId))
  }

  /** `id` is the row the lease query's `LIMIT 1` returns. */
  ghost predicate SqlChooses(jobs: Jobs, q: WorkerQuery, now: int, id: string) {
    && id in jobs.records && Selected(jobs.records[id], q, now)
    && forall other | other in jobs.records && Selected(jobs.records[other], q, now) ::
         RowLE(jobs.records[id], jobs.records[other])
  }

  lemma SelectedIsClaimable(r: JobRecord, q: WorkerQuery, now: int)
    ensures Selected(r, q, now) <==> Claimable(r, q, now)
  {
    LeaseWhereAgrees(r, q, now);
  }

  lemma SqlChoosesByClaimable(jobs: Jobs, q: WorkerQuery, now: int, id: string)
    ensures SqlChooses(jobs, q, now, id) <==>
      && id in jobs.records && Claimable(jobs.records[id], q, now)
      && forall other | other in jobs.records && Claimable(jobs.records[other], q, now) ::
           RowLE(jobs.records[id], jobs.records[other])
  {
    forall other | other in jobs.records ensures Selected(jobs.records[other], q, now) <==> Claimable(jobs.records[other], q, now) {
      SelectedIsClaimable(jobs.records[other], q, now);
    }
  }

  lemma RowOrder(a: JobRecord, b: JobRecord, c: JobRecord)
    ensures RowLE(a, b) || RowLE(b, a)
    ensures RowLE(a, b) && RowLE(b, c) ==> RowLE(a, c)
    ensures RowLE(a, b) && RowLE(b, a) ==> a.job.jobId == b.job.jobId
  {
    var x, y, z := a.job.jobId, b.job.jobId, c.job.jobId;
    StringLETotal(x, y);
    if StringLE(x, y) && StringLE(y, z) {
      StringLETransitive(x, y, z);
    }
    if StringLE(x, y) && StringLE(y, x) {
      StringLEAntisymmetric(x, y);
    }
  }

  /** Some row of a nonempty set comes first. */
  lemma {:induction false} FirstRow(jobs: Jobs, ids: set<string>) returns (id: string)
    requires ids != {} && ids <= jobs.records.Keys
    ensures id in ids && forall other | other in ids :: RowLE(jobs.records[id], jobs.records[other])
  {
    var x :| x in ids;
    RowOrder(jobs.records[x], jobs.records[x], jobs.records[x]);
    if ids == {x} {
      id := x;
    } else {
      var rest := FirstRow(jobs, ids - {x});
      id := if RowLE(jobs.records[x], jobs.records[rest]) then x else rest;
      forall other | other in ids ensures RowLE(jobs.records[id], jobs.records[other]) {
        RowOrder(jobs.records[x], jobs.records[rest], jobs.records[other]);
        assert other != x ==> other in ids - {x};
      }
    }
  }

  /** The query returns at most one row. */
  lemma SqlRowIsUnique(jobs: Jobs, q: WorkerQuery, now: int, a: string, b: string)
    requires jobs.Valid() && SqlChooses(jobs, q, now, a) && SqlChooses(jobs, q, now, b)
    ensures a == b
  {
    RowOrder(jobs.records[a], jobs.records[b], jobs.records[a]);
  }

  lemma SqlFindsWork(jobs: Jobs, q: WorkerQuery, now: int) returns (id: string)
    requires ClaimableIds(jobs, q, now) != {}
    ensures SqlChooses(jobs, q, now, id)
  {
    id := FirstRow(jobs, ClaimableIds(jobs, q, now));
    SqlChoosesByClaimable(jobs, q, now, id);
  }

  lemma SqlRowIsClaimable(jobs: Jobs, q: WorkerQuery, now: int, id: string)
    requires SqlChooses(jobs, q, now, id)
    ensures id in ClaimableIds(jobs, q, now)
  {
    SelectedIsClaimable(jobs.records[id], q, now);
  }

  /** Both stores find work, or neither does. */
  lemma BothStoresFindWork(jobs: Jobs, q: WorkerQuery, now: int)
    requires jobs.Valid()
    ensures Choose(jobs, q, now).Some? <==> exists id :: SqlChooses(jobs, q, now, id)
  {
    ChoiceIsLeastClaimable(jobs, q, now);
    if Choose(jobs, q, now).Some? {
      assert Choose(jobs, q, now).value in ClaimableIds(jobs, q, now);
      var id := SqlFindsWork(jobs, q, now);
    }
    if id :| SqlChooses(jobs, q, now, id) {
      SqlRowIsClaimable(jobs, q, now, id);
    }
  }

  /** One priority and one creation time. */
  predicate Tied(a: JobRecord, b: JobRecord) {
    a.job.priority == b.job.priority && a.createdAt == b.createdAt
  }

  /** `id` was inserted before every claimable job that ties with it. */
  ghost predicate FirstOfItsTies(jobs: Jobs, q: WorkerQuery, now: int, id: string)
    requires id in jobs.records
  {
    forall other | other in jobs.records && other != id && Claimable(jobs.records[other], q, now)
        && Tied(jobs.records[other], jobs.records[id]) ::
      Precedes(jobs.order, id, other)
  }

  lemma PrecedesOneWay(jobs: Jobs, a: string, b: string)
    requires jobs.Valid() && Precedes(jobs.order, a, b)
    ensures a != b && !Precedes(jobs.order, b, a)
  {
  }

  /** Both stores lease from the same place in (priority, created_at) order, and the same job exactly
   *  when the row the query returns was inserted before every claimable job it ties with. */
  lemma BothStoresChooseAlike(jobs: Jobs, q: WorkerQuery, now: int, id: string)
    requires jobs.Valid() && SqlChooses(jobs, q, now, id)
    ensures Choose(jobs, q, now).Some?
    ensures var mine := jobs.records[Choose(jobs, q, now).value];
            mine.job.priority == jobs.records[id].job.priority && mine.createdAt == jobs.records[id].createdAt
    ensures Choose(jobs, q, now) == Some(id) <==> FirstOfItsTies(jobs, q, now, id)
  {
    SqlChoosesByClaimable(jobs, q, now, id);
    ChoiceIsLeastClaimable(jobs, q, now);
    var mine := Choose(jobs, q, now).value;
    if mine == id {
      forall other | other in jobs.records && other != id && Claimable(jobs.records[other], q, now)
          && Tied(jobs.records[other], jobs.records[id])
        ensures Precedes(jobs.order, id, other)
      {
        ChosenIsServedFirst(jobs, q, now, other);
      }
    } else if FirstOfItsTies(jobs, q, now, id) {
      ChosenIsServedFirst(jobs, q, now, id);
      PrecedesOneWay(jobs, id, mine);
    }
  }

  // ----- two jobs the stores lease differently

  function TiedSubmission(id: string): JobSubmission {
    JobSubmission(id, id, "c.v1", [], "outputs/" + id, 1, map[], None, JobRequirements(None, [], [], [], map[]), 0, 1, 60)
  }

  const LOW_ID := "00000000-0000-4000-8000-000000000000"
  const HIGH_ID := "10000000-0000-4000-8000-000000000000"

  /** The job with the higher id was inserted first; both have one priority and one creation time. */
  function TiedJobs(): Jobs {
    Jobs([HIGH_ID, LOW_ID],
         map[LOW_ID := NewRecord(TiedSubmission(LOW_ID), "", 0), HIGH_ID := NewRecord(TiedSubmission(HIGH_ID), "", 0)])
  }

  const ANY_WORKER := WorkerQuery("w", ["c.v1"], None, None, None, [], map[])

  lemma TiedJobsTie(now: int)
    ensures TiedJobs().Valid()
    ensures forall id | id in TiedJobs().records :: Claimable(TiedJobs().records[id], ANY_WORKER, now)
    ensures RowLE(TiedJobs().records[LOW_ID], TiedJobs().records[HIGH_ID]) && Tied(TiedJobs().records[HIGH_ID], TiedJobs().records[LOW_ID])
  {
    assert LOW_ID[0] == '0' && HIGH_ID[0] == '1';
  }

  lemma TwoTied(jobs: Jobs, q: WorkerQuery, now: int, a: string, b: string)
    requires jobs.Valid() && jobs.order == [b, a] && a in jobs.records && b in jobs.records
    requires Claimable(jobs.records[a], q, now) && Claimable(jobs.records[b], q, now)
    requires RowLE(jobs.records[a], jobs.records[b]) && Tied(jobs.records[b], jobs.records[a])
    ensures Choose(jobs, q, now) == Some(b) && SqlChooses(jobs, q, now, a)
  {
    RowOrder(jobs.records[a], jobs.records[a], jobs.records[a]);
    SqlChoosesByClaimable(jobs, q, now, a);
    assert Precedes(jobs.order, b, a) by {
      assert jobs.order[0] == b && jobs.order[1] == a;
    }
    PrecedesOneWay(jobs, b, a);
    BothStoresChooseAlike(jobs, q, now, a);
  }

  /** On a tie the in-memory store takes the first inserted job, the query the least id. */
  lemma TiedJobsLeasedDifferently(now: int)
    ensures TiedJobs().Valid()
    ensures Choose(TiedJobs(), ANY_WORKER, now) == Some(HIGH_ID)
    ensures SqlChooses(TiedJobs(), ANY_WORKER, now, LOW_ID)
  {
    TiedJobsTie(now);
    TwoTied(TiedJobs(), ANY_WORKER, now, LOW_ID, HIGH_ID);
  }

  // ----- the fenced updates, the expiry sweep and the replay test

  /** `WHERE status = 'processing' AND claim_token = $2`, on the row with that id. */
  function FencedWhere(r: JobRecord, token: Token): Truth {
    And(Of(r.status.Processing?), if r.claimToken.None? then Null else Of(r.claimToken.value == token))
  }

  lemma FencedWhereAgrees(jobs: Jobs, id: string, token: Token)
    requires id in jobs.records
    ensures FencedWhere(jobs.records[id], token).Yes? <==> Owns(jobs, id, token)
  {
  }

  function ExpireWhere(r: JobRecord, now: int): Truth {
    And(Of(r.status.Processing?), And(Less(r.leaseUntil, now), Of(r.attempts >= r.job.attemptBudget)))
  }

  lemma ExpireWhereAgrees(r: JobRecord, now: int)
    ensures ExpireWhere(r, now).Yes? <==> Exhausted(r, now)
  {
  }

  /** Somewhere in two values that Python calls equal, a bool stands against a number. */
  predicate BoolMeetsNumber(a: Json, b: Json)
    decreases a
  {
    match a
    case JArr(xs) => b.JArr? && |xs| == |b.items| && exists i | 0 <= i < |xs| :: BoolMeetsNumber(xs[i], b.items[i])
    case JObj(m) => b.JObj? && m.Keys == b.fields.Keys && exists k | k in m :: BoolMeetsNumber(m[k], b.fields[k])
    case _ => a.JBool? != b.JBool?
  }

  lemma {:induction false} JsonbEqIsPyEqWithoutBools(a: Json, b: Json)
    ensures JsonbEq(a, b) <==> PyEq(a, b) && !BoolMeetsNumber(a, b)
  {
    match a
    case JArr(xs) =>
      if b.JArr? && |xs| == |b.items| {
        forall i | 0 <= i < |xs|
          ensures JsonbEq(xs[i], b.items[i]) <==> PyEq(xs[i], b.items[i]) && !BoolMeetsNumber(xs[i], b.items[i])
        {
          JsonbEqIsPyEqWithoutBools(xs[i], b.items[i]);
        }
      }
    case JObj(m) =>
      if b.JObj? && m.Keys == b.fields.Keys {
        forall k | k in m
          ensures JsonbEq(m[k], b.fields[k]) <==> PyEq(m[k], b.fields[k]) && !BoolMeetsNumber(m[k], b.fields[k])
        {
          JsonbEqIsPyEqWithoutBools(m[k], b.fields[k]);
        }
      }
    case _ =>
  }

  /** The `ON CONFLICT ... DO UPDATE ... WHERE` of `submit`, on the stored row. */
  predicate SqlReplays(r: JobRecord, s: JobSubmission) {
    && r.job.capabilityId == s.capabilityId
    && r.job.contractVersion == s.contractVersion
    && JsonbEq(Strings(r.job.inputKeys), Strings(s.inputKeys))
    && r.job.outputKey == s.outputKey
    && JsonbEq(JObj(r.job.payload), JObj(s.payload))
    && r.job.tenantId == s.tenantId
    && JsonbEq(JObj(AsPayload(r.job.requirements)), JObj(AsPayload(s.requirements)))
    && r.job.priority == s.priority
    && r.job.attemptBudget == s.attemptBudget
    && r.job.executionDeadlineSeconds == s.executionDeadlineSeconds
  }

  lemma JsonbEqStrings(xs: seq<string>, ys: seq<string>)
    ensures JsonbEq(Strings(xs), Strings(ys)) <==> xs == ys
  {
    if |xs| == |ys| {
      forall i | 0 <= i < |xs| ensures JsonbEq(Strings(xs).items[i], Strings(ys).items[i]) <==> xs[i] == ys[i] {
      }
    }
  }

  /** jsonb equality of one field of two requirement columns. */
  lemma JsonbEqField(a: map<string, Json>, b: map<string, Json>, key: string)
    requires JsonbEq(JObj(a), JObj(b))
    ensures key in a <==> key in b
    ensures key in a ==> JsonbEq(a[key], b[key])
  {
    assert key in a.Keys <==> key in b.Keys;
  }

  lemma SameStrings(a: JobRequirements, b: JobRequirements, key: string, xs: seq<string>, ys: seq<string>)
    requires JsonbEq(JObj(AsPayload(a)), JObj(AsPayload(b)))
    requires Get(AsPayload(a), key) == if xs != [] then Strings(xs) else JNull
    requires Get(AsPayload(b), key) == if ys != [] then Strings(ys) else JNull
    ensures xs == ys
  {
    JsonbEqField(AsPayload(a), AsPayload(b), key);
    JsonbEqStrings(xs, ys);
    JsonbEqStrings(xs, []);
  }

  lemma SameVersions(a: map<string, string>, b: map<string, string>)
    requires JsonbEq(StringMap(a), StringMap(b))
    ensures a == b
  {
    var m, n := StringMap(a).fields, StringMap(b).fields;
    forall k ensures k in a <==> k in b {
      JsonbEqField(m, n, k);
      assert (k in a <==> k in m) && (k in b <==> k in n);
    }
    forall k | k in a ensures a[k] == b[k] {
      JsonbEqField(m, n, k);
    }
  }

  lemma {:induction false} JsonbEqReflexive(a: Json)
    ensures JsonbEq(a, a)
  {
    match a
    case JArr(xs) =>
      forall i | 0 <= i < |xs| ensures JsonbEq(xs[i], xs[i]) {
        JsonbEqReflexive(xs[i]);
      }
    case JObj(m) =>
      forall k | k in m ensures JsonbEq(m[k], m[k]) {
        JsonbEqReflexive(m[k]);
      }
    case _ =>
  }

  lemma RequirementsColumnsEqual(a: JobRequirements, b: JobRequirements)
    ensures JsonbEq(JObj(AsPayload(a)), JObj(AsPayload(b))) <==> a == b
  {
    if a == b {
      JsonbEqReflexive(JObj(AsPayload(a)));
    } else if JsonbEq(JObj(AsPayload(a)), JObj(AsPayload(b))) {
      AsPayloadFields(a);
      AsPayloadFields(b);
      SameStrings(a, b, "gpu_models", a.gpuModels, b.gpuModels);
      SameStrings(a, b, "labels", a.labels, b.labels);
      SameStrings(a, b, "worker_ids", a.workerIds, b.workerIds);
      JsonbEqField(AsPayload(a), AsPayload(b), "min_vram_mb");
      JsonbEqField(AsPayload(a), AsPayload(b), "runtime_versions");
      if a.runtimeVersions != map[] && b.runtimeVersions != map[] {
        SameVersions(a.runtimeVersions, b.runtimeVersions);
      }
      assert false;
    }
  }

  /** The two replay tests agree exactly when no bool in one payload meets a number in the other. */
  lemma SqlReplaysAgrees(r: JobRecord, s: JobSubmission)
    ensures SqlReplays(r, s) <==> Replays(r, s) && !BoolMeetsNumber(JObj(r.job.payload), JObj(s.payload))
  {
    JsonbEqStrings(r.job.inputKeys, s.inputKeys);
    JsonbEqIsPyEqWithoutBools(JObj(r.job.payload), JObj(s.payload));
    RequirementsColumnsEqual(r.job.requirements, s.requirements);
  }

  /** The payloads `{"fast": true}` and `{"fast": 1}`: a replay in memory, a conflict in SQL. */
  lemma ReplayTestsDiffer(r: JobRecord)
    requires r.job.payload == map["fast" := JBool(true)]
    ensures Replays(r, r.job.(payload := map["fast" := JInt(1)]))
    ensures !SqlReplays(r, r.job.(payload := map["fast" := JInt(1)]))
  {
    var s := r.job.(payload := map["fast" := JInt(1)]);
    assert PyEq(r.job.payload["fast"], s.payload["fast"]);
    assert r.job.payload.Keys == s.payload.Keys;
    assert forall k | k in r.job.payload :: PyEq(r.job.payload[k], s.payload[k]);
    assert BoolMeetsNumber(r.job.payload["fast"], s.payload["fast"]);
    SqlReplaysAgrees(r, s);
  }
}
