/** The coordinator (service.py) as a step relation over the shared stores and the calls in flight.
 *
 * A service call is a sequence of awaited steps. Each step below is one atomic access to a store,
 * together with the code that runs up to the next await; between two steps of one call any other
 * call, host action, upload or clock tick may run. A call remembers what it has read (its
 * snapshot), so a decision may be taken on a record that has since changed.
 */
module Service {
  import opened Json
  import opened Contracts
  import opened Text
  import opened Profiles
  import opened Registry
  import Store = JobStore

  /** Fixed settings, and the functions this model does not look inside. */
  datatype Config = Config(
    defaultLeaseSeconds: int,
    maxVerifyBytes: int,
    refusedProfiles: set<string>,
    refusedCapabilities: set<string>,
    refusedRecipes: set<string>,
    enrollments: map<string, WorkerEnrollment>,
    sha256: Bytes -> string,
    requestDigest: JobSubmission -> string,
    wellFormed: JobSubmission -> bool,
    recipeDefaults: string -> map<string, Json>,
    attestedInputs: (string, string) -> seq<string>)

  // ----- admission rules

  /** `_unqualified_reason`: a capability or a version names a profile the pool must not run. */
  predicate Unqualified(c: Config, capabilityIds: seq<string>, versions: Versions) {
    || (exists id | id in capabilityIds :: id in c.refusedCapabilities)
    || (exists key | key in versions :: RefusedVersion(c, key, versions[key]))
  }

  predicate RefusedVersion(c: Config, key: string, value: string) {
    var (base, profile) := Partition(key, SEPARATOR);
    || profile in c.refusedProfiles
    || (base == PROFILE_KEY && value in c.refusedProfiles)
    || (base == RECIPE_KEY && value in c.refusedRecipes)
  }

  /** `validate_job_submission`: the bounds here, the identifier pattern and payload in `wellFormed`. */
  predicate ValidSubmission(c: Config, s: JobSubmission) {
    && 1 <= |s.jobId| <= MAX_JOB_ID_LENGTH
    && 1 <= |s.idempotencyKey| <= MAX_JOB_ID_LENGTH
    && (s.tenantId.Some? ==> 1 <= |s.tenantId.value| <= MAX_JOB_ID_LENGTH)
    && 1 <= |s.outputKey| <= MAX_ASSET_KEY_LENGTH
    && |s.inputKeys| <= MAX_JOB_INPUT_KEYS
    && (forall i | 0 <= i < |s.inputKeys| :: 1 <= |s.inputKeys[i]| <= MAX_ASSET_KEY_LENGTH)
    && (forall i, k | 0 <= i < k < |s.inputKeys| :: s.inputKeys[i] != s.inputKeys[k])
    && 1 <= s.contractVersion
    && MIN_JOB_PRIORITY <= s.priority <= MAX_JOB_PRIORITY
    && MIN_JOB_ATTEMPT_BUDGET <= s.attemptBudget <= MAX_JOB_ATTEMPT_BUDGET
    && MIN_EXECUTION_DEADLINE_SECONDS <= s.executionDeadlineSeconds <= MAX_EXECUTION_DEADLINE_SECONDS
    && c.wellFormed(s)
  }

  /** What `service.submit` lets through to the store. */
  predicate Admitted(c: Config, s: JobSubmission) {
    !Unqualified(c, [s.capabilityId], s.requirements.runtimeVersions) && ValidSubmission(c, s)
  }

  /** `_approved_enrollment`: the tenant this identity works for, if it may work at all. */
  function ApprovedTenant(c: Config, w: Workers, identity: WorkerIdentity): Option<Option<string>> {
    if identity.workerId in w then
      if w[identity.workerId].identitySubject != identity.subject || w[identity.workerId].status.Revoked? then None
      else Some(w[identity.workerId].tenantId)
    else if identity.workerId in c.enrollments && c.enrollments[identity.workerId].identitySubject == identity.subject then
      Some(c.enrollments[identity.workerId].tenantId)
    else None
  }

  // ----- completion checks

  /** Every pinned version is reported with the pinned value. */
  predicate ReportsVersions(diagnostics: map<string, Json>, pinned: Versions) {
    var reported := Get(diagnostics, "runtime_versions");
    reported.JObj? && forall k | k in pinned :: PyEq(Get(reported.fields, k), JStr(pinned[k]))
  }

  /** Every attested input has the value the job asked for, or the recipe's default. */
  predicate AttestsInputs(c: Config, r: JobRecord, recipe: string, diagnostics: map<string, Json>) {
    var effective := Get(diagnostics, "effective_inputs");
    var names := c.attestedInputs(recipe, r.job.capabilityId);
    effective.JObj? && forall i | 0 <= i < |names| ::
      PyEq(Get(effective.fields, names[i]),
           if names[i] in r.job.payload then r.job.payload[names[i]] else Get(c.recipeDefaults(recipe), names[i]))
  }

  /** The checks of `_verify_output` that need no asset, in order. */
  ghost function RecordRejection(c: Config, r: JobRecord, m: OutputManifest): Option<Rejection> {
    var versions := r.job.requirements.runtimeVersions;
    var recipe := PinnedRecipe(versions);
    if Unqualified(c, [r.job.capabilityId], versions) then Some(ProfileNotQualified)
    else if recipe.Some? && !ReportsVersions(m.diagnostics, versions) then Some(RecipeConfigurationMismatch)
    else if recipe.Some? && !AttestsInputs(c, r, recipe.value, m.diagnostics) then Some(EffectiveInputsMismatch)
    else if m.outputKey != r.job.outputKey then Some(OutputKeyMismatch)
    else if m.idempotencyKey != r.job.idempotencyKey then Some(IdempotencyKeyMismatch)
    else if m.requestDigest != r.digest then Some(RequestDigestMismatch)
    else if m.publicationMode != ImmutableCreateOnce then Some(PublicationModeMismatch)
    else None
  }

  /** The checks on the stored object's size. */
  function SizeRejection(c: Config, assets: Assets, key: string, m: OutputManifest): Option<Rejection> {
    if key !in assets then Some(OutputMissing)
    else if |assets[key]| != m.byteLength then Some(ByteLengthMismatch)
    else if m.byteLength > c.maxVerifyBytes then Some(OutputTooLarge)
    else None
  }

  // ----- calls in flight

  datatype JobOp =
    | Beat(progress: Option<int>)
    | Complete(manifest: OutputManifest)
    | Fail(reason: string, code: FailureCode, retryable: bool)
    | Release(reason: string)

  /** The compare-and-set a job call has decided on. */
  datatype Action =
    | Renew(progress: Option<int>)
    | Commit(manifest: OutputManifest)
    | Reject(why: Rejection)
    | ReportFailure(reason: string, code: FailureCode, retryable: bool)
    | SpendAndFail(reason: string)
    | Requeue(reason: string)

  datatype JobStage =
    | Entering
    | Approved
    | Describing(snapshot: JobRecord)
    | Reading(snapshot: JobRecord)
    | Acting(snapshot: JobRecord, action: Action)

  datatype LeaseStage =
    | LeaseEntering
    | LeaseApproved
    | Expiring(worker: WorkerRecord, effective: seq<string>)
    | Granting(worker: WorkerRecord, effective: seq<string>)

  datatype Call =
    | JobCall(identity: WorkerIdentity, jobId: string, token: Token, op: JobOp, stage: JobStage)
    | LeaseCall(identity: WorkerIdentity, capabilityIds: seq<string>, seconds: Option<int>, leaseStage: LeaseStage)
    | RegisterCall(identity: WorkerIdentity, registration: WorkerRegistration, upserting: bool)
    | EnrollCall(workerId: string, enrollment: WorkerEnrollment, enrolling: bool)

  predicate Initial(call: Call) {
    match call
    case JobCall(_, _, _, _, stage) => stage.Entering?
    case LeaseCall(_, _, _, stage) => stage.LeaseEntering?
    case RegisterCall(_, _, upserting) => !upserting
    case EnrollCall(_, _, enrolling) => !enrolling
  }

  // ----- the pool's state

  datatype Ending = ByCompletion | ByFailure | ByRejection | ByRelease

  /** One accepted change of a job's status, kept for stating properties of whole runs. */
  datatype Move =
    | Grant(token: Token, worker: string)
    | Settle(token: Token, worker: string, how: Ending)
    | CancelMove
    | ExhaustMove

  datatype State = State(
    now: int,
    jobs: Store.Jobs,
    assets: Assets,
    workers: Workers,
    calls: map<nat, Call>,
    issued: map<Token, string>,
    history: map<string, seq<Move>>)

  datatype Event =
    | Tick(elapsed: nat)
    | Submit(submission: JobSubmission)
    | Cancel(jobId: string)
    | Upload(key: string, content: Bytes)
    | SetStatus(workerId: string, status: WorkerStatus)
    | Begin(id: nat, call: Call)
    | Advance(id: nat, token: Token)
    | Abandon(id: nat)

  const START: State := State(0, Store.EMPTY, map[], map[], map[], map[], map[])

  /** No call in flight and no earlier grant carries the token. */
  ghost predicate Fresh(s: State, token: Token) {
    token !in s.issued && forall id | id in s.calls && s.calls[id].JobCall? :: s.calls[id].token != token
  }

  /** New job ids and claim tokens are fresh; everything else may happen at any time. */
  ghost predicate Enabled(s: State, e: Event) {
    match e
    case Submit(sub) =>
      sub.jobId in s.jobs.records ==>
        exists id | id in s.jobs.records :: s.jobs.records[id].job.idempotencyKey == sub.idempotencyKey
    case Begin(id, call) => id !in s.calls && Initial(call)
    case Advance(id, token) =>
      id in s.calls && (s.calls[id].LeaseCall? && s.calls[id].leaseStage.Granting? ==> Fresh(s, token))
    case _ => true
  }

  function Record(history: map<string, seq<Move>>, id: string, move: Move): map<string, seq<Move>> {
    history[id := (if id in history then history[id] else []) + [move]]
  }

  /** A step that only moves a call on, or ends it, and touches no store. */
  function Continue(s: State, id: nat, next: Option<Call>): State {
    s.(calls := if next.None? then s.calls - {id} else s.calls[id := next.value])
  }

  // ----- job calls: heartbeat, complete, fail, release

  /** What `_owned_job` and the code after it decide from the record just read. */
  ghost function NextStage(c: Config, r: JobRecord, op: JobOp): JobStage {
    match op
    case Beat(progress) => Acting(r, Renew(progress))
    case Complete(m) =>
      var rejection := RecordRejection(c, r, m);
      if rejection.Some? then Acting(r, Reject(rejection.value)) else Describing(r)
    case Fail(reason, code, retryable) => Acting(r, ReportFailure(reason, code, retryable))
    case Release(reason) => Acting(r, if r.attempts >= r.job.attemptBudget then SpendAndFail(reason) else Requeue(reason))
  }

  function Metadata(m: OutputManifest): ExecutionMetadata {
    ExecutionMetadata(m.modelId, m.modelVersion, m.pluginId, m.pluginVersion, m.seed, m.diagnostics)
  }

  /** The store update an action performs. */
  function Act(c: Config, jobs: Store.Jobs, id: string, token: Token, action: Action, now: int): Store.Jobs {
    match action
    case Renew(progress) => Store.Heartbeat(jobs, id, token, c.defaultLeaseSeconds, progress, now)
    case Commit(m) => Store.Complete(jobs, id, token, m.contentType, m.sha256, m.byteLength, Metadata(m), now)
    case Reject(why) => Store.Fail(jobs, id, token, Rejected(why), InvalidInput, None, false, now)
    case ReportFailure(reason, code, retryable) => Store.Fail(jobs, id, token, Given(reason), code, None, retryable, now)
    case SpendAndFail(reason) => Store.Fail(jobs, id, token, Given(reason), TemporaryFailure, None, true, now)
    case Requeue(reason) => Store.Release(jobs, id, token, Given(reason), now)
  }

  function EndingOf(action: Action): Ending {
    match action
    case Commit(_) => ByCompletion
    case Reject(_) => ByRejection
    case Requeue(_) => ByRelease
    case _ => ByFailure
  }

  /** The compare-and-set step: it changes the job only while the token still owns it. */
  function ActStep(c: Config, s: State, id: nat): State
    requires id in s.calls && s.calls[id].JobCall? && s.calls[id].stage.Acting?
  {
    var call := s.calls[id];
    var action := call.stage.action;
    var settles := Store.Owns(s.jobs, call.jobId, call.token) && !action.Renew?;
    s.(
      calls := s.calls - {id},
      jobs := Act(c, s.jobs, call.jobId, call.token, action, s.now),
      history := if settles
                 then Record(s.history, call.jobId, Settle(call.token, call.identity.workerId, EndingOf(action)))
                 else s.history)
  }

  /** The steps before the compare-and-set only read: the call's next stage, or None when it ends. */
  ghost function NextJobCall(c: Config, s: State, call: Call): Option<Call>
    requires call.JobCall? && !call.stage.Acting?
  {
    match call.stage
    case Entering =>
      if ApprovedTenant(c, s.workers, call.identity).None? then None else Some(call.(stage := Approved))
    case Approved =>
      if call.jobId !in s.jobs.records then None
      else
        var r := s.jobs.records[call.jobId];
        if r.leasedBy != Some(call.identity.workerId) || !r.status.Processing? then None
        else Some(call.(stage := NextStage(c, r, call.op)))
    case Describing(r) =>
      if !call.op.Complete? then None
      else
        var rejection := SizeRejection(c, s.assets, r.job.outputKey, call.op.manifest);
        Some(call.(stage := if rejection.Some? then Acting(r, Reject(rejection.value)) else Reading(r)))
    case Reading(r) =>
      var key := r.job.outputKey;
      if !call.op.Complete? || key !in s.assets || |s.assets[key]| > c.maxVerifyBytes then None
      else if c.sha256(s.assets[key]) != call.op.manifest.sha256 then
        Some(call.(stage := Acting(r, Reject(Sha256Mismatch))))
      else Some(call.(stage := Acting(r, Commit(call.op.manifest))))
  }

  ghost function AdvanceJobCall(c: Config, s: State, id: nat): State
    requires id in s.calls && s.calls[id].JobCall?
  {
    if s.calls[id].stage.Acting? then ActStep(c, s, id) else Continue(s, id, NextJobCall(c, s, s.calls[id]))
  }

  // ----- lease calls

  /** The requested capabilities this worker registered and the pool may run. */
  function Effective(c: Config, worker: WorkerRecord, requested: seq<string>): (r: seq<string>)
    ensures forall id :: id in r <==> id in requested && id in worker.capabilityIds && id !in c.refusedCapabilities
  {
    if requested == [] then []
    else
      (if requested[0] in worker.capabilityIds && requested[0] !in c.refusedCapabilities then [requested[0]] else [])
      + Effective(c, worker, requested[1..])
  }

  function Query(worker: WorkerRecord, effective: seq<string>): WorkerQuery {
    WorkerQuery(worker.workerId, effective, worker.tenantId, worker.vramMb, worker.gpuModel, worker.labels,
                worker.runtimeVersions)
  }

  function LeaseSeconds(c: Config, seconds: Option<int>): int {
    if seconds.Some? then seconds.value else c.defaultLeaseSeconds
  }

  /** `expire_exhausted`: every job it fails has that recorded. */
  function ExpireHistory(s: State): map<string, seq<Move>> {
    map id | id in s.history ::
      if id in s.jobs.records && Store.Exhausted(s.jobs.records[id], s.now) then s.history[id] + [ExhaustMove] else s.history[id]
  }

  ghost function GrantStep(c: Config, s: State, id: nat, token: Token): State
    requires id in s.calls && s.calls[id].LeaseCall? && s.calls[id].leaseStage.Granting? && s.jobs.Listed()
  {
    var call := s.calls[id];
    var q := Query(call.leaseStage.worker, call.leaseStage.effective);
    var choice := Store.Choose(s.jobs, q, s.now);
    if choice.None? then s.(calls := s.calls - {id})
    else
      s.(
        calls := s.calls - {id},
        jobs := Store.Lease(s.jobs, q, LeaseSeconds(c, call.seconds), token, s.now),
        issued := s.issued[token := choice.value],
        history := Record(s.history, choice.value, Grant(token, q.workerId)))
  }

  function NextLeaseCall(c: Config, s: State, call: Call): Option<Call>
    requires call.LeaseCall? && (call.leaseStage.LeaseEntering? || call.leaseStage.LeaseApproved?)
  {
    match call.leaseStage
    case LeaseEntering =>
      if ApprovedTenant(c, s.workers, call.identity).None? then None else Some(call.(leaseStage := LeaseApproved))
    case LeaseApproved =>
      if call.identity.workerId !in s.workers then None
      else
        var worker := s.workers[call.identity.workerId];
        var effective := Effective(c, worker, call.capabilityIds);
        if worker.status.Draining? || Unqualified(c, [], worker.runtimeVersions) || effective == [] then None
        else Some(call.(leaseStage := Expiring(worker, effective)))
  }

  function ExpireStep(s: State, id: nat): State
    requires id in s.calls && s.calls[id].LeaseCall? && s.calls[id].leaseStage.Expiring?
  {
    var call := s.calls[id];
    var next := call.(leaseStage := Granting(call.leaseStage.worker, call.leaseStage.effective));
    s.(calls := s.calls[id := next], jobs := Store.ExpireExhausted(s.jobs, s.now), history := ExpireHistory(s))
  }

  ghost function AdvanceLeaseCall(c: Config, s: State, id: nat, token: Token): State
    requires id in s.calls && s.calls[id].LeaseCall? && s.jobs.Listed()
  {
    match s.calls[id].leaseStage
    case Expiring(_, _) => ExpireStep(s, id)
    case Granting(_, _) => GrantStep(c, s, id, token)
    case _ => Continue(s, id, NextLeaseCall(c, s, s.calls[id]))
  }

  // ----- registration and enrolment

  function NextRegisterCall(c: Config, s: State, call: Call): Option<Call>
    requires call.RegisterCall?
  {
    if call.registration.workerId != call.identity.workerId
       || ApprovedTenant(c, s.workers, call.identity) != Some(call.registration.tenantId)
       || Unqualified(c, call.registration.capabilityIds, call.registration.runtimeVersions)
    then None
    else Some(call.(upserting := true))
  }

  /** The registration and the subject a call's upsert presents. */
  function UpsertArguments(call: Call): (WorkerRegistration, string)
    requires call.RegisterCall? || call.EnrollCall?
  {
    match call
    case RegisterCall(identity, registration, _) => (registration, identity.subject)
    case EnrollCall(workerId, enrollment, _) =>
      (WorkerRegistration(workerId, [], enrollment.tenantId, None, None, map[], [], false), enrollment.identitySubject)
  }

  function UpsertStep(s: State, id: nat): State
    requires id in s.calls && (s.calls[id].RegisterCall? || s.calls[id].EnrollCall?)
  {
    var (registration, subject) := UpsertArguments(s.calls[id]);
    s.(calls := s.calls - {id}, workers := Upsert(s.workers, registration, subject, s.now))
  }

  function AdvanceRegistration(c: Config, s: State, id: nat): State
    requires id in s.calls && (s.calls[id].RegisterCall? || s.calls[id].EnrollCall?)
  {
    match s.calls[id]
    case RegisterCall(_, _, upserting) =>
      if upserting then UpsertStep(s, id) else Continue(s, id, NextRegisterCall(c, s, s.calls[id]))
    case EnrollCall(workerId, enrollment, enrolling) =>
      if enrolling then UpsertStep(s, id)
      else Continue(s, id, if workerId in s.workers then None else Some(EnrollCall(workerId, enrollment, true)))
  }

  // ----- one step

  ghost function SubmitStep(c: Config, s: State, sub: JobSubmission): State
    requires s.jobs.Listed()
  {
    if !Admitted(c, sub) || !Store.SubmitOutcomeOf(s.jobs, sub).Created? then s
    else s.(jobs := Store.Submit(s.jobs, sub, c.requestDigest(sub), s.now), history := s.history[sub.jobId := []])
  }

  ghost function Apply(c: Config, s: State, e: Event): State
    requires Enabled(s, e) && s.jobs.Listed()
  {
    match e
    case Tick(elapsed) => s.(now := s.now + elapsed)
    case Submit(sub) => SubmitStep(c, s, sub)
    case Cancel(jobId) =>
      if Store.Cancellable(s.jobs, jobId)
      then s.(jobs := Store.Cancel(s.jobs, jobId, s.now), history := Record(s.history, jobId, CancelMove))
      else s
    case Upload(key, content) => s.(assets := WriteOnce(s.assets, key, content))
    case SetStatus(workerId, status) => s.(workers := Registry.SetStatus(s.workers, workerId, status, s.now))
    case Begin(id, call) => Continue(s, id, Some(call))
    case Abandon(id) => Continue(s, id, None)
    case Advance(id, token) =>
      match s.calls[id]
      case JobCall(_, _, _, _, _) => AdvanceJobCall(c, s, id)
      case LeaseCall(_, _, _, _) => AdvanceLeaseCall(c, s, id, token)
      case _ => AdvanceRegistration(c, s, id)
  }
}
