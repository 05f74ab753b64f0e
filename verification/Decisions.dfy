/** What each job call decides, and what it then does to the job (service.py). */
module Decisions {
  import opened Json
  import opened Contracts
  import opened Profiles
  import opened Registry
  import opened Service
  import opened PoolInvariant
  import opened PoolTheorems
  import opened Rules
  import Store = JobStore

  // ----- what a manifest must say

  /** Every pinned version is reported with the pinned value. */
  predicate VersionsReported(diagnostics: map<string, Json>, pinned: Versions) {
    && "runtime_versions" in diagnostics && diagnostics["runtime_versions"].JObj?
    && forall k | k in pinned ::
         k in diagnostics["runtime_versions"].fields && diagnostics["runtime_versions"].fields[k] == JStr(pinned[k])
  }

  function FieldOrNull(fields: map<string, Json>, key: string): Json {
    if key in fields then fields[key] else JNull
  }

  /** Every attested input is reported with the job's own value, or else the recipe's default. */
  predicate InputsReported(c: Config, job: JobSubmission, recipe: string, diagnostics: map<string, Json>) {
    && "effective_inputs" in diagnostics && diagnostics["effective_inputs"].JObj?
    && forall name | name in c.attestedInputs(recipe, job.capabilityId) ::
         PyEq(FieldOrNull(diagnostics["effective_inputs"].fields, name),
              if name in job.payload then job.payload[name] else FieldOrNull(c.recipeDefaults(recipe), name))
  }

  /** The first thing wrong with a manifest, its object aside. */
  ghost function FirstMismatch(c: Config, job: JobSubmission, digest: string, m: OutputManifest): Option<Rejection> {
    var versions := job.requirements.runtimeVersions;
    var recipe := PinnedRecipe(versions);
    if !Clean(c, [job.capabilityId], versions) then Some(ProfileNotQualified)
    else if recipe.Some? && !VersionsReported(m.diagnostics, versions) then Some(RecipeConfigurationMismatch)
    else if recipe.Some? && !InputsReported(c, job, recipe.value, m.diagnostics) then Some(EffectiveInputsMismatch)
    else if m.outputKey != job.outputKey then Some(OutputKeyMismatch)
    else if m.idempotencyKey != job.idempotencyKey then Some(IdempotencyKeyMismatch)
    else if m.requestDigest != digest then Some(RequestDigestMismatch)
    else if m.publicationMode != ImmutableCreateOnce then Some(PublicationModeMismatch)
    else None
  }

  lemma VersionsReportedAgree(diagnostics: map<string, Json>, pinned: Versions)
    ensures ReportsVersions(diagnostics, pinned) <==> VersionsReported(diagnostics, pinned)
  {
  }

  lemma InputsReportedAgree(c: Config, r: JobRecord, recipe: string, diagnostics: map<string, Json>)
    ensures AttestsInputs(c, r, recipe, diagnostics) <==> InputsReported(c, r.job, recipe, diagnostics)
  {
    var names := c.attestedInputs(recipe, r.job.capabilityId);
    if AttestsInputs(c, r, recipe, diagnostics) {
      forall name | name in names
        ensures PyEq(FieldOrNull(diagnostics["effective_inputs"].fields, name),
                     if name in r.job.payload then r.job.payload[name] else FieldOrNull(c.recipeDefaults(recipe), name))
      {
        var i :| 0 <= i < |names| && names[i] == name;
      }
    }
  }

  /** `_verify_output` refuses a manifest for the first mismatch, and only then. */
  lemma RejectionIsFirstMismatch(c: Config, r: JobRecord, m: OutputManifest)
    ensures RecordRejection(c, r, m) == FirstMismatch(c, r.job, r.digest, m)
  {
    var versions := r.job.requirements.runtimeVersions;
    QualifiedIsClean(c, [r.job.capabilityId], versions);
    VersionsReportedAgree(m.diagnostics, versions);
    if PinnedRecipe(versions).Some? {
      InputsReportedAgree(c, r, PinnedRecipe(versions).value, m.diagnostics);
    }
  }

  // ----- what a call decides

  /** The decision of a complete call: refused at once for the first mismatch, otherwise on to its object. */
  lemma CompleteDecides(c: Config, s: State, call: Call)
    requires call.JobCall? && call.stage == Approved && call.op.Complete?
    requires call.jobId in s.jobs.records && s.jobs.records[call.jobId].leasedBy == Some(call.identity.workerId)
    requires s.jobs.records[call.jobId].status == Processing
    ensures var r := s.jobs.records[call.jobId];
            var wrong := FirstMismatch(c, r.job, r.digest, call.op.manifest);
            NextJobCall(c, s, call) ==
              Some(call.(stage := if wrong.Some? then Acting(r, Reject(wrong.value)) else Describing(r)))
  {
    RejectionIsFirstMismatch(c, s.jobs.records[call.jobId], call.op.manifest);
  }

  /** The object's description: missing, of another length, or too large is refused. */
  lemma DescriptionDecides(c: Config, s: State, call: Call)
    requires call.JobCall? && call.stage.Describing? && call.op.Complete?
    ensures var r, m := call.stage.snapshot, call.op.manifest;
            var key := r.job.outputKey;
            NextJobCall(c, s, call) == Some(call.(stage :=
              if key !in s.assets then Acting(r, Reject(OutputMissing))
              else if |s.assets[key]| != m.byteLength then Acting(r, Reject(ByteLengthMismatch))
              else if m.byteLength > c.maxVerifyBytes then Acting(r, Reject(OutputTooLarge))
              else Reading(r)))
  {
  }

  /** The object's content: one that cannot be read ends the call, another digest is refused, and
   *  otherwise the manifest is committed. */
  lemma ContentDecides(c: Config, s: State, call: Call)
    requires call.JobCall? && call.stage.Reading? && call.op.Complete?
    ensures var r, m := call.stage.snapshot, call.op.manifest;
            var key := r.job.outputKey;
            NextJobCall(c, s, call) ==
              if key !in s.assets || |s.assets[key]| > c.maxVerifyBytes then None
              else Some(call.(stage := Acting(r, if c.sha256(s.assets[key]) == m.sha256 then Commit(m) else Reject(Sha256Mismatch))))
  {
  }

  /** A job call reads its record only for the lessee of a processing job. */
  lemma OwnedOnly(c: Config, s: State, call: Call)
    requires call.JobCall? && call.stage == Approved
    ensures NextJobCall(c, s, call).None? <==>
      || call.jobId !in s.jobs.records
      || s.jobs.records[call.jobId].leasedBy != Some(call.identity.workerId)
      || s.jobs.records[call.jobId].status != Processing
  {
  }

  // ----- the decisions in flight

  /** A decision follows the call's own request and the record it read. */
  ghost predicate Decided(c: Config, call: Call) {
    call.JobCall? ==>
      match call.stage
      case Entering => true
      case Approved => true
      case Describing(r) => call.op.Complete? && FirstMismatch(c, r.job, r.digest, call.op.manifest).None?
      case Reading(r) => call.op.Complete? && FirstMismatch(c, r.job, r.digest, call.op.manifest).None?
      case Acting(r, action) =>
        match call.op
        case Beat(progress) => action == Renew(progress)
        case Complete(m) =>
          action.Reject? || (action == Commit(m) && FirstMismatch(c, r.job, r.digest, m).None?)
        case Fail(reason, code, retryable) => action == ReportFailure(reason, code, retryable)
        case Release(reason) =>
          action == if r.attempts >= r.job.attemptBudget then SpendAndFail(reason) else Requeue(reason)
  }

  ghost predicate AllDecided(c: Config, s: State) {
    forall k | k in s.calls :: Decided(c, s.calls[k])
  }

  lemma NextDecided(c: Config, s: State, call: Call)
    requires call.JobCall? && !call.stage.Acting? && Decided(c, call)
    ensures NextJobCall(c, s, call).Some? ==> Decided(c, NextJobCall(c, s, call).value)
  {
    if call.stage.Approved? && call.jobId in s.jobs.records && call.op.Complete? {
      RejectionIsFirstMismatch(c, s.jobs.records[call.jobId], call.op.manifest);
    }
  }

  lemma StepDecides(c: Config, s: State, e: Event, k: nat, call': Call)
    requires s.jobs.Listed() && Enabled(s, e) && AllDecided(c, s)
    requires k in Apply(c, s, e).calls && Apply(c, s, e).calls[k] == call'
    ensures Decided(c, call')
  {
    if call'.JobCall? {
      JobCallOrigin(c, s, e, k, call');
      if k in s.calls && call' != s.calls[k] && e.Advance? {
        NextDecided(c, s, s.calls[k]);
      }
    }
  }

  lemma {:induction false} RunDecides(c: Config, s: State, es: seq<Event>)
    requires s.jobs.Valid() && Legal(c, s, es) && AllDecided(c, s)
    ensures AllDecided(c, Run(c, s, es))
    decreases |es|
  {
    if es != [] {
      var next := Apply(c, s, es[0]);
      StepKeepsValid(c, s, es[0]);
      forall k | k in next.calls ensures Decided(c, next.calls[k]) {
        StepDecides(c, s, es[0], k, next.calls[k]);
      }
      RunDecides(c, next, es[1..]);
    }
  }

  // ----- what holds in every reachable state

  /** In every reachable state, a complete call about to commit carries a manifest of the job as it is
   *  stored: its output key, idempotency key, digest and mode, nothing refused, the pinned recipe's
   *  versions and inputs, and the stored object's length and digest. */
  lemma CommitIsChecked(c: Config, es: seq<Event>, k: nat)
    requires START.jobs.Valid() && Legal(c, START, es)
    requires k in Reached(c, es).calls && Reached(c, es).calls[k].JobCall? && Reached(c, es).calls[k].stage.Acting?
    requires Reached(c, es).calls[k].stage.action.Commit?
    ensures var s := Reached(c, es);
            var call := s.calls[k];
            var m := call.stage.action.manifest;
            && call.op == Complete(m) && call.jobId in s.jobs.records
            && var r := s.jobs.records[call.jobId];
               var versions := r.job.requirements.runtimeVersions;
            && m.outputKey == r.job.outputKey && m.idempotencyKey == r.job.idempotencyKey
            && m.requestDigest == r.digest && m.publicationMode == ImmutableCreateOnce
            && Clean(c, [r.job.capabilityId], versions)
            && (PinnedRecipe(versions).Some? ==>
                  && VersionsReported(m.diagnostics, versions)
                  && InputsReported(c, r.job, PinnedRecipe(versions).value, m.diagnostics))
            && m.outputKey in s.assets && |s.assets[m.outputKey]| == m.byteLength <= c.maxVerifyBytes
            && c.sha256(s.assets[m.outputKey]) == m.sha256
  {
    ReachedHasInv(c, es);
    RunDecides(c, START, es);
    var s := Reached(c, es);
    assert CallOk(c, s.jobs.records, s.assets, s.workers, s.calls[k]);
    assert Decided(c, s.calls[k]);
    CommitFits(c, s.jobs.records, s.assets, s.calls[k]);
  }

  lemma CommitFits(c: Config, records: map<string, JobRecord>, assets: Assets, call: Call)
    requires call.JobCall? && call.stage.Acting? && call.stage.action.Commit?
    requires JobCallOk(c, records, assets, call) && Decided(c, call)
    ensures call.op == Complete(call.stage.action.manifest) && call.jobId in records
    ensures FirstMismatch(c, records[call.jobId].job, records[call.jobId].digest, call.stage.action.manifest).None?
    ensures var m, key := call.stage.action.manifest, records[call.jobId].job.outputKey;
            && key in assets && |assets[key]| == m.byteLength <= c.maxVerifyBytes && c.sha256(assets[key]) == m.sha256
  {
  }

  /** What an accepted call leaves behind. */
  ghost predicate TookEffect(c: Config, call: Call, r: JobRecord, r': JobRecord, now: int)
    requires call.JobCall? && call.stage.Acting?
  {
    match call.op
    case Beat(progress) =>
      r' == r.(leaseUntil := Some(now + c.defaultLeaseSeconds), updatedAt := now,
               progressPercent := if progress.Some? then progress else r.progressPercent)
    case Complete(m) =>
      if call.stage.action.Commit? then
        r' == Ended(r, now).(
          status := Completed, executedBy := Some(call.identity.workerId), error := None,
          outputContentType := Some(m.contentType), outputSha256 := Some(m.sha256), outputByteLength := Some(m.byteLength),
          executionMetadata := Some(ExecutionMetadata(m.modelId, m.modelVersion, m.pluginId, m.pluginVersion, m.seed, m.diagnostics)))
      else
        && call.stage.action.Reject?
        && r' == Ended(r, now).(status := Failed, error := Some(Rejected(call.stage.action.why)),
                                failureCode := Some(InvalidInput), failureMessage := None, retryable := false)
    case Fail(reason, code, retryable) =>
      r' == Ended(r, now).(status := Failed, error := Some(Given(reason)), failureCode := Some(code),
                           failureMessage := None, retryable := retryable)
    case Release(reason) =>
      if r.attempts < r.job.attemptBudget then
        r' == Ended(r, now).(status := Queued, error := Some(Given(reason)))
      else
        r' == Ended(r, now).(status := Failed, error := Some(Given(reason)), failureCode := Some(TemporaryFailure),
                             failureMessage := None, retryable := true)
  }

  /** The record without its lease. */
  function Ended(r: JobRecord, now: int): JobRecord {
    r.(claimToken := None, leasedBy := None, leaseUntil := None, updatedAt := now)
  }

  /** In every reachable state, a call that acts under its job's live token has exactly the effect its
   *  own request asks for, on that job alone; under any other token it has none. */
  lemma CallTakesEffect(c: Config, es: seq<Event>, k: nat)
    requires START.jobs.Valid() && Legal(c, START, es)
    requires k in Reached(c, es).calls && Reached(c, es).calls[k].JobCall? && Reached(c, es).calls[k].stage.Acting?
    ensures var s := Reached(c, es);
            var call, s' := s.calls[k], ActStep(c, s, k);
            if && call.jobId in s.jobs.records && s.jobs.records[call.jobId].status == Processing
               && s.jobs.records[call.jobId].claimToken == Some(call.token)
            then && call.jobId in s'.jobs.records
                 && s'.jobs.records == s.jobs.records[call.jobId := s'.jobs.records[call.jobId]]
                 && TookEffect(c, call, s.jobs.records[call.jobId], s'.jobs.records[call.jobId], s.now)
            else s'.jobs == s.jobs
  {
    ReachedHasInv(c, es);
    RunDecides(c, START, es);
    var s := Reached(c, es);
    assert CallOk(c, s.jobs.records, s.assets, s.workers, s.calls[k]);
    assert Decided(c, s.calls[k]);
    DecidedTakesEffect(c, s, k);
  }

  lemma DecidedTakesEffect(c: Config, s: State, k: nat)
    requires SameKeys(s) && k in s.calls && s.calls[k].JobCall? && s.calls[k].stage.Acting? && Decided(c, s.calls[k])
    requires SnapshotOk(s.jobs.records, s.calls[k], s.calls[k].stage.snapshot)
    ensures var call, s' := s.calls[k], ActStep(c, s, k);
            if && call.jobId in s.jobs.records && s.jobs.records[call.jobId].status == Processing
               && s.jobs.records[call.jobId].claimToken == Some(call.token)
            then && call.jobId in s'.jobs.records
                 && s'.jobs.records == s.jobs.records[call.jobId := s'.jobs.records[call.jobId]]
                 && TookEffect(c, call, s.jobs.records[call.jobId], s'.jobs.records[call.jobId], s.now)
            else s'.jobs == s.jobs
  {
    ActStepShape(c, s, k);
  }

  /** A settlement is recorded as what it was. */
  lemma SettlementIsRecorded(c: Config, s: State, k: nat)
    requires SameKeys(s) && k in s.calls && s.calls[k].JobCall? && s.calls[k].stage.Acting? && Decided(c, s.calls[k])
    requires Store.Owns(s.jobs, s.calls[k].jobId, s.calls[k].token)
    ensures var call, s' := s.calls[k], ActStep(c, s, k);
            var id := call.jobId;
            var settle := (how: Ending) => Settle(call.token, call.identity.workerId, how);
            && id in s.history
            && s'.history == s.history[id :=
                 match call.op
                 case Beat(_) => s.history[id]
                 case Complete(_) => s.history[id] + [settle(if call.stage.action.Commit? then ByCompletion else ByRejection)]
                 case Fail(_, _, _) => s.history[id] + [settle(ByFailure)]
                 case Release(_) =>
                   s.history[id] + [settle(if call.stage.action.Requeue? then ByRelease else ByFailure)]]
  {
    ActStepShape(c, s, k);
  }
}
