/** A crash between the upload and the completion call never costs a job its output. */
module Retry {
  import opened Json
  import opened Contracts
  import opened Registry
  import opened Profiles
  import opened Service
  import opened PoolInvariant
  import opened PoolTheorems
  import Agent
  import Store = JobStore

  /** The manifest reports what the recipe the job pins asks for, if it pins one. */
  ghost predicate RecipeAttested(c: Config, r: JobRecord, m: OutputManifest) {
    var versions := r.job.requirements.runtimeVersions;
    PinnedRecipe(versions).Some? ==>
      ReportsVersions(m.diagnostics, versions) && AttestsInputs(c, r, PinnedRecipe(versions).value, m.diagnostics)
  }

  /** The manifest describes this content as the job's output, made by the pinned recipe. */
  ghost predicate Attests(c: Config, r: JobRecord, content: Bytes, m: OutputManifest) {
    && m.outputKey == r.job.outputKey
    && m.idempotencyKey == r.job.idempotencyKey
    && m.requestDigest == r.digest
    && m.publicationMode == ImmutableCreateOnce
    && m.byteLength == |content|
    && m.sha256 == c.sha256(content)
    && RecipeAttested(c, r, m)
  }

  /** What an agent publishes under a grant attests its own output, whoever holds the grant. */
  lemma PublishedManifestAttests(c: Config, r: JobRecord, output: Agent.PluginOutput, plugin: (string, string))
    requires r.claimToken.Some?
    requires RecipeAttested(c, r, Agent.Manifest(Agent.GrantOf(r), output, c.sha256(output.content), plugin))
    ensures Attests(c, r, output.content, Agent.Manifest(Agent.GrantOf(r), output, c.sha256(output.content), plugin))
  {
  }

  /** A complete call for the job. */
  predicate Completes(call: Call, id: string) {
    call.JobCall? && call.jobId == id && call.op.Complete?
  }

  /** The only restriction on a run: whoever writes the job's output key writes `content`, as a
   *  deterministic plugin does, and completes only after uploading, attesting what it uploaded.
   *  Crashes, expiry, re-leases, cancels and all calls for other jobs are unrestricted. */
  ghost predicate Honest(c: Config, s: State, id: string, content: Bytes, e: Event)
    requires id in s.jobs.records
  {
    var r := s.jobs.records[id];
    && (e.Upload? && e.key == r.job.outputKey ==> e.content == content)
    && (e.Begin? && Completes(e.call, id) ==> r.job.outputKey in s.assets && Attests(c, r, content, e.call.op.manifest))
  }

  ghost predicate NoRejection(moves: seq<Move>) {
    forall i | 0 <= i < |moves| && moves[i].Settle? :: !moves[i].how.ByRejection?
  }

  /** The call attests `content`, which is stored, and is not about to be rejected. */
  ghost predicate CallAttests(c: Config, r: JobRecord, assets: Assets, content: Bytes, call: Call)
    requires call.JobCall? && call.op.Complete?
  {
    && r.job.outputKey in assets && Attests(c, r, content, call.op.manifest)
    && !(call.stage.Acting? && call.stage.action.Reject?)
  }

  /** Every complete call for the job attests `content`. */
  ghost predicate AllAttest(c: Config, r: JobRecord, assets: Assets, content: Bytes, calls: map<nat, Call>, id: string) {
    forall k | k in calls :: Attesting(c, r, assets, content, calls[k], id)
  }

  ghost predicate Attesting(c: Config, r: JobRecord, assets: Assets, content: Bytes, call: Call, id: string) {
    Completes(call, id) ==> CallAttests(c, r, assets, content, call)
  }

  /** Nothing but `content` is stored under the key. */
  predicate HoldsOnly(assets: Assets, key: string, content: Bytes) {
    key in assets ==> assets[key] == content
  }

  ghost predicate RetryOk(c: Config, s: State, id: string, content: Bytes) {
    && id in s.jobs.records && id in s.history
    && |content| <= c.maxVerifyBytes
    && HoldsOnly(s.assets, s.jobs.records[id].job.outputKey, content)
    && NoRejection(s.history[id])
    && AllAttest(c, s.jobs.records[id], s.assets, content, s.calls, id)
  }

  /** The whole run is honest about the job. */
  ghost predicate HonestRun(c: Config, s: State, es: seq<Event>, id: string, content: Bytes)
    requires s.jobs.Valid() && Legal(c, s, es)
    decreases |es|
  {
    es != [] ==>
      && id in s.jobs.records && Honest(c, s, id, content, es[0])
      && (StepKeepsValid(c, s, es[0]); HonestRun(c, Apply(c, s, es[0]), es[1..], id, content))
  }

  /** The checks that need no asset all pass. */
  lemma AttestedPassesRecordChecks(c: Config, r: JobRecord, content: Bytes, m: OutputManifest)
    requires Attests(c, r, content, m) && Admitted(c, r.job)
    ensures RecordRejection(c, r, m).None?
  {
  }

  /** The next stage of a complete call that attests the stored content is never a rejection. */
  lemma NextStageAttests(c: Config, s: State, r: JobRecord, content: Bytes, call: Call)
    requires call.JobCall? && call.op.Complete? && !call.stage.Acting?
    requires call.jobId in s.jobs.records && s.jobs.records[call.jobId] == r
    requires Admitted(c, r.job)
    requires |content| <= c.maxVerifyBytes && r.job.outputKey in s.assets && s.assets[r.job.outputKey] == content
    requires JobCallOk(c, s.jobs.records, s.assets, call) && CallAttests(c, r, s.assets, content, call)
    ensures var next := NextJobCall(c, s, call);
            next.Some? ==> next.value.JobCall? && next.value.op == call.op && CallAttests(c, r, s.assets, content, next.value)
  {
    AttestedPassesRecordChecks(c, r, content, call.op.manifest);
  }

  lemma NextCallKeepsJob(c: Config, s: State, call: Call)
    requires call.JobCall? && !call.stage.Acting?
    ensures var next := NextJobCall(c, s, call);
            next.Some? ==> next.value.JobCall? && next.value.jobId == call.jobId && next.value.op == call.op
  {
  }

  /** A complete call that attests `content` goes on attesting it. */
  lemma NextCallAttests(c: Config, s: State, id: string, content: Bytes, k: nat)
    requires JobsOk(c, s) && CallsOk(c, s) && RetryOk(c, s, id, content)
    requires k in s.calls && s.calls[k].JobCall? && !s.calls[k].stage.Acting?
    requires NextJobCall(c, s, s.calls[k]).Some? && Completes(NextJobCall(c, s, s.calls[k]).value, id)
    ensures CallAttests(c, s.jobs.records[id], s.assets, content, NextJobCall(c, s, s.calls[k]).value)
  {
    var r := s.jobs.records[id];
    assert JobOk(c, s.workers, s.assets, s.issued, id, r, s.history[id]);
    assert CallOk(c, s.jobs.records, s.assets, s.workers, s.calls[k]);
    NextCallKeepsJob(c, s, s.calls[k]);
    NextStageAttests(c, s, r, content, s.calls[k]);
  }

  /** Whatever the step, a complete call left in flight was attesting `content` before it took effect. */
  lemma CallAttestedBefore(c: Config, s: State, e: Event, id: string, content: Bytes, k: nat, call': Call)
    requires s.jobs.Listed() && JobsOk(c, s) && CallsOk(c, s) && Enabled(s, e)
    requires RetryOk(c, s, id, content) && Honest(c, s, id, content, e)
    requires k in Apply(c, s, e).calls && Apply(c, s, e).calls[k] == call'
    ensures Attesting(c, s.jobs.records[id], s.assets, content, call', id)
  {
    if Completes(call', id) {
      JobCallOrigin(c, s, e, k, call');
      if k in s.calls && call' == s.calls[k] {
        assert Attesting(c, s.jobs.records[id], s.assets, content, s.calls[k], id);
      } else if e.Advance? {
        NextCallAttests(c, s, id, content, k);
      }
    }
  }

  lemma ActAddsNoRejection(c: Config, s: State, k: nat, id: string)
    requires SameKeys(s) && id in s.history && NoRejection(s.history[id])
    requires k in s.calls && s.calls[k].JobCall? && s.calls[k].stage.Acting?
    requires s.calls[k].jobId == id ==> !s.calls[k].stage.action.Reject?
    ensures id in ActStep(c, s, k).history && NoRejection(ActStep(c, s, k).history[id])
  {
    ActStepShape(c, s, k);
  }

  lemma GrantAddsNoRejection(c: Config, s: State, k: nat, token: Token, id: string)
    requires SameKeys(s) && s.jobs.Listed() && id in s.history && NoRejection(s.history[id]) && token !in s.issued
    requires k in s.calls && s.calls[k].LeaseCall? && s.calls[k].leaseStage.Granting?
    ensures id in GrantStep(c, s, k, token).history && NoRejection(GrantStep(c, s, k, token).history[id])
  {
    GrantStepShape(c, s, k, token);
  }

  lemma AdvanceAddsNoRejection(c: Config, s: State, k: nat, token: Token, id: string)
    requires SameKeys(s) && s.jobs.Listed() && id in s.history && NoRejection(s.history[id])
    requires Enabled(s, Advance(k, token))
    requires s.calls[k].JobCall? && s.calls[k].jobId == id && s.calls[k].stage.Acting? ==> !s.calls[k].stage.action.Reject?
    ensures var s' := Apply(c, s, Advance(k, token));
            id in s'.history && NoRejection(s'.history[id])
  {
    match s.calls[k]
    case JobCall(_, _, _, _, stage) =>
      if stage.Acting? {
        ActAddsNoRejection(c, s, k, id);
      }
    case LeaseCall(_, _, _, stage) =>
      if stage.Granting? {
        GrantAddsNoRejection(c, s, k, token, id);
      }
    case _ =>
  }

  lemma SubmitAddsNoRejection(c: Config, s: State, sub: JobSubmission, id: string)
    requires SameKeys(s) && s.jobs.Valid() && id in s.history && NoRejection(s.history[id]) && Enabled(s, Submit(sub))
    ensures id in SubmitStep(c, s, sub).history && NoRejection(SubmitStep(c, s, sub).history[id])
  {
    if Store.SubmitOutcomeOf(s.jobs, sub).Created? {
      FreshKey(s, sub);
    }
  }

  lemma CancelAddsNoRejection(c: Config, s: State, jobId: string, id: string)
    requires s.jobs.Listed() && id in s.history && NoRejection(s.history[id])
    ensures id in Apply(c, s, Cancel(jobId)).history && NoRejection(Apply(c, s, Cancel(jobId)).history[id])
  {
  }

  /** A step adds a rejection to a job's history only when a call for it acts to reject. */
  lemma StepAddsNoRejection(c: Config, s: State, e: Event, id: string)
    requires SameKeys(s) && s.jobs.Valid() && id in s.history && NoRejection(s.history[id]) && Enabled(s, e)
    requires forall k | k in s.calls && s.calls[k].JobCall? && s.calls[k].jobId == id && s.calls[k].stage.Acting? ::
               !s.calls[k].stage.action.Reject?
    ensures id in Apply(c, s, e).history && NoRejection(Apply(c, s, e).history[id])
  {
    match e
    case Submit(sub) => SubmitAddsNoRejection(c, s, sub, id);
    case Cancel(jobId) => CancelAddsNoRejection(c, s, jobId, id);
    case Advance(k, token) => AdvanceAddsNoRejection(c, s, k, token, id);
    case _ =>
  }

  /** In the retry invariant no call for the job is about to reject. */
  lemma NoCallRejects(c: Config, s: State, id: string, content: Bytes)
    requires CallsOk(c, s) && RetryOk(c, s, id, content)
    ensures forall k | k in s.calls && s.calls[k].JobCall? && s.calls[k].jobId == id && s.calls[k].stage.Acting? ::
               !s.calls[k].stage.action.Reject?
  {
    forall k | k in s.calls && s.calls[k].JobCall? && s.calls[k].jobId == id && s.calls[k].stage.Acting?
      ensures !s.calls[k].stage.action.Reject?
    {
      assert CallOk(c, s.jobs.records, s.assets, s.workers, s.calls[k]);
    }
  }

  lemma StepKeepsNoRejection(c: Config, s: State, e: Event, id: string, content: Bytes)
    requires s.jobs.Valid() && SameKeys(s) && CallsOk(c, s) && Enabled(s, e) && RetryOk(c, s, id, content)
    ensures id in Apply(c, s, e).history && NoRejection(Apply(c, s, e).history[id])
  {
    NoCallRejects(c, s, id, content);
    StepAddsNoRejection(c, s, e, id);
  }

  lemma AdvanceKeepsAssets(c: Config, s: State, k: nat, token: Token)
    requires s.jobs.Listed() && Enabled(s, Advance(k, token))
    ensures Apply(c, s, Advance(k, token)).assets == s.assets
  {
    match s.calls[k]
    case JobCall(_, _, _, _, _) => AdvanceJobGrowsStores(c, s, k);
    case LeaseCall(_, _, _, _) => AdvanceLeaseGrowsStores(c, s, k, token);
    case _ =>
  }

  lemma StepKeepsOutput(c: Config, s: State, e: Event, id: string, content: Bytes)
    requires s.jobs.Listed() && Enabled(s, e) && RetryOk(c, s, id, content) && Honest(c, s, id, content, e)
    ensures HoldsOnly(Apply(c, s, e).assets, s.jobs.records[id].job.outputKey, content)
  {
    if e.Advance? {
      AdvanceKeepsAssets(c, s, e.id, e.token);
    }
  }

  /** The retry invariant depends only on what a record keeps for life and on assets, which only grow. */
  lemma RetryOkCarriesOver(c: Config, s: State, s': State, granted: Option<Token>, id: string, content: Bytes)
    requires RetryOk(c, s, id, content)
    requires RecordsEvolve(s.jobs.records, s'.jobs.records, granted) && AssetsKept(s.assets, s'.assets)
    requires HoldsOnly(s'.assets, s.jobs.records[id].job.outputKey, content)
    requires id in s'.history && NoRejection(s'.history[id])
    requires AllAttest(c, s.jobs.records[id], s.assets, content, s'.calls, id)
    ensures RetryOk(c, s', id, content)
  {
    assert forall k | k in s'.calls :: Attesting(c, s.jobs.records[id], s.assets, content, s'.calls[k], id);
    assert Evolves(s.jobs.records[id], s'.jobs.records[id], granted);
  }

  lemma StepKeepsAttestations(c: Config, s: State, e: Event, id: string, content: Bytes)
    requires s.jobs.Listed() && JobsOk(c, s) && CallsOk(c, s) && Enabled(s, e)
    requires RetryOk(c, s, id, content) && Honest(c, s, id, content, e)
    ensures AllAttest(c, s.jobs.records[id], s.assets, content, Apply(c, s, e).calls, id)
  {
    var calls := Apply(c, s, e).calls;
    forall k | k in calls ensures Attesting(c, s.jobs.records[id], s.assets, content, calls[k], id) {
      CallAttestedBefore(c, s, e, id, content, k, calls[k]);
    }
  }

  lemma StepKeepsAssets(c: Config, s: State, e: Event)
    requires s.jobs.Listed() && ValidWorkers(s.workers) && Enabled(s, e)
    ensures AssetsKept(s.assets, Apply(c, s, e).assets)
  {
    StepGrowsStores(c, s, e);
  }

  lemma StepKeepsRetryOk(c: Config, s: State, e: Event, id: string, content: Bytes)
    requires Inv(c, s) && Enabled(s, e) && RetryOk(c, s, id, content) && Honest(c, s, id, content, e)
    ensures RetryOk(c, Apply(c, s, e), id, content)
  {
    var s' := Apply(c, s, e);
    StepEvolves(c, s, e);
    StepKeepsAssets(c, s, e);
    StepKeepsOutput(c, s, e, id, content);
    StepKeepsNoRejection(c, s, e, id, content);
    StepKeepsAttestations(c, s, e, id, content);
    RetryOkCarriesOver(c, s, s', GrantedBy(s, e), id, content);
  }

  lemma {:induction false} RunKeepsRetryOk(c: Config, s: State, es: seq<Event>, id: string, content: Bytes)
    requires Inv(c, s) && RetryOk(c, s, id, content) && Legal(c, s, es) && HonestRun(c, s, es, id, content)
    ensures RetryOk(c, Run(c, s, es), id, content)
    decreases |es|
  {
    if es != [] {
      var next := Apply(c, s, es[0]);
      StepKeepsInv(c, s, es[0]);
      StepKeepsRetryOk(c, s, es[0], id, content);
      RunKeepsRetryOk(c, next, es[1..], id, content);
    }
  }

  /** A state in which the job's output, if anything is stored under its key, can only be `content`. */
  ghost predicate RetryCanStart(c: Config, s: State, id: string, content: Bytes) {
    && id in s.jobs.records && id in s.history && NoRejection(s.history[id])
    && |content| <= c.maxVerifyBytes
    && HoldsOnly(s.assets, s.jobs.records[id].job.outputKey, content)
    && (forall k | k in s.calls :: !Completes(s.calls[k], id))
  }

  /** A job just submitted is in such a state, if its output key is unused and nobody yet calls for it. */
  lemma SubmittedCanStart(c: Config, s: State, sub: JobSubmission, content: Bytes)
    requires s.jobs.Valid() && Admitted(c, sub) && Store.SubmitOutcomeOf(s.jobs, sub).Created?
    requires |content| <= c.maxVerifyBytes
    requires sub.outputKey !in s.assets && forall k | k in s.calls :: !Completes(s.calls[k], sub.jobId)
    ensures RetryCanStart(c, SubmitStep(c, s, sub), sub.jobId, content)
  {
  }

  /** No completion was rejected, and every complete call about to act will commit what it attested. */
  ghost predicate NeverRejected(t: State, id: string) {
    && id in t.history && NoRejection(t.history[id])
    && forall k | k in t.calls && Completes(t.calls[k], id) && t.calls[k].stage.Acting? ::
         t.calls[k].stage.action == Commit(t.calls[k].op.manifest)
  }

  lemma RetryOkNeverRejects(c: Config, t: State, id: string, content: Bytes)
    requires CallsOk(c, t) && RetryOk(c, t, id, content)
    ensures NeverRejected(t, id)
  {
    forall k | k in t.calls && Completes(t.calls[k], id) && t.calls[k].stage.Acting?
      ensures t.calls[k].stage.action == Commit(t.calls[k].op.manifest)
    {
      assert CallOk(c, t.jobs.records, t.assets, t.workers, t.calls[k]);
    }
  }

  /** However often workers crash between upload and completion, are replaced and retry, no
   *  completion of the job is ever rejected for its content. Every reachable state has `Inv`. */
  lemma RetryIsNeverRejected(c: Config, s: State, es: seq<Event>, id: string, content: Bytes)
    requires Inv(c, s) && RetryCanStart(c, s, id, content)
    requires Legal(c, s, es) && HonestRun(c, s, es, id, content)
    ensures NeverRejected(Run(c, s, es), id)
  {
    RunKeepsRetryOk(c, s, es, id, content);
    RunKeepsInv(c, s, es);
    RetryOkNeverRejects(c, Run(c, s, es), id, content);
  }

  lemma CommitCompletes(c: Config, s: State, id: string, content: Bytes, k: nat)
    requires CallsOk(c, s) && RetryOk(c, s, id, content)
    requires k in s.calls && Completes(s.calls[k], id) && s.calls[k].stage.Acting?
    requires Store.Owns(s.jobs, id, s.calls[k].token)
    ensures id in ActStep(c, s, k).jobs.records
    ensures var r := ActStep(c, s, k).jobs.records[id];
            && r.status.Completed?
            && r.outputSha256 == Some(c.sha256(content)) && r.outputByteLength == Some(|content|)
            && r.outputContentType == Some(s.calls[k].op.manifest.contentType)
            && r.executionMetadata == Some(Metadata(s.calls[k].op.manifest)) && r.error.None?
            && r.executedBy == Some(s.calls[k].identity.workerId)
  {
    var call := s.calls[k];
    assert CallOk(c, s.jobs.records, s.assets, s.workers, call);
    assert CallAttests(c, s.jobs.records[id], s.assets, content, call);
  }

  /** And whichever retry commits under a live token completes the job with exactly that content's
   *  digest and length, and with its own manifest's metadata. */
  lemma RetryCompletes(c: Config, s: State, es: seq<Event>, id: string, content: Bytes, k: nat)
    requires Inv(c, s) && RetryCanStart(c, s, id, content)
    requires Legal(c, s, es) && HonestRun(c, s, es, id, content)
    requires k in Run(c, s, es).calls && Completes(Run(c, s, es).calls[k], id) && Run(c, s, es).calls[k].stage.Acting?
    requires Store.Owns(Run(c, s, es).jobs, id, Run(c, s, es).calls[k].token)
    ensures id in ActStep(c, Run(c, s, es), k).jobs.records
    ensures var call, r := Run(c, s, es).calls[k], ActStep(c, Run(c, s, es), k).jobs.records[id];
            && r.status.Completed?
            && r.outputSha256 == Some(c.sha256(content)) && r.outputByteLength == Some(|content|)
            && r.outputContentType == Some(call.op.manifest.contentType)
            && r.executionMetadata == Some(Metadata(call.op.manifest)) && r.error.None?
            && r.executedBy == Some(call.identity.workerId)
  {
    RunKeepsRetryOk(c, s, es, id, content);
    RunKeepsInv(c, s, es);
    CommitCompletes(c, Run(c, s, es), id, content, k);
  }
}
