/** The invariant every step of the pool keeps, and the proof that it does. */
module PoolInvariant {
  import opened Json
  import opened Contracts
  import opened Registry
  import opened Service
  import Store = JobStore

  // ----- one job's history

  function Grants(moves: seq<Move>): nat {
    if moves == [] then 0 else Grants(moves[..|moves| - 1]) + (if moves[|moves| - 1].Grant? then 1 else 0)
  }

  /** Granted tokens are this job's own and never repeat; a settlement directly follows the grant it ends. */
  ghost predicate HistoryOk(issued: map<Token, string>, id: string, moves: seq<Move>) {
    && (forall i | 0 <= i < |moves| && moves[i].Grant? :: moves[i].token in issued && issued[moves[i].token] == id)
    && (forall i, k | 0 <= i < k < |moves| && moves[i].Grant? && moves[k].Grant? :: moves[i].token != moves[k].token)
    && (forall i | 0 <= i < |moves| && moves[i].Settle? :: i > 0 && moves[i - 1] == Grant(moves[i].token, moves[i].worker))
  }

  lemma GrantsAppend(moves: seq<Move>, move: Move)
    ensures Grants(moves + [move]) == Grants(moves) + if move.Grant? then 1 else 0
  {
    assert (moves + [move])[..|moves|] == moves;
  }

  // ----- one job

  ghost predicate Unleased(r: JobRecord) {
    r.claimToken.None? && r.leasedBy.None? && r.leaseUntil.None?
  }

  /** The lessee and token are those of the last grant, and the lessee works for the job's tenant. */
  ghost predicate LeasedAsGranted(w: Workers, r: JobRecord, moves: seq<Move>) {
    && r.claimToken.Some? && r.leasedBy.Some? && r.leaseUntil.Some?
    && moves != [] && moves[|moves| - 1] == Grant(r.claimToken.value, r.leasedBy.value)
    && r.leasedBy.value in w && w[r.leasedBy.value].tenantId == r.job.tenantId
  }

  /** The recorded output is the stored object under the job's output key. */
  ghost predicate OutputStored(c: Config, assets: Assets, r: JobRecord) {
    && r.job.outputKey in assets
    && r.outputByteLength == Some(|assets[r.job.outputKey]|)
    && |assets[r.job.outputKey]| <= c.maxVerifyBytes
    && r.outputSha256 == Some(c.sha256(assets[r.job.outputKey]))
  }

  ghost predicate JobOk(c: Config, w: Workers, assets: Assets, issued: map<Token, string>, id: string, r: JobRecord, moves: seq<Move>) {
    && Admitted(c, r.job) && r.digest == c.requestDigest(r.job)
    && HistoryOk(issued, id, moves)
    && r.attempts == Grants(moves) <= r.job.attemptBudget
    && match r.status
       case Queued => Unleased(r) && r.attempts < r.job.attemptBudget && |moves| <= 2 * r.attempts
       case Processing => LeasedAsGranted(w, r, moves) && |moves| <= 2 * r.attempts - 1
       case Completed => Unleased(r) && |moves| <= 2 * r.job.attemptBudget && OutputStored(c, assets, r)
       case _ => Unleased(r) && |moves| <= 2 * r.job.attemptBudget
  }

  ghost predicate JobsOk(c: Config, s: State) {
    && (forall id :: id in s.history <==> id in s.jobs.records)
    && forall id | id in s.jobs.records :: JobOk(c, s.workers, s.assets, s.issued, id, s.jobs.records[id], s.history[id])
  }

  // ----- one call

  /** A call's snapshot still describes the lease it was read under, for as long as its token is live. */
  ghost predicate SnapshotOk(records: map<string, JobRecord>, call: Call, r0: JobRecord)
    requires call.JobCall?
  {
    && call.jobId in records
    && r0.job == records[call.jobId].job && r0.digest == records[call.jobId].digest
    && (records[call.jobId].status.Processing? && records[call.jobId].claimToken == Some(call.token) ==>
          && records[call.jobId].leasedBy == Some(call.identity.workerId)
          && records[call.jobId].attempts == r0.attempts)
  }

  /** The manifest passed every check, against an object that can no longer change. */
  ghost predicate Verified(c: Config, assets: Assets, r0: JobRecord, m: OutputManifest) {
    && SizeRejection(c, assets, r0.job.outputKey, m).None?
    && c.sha256(assets[r0.job.outputKey]) == m.sha256
  }

  ghost predicate JobCallOk(c: Config, records: map<string, JobRecord>, assets: Assets, call: Call)
    requires call.JobCall?
  {
    match call.stage
    case Entering => true
    case Approved => true
    case Describing(r0) =>
      SnapshotOk(records, call, r0) && call.op.Complete?
    case Reading(r0) =>
      && SnapshotOk(records, call, r0) && call.op.Complete?
      && SizeRejection(c, assets, r0.job.outputKey, call.op.manifest).None?
    case Acting(r0, action) =>
      && SnapshotOk(records, call, r0)
      && (action.Commit? ==> call.op == Complete(action.manifest) && Verified(c, assets, r0, action.manifest))
      && (action.Reject? ==> call.op.Complete?)
      && (call.op.Complete? ==> action.Reject? || action.Commit?)
      && (action.Requeue? ==> r0.attempts < r0.job.attemptBudget)
  }

  /** The worker a lease call selected for is registered, under the same tenant. */
  ghost predicate LeaseCallOk(w: Workers, call: Call)
    requires call.LeaseCall?
  {
    call.leaseStage.Expiring? || call.leaseStage.Granting? ==>
      && call.leaseStage.worker.workerId in w
      && w[call.leaseStage.worker.workerId].tenantId == call.leaseStage.worker.tenantId
  }

  ghost predicate CallOk(c: Config, records: map<string, JobRecord>, assets: Assets, w: Workers, call: Call) {
    match call
    case JobCall(_, _, _, _, _) => JobCallOk(c, records, assets, call)
    case LeaseCall(_, _, _, _) => LeaseCallOk(w, call)
    case _ => true
  }

  ghost predicate CallsOk(c: Config, s: State) {
    forall id | id in s.calls :: CallOk(c, s.jobs.records, s.assets, s.workers, s.calls[id])
  }

  ghost predicate Inv(c: Config, s: State) {
    s.jobs.Valid() && ValidWorkers(s.workers) && JobsOk(c, s) && CallsOk(c, s)
  }

  // ----- what a change of the stores preserves

  ghost predicate IssuedKept(before: map<Token, string>, after: map<Token, string>) {
    forall t | t in before :: t in after && after[t] == before[t]
  }

  /** The registry, the assets and the issued tokens only gain entries. */
  ghost predicate StoresGrew(s: State, s': State) {
    BindingsKept(s.workers, s'.workers) && AssetsKept(s.assets, s'.assets) && IssuedKept(s.issued, s'.issued)
  }

  lemma JobOkKept(c: Config, s: State, s': State, id: string, r: JobRecord, moves: seq<Move>)
    requires JobOk(c, s.workers, s.assets, s.issued, id, r, moves) && StoresGrew(s, s')
    ensures JobOk(c, s'.workers, s'.assets, s'.issued, id, r, moves)
  {
  }

  /** Only one job changed, and it is fine; the stores behind the others only grew. */
  lemma OneJobChanged(c: Config, s: State, s': State, id: string, r: JobRecord, moves: seq<Move>)
    requires JobsOk(c, s) && StoresGrew(s, s')
    requires s'.jobs.records == s.jobs.records[id := r] && s'.history == s.history[id := moves]
    requires JobOk(c, s'.workers, s'.assets, s'.issued, id, r, moves)
    ensures JobsOk(c, s')
  {
    forall k | k in s'.jobs.records
      ensures JobOk(c, s'.workers, s'.assets, s'.issued, k, s'.jobs.records[k], s'.history[k])
    {
      if k != id {
        JobOkKept(c, s, s', k, s.jobs.records[k], s.history[k]);
      }
    }
  }

  lemma NoJobChanged(c: Config, s: State, s': State)
    requires JobsOk(c, s) && s'.jobs == s.jobs && s'.history == s.history && StoresGrew(s, s')
    ensures JobsOk(c, s')
  {
    forall k | k in s'.jobs.records
      ensures JobOk(c, s'.workers, s'.assets, s'.issued, k, s'.jobs.records[k], s'.history[k])
    {
      JobOkKept(c, s, s', k, s.jobs.records[k], s.history[k]);
    }
  }

  // ----- transitions of one job

  lemma GrantAppended(issued: map<Token, string>, id: string, moves: seq<Move>, token: Token, worker: string)
    requires HistoryOk(issued, id, moves) && token !in issued
    ensures HistoryOk(issued[token := id], id, moves + [Grant(token, worker)])
  {
    var after := moves + [Grant(token, worker)];
    assert forall i | 0 <= i < |moves| :: after[i] == moves[i];
    assert forall i | 0 <= i < |after| && after[i].Settle? :: i < |moves|;
    forall i | 0 <= i < |after| && after[i].Settle?
      ensures i > 0 && after[i - 1] == Grant(after[i].token, after[i].worker)
    {
      assert after[i - 1] == moves[i - 1];
    }
  }

  lemma GrantKeepsJobOk(c: Config, w: Workers, assets: Assets, issued: map<Token, string>, id: string,
                        r: JobRecord, moves: seq<Move>, worker: string, token: Token, seconds: int, now: int)
    requires JobOk(c, w, assets, issued, id, r, moves) && token !in issued
    requires (r.status.Queued? || r.status.Processing?) && r.attempts < r.job.attemptBudget
    requires worker in w && w[worker].tenantId == r.job.tenantId
    ensures JobOk(c, w, assets, issued[token := id], id, Store.LeasedRecord(r, worker, token, seconds, now), moves + [Grant(token, worker)])
  {
    GrantsAppend(moves, Grant(token, worker));
    GrantAppended(issued, id, moves, token, worker);
  }

  lemma SettleAppended(issued: map<Token, string>, id: string, moves: seq<Move>, move: Move)
    requires HistoryOk(issued, id, moves) && move.Settle?
    requires moves != [] && moves[|moves| - 1] == Grant(move.token, move.worker)
    ensures HistoryOk(issued, id, moves + [move])
  {
    var after := moves + [move];
    assert forall i | 0 <= i < |moves| :: after[i] == moves[i];
    forall i | 0 <= i < |after| && after[i].Settle?
      ensures i > 0 && after[i - 1] == Grant(after[i].token, after[i].worker)
    {
      assert after[i - 1] == if i == |moves| then moves[|moves| - 1] else moves[i - 1];
    }
  }

  /** Settling under the token and the lessee of the last grant. */
  lemma SettleKeepsHistory(issued: map<Token, string>, id: string, moves: seq<Move>, token: Token, worker: string, how: Ending)
    requires HistoryOk(issued, id, moves) && moves != [] && moves[|moves| - 1] == Grant(token, worker)
    ensures HistoryOk(issued, id, moves + [Settle(token, worker, how)])
    ensures Grants(moves + [Settle(token, worker, how)]) == Grants(moves)
  {
    GrantsAppend(moves, Settle(token, worker, how));
    SettleAppended(issued, id, moves, Settle(token, worker, how));
  }

  lemma PlainAppended(issued: map<Token, string>, id: string, moves: seq<Move>, move: Move)
    requires HistoryOk(issued, id, moves) && (move.CancelMove? || move.ExhaustMove?)
    ensures HistoryOk(issued, id, moves + [move])
  {
    var after := moves + [move];
    assert forall i | 0 <= i < |moves| :: after[i] == moves[i];
    forall i | 0 <= i < |after| && after[i].Settle?
      ensures i > 0 && after[i - 1] == Grant(after[i].token, after[i].worker)
    {
      assert after[i - 1] == moves[i - 1];
    }
  }

  lemma PlainMoveKeepsHistory(issued: map<Token, string>, id: string, moves: seq<Move>, move: Move)
    requires HistoryOk(issued, id, moves) && (move.CancelMove? || move.ExhaustMove?)
    ensures HistoryOk(issued, id, moves + [move])
    ensures Grants(moves + [move]) == Grants(moves)
  {
    GrantsAppend(moves, move);
    PlainAppended(issued, id, moves, move);
  }

  lemma CancelKeepsJobOk(c: Config, w: Workers, assets: Assets, issued: map<Token, string>, id: string,
                         r: JobRecord, moves: seq<Move>, now: int)
    requires JobOk(c, w, assets, issued, id, r, moves) && (r.status.Queued? || r.status.Processing?)
    ensures JobOk(c, w, assets, issued, id, Store.CancelledRecord(r, now), moves + [CancelMove])
  {
    PlainMoveKeepsHistory(issued, id, moves, CancelMove);
  }

  lemma ExhaustKeepsJobOk(c: Config, w: Workers, assets: Assets, issued: map<Token, string>, id: string,
                          r: JobRecord, moves: seq<Move>, now: int)
    requires JobOk(c, w, assets, issued, id, r, moves) && Store.Exhausted(r, now)
    ensures JobOk(c, w, assets, issued, id, Store.ExhaustedRecord(r, now), moves + [ExhaustMove])
  {
    PlainMoveKeepsHistory(issued, id, moves, ExhaustMove);
  }

  /** What an action does to the record its token owns. */
  function ActedRecord(c: Config, r: JobRecord, action: Action, now: int): JobRecord {
    match action
    case Renew(progress) => Store.RenewedRecord(r, c.defaultLeaseSeconds, progress, now)
    case Commit(m) => Store.CompletedRecord(r, m.contentType, m.sha256, m.byteLength, Metadata(m), now)
    case Reject(why) => Store.FailedRecord(r, Rejected(why), InvalidInput, None, false, now)
    case ReportFailure(reason, code, retryable) => Store.FailedRecord(r, Given(reason), code, None, retryable, now)
    case SpendAndFail(reason) => Store.FailedRecord(r, Given(reason), TemporaryFailure, None, true, now)
    case Requeue(reason) => Store.ReleasedRecord(r, Given(reason), now)
  }

  lemma ActIsActedRecord(c: Config, jobs: Store.Jobs, id: string, token: Token, action: Action, now: int)
    ensures Act(c, jobs, id, token, action, now) ==
            if Store.Owns(jobs, id, token) then jobs.Put(id, ActedRecord(c, jobs.records[id], action, now)) else jobs
  {
  }

  lemma RenewKeepsJobOk(c: Config, w: Workers, assets: Assets, issued: map<Token, string>, id: string,
                        r: JobRecord, moves: seq<Move>, seconds: int, progress: Option<int>, now: int)
    requires JobOk(c, w, assets, issued, id, r, moves) && r.status.Processing?
    ensures JobOk(c, w, assets, issued, id, Store.RenewedRecord(r, seconds, progress, now), moves)
  {
  }

  lemma CommitKeepsJobOk(c: Config, w: Workers, assets: Assets, issued: map<Token, string>, id: string,
                         r: JobRecord, moves: seq<Move>, m: OutputManifest, now: int)
    requires JobOk(c, w, assets, issued, id, r, moves) && r.status.Processing?
    requires SizeRejection(c, assets, r.job.outputKey, m).None? && c.sha256(assets[r.job.outputKey]) == m.sha256
    ensures JobOk(c, w, assets, issued, id,
                  Store.CompletedRecord(r, m.contentType, m.sha256, m.byteLength, Metadata(m), now),
                  moves + [Settle(r.claimToken.value, r.leasedBy.value, ByCompletion)])
  {
    SettleKeepsHistory(issued, id, moves, r.claimToken.value, r.leasedBy.value, ByCompletion);
  }

  lemma FailKeepsJobOk(c: Config, w: Workers, assets: Assets, issued: map<Token, string>, id: string, r: JobRecord,
                       moves: seq<Move>, reason: Reason, code: FailureCode, retryable: bool, how: Ending, now: int)
    requires JobOk(c, w, assets, issued, id, r, moves) && r.status.Processing?
    ensures JobOk(c, w, assets, issued, id, Store.FailedRecord(r, reason, code, None, retryable, now),
                  moves + [Settle(r.claimToken.value, r.leasedBy.value, how)])
  {
    SettleKeepsHistory(issued, id, moves, r.claimToken.value, r.leasedBy.value, how);
  }

  /** Requeueing is safe because attempts are left, which the caller read from its snapshot. */
  lemma RequeueKeepsJobOk(c: Config, w: Workers, assets: Assets, issued: map<Token, string>, id: string,
                          r: JobRecord, moves: seq<Move>, reason: Reason, now: int)
    requires JobOk(c, w, assets, issued, id, r, moves) && r.status.Processing? && r.attempts < r.job.attemptBudget
    ensures JobOk(c, w, assets, issued, id, Store.ReleasedRecord(r, reason, now),
                  moves + [Settle(r.claimToken.value, r.leasedBy.value, ByRelease)])
  {
    SettleKeepsHistory(issued, id, moves, r.claimToken.value, r.leasedBy.value, ByRelease);
  }

  /** The moves after an accepted action. */
  function ActedMoves(moves: seq<Move>, token: Token, worker: string, action: Action): seq<Move> {
    if action.Renew? then moves else moves + [Settle(token, worker, EndingOf(action))]
  }

  /** The compare-and-set keeps the job's invariant, although its decision was taken on a snapshot. */
  lemma ActKeepsJobOk(c: Config, w: Workers, assets: Assets, issued: map<Token, string>, r: JobRecord, moves: seq<Move>,
                      call: Call, r0: JobRecord, action: Action, now: int)
    requires call.JobCall? && call.stage == Acting(r0, action)
    requires JobOk(c, w, assets, issued, call.jobId, r, moves)
    requires r.status.Processing? && r.claimToken == Some(call.token) && r.leasedBy == Some(call.identity.workerId)
    requires r0.job == r.job && r0.attempts == r.attempts
    requires action.Commit? ==> Verified(c, assets, r0, action.manifest)
    requires action.Requeue? ==> r0.attempts < r0.job.attemptBudget
    ensures JobOk(c, w, assets, issued, call.jobId, ActedRecord(c, r, action, now),
                  ActedMoves(moves, call.token, call.identity.workerId, action))
  {
    match action
    case Renew(progress) =>
      RenewKeepsJobOk(c, w, assets, issued, call.jobId, r, moves, c.defaultLeaseSeconds, progress, now);
    case Commit(m) =>
      CommitKeepsJobOk(c, w, assets, issued, call.jobId, r, moves, m, now);
    case Reject(why) =>
      FailKeepsJobOk(c, w, assets, issued, call.jobId, r, moves, Rejected(why), InvalidInput, false, ByRejection, now);
    case ReportFailure(reason, code, retryable) =>
      FailKeepsJobOk(c, w, assets, issued, call.jobId, r, moves, Given(reason), code, retryable, ByFailure, now);
    case SpendAndFail(reason) =>
      FailKeepsJobOk(c, w, assets, issued, call.jobId, r, moves, Given(reason), TemporaryFailure, true, ByFailure, now);
    case Requeue(reason) =>
      RequeueKeepsJobOk(c, w, assets, issued, call.jobId, r, moves, Given(reason), now);
  }

  // ----- what one step does to the stores

  /** A record keeps its request for life, and a terminal record never changes again. */
  ghost predicate Evolves(r: JobRecord, r': JobRecord, granted: Option<Token>) {
    && r'.job == r.job && r'.digest == r.digest && r'.createdAt == r.createdAt
    && (r.Terminal() ==> r' == r)
    && (r'.status.Processing? ==>
          || (r.status.Processing? && r'.claimToken == r.claimToken && r'.leasedBy == r.leasedBy && r'.attempts == r.attempts)
          || (granted.Some? && r'.claimToken == granted && r'.attempts == r.attempts + 1))
  }

  ghost predicate RecordsEvolve(before: map<string, JobRecord>, after: map<string, JobRecord>, granted: Option<Token>) {
    forall id | id in before :: id in after && Evolves(before[id], after[id], granted)
  }

  /** The token a step may hand out: only a lease call's last step hands out one. */
  function GrantedBy(s: State, e: Event): Option<Token> {
    if e.Advance? && e.id in s.calls && s.calls[e.id].LeaseCall? && s.calls[e.id].leaseStage.Granting?
    then Some(e.token) else None
  }

  lemma ActEvolves(c: Config, jobs: Store.Jobs, id: string, token: Token, action: Action, now: int)
    ensures RecordsEvolve(jobs.records, Act(c, jobs, id, token, action, now).records, None)
  {
    ActIsActedRecord(c, jobs, id, token, action, now);
  }

  lemma LeaseEvolves(jobs: Store.Jobs, q: WorkerQuery, seconds: int, token: Token, now: int)
    requires jobs.Listed()
    ensures RecordsEvolve(jobs.records, Store.Lease(jobs, q, seconds, token, now).records, Some(token))
  {
    if Store.Choose(jobs, q, now).Some? {
      Store.ChoiceIsClaimable(jobs, q, now);
    }
  }

  lemma ExpireEvolves(jobs: Store.Jobs, now: int)
    ensures RecordsEvolve(jobs.records, Store.ExpireExhausted(jobs, now).records, None)
  {
  }

  lemma CancelEvolves(jobs: Store.Jobs, id: string, now: int)
    ensures RecordsEvolve(jobs.records, Store.Cancel(jobs, id, now).records, None)
  {
  }

  lemma SubmitEvolves(c: Config, s: State, sub: JobSubmission)
    requires s.jobs.Valid() && Enabled(s, Submit(sub))
    ensures RecordsEvolve(s.jobs.records, SubmitStep(c, s, sub).jobs.records, None)
  {
    if Store.SubmitOutcomeOf(s.jobs, sub).Created? {
      FreshKey(s, sub);
      PutNewEvolves(s.jobs, sub.jobId, Store.NewRecord(sub, c.requestDigest(sub), s.now));
    }
  }

  lemma PutNewEvolves(jobs: Store.Jobs, id: string, r: JobRecord)
    requires id !in jobs.records
    ensures RecordsEvolve(jobs.records, jobs.Put(id, r).records, None)
  {
  }

  lemma AdvanceLeaseEvolves(c: Config, s: State, id: nat, token: Token)
    requires s.jobs.Listed() && id in s.calls && s.calls[id].LeaseCall?
    ensures RecordsEvolve(s.jobs.records, AdvanceLeaseCall(c, s, id, token).jobs.records,
                          if s.calls[id].leaseStage.Granting? then Some(token) else None)
  {
    var stage := s.calls[id].leaseStage;
    if stage.Expiring? {
      ExpireEvolves(s.jobs, s.now);
    } else if stage.Granting? {
      LeaseEvolves(s.jobs, Query(stage.worker, stage.effective), LeaseSeconds(c, s.calls[id].seconds), token, s.now);
    }
  }

  lemma AdvanceJobEvolves(c: Config, s: State, id: nat)
    requires id in s.calls && s.calls[id].JobCall?
    ensures RecordsEvolve(s.jobs.records, AdvanceJobCall(c, s, id).jobs.records, None)
  {
    var call := s.calls[id];
    if call.stage.Acting? {
      ActEvolves(c, s.jobs, call.jobId, call.token, call.stage.action, s.now);
    }
  }

  lemma AdvanceEvolves(c: Config, s: State, id: nat, token: Token)
    requires s.jobs.Valid() && Enabled(s, Advance(id, token))
    ensures RecordsEvolve(s.jobs.records, Apply(c, s, Advance(id, token)).jobs.records, GrantedBy(s, Advance(id, token)))
  {
    match s.calls[id]
    case JobCall(_, _, _, _, _) => AdvanceJobEvolves(c, s, id);
    case LeaseCall(_, _, _, _) => AdvanceLeaseEvolves(c, s, id, token);
    case _ =>
  }

  /** Whatever the step, each record changes only in the ways `Evolves` allows. */
  lemma StepEvolves(c: Config, s: State, e: Event)
    requires s.jobs.Valid() && Enabled(s, e)
    ensures RecordsEvolve(s.jobs.records, Apply(c, s, e).jobs.records, GrantedBy(s, e))
  {
    match e
    case Submit(sub) => SubmitEvolves(c, s, sub);
    case Cancel(jobId) => CancelEvolves(s.jobs, jobId, s.now);
    case Advance(id, token) => AdvanceEvolves(c, s, id, token);
    case _ =>
  }

  lemma UpsertStepGrowsStores(s: State, id: nat)
    requires ValidWorkers(s.workers) && id in s.calls && (s.calls[id].RegisterCall? || s.calls[id].EnrollCall?)
    ensures ValidWorkers(UpsertStep(s, id).workers) && StoresGrew(s, UpsertStep(s, id))
  {
    var (registration, subject) := UpsertArguments(s.calls[id]);
    UpsertKeepsBindings(s.workers, registration, subject, s.now);
  }

  lemma AdvanceRegistrationGrowsStores(c: Config, s: State, id: nat)
    requires ValidWorkers(s.workers) && id in s.calls && (s.calls[id].RegisterCall? || s.calls[id].EnrollCall?)
    ensures ValidWorkers(AdvanceRegistration(c, s, id).workers) && StoresGrew(s, AdvanceRegistration(c, s, id))
  {
    UpsertStepGrowsStores(s, id);
  }

  /** Only the issued tokens may have changed. */
  ghost predicate OnlyIssues(s: State, s': State) {
    s'.workers == s.workers && s'.assets == s.assets && IssuedKept(s.issued, s'.issued)
  }

  lemma GrantOnlyIssues(c: Config, s: State, id: nat, token: Token)
    requires s.jobs.Listed() && id in s.calls && s.calls[id].LeaseCall? && s.calls[id].leaseStage.Granting?
    requires token !in s.issued
    ensures OnlyIssues(s, GrantStep(c, s, id, token))
  {
  }

  lemma AdvanceLeaseGrowsStores(c: Config, s: State, id: nat, token: Token)
    requires s.jobs.Listed() && id in s.calls && s.calls[id].LeaseCall?
    requires s.calls[id].leaseStage.Granting? ==> token !in s.issued
    ensures OnlyIssues(s, AdvanceLeaseCall(c, s, id, token))
  {
    if s.calls[id].leaseStage.Granting? {
      GrantOnlyIssues(c, s, id, token);
    }
  }

  lemma AdvanceJobGrowsStores(c: Config, s: State, id: nat)
    requires id in s.calls && s.calls[id].JobCall?
    ensures OnlyIssues(s, AdvanceJobCall(c, s, id))
  {
  }

  lemma AdvanceGrowsStores(c: Config, s: State, id: nat, token: Token)
    requires s.jobs.Listed() && ValidWorkers(s.workers) && Enabled(s, Advance(id, token))
    ensures ValidWorkers(Apply(c, s, Advance(id, token)).workers) && StoresGrew(s, Apply(c, s, Advance(id, token)))
  {
    match s.calls[id]
    case JobCall(_, _, _, _, _) => AdvanceJobGrowsStores(c, s, id);
    case LeaseCall(_, _, _, _) => AdvanceLeaseGrowsStores(c, s, id, token);
    case _ => AdvanceRegistrationGrowsStores(c, s, id);
  }

  /** Whatever the step, worker bindings, stored objects and issued tokens are for ever. */
  lemma StepGrowsStores(c: Config, s: State, e: Event)
    requires s.jobs.Listed() && ValidWorkers(s.workers) && Enabled(s, e)
    ensures ValidWorkers(Apply(c, s, e).workers) && StoresGrew(s, Apply(c, s, e))
  {
    match e
    case Upload(key, content) => WriteOnceKeeps(s.assets, key, content);
    case SetStatus(workerId, status) => SetStatusKeepsBindings(s.workers, workerId, status, s.now);
    case Advance(id, token) => AdvanceGrowsStores(c, s, id, token);
    case Submit(sub) => assert SubmitStep(c, s, sub).workers == s.workers;
    case _ =>
  }

  // ----- the steps keep every job's invariant

  /** The compare-and-set replaces the one record its token owns, or nothing. */
  lemma ActStepShape(c: Config, s: State, id: nat)
    requires id in s.calls && s.calls[id].JobCall? && s.calls[id].stage.Acting?
    requires forall j :: j in s.history <==> j in s.jobs.records
    ensures var call, s' := s.calls[id], ActStep(c, s, id);
            && OnlyIssues(s, s') && s'.issued == s.issued
            && (!Store.Owns(s.jobs, call.jobId, call.token) ==> s'.jobs == s.jobs && s'.history == s.history)
            && (Store.Owns(s.jobs, call.jobId, call.token) ==>
                  && s'.jobs.records == s.jobs.records[call.jobId := ActedRecord(c, s.jobs.records[call.jobId], call.stage.action, s.now)]
                  && s'.history == s.history[call.jobId :=
                       ActedMoves(s.history[call.jobId], call.token, call.identity.workerId, call.stage.action)])
  {
    var call := s.calls[id];
    ActIsActedRecord(c, s.jobs, call.jobId, call.token, call.stage.action, s.now);
  }

  lemma ActStepKeepsJobs(c: Config, s: State, id: nat)
    requires JobsOk(c, s) && id in s.calls && s.calls[id].JobCall? && s.calls[id].stage.Acting?
    requires CallOk(c, s.jobs.records, s.assets, s.workers, s.calls[id])
    ensures JobsOk(c, ActStep(c, s, id))
  {
    var call, s' := s.calls[id], ActStep(c, s, id);
    ActStepShape(c, s, id);
    if Store.Owns(s.jobs, call.jobId, call.token) {
      ActedJobOk(c, s, call);
      OneJobChanged(c, s, s', call.jobId, s'.jobs.records[call.jobId], s'.history[call.jobId]);
    } else {
      NoJobChanged(c, s, s');
    }
  }

  /** The job a call owns, after the call's action. */
  lemma ActedJobOk(c: Config, s: State, call: Call)
    requires JobsOk(c, s) && call.JobCall? && call.stage.Acting? && JobCallOk(c, s.jobs.records, s.assets, call)
    requires Store.Owns(s.jobs, call.jobId, call.token)
    ensures JobOk(c, s.workers, s.assets, s.issued, call.jobId,
                  ActedRecord(c, s.jobs.records[call.jobId], call.stage.action, s.now),
                  ActedMoves(s.history[call.jobId], call.token, call.identity.workerId, call.stage.action))
  {
    var r, moves := s.jobs.records[call.jobId], s.history[call.jobId];
    assert JobOk(c, s.workers, s.assets, s.issued, call.jobId, r, moves);
    ActKeepsJobOk(c, s.workers, s.assets, s.issued, r, moves, call, call.stage.snapshot, call.stage.action, s.now);
  }

  lemma CancelKeepsJobs(c: Config, s: State, jobId: string)
    requires JobsOk(c, s) && Store.Cancellable(s.jobs, jobId)
    ensures JobsOk(c, s.(jobs := Store.Cancel(s.jobs, jobId, s.now), history := Record(s.history, jobId, CancelMove)))
  {
    var s' := s.(jobs := Store.Cancel(s.jobs, jobId, s.now), history := Record(s.history, jobId, CancelMove));
    var r, moves := s.jobs.records[jobId], s.history[jobId];
    CancelKeepsJobOk(c, s.workers, s.assets, s.issued, jobId, r, moves, s.now);
    OneJobChanged(c, s, s', jobId, Store.CancelledRecord(r, s.now), moves + [CancelMove]);
  }

  lemma SubmitKeepsJobs(c: Config, s: State, sub: JobSubmission)
    requires JobsOk(c, s) && s.jobs.Listed()
    ensures JobsOk(c, SubmitStep(c, s, sub))
  {
    var r := Store.NewRecord(sub, c.requestDigest(sub), s.now);
    if Admitted(c, sub) && Store.SubmitOutcomeOf(s.jobs, sub).Created? {
      assert Grants([]) == 0;
      OneJobChanged(c, s, SubmitStep(c, s, sub), sub.jobId, r, []);
    }
  }

  lemma ExpireKeepsJobs(c: Config, s: State, id: nat)
    requires JobsOk(c, s) && id in s.calls && s.calls[id].LeaseCall? && s.calls[id].leaseStage.Expiring?
    ensures JobsOk(c, ExpireStep(s, id))
  {
    var s' := ExpireStep(s, id);
    forall j | j in s'.jobs.records
      ensures JobOk(c, s'.workers, s'.assets, s'.issued, j, s'.jobs.records[j], s'.history[j])
    {
      var r, moves := s.jobs.records[j], s.history[j];
      if Store.Exhausted(r, s.now) {
        ExhaustKeepsJobOk(c, s.workers, s.assets, s.issued, j, r, moves, s.now);
      }
    }
  }

  /** A lease call's last step leases the job the store chooses for the worker it selected, or nothing. */
  lemma GrantStepShape(c: Config, s: State, id: nat, token: Token)
    requires s.jobs.Listed() && id in s.calls && s.calls[id].LeaseCall? && s.calls[id].leaseStage.Granting?
    requires token !in s.issued && forall j :: j in s.history <==> j in s.jobs.records
    ensures var call, s' := s.calls[id], GrantStep(c, s, id, token);
            var q := Query(call.leaseStage.worker, call.leaseStage.effective);
            var choice := Store.Choose(s.jobs, q, s.now);
            && OnlyIssues(s, s')
            && (choice.None? ==> s'.jobs == s.jobs && s'.history == s.history && s'.issued == s.issued)
            && (choice.Some? ==>
                  && choice.value in s.jobs.records && s'.issued == s.issued[token := choice.value]
                  && s'.jobs.records == s.jobs.records[choice.value :=
                       Store.LeasedRecord(s.jobs.records[choice.value], q.workerId, token, LeaseSeconds(c, call.seconds), s.now)]
                  && s'.history == s.history[choice.value := s.history[choice.value] + [Grant(token, q.workerId)]])
  {
  }

  lemma GrantKeepsJobs(c: Config, s: State, id: nat, token: Token)
    requires JobsOk(c, s) && s.jobs.Listed() && token !in s.issued
    requires id in s.calls && s.calls[id].LeaseCall? && s.calls[id].leaseStage.Granting?
    requires LeaseCallOk(s.workers, s.calls[id])
    ensures JobsOk(c, GrantStep(c, s, id, token))
  {
    var q := Query(s.calls[id].leaseStage.worker, s.calls[id].leaseStage.effective);
    GrantStepShape(c, s, id, token);
    if Store.Choose(s.jobs, q, s.now).None? {
      NoJobChanged(c, s, GrantStep(c, s, id, token));
    } else {
      GrantedJobOk(c, s, id, token);
      var j := Store.Choose(s.jobs, q, s.now).value;
      OneJobChanged(c, s, GrantStep(c, s, id, token), j,
                    Store.LeasedRecord(s.jobs.records[j], q.workerId, token, LeaseSeconds(c, s.calls[id].seconds), s.now),
                    s.history[j] + [Grant(token, q.workerId)]);
    }
  }

  /** The chosen job, as leased to the worker the call selected. */
  lemma GrantedJobOk(c: Config, s: State, id: nat, token: Token)
    requires JobsOk(c, s) && s.jobs.Listed() && token !in s.issued
    requires id in s.calls && s.calls[id].LeaseCall? && s.calls[id].leaseStage.Granting?
    requires LeaseCallOk(s.workers, s.calls[id])
    requires Store.Choose(s.jobs, Query(s.calls[id].leaseStage.worker, s.calls[id].leaseStage.effective), s.now).Some?
    ensures var q := Query(s.calls[id].leaseStage.worker, s.calls[id].leaseStage.effective);
            var j := Store.Choose(s.jobs, q, s.now).value;
            && j in s.history
            && JobOk(c, s.workers, s.assets, s.issued[token := j], j,
                     Store.LeasedRecord(s.jobs.records[j], q.workerId, token, LeaseSeconds(c, s.calls[id].seconds), s.now),
                     s.history[j] + [Grant(token, q.workerId)])
  {
    var q := Query(s.calls[id].leaseStage.worker, s.calls[id].leaseStage.effective);
    Store.ChoiceIsClaimable(s.jobs, q, s.now);
    var j := Store.Choose(s.jobs, q, s.now).value;
    GrantKeepsJobOk(c, s.workers, s.assets, s.issued, j, s.jobs.records[j], s.history[j], q.workerId, token,
                    LeaseSeconds(c, s.calls[id].seconds), s.now);
  }

  lemma ContinueKeepsJobs(c: Config, s: State, id: nat, next: Option<Call>)
    requires JobsOk(c, s)
    ensures JobsOk(c, Continue(s, id, next))
  {
    NoJobChanged(c, s, Continue(s, id, next));
  }

  lemma UpsertStepKeepsJobs(c: Config, s: State, id: nat)
    requires JobsOk(c, s) && ValidWorkers(s.workers)
    requires id in s.calls && (s.calls[id].RegisterCall? || s.calls[id].EnrollCall?)
    ensures JobsOk(c, UpsertStep(s, id))
  {
    UpsertStepGrowsStores(s, id);
    NoJobChanged(c, s, UpsertStep(s, id));
  }

  lemma AdvanceKeepsJobs(c: Config, s: State, id: nat, token: Token)
    requires JobsOk(c, s) && s.jobs.Valid() && ValidWorkers(s.workers) && Enabled(s, Advance(id, token))
    requires CallOk(c, s.jobs.records, s.assets, s.workers, s.calls[id])
    ensures JobsOk(c, Apply(c, s, Advance(id, token)))
  {
    match s.calls[id]
    case JobCall(_, _, _, _, stage) =>
      if stage.Acting? {
        ActStepKeepsJobs(c, s, id);
      } else {
        ContinueKeepsJobs(c, s, id, NextJobCall(c, s, s.calls[id]));
      }
    case LeaseCall(_, _, _, stage) =>
      if stage.Expiring? {
        ExpireKeepsJobs(c, s, id);
      } else if stage.Granting? {
        GrantKeepsJobs(c, s, id, token);
      } else {
        ContinueKeepsJobs(c, s, id, NextLeaseCall(c, s, s.calls[id]));
      }
    case RegisterCall(_, _, upserting) =>
      if upserting {
        UpsertStepKeepsJobs(c, s, id);
      } else {
        ContinueKeepsJobs(c, s, id, NextRegisterCall(c, s, s.calls[id]));
      }
    case EnrollCall(workerId, enrollment, enrolling) =>
      if enrolling {
        UpsertStepKeepsJobs(c, s, id);
      } else {
        ContinueKeepsJobs(c, s, id, if workerId in s.workers then None else Some(EnrollCall(workerId, enrollment, true)));
      }
  }

  lemma StepKeepsJobs(c: Config, s: State, e: Event)
    requires JobsOk(c, s) && CallsOk(c, s) && s.jobs.Valid() && ValidWorkers(s.workers) && Enabled(s, e)
    ensures JobsOk(c, Apply(c, s, e))
  {
    match e
    case Advance(id, token) => AdvanceKeepsJobs(c, s, id, token);
    case Submit(sub) => SubmitKeepsJobs(c, s, sub);
    case Cancel(jobId) =>
      if Store.Cancellable(s.jobs, jobId) {
        CancelKeepsJobs(c, s, jobId);
      }
    case _ => QuietStepKeepsJobs(c, s, e);
  }

  /** Steps that touch no job. */
  lemma QuietStepKeepsJobs(c: Config, s: State, e: Event)
    requires JobsOk(c, s) && s.jobs.Listed() && ValidWorkers(s.workers) && Enabled(s, e)
    requires e.Tick? || e.Upload? || e.SetStatus? || e.Begin? || e.Abandon?
    ensures JobsOk(c, Apply(c, s, e))
  {
    StepGrowsStores(c, s, e);
    NoJobChanged(c, s, Apply(c, s, e));
  }

  // ----- the steps keep every call's invariant

  /** No call in flight can tell the difference: its token is not the one just granted. */
  lemma CallKept(c: Config, s: State, s': State, call: Call, granted: Option<Token>)
    requires CallOk(c, s.jobs.records, s.assets, s.workers, call)
    requires RecordsEvolve(s.jobs.records, s'.jobs.records, granted)
    requires granted.Some? && call.JobCall? ==> call.token != granted.value
    requires BindingsKept(s.workers, s'.workers) && AssetsKept(s.assets, s'.assets)
    ensures CallOk(c, s'.jobs.records, s'.assets, s'.workers, call)
  {
  }

  /** A snapshot just taken describes the lease it was read under. */
  lemma NewSnapshotOk(c: Config, s: State, call: Call)
    requires call.JobCall? && call.jobId in s.jobs.records
    requires s.jobs.records[call.jobId].leasedBy == Some(call.identity.workerId)
    ensures var r := s.jobs.records[call.jobId];
            CallOk(c, s.jobs.records, s.assets, s.workers, call.(stage := NextStage(c, r, call.op)))
  {
  }

  lemma NextJobCallOk(c: Config, s: State, call: Call)
    requires call.JobCall? && !call.stage.Acting? && CallOk(c, s.jobs.records, s.assets, s.workers, call)
    ensures var next := NextJobCall(c, s, call);
            next.Some? ==> CallOk(c, s.jobs.records, s.assets, s.workers, next.value)
  {
    if call.stage.Approved? && NextJobCall(c, s, call).Some? {
      NewSnapshotOk(c, s, call);
    }
  }

  lemma AdvancedJobCallOk(c: Config, s: State, id: nat)
    requires id in s.calls && s.calls[id].JobCall? && CallOk(c, s.jobs.records, s.assets, s.workers, s.calls[id])
    ensures var s' := AdvanceJobCall(c, s, id);
            id in s'.calls ==> CallOk(c, s.jobs.records, s.assets, s.workers, s'.calls[id])
  {
    if !s.calls[id].stage.Acting? {
      NextJobCallOk(c, s, s.calls[id]);
    }
  }

  lemma NextLeaseCallOk(c: Config, s: State, call: Call)
    requires ValidWorkers(s.workers) && call.LeaseCall? && (call.leaseStage.LeaseEntering? || call.leaseStage.LeaseApproved?)
    ensures var next := NextLeaseCall(c, s, call);
            next.Some? ==> next.value.LeaseCall? && LeaseCallOk(s.workers, next.value)
  {
  }

  lemma AdvancedLeaseCallOk(c: Config, s: State, id: nat, token: Token)
    requires id in s.calls && s.calls[id].LeaseCall? && LeaseCallOk(s.workers, s.calls[id])
    requires s.jobs.Listed() && ValidWorkers(s.workers)
    ensures var s' := AdvanceLeaseCall(c, s, id, token);
            id in s'.calls ==> CallOk(c, s.jobs.records, s.assets, s.workers, s'.calls[id])
  {
    if s.calls[id].leaseStage.LeaseEntering? || s.calls[id].leaseStage.LeaseApproved? {
      NextLeaseCallOk(c, s, s.calls[id]);
    }
  }

  /** The call that advanced, if it is still in flight, has its invariant for the new stage. */
  lemma AdvancedCallOk(c: Config, s: State, id: nat, token: Token)
    requires s.jobs.Listed() && ValidWorkers(s.workers) && Enabled(s, Advance(id, token))
    requires CallOk(c, s.jobs.records, s.assets, s.workers, s.calls[id])
    ensures var s' := Apply(c, s, Advance(id, token));
            id in s'.calls ==> CallOk(c, s.jobs.records, s.assets, s.workers, s'.calls[id])
  {
    match s.calls[id]
    case JobCall(_, _, _, _, _) => AdvancedJobCallOk(c, s, id);
    case LeaseCall(_, _, _, _) => AdvancedLeaseCallOk(c, s, id, token);
    case _ =>
  }

  /** Every call but one is left exactly as it was, or is gone. */
  ghost predicate OthersKept(s: State, s': State, id: Option<nat>) {
    forall k | k in s'.calls && Some(k) != id :: k in s.calls && s'.calls[k] == s.calls[k]
  }

  lemma AdvanceKeepsOthers(c: Config, s: State, id: nat, token: Token)
    requires s.jobs.Listed() && Enabled(s, Advance(id, token))
    ensures OthersKept(s, Apply(c, s, Advance(id, token)), Some(id))
  {
    match s.calls[id]
    case JobCall(_, _, _, _, _) => AdvanceJobKeepsOthers(c, s, id);
    case LeaseCall(_, _, _, _) => AdvanceLeaseKeepsOthers(c, s, id, token);
    case _ =>
  }

  lemma AdvanceJobKeepsOthers(c: Config, s: State, id: nat)
    requires id in s.calls && s.calls[id].JobCall?
    ensures OthersKept(s, AdvanceJobCall(c, s, id), Some(id))
  {
  }

  lemma AdvanceLeaseKeepsOthers(c: Config, s: State, id: nat, token: Token)
    requires s.jobs.Listed() && id in s.calls && s.calls[id].LeaseCall?
    ensures OthersKept(s, AdvanceLeaseCall(c, s, id, token), Some(id))
  {
  }

  // ----- where a job call in flight comes from

  lemma AdvancedJobCall(c: Config, s: State, k: nat)
    requires k in s.calls && s.calls[k].JobCall? && k in AdvanceJobCall(c, s, k).calls
    ensures !s.calls[k].stage.Acting? && NextJobCall(c, s, s.calls[k]) == Some(AdvanceJobCall(c, s, k).calls[k])
  {
  }

  lemma NextLeaseCallIsLease(c: Config, s: State, call: Call)
    requires call.LeaseCall? && (call.leaseStage.LeaseEntering? || call.leaseStage.LeaseApproved?)
    ensures NextLeaseCall(c, s, call).Some? ==> NextLeaseCall(c, s, call).value.LeaseCall?
  {
  }

  lemma AdvancedLeaseCall(c: Config, s: State, k: nat, token: Token)
    requires s.jobs.Listed() && k in s.calls && s.calls[k].LeaseCall? && k in AdvanceLeaseCall(c, s, k, token).calls
    ensures !AdvanceLeaseCall(c, s, k, token).calls[k].JobCall?
  {
    if s.calls[k].leaseStage.LeaseEntering? || s.calls[k].leaseStage.LeaseApproved? {
      NextLeaseCallIsLease(c, s, s.calls[k]);
    }
  }

  lemma AdvancedOtherCall(c: Config, s: State, k: nat, token: Token)
    requires s.jobs.Listed() && Enabled(s, Advance(k, token)) && !s.calls[k].JobCall?
    requires k in Apply(c, s, Advance(k, token)).calls
    ensures !Apply(c, s, Advance(k, token)).calls[k].JobCall?
  {
    if s.calls[k].LeaseCall? {
      AdvancedLeaseCall(c, s, k, token);
    } else {
      AdvancedRegistration(c, s, k);
    }
  }

  lemma AdvancedRegistration(c: Config, s: State, k: nat)
    requires k in s.calls && (s.calls[k].RegisterCall? || s.calls[k].EnrollCall?) && k in AdvanceRegistration(c, s, k).calls
    ensures !AdvanceRegistration(c, s, k).calls[k].JobCall?
  {
  }

  /** A job call in flight after a step was in flight before it, or has just begun. */
  lemma JobCallOrigin(c: Config, s: State, e: Event, k: nat, call': Call)
    requires s.jobs.Listed() && Enabled(s, e) && k in Apply(c, s, e).calls && Apply(c, s, e).calls[k] == call' && call'.JobCall?
    ensures || (k in s.calls && call' == s.calls[k])
            || e == Begin(k, call')
            || (e.Advance? && e.id == k && s.calls[k].JobCall? && !s.calls[k].stage.Acting?
                && NextJobCall(c, s, s.calls[k]) == Some(call'))
  {
    if e.Advance? {
      if e.id != k {
        AdvanceKeepsOthers(c, s, e.id, e.token);
      } else if s.calls[k].JobCall? {
        AdvancedJobCall(c, s, k);
      } else {
        AdvancedOtherCall(c, s, k, e.token);
      }
    }
  }

  /** Calls left alone keep their invariant under any step. */
  lemma OtherCallsOk(c: Config, s: State, s': State, id: Option<nat>, granted: Option<Token>)
    requires CallsOk(c, s) && OthersKept(s, s', id) && (granted.Some? ==> Fresh(s, granted.value))
    requires RecordsEvolve(s.jobs.records, s'.jobs.records, granted) && StoresGrew(s, s')
    requires id.Some? && id.value in s'.calls ==> CallOk(c, s'.jobs.records, s'.assets, s'.workers, s'.calls[id.value])
    ensures CallsOk(c, s')
  {
    forall k | k in s'.calls ensures CallOk(c, s'.jobs.records, s'.assets, s'.workers, s'.calls[k]) {
      if Some(k) != id {
        CallKept(c, s, s', s.calls[k], granted);
      }
    }
  }

  lemma AdvancedCallStillOk(c: Config, s: State, id: nat, token: Token)
    requires CallsOk(c, s) && s.jobs.Listed() && ValidWorkers(s.workers) && Enabled(s, Advance(id, token))
    requires RecordsEvolve(s.jobs.records, Apply(c, s, Advance(id, token)).jobs.records, GrantedBy(s, Advance(id, token)))
    requires StoresGrew(s, Apply(c, s, Advance(id, token)))
    ensures var s' := Apply(c, s, Advance(id, token));
            id in s'.calls ==> CallOk(c, s'.jobs.records, s'.assets, s'.workers, s'.calls[id])
  {
    var s' := Apply(c, s, Advance(id, token));
    AdvancedCallOk(c, s, id, token);
    if id in s'.calls {
      CallKept(c, s, s', s'.calls[id], GrantedBy(s, Advance(id, token)));
    }
  }

  lemma AdvanceKeepsCalls(c: Config, s: State, id: nat, token: Token)
    requires CallsOk(c, s) && s.jobs.Valid() && ValidWorkers(s.workers) && Enabled(s, Advance(id, token))
    ensures CallsOk(c, Apply(c, s, Advance(id, token)))
  {
    AdvanceEvolves(c, s, id, token);
    AdvanceGrowsStores(c, s, id, token);
    AdvanceKeepsOthers(c, s, id, token);
    AdvancedCallStillOk(c, s, id, token);
    OtherCallsOk(c, s, Apply(c, s, Advance(id, token)), Some(id), GrantedBy(s, Advance(id, token)));
  }

  lemma BeginKeepsCalls(c: Config, s: State, id: nat, call: Call)
    requires CallsOk(c, s) && Initial(call)
    ensures CallsOk(c, Continue(s, id, Some(call)))
  {
  }

  /** Steps that neither begin a call nor advance one. */
  lemma QuietStepKeepsCalls(c: Config, s: State, e: Event)
    requires CallsOk(c, s) && s.jobs.Valid() && ValidWorkers(s.workers) && Enabled(s, e)
    requires !e.Advance? && !e.Begin?
    ensures CallsOk(c, Apply(c, s, e))
  {
    StepEvolves(c, s, e);
    StepGrowsStores(c, s, e);
    OtherCallsOk(c, s, Apply(c, s, e), None, None);
  }

  lemma StepKeepsCalls(c: Config, s: State, e: Event)
    requires CallsOk(c, s) && s.jobs.Valid() && ValidWorkers(s.workers) && Enabled(s, e)
    ensures CallsOk(c, Apply(c, s, e))
  {
    match e
    case Advance(id, token) => AdvanceKeepsCalls(c, s, id, token);
    case Begin(id, call) => BeginKeepsCalls(c, s, id, call);
    case _ => QuietStepKeepsCalls(c, s, e);
  }

  // ----- the job dict stays well formed

  lemma FreshKey(s: State, sub: JobSubmission)
    requires s.jobs.Valid() && Enabled(s, Submit(sub)) && Store.SubmitOutcomeOf(s.jobs, sub).Created?
    ensures sub.jobId !in s.jobs.records
    ensures forall id | id in s.jobs.records :: s.jobs.records[id].job.idempotencyKey != sub.idempotencyKey
  {
    forall id | id in s.jobs.records ensures s.jobs.records[id].job.idempotencyKey != sub.idempotencyKey {
      assert id in s.jobs.order;
    }
  }

  lemma ActKeepsValid(c: Config, jobs: Store.Jobs, id: string, token: Token, action: Action, now: int)
    requires jobs.Valid()
    ensures Act(c, jobs, id, token, action, now).Valid()
  {
    ActIsActedRecord(c, jobs, id, token, action, now);
    if Store.Owns(jobs, id, token) {
      Store.PutKeepsValid(jobs, id, ActedRecord(c, jobs.records[id], action, now));
    }
  }

  lemma SubmitKeepsValid(c: Config, s: State, sub: JobSubmission)
    requires s.jobs.Valid() && Enabled(s, Submit(sub))
    ensures SubmitStep(c, s, sub).jobs.Valid()
  {
    if Admitted(c, sub) && Store.SubmitOutcomeOf(s.jobs, sub).Created? {
      FreshKey(s, sub);
      Store.PutNewKeepsValid(s.jobs, sub.jobId, Store.NewRecord(sub, c.requestDigest(sub), s.now));
    }
  }

  lemma StepKeepsValid(c: Config, s: State, e: Event)
    requires s.jobs.Valid() && Enabled(s, e)
    ensures Apply(c, s, e).jobs.Valid()
  {
    match e
    case Submit(sub) => SubmitKeepsValid(c, s, sub);
    case Cancel(jobId) =>
      if Store.Cancellable(s.jobs, jobId) {
        Store.PutKeepsValid(s.jobs, jobId, Store.CancelledRecord(s.jobs.records[jobId], s.now));
      }
    case Advance(id, token) =>
      var call := s.calls[id];
      match call {
        case JobCall(_, jobId, _, _, stage) =>
          if stage.Acting? {
            ActKeepsValid(c, s.jobs, jobId, call.token, stage.action, s.now);
          }
        case LeaseCall(_, _, seconds, stage) =>
          if stage.Expiring? {
            Store.ExpireKeepsValid(s.jobs, s.now);
          } else if stage.Granting? {
            Store.LeaseKeepsValid(s.jobs, Query(stage.worker, stage.effective), LeaseSeconds(c, seconds), token, s.now);
          }
        case _ =>
      }
    case _ =>
  }

  // ----- the invariant

  lemma StartHasInv(c: Config)
    ensures Inv(c, START)
  {
  }

  /** Every enabled step, by any caller at any time, keeps the invariant. */
  lemma StepKeepsInv(c: Config, s: State, e: Event)
    requires Inv(c, s) && Enabled(s, e)
    ensures Inv(c, Apply(c, s, e))
  {
    StepKeepsValid(c, s, e);
    StepGrowsStores(c, s, e);
    StepKeepsJobs(c, s, e);
    StepKeepsCalls(c, s, e);
  }
}
