/** What holds in every state the pool can reach, and what no further run can change. */
module PoolTheorems {
  import opened Json
  import opened Contracts
  import opened Registry
  import opened Service
  import opened PoolInvariant
  import Store = JobStore
  import opened Requirements

  /** Every event is enabled where it happens. */
  ghost predicate Legal(c: Config, s: State, es: seq<Event>)
    requires s.jobs.Valid()
    decreases |es|
  {
    es != [] ==>
      && Enabled(s, es[0])
      && (StepKeepsValid(c, s, es[0]); Legal(c, Apply(c, s, es[0]), es[1..]))
  }

  ghost function Run(c: Config, s: State, es: seq<Event>): (r: State)
    requires s.jobs.Valid() && Legal(c, s, es)
    ensures r.jobs.Valid()
    decreases |es|
  {
    if es == [] then s
    else
      StepKeepsValid(c, s, es[0]);
      Run(c, Apply(c, s, es[0]), es[1..])
  }

  lemma {:induction false} RunKeepsInv(c: Config, s: State, es: seq<Event>)
    requires Inv(c, s) && Legal(c, s, es)
    ensures Inv(c, Run(c, s, es))
    decreases |es|
  {
    if es != [] {
      StepKeepsInv(c, s, es[0]);
      RunKeepsInv(c, Apply(c, s, es[0]), es[1..]);
    }
  }

  /** The state a run from the empty pool ends in. */
  ghost function Reached(c: Config, es: seq<Event>): State
    requires START.jobs.Valid() && Legal(c, START, es)
  {
    Run(c, START, es)
  }

  lemma ReachedHasInv(c: Config, es: seq<Event>)
    requires START.jobs.Valid() && Legal(c, START, es)
    ensures Inv(c, Reached(c, es))
  {
    StartHasInv(c);
    RunKeepsInv(c, START, es);
  }

  // ----- no stranded job

  /** A queued job always has an attempt left, although releases are decided on snapshots. */
  lemma NoStrandedJob(c: Config, es: seq<Event>, id: string)
    requires START.jobs.Valid() && Legal(c, START, es)
    requires id in Reached(c, es).jobs.records && Reached(c, es).jobs.records[id].status.Queued?
    ensures var r := Reached(c, es).jobs.records[id];
            r.attempts < r.job.attemptBudget
  {
    ReachedHasInv(c, es);
    var s := Reached(c, es);
    assert JobOk(c, s.workers, s.assets, s.issued, id, s.jobs.records[id], s.history[id]);
  }

  /** The store alone does not give that guarantee: its `release` requeues a job with nothing left. */
  lemma StoreReleaseCanStrand(jobs: Store.Jobs, id: string, token: Token, reason: Reason, now: int)
    requires Store.Owns(jobs, id, token)
    ensures var r := Store.Release(jobs, id, token, reason, now).records[id];
            (r.status.Queued? && !(r.attempts < r.job.attemptBudget))
            <==> jobs.records[id].attempts >= jobs.records[id].job.attemptBudget
  {
  }

  /** Submitting a job with one attempt, leasing it and releasing it, all at the store, strands it. */
  lemma StoreRunStrands(sub: JobSubmission, q: WorkerQuery, token: Token, reason: Reason)
    requires sub.attemptBudget == 1 && sub.capabilityId in q.capabilityIds && sub.tenantId == q.tenantId
    requires Satisfies(sub.requirements, q)
    ensures var submitted := Store.Submit(Store.EMPTY, sub, "", 0);
            var leased := Store.Lease(submitted, q, 300, token, 0);
            var released := Store.Release(leased, sub.jobId, token, reason, 1);
            && sub.jobId in released.records
            && released.records[sub.jobId].status.Queued?
            && released.records[sub.jobId].attempts >= released.records[sub.jobId].job.attemptBudget
  {
    var submitted := Store.Submit(Store.EMPTY, sub, "", 0);
    assert submitted.order == [sub.jobId] && submitted.order[0] in submitted.records;
    Store.CandidatesExactly(submitted, submitted.order, q, 0, sub.jobId);
  }

  // ----- fencing

  /** A settlement is by the worker its token was granted to, right after that grant. */
  lemma SettledByGrantee(c: Config, es: seq<Event>, id: string, i: nat)
    requires START.jobs.Valid() && Legal(c, START, es)
    requires id in Reached(c, es).history && i < |Reached(c, es).history[id]| && Reached(c, es).history[id][i].Settle?
    ensures var moves := Reached(c, es).history[id];
            i > 0 && moves[i - 1] == Grant(moves[i].token, moves[i].worker)
  {
    ReachedHasInv(c, es);
    var s := Reached(c, es);
    assert JobOk(c, s.workers, s.assets, s.issued, id, s.jobs.records[id], s.history[id]);
  }

  /** No token ever settles twice: not the same job at two moments, nor two jobs. */
  lemma SettleOnce(c: Config, es: seq<Event>, a: string, i: nat, b: string, k: nat)
    requires START.jobs.Valid() && Legal(c, START, es)
    requires a in Reached(c, es).history && i < |Reached(c, es).history[a]| && Reached(c, es).history[a][i].Settle?
    requires b in Reached(c, es).history && k < |Reached(c, es).history[b]| && Reached(c, es).history[b][k].Settle?
    requires Reached(c, es).history[a][i].token == Reached(c, es).history[b][k].token
    ensures a == b && i == k
  {
    ReachedHasInv(c, es);
    var s := Reached(c, es);
    SettledByGrantee(c, es, a, i);
    SettledByGrantee(c, es, b, k);
    assert JobOk(c, s.workers, s.assets, s.issued, a, s.jobs.records[a], s.history[a]);
    assert JobOk(c, s.workers, s.assets, s.issued, b, s.jobs.records[b], s.history[b]);
    assert s.issued[s.history[a][i - 1].token] == a && s.issued[s.history[b][k - 1].token] == b;
  }

  /** An issued token that no record holds any more: replaced by a later grant, or cleared. */
  ghost predicate Retired(s: State, token: Token) {
    token in s.issued && forall id | id in s.jobs.records && s.jobs.records[id].status.Processing? ::
      s.jobs.records[id].claimToken != Some(token)
  }

  ghost predicate IssuedFor(s: State, id: string, token: Token) {
    token in s.issued && s.issued[token] == id
  }

  /** A settlement under the token is on record. */
  ghost predicate Settled(s: State, token: Token) {
    exists id, i | id in s.history && 0 <= i < |s.history[id]| :: s.history[id][i].Settle? && s.history[id][i].token == token
  }

  /** A token is retired exactly when the one job it was issued for does not hold it. */
  lemma RetiredExactly(c: Config, s: State, token: Token)
    requires JobsOk(c, s) && token in s.issued
    ensures Retired(s, token) <==> !Store.Owns(s.jobs, s.issued[token], token)
  {
    forall id | id in s.jobs.records && s.jobs.records[id].status.Processing? && s.jobs.records[id].claimToken == Some(token)
      ensures id == s.issued[token]
    {
      assert JobOk(c, s.workers, s.assets, s.issued, id, s.jobs.records[id], s.history[id]);
    }
  }

  lemma SettledIsNotHeld(c: Config, s: State, id: string, i: nat)
    requires JobsOk(c, s) && id in s.history && i < |s.history[id]| && s.history[id][i].Settle?
    ensures var token := s.history[id][i].token;
            token in s.issued && s.issued[token] == id && !Store.Owns(s.jobs, id, token)
  {
    var moves := s.history[id];
    assert JobOk(c, s.workers, s.assets, s.issued, id, s.jobs.records[id], moves);
    assert moves[i - 1] == Grant(moves[i].token, moves[i].worker);
  }

  /** A settlement retires its token, whatever became of the job since. */
  lemma SettledIsRetired(c: Config, s: State, token: Token)
    requires JobsOk(c, s) && Settled(s, token)
    ensures Retired(s, token)
  {
    var id, i :| id in s.history && 0 <= i < |s.history[id]| && s.history[id][i].Settle? && s.history[id][i].token == token;
    SettledIsNotHeld(c, s, id, i);
    RetiredExactly(c, s, token);
  }

  lemma HeldIsIssued(c: Config, s: State, id: string, token: Token)
    requires JobsOk(c, s) && Store.Owns(s.jobs, id, token)
    ensures IssuedFor(s, id, token)
  {
    assert JobOk(c, s.workers, s.assets, s.issued, id, s.jobs.records[id], s.history[id]);
  }

  /** A step leaves a live token with its job or retires it, so every way out of a lease does the
   *  latter: an accepted completion, failure or release, a cancel, an expiry and another grant. */
  lemma LosingTheLeaseRetires(c: Config, s: State, e: Event, id: string, token: Token)
    requires Inv(c, s) && Enabled(s, e) && Store.Owns(s.jobs, id, token)
    ensures HeldOrRetired(Apply(c, s, e), id, token)
  {
    var s' := Apply(c, s, e);
    HeldIsIssued(c, s, id, token);
    StepKeepsIssue(c, s, e, id, token);
    StepKeepsJobs(c, s, e);
    IssuedHeldOrRetired(c, s', id, token);
  }

  /** The job still holds the token, or nothing ever will. */
  ghost predicate HeldOrRetired(s: State, id: string, token: Token) {
    Store.Owns(s.jobs, id, token) || Retired(s, token)
  }

  lemma StepKeepsIssue(c: Config, s: State, e: Event, id: string, token: Token)
    requires s.jobs.Listed() && ValidWorkers(s.workers) && Enabled(s, e) && IssuedFor(s, id, token)
    ensures IssuedFor(Apply(c, s, e), id, token)
  {
    StepGrowsStores(c, s, e);
  }

  lemma IssuedHeldOrRetired(c: Config, s: State, id: string, token: Token)
    requires JobsOk(c, s) && IssuedFor(s, id, token)
    ensures HeldOrRetired(s, id, token)
  {
    RetiredExactly(c, s, token);
  }

  lemma StepKeepsRetired(c: Config, s: State, e: Event, token: Token)
    requires Inv(c, s) && Enabled(s, e) && Retired(s, token)
    ensures Retired(Apply(c, s, e), token)
  {
    var s' := Apply(c, s, e);
    StepEvolves(c, s, e);
    StepGrowsStores(c, s, e);
    forall id | id in s'.jobs.records && s'.jobs.records[id].status.Processing?
      ensures s'.jobs.records[id].claimToken != Some(token)
    {
      if id in s.jobs.records {
        assert Evolves(s.jobs.records[id], s'.jobs.records[id], GrantedBy(s, e));
      } else {
        NewRecordsAreQueued(c, s, e, id);
      }
    }
  }

  lemma NewRecordsAreQueued(c: Config, s: State, e: Event, id: string)
    requires s.jobs.Valid() && Enabled(s, e)
    requires id in Apply(c, s, e).jobs.records && id !in s.jobs.records
    ensures e.Submit? && Apply(c, s, e).jobs.records[id].status.Queued?
  {
    if e.Advance? {
      AdvanceAddsNoRecord(c, s, e.id, e.token, id);
    }
  }

  lemma AdvanceAddsNoRecord(c: Config, s: State, id: nat, token: Token, j: string)
    requires s.jobs.Listed() && Enabled(s, Advance(id, token)) && j !in s.jobs.records
    ensures j !in Apply(c, s, Advance(id, token)).jobs.records
  {
    match s.calls[id]
    case JobCall(_, jobId, t, _, stage) =>
      if stage.Acting? {
        ActIsActedRecord(c, s.jobs, jobId, t, stage.action, s.now);
      }
    case LeaseCall(_, _, _, _) => AdvanceLeaseAddsNoRecord(c, s, id, token, j);
    case _ =>
  }

  lemma AdvanceLeaseAddsNoRecord(c: Config, s: State, id: nat, token: Token, j: string)
    requires s.jobs.Listed() && id in s.calls && s.calls[id].LeaseCall? && j !in s.jobs.records
    ensures j !in AdvanceLeaseCall(c, s, id, token).jobs.records
  {
    var stage := s.calls[id].leaseStage;
    if stage.Granting? {
      LeaseAddsNoRecord(s.jobs, Query(stage.worker, stage.effective), LeaseSeconds(c, s.calls[id].seconds), token, s.now, j);
    }
  }

  lemma LeaseAddsNoRecord(jobs: Store.Jobs, q: WorkerQuery, seconds: int, token: Token, now: int, j: string)
    requires jobs.Listed() && j !in jobs.records
    ensures j !in Store.Lease(jobs, q, seconds, token, now).records
  {
  }

  /** Once retired, a token is retired for ever. */
  lemma {:induction false} RetiredForEver(c: Config, s: State, es: seq<Event>, token: Token)
    requires Inv(c, s) && Legal(c, s, es) && Retired(s, token)
    ensures Retired(Run(c, s, es), token)
    decreases |es|
  {
    if es != [] {
      StepKeepsInv(c, s, es[0]);
      StepKeepsRetired(c, s, es[0], token);
      RetiredForEver(c, Apply(c, s, es[0]), es[1..], token);
    }
  }

  lemma RetiredStaysInert(c: Config, s: State, es: seq<Event>, token: Token, id: nat, other: Token)
    requires Inv(c, s) && Legal(c, s, es) && Retired(s, token)
    requires Enabled(Run(c, s, es), Advance(id, other))
    requires Run(c, s, es).calls[id].JobCall? && Run(c, s, es).calls[id].token == token
    ensures var t := Run(c, s, es);
            Apply(c, t, Advance(id, other)).jobs == t.jobs && Apply(c, t, Advance(id, other)).history == t.history
  {
    RetiredForEver(c, s, es, token);
    RunKeepsInv(c, s, es);
    var t := Run(c, s, es);
    if t.calls[id].stage.Acting? {
      ActIsActedRecord(c, t.jobs, t.calls[id].jobId, token, t.calls[id].stage.action, t.now);
      assert !Store.Owns(t.jobs, t.calls[id].jobId, token);
    }
  }

  /** Once a token has settled, or the job it was issued for no longer holds it, no step of any call
   *  that carries it changes a job after any further run: not a duplicate, not a delayed one, and
   *  not one begun before. */
  lemma RetiredTokenIsInert(c: Config, es: seq<Event>, more: seq<Event>, token: Token, id: nat, other: Token)
    requires START.jobs.Valid() && Legal(c, START, es) && Reached(c, es).jobs.Valid() && Legal(c, Reached(c, es), more)
    requires var s := Reached(c, es);
             Settled(s, token) || (token in s.issued && !Store.Owns(s.jobs, s.issued[token], token))
    requires Enabled(Run(c, Reached(c, es), more), Advance(id, other))
    requires var call := Run(c, Reached(c, es), more).calls[id];
             call.JobCall? && call.token == token
    ensures var t := Run(c, Reached(c, es), more);
            Apply(c, t, Advance(id, other)).jobs == t.jobs && Apply(c, t, Advance(id, other)).history == t.history
  {
    ReachedHasInv(c, es);
    if Settled(Reached(c, es), token) {
      SettledIsRetired(c, Reached(c, es), token);
    } else {
      RetiredExactly(c, Reached(c, es), token);
    }
    RetiredStaysInert(c, Reached(c, es), more, token, id, other);
  }

  /** In every reachable state, a token is retired exactly when the job it was issued for does not hold
   *  it, and every token that has settled is retired. */
  lemma WhenRetired(c: Config, es: seq<Event>, token: Token)
    requires START.jobs.Valid() && Legal(c, START, es)
    requires token in Reached(c, es).issued || Settled(Reached(c, es), token)
    ensures var s := Reached(c, es);
            && token in s.issued
            && (Retired(s, token) <==> !Store.Owns(s.jobs, s.issued[token], token))
            && (Settled(s, token) ==> Retired(s, token))
  {
    ReachedHasInv(c, es);
    if Settled(Reached(c, es), token) {
      SettledIsRetired(c, Reached(c, es), token);
    }
    RetiredExactly(c, Reached(c, es), token);
  }

  // ----- terminal states

  /** A terminal record is never touched again, so a release posted after a lost completion reply,
   *  a late heartbeat, a cancel or an expiry sweep all leave it exactly as it was. */
  lemma {:induction false} TerminalForEver(c: Config, s: State, es: seq<Event>, id: string)
    requires s.jobs.Valid() && Legal(c, s, es)
    requires id in s.jobs.records && s.jobs.records[id].status in {Completed, Failed, Cancelled}
    ensures id in Run(c, s, es).jobs.records && Run(c, s, es).jobs.records[id] == s.jobs.records[id]
    decreases |es|
  {
    if es != [] {
      StepEvolves(c, s, es[0]);
      StepKeepsValid(c, s, es[0]);
      assert Evolves(s.jobs.records[id], Apply(c, s, es[0]).jobs.records[id], GrantedBy(s, es[0]));
      TerminalForEver(c, Apply(c, s, es[0]), es[1..], id);
    }
  }

  // ----- output integrity

  lemma {:induction false} AssetsForEver(c: Config, s: State, es: seq<Event>)
    requires Inv(c, s) && Legal(c, s, es)
    ensures AssetsKept(s.assets, Run(c, s, es).assets)
    decreases |es|
  {
    if es != [] {
      StepKeepsInv(c, s, es[0]);
      StepGrowsStores(c, s, es[0]);
      AssetsForEver(c, Apply(c, s, es[0]), es[1..]);
    }
  }

  /** A completed job's recorded length and digest are those of the stored object, at most the
   *  verification bound, at every later moment too. */
  lemma OutputIntegrity(c: Config, es: seq<Event>, more: seq<Event>, id: string)
    requires START.jobs.Valid() && Legal(c, START, es) && Reached(c, es).jobs.Valid() && Legal(c, Reached(c, es), more)
    requires id in Reached(c, es).jobs.records && Reached(c, es).jobs.records[id].status.Completed?
    ensures var before, after := Reached(c, es), Run(c, Reached(c, es), more);
            var r := before.jobs.records[id];
            && id in after.jobs.records && after.jobs.records[id] == r
            && OutputStored(c, after.assets, r)
            && r.job.outputKey in before.assets && after.assets[r.job.outputKey] == before.assets[r.job.outputKey]
  {
    ReachedHasInv(c, es);
    var s := Reached(c, es);
    assert JobOk(c, s.workers, s.assets, s.issued, id, s.jobs.records[id], s.history[id]);
    TerminalForEver(c, s, more, id);
    AssetsForEver(c, s, more);
  }

  // ----- how often a job can move

  /** Attempts count the granted leases, and the budget bounds both them and all other moves. */
  lemma MovesAreBounded(c: Config, es: seq<Event>, id: string)
    requires START.jobs.Valid() && Legal(c, START, es) && id in Reached(c, es).jobs.records
    ensures var s := Reached(c, es);
            var r := s.jobs.records[id];
            && id in s.history
            && Grants(s.history[id]) == r.attempts <= r.job.attemptBudget
            && |s.history[id]| <= 2 * r.job.attemptBudget
  {
    ReachedHasInv(c, es);
    var s := Reached(c, es);
    assert JobOk(c, s.workers, s.assets, s.issued, id, s.jobs.records[id], s.history[id]);
  }

  /** Whether a step changed the job in a way a heartbeat does not. */
  ghost predicate Moved(r: JobRecord, r': JobRecord) {
    r'.status != r.status || r'.attempts != r.attempts || r'.claimToken != r.claimToken
  }

  /** The job's history grew by one entry if the step moved the job, and stayed as it was otherwise. */
  ghost predicate Recorded(s: State, s': State, id: string) {
    && id in s.jobs.records && id in s'.jobs.records && id in s.history && id in s'.history
    && (Moved(s.jobs.records[id], s'.jobs.records[id]) ==> |s'.history[id]| == |s.history[id]| + 1)
    && (!Moved(s.jobs.records[id], s'.jobs.records[id]) ==> s'.history[id] == s.history[id])
  }

  ghost predicate SameKeys(s: State) {
    forall id :: id in s.history <==> id in s.jobs.records
  }

  lemma ActIsRecorded(c: Config, s: State, call: nat, id: string)
    requires SameKeys(s) && id in s.jobs.records
    requires call in s.calls && s.calls[call].JobCall? && s.calls[call].stage.Acting?
    ensures Recorded(s, ActStep(c, s, call), id)
  {
    ActStepShape(c, s, call);
  }

  lemma GrantIsRecorded(c: Config, s: State, call: nat, token: Token, id: string)
    requires SameKeys(s) && id in s.jobs.records && s.jobs.Listed() && token !in s.issued
    requires call in s.calls && s.calls[call].LeaseCall? && s.calls[call].leaseStage.Granting?
    ensures Recorded(s, GrantStep(c, s, call, token), id)
  {
    GrantStepShape(c, s, call, token);
  }

  lemma ExpireIsRecorded(s: State, call: nat, id: string)
    requires SameKeys(s) && id in s.jobs.records
    requires call in s.calls && s.calls[call].LeaseCall? && s.calls[call].leaseStage.Expiring?
    ensures Recorded(s, ExpireStep(s, call), id)
  {
  }

  lemma AdvanceIsRecorded(c: Config, s: State, call: nat, token: Token, id: string)
    requires SameKeys(s) && id in s.jobs.records && s.jobs.Listed() && Enabled(s, Advance(call, token))
    ensures Recorded(s, Apply(c, s, Advance(call, token)), id)
  {
    match s.calls[call]
    case JobCall(_, _, _, _, stage) =>
      if stage.Acting? {
        ActIsRecorded(c, s, call, id);
      }
    case LeaseCall(_, _, _, stage) =>
      if stage.Granting? {
        GrantIsRecorded(c, s, call, token, id);
      } else if stage.Expiring? {
        ExpireIsRecorded(s, call, id);
      }
    case _ =>
  }

  lemma SubmitIsRecorded(c: Config, s: State, sub: JobSubmission, id: string)
    requires SameKeys(s) && id in s.jobs.records && s.jobs.Valid() && Enabled(s, Submit(sub))
    ensures Recorded(s, SubmitStep(c, s, sub), id)
  {
    if Store.SubmitOutcomeOf(s.jobs, sub).Created? {
      FreshKey(s, sub);
    }
  }

  lemma CancelIsRecorded(c: Config, s: State, jobId: string, id: string)
    requires SameKeys(s) && id in s.jobs.records && s.jobs.Listed()
    ensures Recorded(s, Apply(c, s, Cancel(jobId)), id)
  {
  }

  /** A step moves a job exactly when it adds to its history, and then by one entry. */
  lemma MovesAreRecorded(c: Config, s: State, e: Event, id: string)
    requires s.jobs.Valid() && SameKeys(s) && Enabled(s, e) && id in s.jobs.records
    ensures Recorded(s, Apply(c, s, e), id)
  {
    if e.Advance? {
      AdvanceIsRecorded(c, s, e.id, e.token, id);
    } else if e.Submit? {
      SubmitIsRecorded(c, s, e.submission, id);
    } else if e.Cancel? {
      CancelIsRecorded(c, s, e.jobId, id);
    } else {
      QuietIsRecorded(c, s, e, id);
    }
  }

  lemma QuietIsRecorded(c: Config, s: State, e: Event, id: string)
    requires s.jobs.Listed() && SameKeys(s) && Enabled(s, e) && id in s.jobs.records
    requires e.Tick? || e.Upload? || e.SetStatus? || e.Begin? || e.Abandon?
    ensures Recorded(s, Apply(c, s, e), id)
  {
  }

  // ----- tenancy

  /** A job under lease is leased by a registered worker of exactly its tenant; house work goes to
   *  house workers and tenant work to that tenant's workers only. */
  lemma LesseeSharesTenant(c: Config, es: seq<Event>, id: string)
    requires START.jobs.Valid() && Legal(c, START, es)
    requires id in Reached(c, es).jobs.records && Reached(c, es).jobs.records[id].status.Processing?
    ensures var s := Reached(c, es);
            var r := s.jobs.records[id];
            r.leasedBy.Some? && r.leasedBy.value in s.workers && s.workers[r.leasedBy.value].tenantId == r.job.tenantId
  {
    ReachedHasInv(c, es);
    var s := Reached(c, es);
    assert JobOk(c, s.workers, s.assets, s.issued, id, s.jobs.records[id], s.history[id]);
  }

  /** No run rebinds a worker id to another subject or tenant, or lets two ids share a subject. */
  lemma {:induction false} BindingsForEver(c: Config, s: State, es: seq<Event>)
    requires Inv(c, s) && Legal(c, s, es)
    ensures BindingsKept(s.workers, Run(c, s, es).workers) && ValidWorkers(Run(c, s, es).workers)
    decreases |es|
  {
    if es != [] {
      StepKeepsInv(c, s, es[0]);
      StepGrowsStores(c, s, es[0]);
      BindingsForEver(c, Apply(c, s, es[0]), es[1..]);
    }
  }

  // ----- progress

  ghost predicate HeldAt(r: JobRecord, now: int) {
    r.status.Processing? && r.leaseUntil.Some? && r.leaseUntil.value >= now
  }

  /** Open to any worker with the capability, the tenant and the required properties. */
  ghost predicate Open(r: JobRecord, now: int) {
    forall q: WorkerQuery ::
      r.job.capabilityId in q.capabilityIds && r.job.tenantId == q.tenantId && Satisfies(r.job.requirements, q)
      ==> Store.Claimable(r, q, now)
  }

  /** A worker that meets every constraint of the job. */
  ghost function Matching(r: JobRecord): (q: WorkerQuery)
    ensures r.job.capabilityId in q.capabilityIds && r.job.tenantId == q.tenantId && Satisfies(r.job.requirements, q)
  {
    var reqs := r.job.requirements;
    assert reqs.gpuModels != [] ==> reqs.gpuModels[0] in reqs.gpuModels;
    WorkerQuery(if reqs.workerIds == [] then "" else reqs.workerIds[0], [r.job.capabilityId], r.job.tenantId,
                reqs.minVramMb, if reqs.gpuModels == [] then None else Some(reqs.gpuModels[0]), reqs.labels,
                reqs.runtimeVersions)
  }

  /** At every clock reading each unfinished job is in exactly one of three positions: held, open to
   *  every matching worker, or failed by the next expiry sweep. */
  lemma ProgressPartition(c: Config, es: seq<Event>, id: string, now: int)
    requires START.jobs.Valid() && Legal(c, START, es)
    requires id in Reached(c, es).jobs.records && !Reached(c, es).jobs.records[id].Terminal()
    ensures var s := Reached(c, es);
            var r := s.jobs.records[id];
            var swept := Store.ExpireExhausted(s.jobs, now).records[id].status.Failed?;
            && (HeldAt(r, now) || Open(r, now) || swept)
            && !(HeldAt(r, now) && Open(r, now))
            && !(HeldAt(r, now) && swept)
            && !(Open(r, now) && swept)
  {
    ReachedHasInv(c, es);
    var s := Reached(c, es);
    var r := s.jobs.records[id];
    assert JobOk(c, s.workers, s.assets, s.issued, id, r, s.history[id]);
    var q := Matching(r);
    assert Open(r, now) ==> Store.Claimable(r, q, now);
  }
}
