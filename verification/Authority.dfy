/** Who may settle a lease, and what may be registered and leased at all. */
module Authority {
  import opened Json
  import opened Contracts
  import opened Registry
  import opened Requirements
  import opened Service
  import opened PoolInvariant
  import opened PoolTheorems
  import opened Rules
  import Store = JobStore

  /** The record's live lease has this token and this lessee. */
  predicate LiveUnder(r: JobRecord, token: Token, worker: string) {
    r.status.Processing? && r.claimToken == Some(token) && r.leasedBy == Some(worker)
  }

  predicate BoundTo(w: Workers, identity: WorkerIdentity) {
    identity.workerId in w && w[identity.workerId].identitySubject == identity.subject
  }

  /** A job call past its first step whose token is live was made under the lessee's own subject. */
  ghost predicate JobCallAuth(records: map<string, JobRecord>, w: Workers, call: Call)
    requires call.JobCall?
  {
    !call.stage.Entering? ==>
      forall id | id in records && LiveUnder(records[id], call.token, call.identity.workerId) :: BoundTo(w, call.identity)
  }

  /** The worker a lease call selected for is the caller, takes work, runs nothing the pool refuses,
   *  and registered every capability the call still asks for. */
  ghost predicate Selected(c: Config, call: Call, worker: WorkerRecord, effective: seq<string>)
    requires call.LeaseCall?
  {
    && worker.workerId == call.identity.workerId && !worker.status.Draining?
    && !Unqualified(c, [], worker.runtimeVersions)
    && forall id | id in effective :: id in call.capabilityIds && id in worker.capabilityIds && id !in c.refusedCapabilities
  }

  ghost predicate CallAuth(c: Config, records: map<string, JobRecord>, w: Workers, call: Call) {
    match call
    case JobCall(_, _, _, _, _) => JobCallAuth(records, w, call)
    case LeaseCall(_, _, _, stage) =>
      (stage.Expiring? || stage.Granting? ==> Selected(c, call, stage.worker, stage.effective))
    case RegisterCall(_, registration, upserting) =>
      (upserting ==> !Unqualified(c, registration.capabilityIds, registration.runtimeVersions))
    case EnrollCall(_, _, _) => true
  }

  ghost predicate CallsAuth(c: Config, s: State) {
    forall k | k in s.calls :: CallAuth(c, s.jobs.records, s.workers, s.calls[k])
  }

  /** No registered worker offers what the pool must not run. */
  ghost predicate WorkersQualified(c: Config, w: Workers) {
    forall id | id in w :: !Unqualified(c, w[id].capabilityIds, w[id].runtimeVersions)
  }

  ghost predicate AuthInv(c: Config, s: State) {
    Inv(c, s) && CallsAuth(c, s) && WorkersQualified(c, s.workers)
  }

  // ----- registrations

  lemma UpsertKeepsQualified(c: Config, w: Workers, r: WorkerRegistration, subject: string, now: int)
    requires WorkersQualified(c, w) && !Unqualified(c, r.capabilityIds, r.runtimeVersions)
    ensures WorkersQualified(c, Upsert(w, r, subject, now))
  {
  }

  lemma SetStatusKeepsQualified(c: Config, w: Workers, id: string, status: WorkerStatus, now: int)
    requires WorkersQualified(c, w)
    ensures WorkersQualified(c, Registry.SetStatus(w, id, status, now))
  {
  }

  lemma RegistrationKeepsQualified(c: Config, s: State, k: nat)
    requires WorkersQualified(c, s.workers) && k in s.calls && (s.calls[k].RegisterCall? || s.calls[k].EnrollCall?)
    requires CallAuth(c, s.jobs.records, s.workers, s.calls[k])
    ensures WorkersQualified(c, AdvanceRegistration(c, s, k).workers)
  {
    var (registration, subject) := UpsertArguments(s.calls[k]);
    if s.calls[k].EnrollCall? || s.calls[k].upserting {
      UpsertKeepsQualified(c, s.workers, registration, subject, s.now);
    }
  }

  lemma AdvanceKeepsWorkers(c: Config, s: State, k: nat, token: Token)
    requires s.jobs.Listed() && Enabled(s, Advance(k, token)) && (s.calls[k].JobCall? || s.calls[k].LeaseCall?)
    ensures Apply(c, s, Advance(k, token)).workers == s.workers
  {
    match s.calls[k]
    case LeaseCall(_, _, _, _) => LeaseKeepsWorkers(c, s, k, token);
    case _ =>
  }

  lemma LeaseKeepsWorkers(c: Config, s: State, k: nat, token: Token)
    requires s.jobs.Listed() && k in s.calls && s.calls[k].LeaseCall?
    ensures AdvanceLeaseCall(c, s, k, token).workers == s.workers
  {
  }

  lemma StepKeepsQualified(c: Config, s: State, e: Event)
    requires s.jobs.Listed() && Enabled(s, e) && WorkersQualified(c, s.workers) && CallsAuth(c, s)
    ensures WorkersQualified(c, Apply(c, s, e).workers)
  {
    match e
    case SetStatus(id, status) => SetStatusKeepsQualified(c, s.workers, id, status, s.now);
    case Advance(k, token) =>
      if s.calls[k].JobCall? || s.calls[k].LeaseCall? {
        AdvanceKeepsWorkers(c, s, k, token);
      } else {
        RegistrationKeepsQualified(c, s, k);
      }
    case Submit(sub) => assert SubmitStep(c, s, sub).workers == s.workers;
    case _ =>
  }

  // ----- calls

  /** Every lease live after the step was live before, or was granted by it. */
  ghost predicate LeasesFrom(before: map<string, JobRecord>, after: map<string, JobRecord>, granted: Option<Token>) {
    forall id | id in after && after[id].status.Processing? ::
      || (granted.Some? && after[id].claimToken == granted)
      || (id in before && before[id].status.Processing? && after[id].claimToken == before[id].claimToken
          && after[id].leasedBy == before[id].leasedBy)
  }

  lemma StepLeasesFrom(c: Config, s: State, e: Event)
    requires s.jobs.Valid() && Enabled(s, e)
    ensures LeasesFrom(s.jobs.records, Apply(c, s, e).jobs.records, GrantedBy(s, e))
  {
    StepEvolves(c, s, e);
    var after := Apply(c, s, e).jobs.records;
    forall id | id in after && after[id].status.Processing?
      ensures id in s.jobs.records && Evolves(s.jobs.records[id], after[id], GrantedBy(s, e))
    {
      if id !in s.jobs.records {
        NewRecordsAreQueued(c, s, e, id);
      }
    }
  }

  /** A call left alone stays authorised: a token just granted is not its own, and bindings are for ever. */
  lemma CallAuthKept(c: Config, before: map<string, JobRecord>, after: map<string, JobRecord>, w: Workers, w': Workers,
                     call: Call, granted: Option<Token>)
    requires CallAuth(c, before, w, call) && LeasesFrom(before, after, granted) && BindingsKept(w, w')
    requires granted.Some? && call.JobCall? ==> call.token != granted.value
    ensures CallAuth(c, after, w', call)
  {
    if call.JobCall? && !call.stage.Entering? {
      forall id | id in after && LiveUnder(after[id], call.token, call.identity.workerId)
        ensures BoundTo(w', call.identity)
      {
        assert LiveUnder(before[id], call.token, call.identity.workerId);
      }
    }
  }

  /** The first step of a job call checks the caller's subject against the registered lessee. */
  lemma EnteredCallAuth(c: Config, s: State, call: Call)
    requires JobsOk(c, s) && call.JobCall? && ApprovedTenant(c, s.workers, call.identity).Some?
    ensures JobCallAuth(s.jobs.records, s.workers, call.(stage := Approved))
  {
    forall id | id in s.jobs.records && LiveUnder(s.jobs.records[id], call.token, call.identity.workerId)
      ensures BoundTo(s.workers, call.identity)
    {
      assert JobOk(c, s.workers, s.assets, s.issued, id, s.jobs.records[id], s.history[id]);
    }
  }

  lemma NextJobCallAuth(c: Config, s: State, call: Call)
    requires JobsOk(c, s) && call.JobCall? && !call.stage.Acting? && JobCallAuth(s.jobs.records, s.workers, call)
    ensures var next := NextJobCall(c, s, call);
            next.Some? ==> next.value.JobCall? && JobCallAuth(s.jobs.records, s.workers, next.value)
  {
    NextCallSameCaller(c, s, call);
    if call.stage.Entering? && ApprovedTenant(c, s.workers, call.identity).Some? {
      EnteredCallAuth(c, s, call);
    }
  }

  /** A call's next stage is the same call of the same caller, and no longer its first stage. */
  lemma NextCallSameCaller(c: Config, s: State, call: Call)
    requires call.JobCall? && !call.stage.Acting?
    ensures var next := NextJobCall(c, s, call);
            next.Some? ==> next.value.JobCall? && next.value == call.(stage := next.value.stage)
                           && (call.stage.Entering? ==> next.value.stage.Approved?)
  {
  }

  lemma NextLeaseCallAuth(c: Config, s: State, call: Call)
    requires ValidWorkers(s.workers) && call.LeaseCall? && (call.leaseStage.LeaseEntering? || call.leaseStage.LeaseApproved?)
    ensures var next := NextLeaseCall(c, s, call);
            next.Some? ==> CallAuth(c, s.jobs.records, s.workers, next.value)
  {
  }

  lemma LeaseCallAdvances(c: Config, s: State, k: nat, token: Token)
    requires s.jobs.Listed() && ValidWorkers(s.workers) && k in s.calls && s.calls[k].LeaseCall?
    requires CallAuth(c, s.jobs.records, s.workers, s.calls[k])
    ensures var s' := AdvanceLeaseCall(c, s, k, token);
            k in s'.calls ==> s'.calls[k].LeaseCall? && CallAuth(c, s.jobs.records, s.workers, s'.calls[k])
  {
    if s.calls[k].leaseStage.LeaseEntering? || s.calls[k].leaseStage.LeaseApproved? {
      NextLeaseCallAuth(c, s, s.calls[k]);
    }
  }

  lemma JobCallAdvances(c: Config, s: State, k: nat)
    requires JobsOk(c, s) && k in s.calls && s.calls[k].JobCall? && CallAuth(c, s.jobs.records, s.workers, s.calls[k])
    ensures var s' := AdvanceJobCall(c, s, k);
            k in s'.calls ==> CallAuth(c, s.jobs.records, s.workers, s'.calls[k])
  {
    if !s.calls[k].stage.Acting? {
      NextJobCallAuth(c, s, s.calls[k]);
    }
  }

  lemma RegistrationAdvances(c: Config, s: State, k: nat)
    requires k in s.calls && (s.calls[k].RegisterCall? || s.calls[k].EnrollCall?)
    ensures var s' := AdvanceRegistration(c, s, k);
            k in s'.calls ==> CallAuth(c, s.jobs.records, s.workers, s'.calls[k])
  {
  }

  lemma AdvancedCallAuth(c: Config, s: State, k: nat, token: Token)
    requires s.jobs.Listed() && ValidWorkers(s.workers) && JobsOk(c, s) && CallsAuth(c, s) && Enabled(s, Advance(k, token))
    ensures var s' := Apply(c, s, Advance(k, token));
            k in s'.calls ==> CallAuth(c, s.jobs.records, s.workers, s'.calls[k])
  {
    match s.calls[k]
    case JobCall(_, _, _, _, _) => JobCallAdvances(c, s, k);
    case LeaseCall(_, _, _, _) => LeaseCallAdvances(c, s, k, token);
    case _ => RegistrationAdvances(c, s, k);
  }

  /** Each call in flight after an advance was authorised before the step took effect. */
  lemma AdvanceAuthBefore(c: Config, s: State, id: nat, token: Token, k: nat)
    requires s.jobs.Listed() && ValidWorkers(s.workers) && JobsOk(c, s) && CallsAuth(c, s) && Enabled(s, Advance(id, token))
    requires k in Apply(c, s, Advance(id, token)).calls
    ensures CallAuth(c, s.jobs.records, s.workers, Apply(c, s, Advance(id, token)).calls[k])
  {
    if id == k {
      AdvancedCallAuth(c, s, k, token);
    } else {
      AdvanceKeepsOthers(c, s, id, token);
    }
  }

  /** Whatever the step: a call begun has nothing to be authorised for, others are as they were. */
  lemma CallAuthBefore(c: Config, s: State, e: Event, k: nat, call': Call)
    requires s.jobs.Listed() && ValidWorkers(s.workers) && JobsOk(c, s) && CallsAuth(c, s) && Enabled(s, e)
    requires k in Apply(c, s, e).calls && Apply(c, s, e).calls[k] == call'
    ensures CallAuth(c, s.jobs.records, s.workers, call')
  {
    if e.Advance? {
      AdvanceAuthBefore(c, s, e.id, e.token, k);
    } else {
      QuietAuthBefore(c, s, e, k);
    }
  }

  lemma QuietAuthBefore(c: Config, s: State, e: Event, k: nat)
    requires s.jobs.Listed() && CallsAuth(c, s) && Enabled(s, e) && !e.Advance? && k in Apply(c, s, e).calls
    ensures CallAuth(c, s.jobs.records, s.workers, Apply(c, s, e).calls[k])
  {
    assert k in s.calls ==> CallAuth(c, s.jobs.records, s.workers, s.calls[k]);
  }

  /** A step that hands out a token leaves no call in flight that carries it. */
  lemma GrantedIsFresh(c: Config, s: State, e: Event, k: nat, call': Call)
    requires s.jobs.Listed() && Enabled(s, e) && GrantedBy(s, e).Some?
    requires k in Apply(c, s, e).calls && Apply(c, s, e).calls[k] == call' && call'.JobCall?
    ensures call'.token != GrantedBy(s, e).value
  {
    AdvanceKeepsOthers(c, s, e.id, e.token);
  }

  lemma StepKeepsCallAuth(c: Config, s: State, e: Event, k: nat, call': Call)
    requires Inv(c, s) && CallsAuth(c, s) && Enabled(s, e)
    requires k in Apply(c, s, e).calls && Apply(c, s, e).calls[k] == call'
    ensures CallAuth(c, Apply(c, s, e).jobs.records, Apply(c, s, e).workers, call')
  {
    CallAuthBefore(c, s, e, k, call');
    StepLeasesFrom(c, s, e);
    StepGrowsStores(c, s, e);
    if GrantedBy(s, e).Some? && call'.JobCall? {
      GrantedIsFresh(c, s, e, k, call');
    }
    CallAuthKept(c, s.jobs.records, Apply(c, s, e).jobs.records, s.workers, Apply(c, s, e).workers, call', GrantedBy(s, e));
  }

  lemma StepKeepsAuth(c: Config, s: State, e: Event)
    requires AuthInv(c, s) && Enabled(s, e)
    ensures AuthInv(c, Apply(c, s, e))
  {
    var s' := Apply(c, s, e);
    StepKeepsInv(c, s, e);
    StepKeepsQualified(c, s, e);
    forall k | k in s'.calls ensures CallAuth(c, s'.jobs.records, s'.workers, s'.calls[k]) {
      StepKeepsCallAuth(c, s, e, k, s'.calls[k]);
    }
  }

  lemma {:induction false} RunKeepsAuth(c: Config, s: State, es: seq<Event>)
    requires AuthInv(c, s) && Legal(c, s, es)
    ensures AuthInv(c, Run(c, s, es))
    decreases |es|
  {
    if es != [] {
      StepKeepsAuth(c, s, es[0]);
      RunKeepsAuth(c, Apply(c, s, es[0]), es[1..]);
    }
  }

  lemma ReachedHasAuth(c: Config, es: seq<Event>)
    requires START.jobs.Valid() && Legal(c, START, es)
    ensures AuthInv(c, Reached(c, es))
  {
    StartHasInv(c);
    RunKeepsAuth(c, START, es);
  }

  // ----- what follows

  /** In every reachable state, a call about to change a job under its live token is the lessee's, and
   *  its caller has the subject the lessee was first registered with, although the caller was checked
   *  some steps earlier and enrolments and heartbeats may have come in between. */
  lemma SettlerIsLessee(c: Config, es: seq<Event>, k: nat)
    requires START.jobs.Valid() && Legal(c, START, es)
    requires k in Reached(c, es).calls && Reached(c, es).calls[k].JobCall? && Reached(c, es).calls[k].stage.Acting?
    requires Store.Owns(Reached(c, es).jobs, Reached(c, es).calls[k].jobId, Reached(c, es).calls[k].token)
    ensures var s := Reached(c, es);
            var call := s.calls[k];
            && s.jobs.records[call.jobId].leasedBy == Some(call.identity.workerId)
            && BoundTo(s.workers, call.identity)
  {
    ReachedHasAuth(c, es);
    var s := Reached(c, es);
    var call := s.calls[k];
    assert CallOk(c, s.jobs.records, s.assets, s.workers, call);
    assert CallAuth(c, s.jobs.records, s.workers, call);
    assert LiveUnder(s.jobs.records[call.jobId], call.token, call.identity.workerId);
  }

  /** In every reachable state no registered worker, and no job, names what the pool must not run, and
   *  every job is within the bounds. */
  lemma NothingUnqualified(c: Config, es: seq<Event>)
    requires START.jobs.Valid() && Legal(c, START, es)
    ensures var s := Reached(c, es);
            && (forall id | id in s.workers :: Clean(c, s.workers[id].capabilityIds, s.workers[id].runtimeVersions))
            && (forall id | id in s.jobs.records ::
                  var job := s.jobs.records[id].job;
                  Clean(c, [job.capabilityId], job.requirements.runtimeVersions) && WithinBounds(job) && c.wellFormed(job))
  {
    ReachedHasAuth(c, es);
    var s := Reached(c, es);
    forall id | id in s.workers ensures Clean(c, s.workers[id].capabilityIds, s.workers[id].runtimeVersions) {
      QualifiedIsClean(c, s.workers[id].capabilityIds, s.workers[id].runtimeVersions);
    }
    forall id | id in s.jobs.records
      ensures Clean(c, [s.jobs.records[id].job.capabilityId], s.jobs.records[id].job.requirements.runtimeVersions)
      ensures WithinBounds(s.jobs.records[id].job) && c.wellFormed(s.jobs.records[id].job)
    {
      AdmittedIsClean(c, s, id);
    }
  }

  lemma AdmittedIsClean(c: Config, s: State, id: string)
    requires JobsOk(c, s) && id in s.jobs.records
    ensures var job := s.jobs.records[id].job;
            Clean(c, [job.capabilityId], job.requirements.runtimeVersions) && WithinBounds(job) && c.wellFormed(job)
  {
    var job := s.jobs.records[id].job;
    assert JobOk(c, s.workers, s.assets, s.issued, id, s.jobs.records[id], s.history[id]);
    QualifiedIsClean(c, [job.capabilityId], job.requirements.runtimeVersions);
    ValidIsWithinBounds(c, job);
  }

  /** The registered worker meets every constraint of the job. */
  predicate Meets(worker: WorkerRecord, reqs: JobRequirements) {
    && (reqs.workerIds != [] ==> worker.workerId in reqs.workerIds)
    && (reqs.gpuModels != [] ==>
          worker.gpuModel.Some? && exists m | m in reqs.gpuModels :: Lower(m) == Lower(worker.gpuModel.value))
    && (if reqs.minVramMb.Some? then reqs.minVramMb.value else 0) <= (if worker.vramMb.Some? then worker.vramMb.value else 0)
    && (forall l | l in reqs.labels :: l in worker.labels)
    && (forall k | k in reqs.runtimeVersions :: k in worker.runtimeVersions && worker.runtimeVersions[k] == reqs.runtimeVersions[k])
  }

  /** A lease call's store query selects exactly the jobs its worker may have. */
  lemma QuerySelectsExactly(r: JobRecord, worker: WorkerRecord, effective: seq<string>, now: int)
    ensures Store.Claimable(r, Query(worker, effective), now) <==>
      && r.job.capabilityId in effective && r.attempts < r.job.attemptBudget
      && r.job.tenantId == worker.tenantId && Meets(worker, r.job.requirements)
      && (r.status == Queued || (r.status == Processing && r.leaseUntil.Some? && r.leaseUntil.value < now))
  {
  }

  /** Whatever a reachable lease call is granted, its caller asked for and had registered: the job's
   *  capability is not refused, and the caller's registration, as selected, met the job's tenant and
   *  every requirement and took work. */
  lemma GrantFitsCaller(c: Config, es: seq<Event>, k: nat)
    requires START.jobs.Valid() && Legal(c, START, es) && Reached(c, es).jobs.Valid()
    requires k in Reached(c, es).calls && Reached(c, es).calls[k].LeaseCall? && Reached(c, es).calls[k].leaseStage.Granting?
    ensures var s := Reached(c, es);
            var call := s.calls[k];
            var worker := call.leaseStage.worker;
            var choice := Store.Choose(s.jobs, Query(worker, call.leaseStage.effective), s.now);
            && worker.workerId == call.identity.workerId && !worker.status.Draining?
            && (choice.Some? ==>
                  var job := s.jobs.records[choice.value].job;
                  && job.capabilityId in call.capabilityIds && job.capabilityId in worker.capabilityIds
                  && job.capabilityId !in c.refusedCapabilities
                  && job.tenantId == worker.tenantId && Meets(worker, job.requirements)
                  && Satisfies(job.requirements, Query(worker, call.leaseStage.effective)))
  {
    ReachedHasAuth(c, es);
    var s := Reached(c, es);
    var call := s.calls[k];
    assert CallAuth(c, s.jobs.records, s.workers, call);
    var q := Query(call.leaseStage.worker, call.leaseStage.effective);
    if Store.Choose(s.jobs, q, s.now).Some? {
      Store.ChoiceIsClaimable(s.jobs, q, s.now);
    }
  }
}
