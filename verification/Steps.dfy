/** What each step of the pool does to its stores, written out. */
module Steps {
  import opened Json
  import opened Contracts
  import opened Registry
  import opened Service
  import opened PoolInvariant
  import opened PoolTheorems
  import opened Rules
  import opened Authority
  import opened Queue
  import Store = JobStore

  // ----- what hosts, workers and the clock do

  /** Time passes, an object is stored once, a worker's status is set: nothing else changes. */
  lemma OutsideSteps(c: Config, s: State, e: Event)
    requires s.jobs.Listed() && Enabled(s, e) && (e.Tick? || e.Upload? || e.SetStatus?)
    ensures e.Tick? ==> Apply(c, s, e) == s.(now := s.now + e.elapsed)
    ensures e.Upload? ==> Apply(c, s, e) == s.(assets := if e.key in s.assets then s.assets else s.assets[e.key := e.content])
    ensures e.SetStatus? && e.workerId !in s.workers ==> Apply(c, s, e) == s
    ensures e.SetStatus? && e.workerId in s.workers ==>
      var w := s.workers[e.workerId];
      Apply(c, s, e) == s.(workers := s.workers[e.workerId := w.(
        status := e.status, updatedAt := s.now, revokedAt := if e.status == Revoked then Some(s.now) else w.revokedAt)])
  {
  }

  /** A cancel ends exactly a queued or processing job. */
  lemma CancelStep(c: Config, s: State, id: string)
    requires s.jobs.Listed() && SameKeys(s)
    ensures var s' := Apply(c, s, Cancel(id));
            if id in s.jobs.records && s.jobs.records[id].status in {Queued, Processing} then
              && s'.jobs.records == s.jobs.records[id := s.jobs.records[id].(
                   claimToken := None, leasedBy := None, leaseUntil := None, updatedAt := s.now,
                   status := Cancelled, cancelledAt := Some(s.now))]
              && s' == s.(jobs := s'.jobs, history := s.history[id := s.history[id] + [CancelMove]])
            else s' == s
  {
  }

  // ----- first steps

  /** A call whose caller is not barred goes on to its next step, and changes nothing else. */
  lemma ApprovedCallProceeds(c: Config, s: State, k: nat, token: Token)
    requires s.jobs.Listed() && Enabled(s, Advance(k, token)) && FirstStage(s.calls[k]) && !s.calls[k].RegisterCall?
    requires !Barred(c, s.workers, s.calls[k].identity)
    ensures var call := s.calls[k];
            Apply(c, s, Advance(k, token)) == s.(calls := s.calls[k :=
              if call.JobCall? then call.(stage := Approved) else call.(leaseStage := LeaseApproved)])
  {
  }

  // ----- a lease call's last two steps

  /** Before it leases, a lease call fails exactly the jobs whose lease is over and whose budget is spent. */
  lemma ExpiringSweeps(c: Config, s: State, k: nat, token: Token)
    requires s.jobs.Listed() && Enabled(s, Advance(k, token)) && s.calls[k].LeaseCall? && s.calls[k].leaseStage.Expiring?
    ensures var stage, s' := s.calls[k].leaseStage, Apply(c, s, Advance(k, token));
            && s' == s.(calls := s.calls[k := s.calls[k].(leaseStage := Granting(stage.worker, stage.effective))],
                        jobs := s'.jobs, history := s'.history)
            && s'.jobs.order == s.jobs.order && s'.jobs.records.Keys == s.jobs.records.Keys
            && forall id | id in s.jobs.records ::
                 s'.jobs.records[id] ==
                 if Store.OverAndSpent(s.jobs.records[id], s.now)
                 then s.jobs.records[id].(
                   claimToken := None, leasedBy := None, leaseUntil := None, updatedAt := s.now, status := Failed,
                   error := Some(BudgetExhausted), failureCode := Some(TemporaryFailure), retryable := true)
                 else s.jobs.records[id]
  {
  }

  /** The job may go to this worker now: one of the call's capabilities, an attempt left, the worker's own
   *  tenant, every constraint met, and no lease that has yet to end. */
  predicate MayLease(r: JobRecord, worker: WorkerRecord, effective: seq<string>, now: int) {
    && r.job.capabilityId in effective && r.attempts < r.job.attemptBudget
    && r.job.tenantId == worker.tenantId && Meets(worker, r.job.requirements)
    && (r.status == Queued || (r.status == Processing && r.leaseUntil.Some? && r.leaseUntil.value < now))
  }

  /** Of the jobs the worker may lease, the one with the smallest priority number, then the earliest
   *  created, then the first inserted. */
  ghost predicate FirstFor(jobs: Store.Jobs, worker: WorkerRecord, effective: seq<string>, now: int, id: string) {
    && id in jobs.records && MayLease(jobs.records[id], worker, effective, now)
    && forall other | other in jobs.records && other != id && MayLease(jobs.records[other], worker, effective, now) ::
         ServedBefore(jobs, id, other)
  }

  lemma ChoiceIsFirst(jobs: Store.Jobs, worker: WorkerRecord, effective: seq<string>, now: int)
    requires jobs.Valid()
    ensures var choice := Store.Choose(jobs, Query(worker, effective), now);
            && (choice.Some? ==> FirstFor(jobs, worker, effective, now, choice.value))
            && (choice.None? ==> forall id | id in jobs.records :: !MayLease(jobs.records[id], worker, effective, now))
  {
    var q := Query(worker, effective);
    forall id | id in jobs.records && MayLease(jobs.records[id], worker, effective, now)
      ensures Store.Choose(jobs, q, now).Some?
      ensures id == Store.Choose(jobs, q, now).value || ServedBefore(jobs, Store.Choose(jobs, q, now).value, id)
    {
      QuerySelectsExactly(jobs.records[id], worker, effective, now);
      ChosenIsServedFirst(jobs, q, now, id);
    }
    if Store.Choose(jobs, q, now).Some? {
      Store.ChoiceIsClaimable(jobs, q, now);
      QuerySelectsExactly(jobs.records[Store.Choose(jobs, q, now).value], worker, effective, now);
    }
  }

  /** The job goes to the worker under the token, for the seconds asked or the default; nothing else but
   *  the end of the call. */
  ghost predicate GrantsTo(c: Config, s: State, s': State, k: nat, token: Token, id: string)
    requires k in s.calls && s.calls[k].LeaseCall? && s.calls[k].leaseStage.Granting?
    requires id in s.jobs.records && id in s.history
  {
    var call, r, worker := s.calls[k], s.jobs.records[id], s.calls[k].leaseStage.worker;
    && s'.jobs.records == s.jobs.records[id := r.(
         status := Processing, attempts := r.attempts + 1, claimToken := Some(token), leasedBy := Some(worker.workerId),
         leaseUntil := Some(s.now + if call.seconds.Some? then call.seconds.value else c.defaultLeaseSeconds), updatedAt := s.now)]
    && s' == s.(calls := s.calls - {k}, jobs := s'.jobs, issued := s.issued[token := id],
                history := s.history[id := s.history[id] + [Grant(token, worker.workerId)]])
  }

  /** The last step of a lease call grants the first job its worker may lease, or finds none. */
  lemma GrantingLeases(c: Config, s: State, k: nat, token: Token)
    requires s.jobs.Valid() && SameKeys(s) && Enabled(s, Advance(k, token))
    requires s.calls[k].LeaseCall? && s.calls[k].leaseStage.Granting?
    ensures var stage, s' := s.calls[k].leaseStage, Apply(c, s, Advance(k, token));
            || (&& (forall id | id in s.jobs.records :: !MayLease(s.jobs.records[id], stage.worker, stage.effective, s.now))
                && s' == s.(calls := s.calls - {k}))
            || (exists id :: FirstFor(s.jobs, stage.worker, stage.effective, s.now, id) && GrantsTo(c, s, s', k, token, id))
  {
    var stage := s.calls[k].leaseStage;
    var choice := Store.Choose(s.jobs, Query(stage.worker, stage.effective), s.now);
    ChoiceIsFirst(s.jobs, stage.worker, stage.effective, s.now);
    if choice.Some? {
      GrantStepGrants(c, s, k, token);
    }
  }

  lemma GrantStepGrants(c: Config, s: State, k: nat, token: Token)
    requires s.jobs.Listed() && SameKeys(s) && token !in s.issued
    requires k in s.calls && s.calls[k].LeaseCall? && s.calls[k].leaseStage.Granting?
    requires Store.Choose(s.jobs, Query(s.calls[k].leaseStage.worker, s.calls[k].leaseStage.effective), s.now).Some?
    ensures GrantsTo(c, s, GrantStep(c, s, k, token), k, token,
                     Store.Choose(s.jobs, Query(s.calls[k].leaseStage.worker, s.calls[k].leaseStage.effective), s.now).value)
  {
    GrantStepShape(c, s, k, token);
  }

  // ----- registration and enrolment

  /** An enrolment of a known worker changes nothing; an unknown one goes on to be stored. */
  lemma EnrolmentProceeds(c: Config, s: State, k: nat, token: Token)
    requires s.jobs.Listed() && Enabled(s, Advance(k, token)) && s.calls[k].EnrollCall? && !s.calls[k].enrolling
    ensures Apply(c, s, Advance(k, token)) == s.(calls :=
      if s.calls[k].workerId in s.workers then s.calls - {k} else s.calls[k := s.calls[k].(enrolling := true)])
  {
  }

  /** The worker a registration or an enrolment stores, unless its id is bound to another subject or tenant
   *  or its subject to another id. */
  lemma UpsertStores(c: Config, s: State, k: nat, token: Token)
    requires s.jobs.Listed() && ValidWorkers(s.workers) && Enabled(s, Advance(k, token))
    requires (s.calls[k].RegisterCall? && s.calls[k].upserting) || (s.calls[k].EnrollCall? && s.calls[k].enrolling)
    ensures var call, s' := s.calls[k], Apply(c, s, Advance(k, token));
            var id := if call.RegisterCall? then call.registration.workerId else call.workerId;
            var subject := if call.RegisterCall? then call.identity.subject else call.enrollment.identitySubject;
            var tenant := if call.RegisterCall? then call.registration.tenantId else call.enrollment.tenantId;
            && s' == s.(calls := s.calls - {k}, workers := s'.workers)
            && (if || (id in s.workers && (s.workers[id].identitySubject != subject || s.workers[id].tenantId != tenant))
                   || (exists other | other in s.workers :: other != id && s.workers[other].identitySubject == subject)
                then s'.workers == s.workers
                else && id in s'.workers && s'.workers == s.workers[id := s'.workers[id]]
                     && s'.workers[id].workerId == id && s'.workers[id].identitySubject == subject
                     && s'.workers[id].tenantId == tenant
                     && s'.workers[id].capabilityIds == (if call.RegisterCall? then call.registration.capabilityIds else [])
                     && s'.workers[id].runtimeVersions == (if call.RegisterCall? then call.registration.runtimeVersions else map[])
                     && s'.workers[id].labels == (if call.RegisterCall? then call.registration.labels else [])
                     && s'.workers[id].gpuModel == (if call.RegisterCall? then call.registration.gpuModel else None)
                     && s'.workers[id].vramMb == (if call.RegisterCall? then call.registration.vramMb else None)
                     && s'.workers[id].status ==
                          (if id in s.workers && s.workers[id].status == Revoked then Revoked
                           else if call.RegisterCall? && call.registration.draining then Draining else Active))
  {
  }
}
