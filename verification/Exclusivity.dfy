/** What a lease is worth to its holder: nobody else gets the job before it runs out. */
module Exclusivity {
  import opened Json
  import opened Contracts
  import opened Service
  import opened PoolInvariant
  import opened PoolTheorems
  import Store = JobStore

  /** The same lease as before: same worker, same token, same attempt. */
  ghost predicate SameLease(r: JobRecord, r': JobRecord) {
    r'.status.Processing? && r'.claimToken == r.claimToken && r'.leasedBy == r.leasedBy && r'.attempts == r.attempts
  }

  /** The event is the compare-and-set of a call for this job that carries this token. */
  ghost predicate ActsUnder(s: State, e: Event, id: string, token: Option<Token>) {
    && e.Advance? && e.id in s.calls && s.calls[e.id].JobCall? && s.calls[e.id].stage.Acting?
    && s.calls[e.id].jobId == id && Some(s.calls[e.id].token) == token
  }

  lemma ActUnderOtherToken(c: Config, s: State, call: nat, id: string)
    requires SameKeys(s) && id in s.jobs.records && call in s.calls && s.calls[call].JobCall? && s.calls[call].stage.Acting?
    requires s.calls[call].jobId != id || Some(s.calls[call].token) != s.jobs.records[id].claimToken
    ensures id in ActStep(c, s, call).jobs.records && ActStep(c, s, call).jobs.records[id] == s.jobs.records[id]
  {
    ActStepShape(c, s, call);
  }

  lemma LeaseCallSparesLeased(c: Config, s: State, call: nat, token: Token, id: string)
    requires s.jobs.Listed() && id in s.jobs.records && HeldAt(s.jobs.records[id], s.now)
    requires call in s.calls && s.calls[call].LeaseCall?
    ensures var jobs' := AdvanceLeaseCall(c, s, call, token).jobs;
            id in jobs'.records && jobs'.records[id] == s.jobs.records[id]
  {
    var stage := s.calls[call].leaseStage;
    if stage.Granting? {
      var q := Query(stage.worker, stage.effective);
      if Store.Choose(s.jobs, q, s.now).Some? {
        Store.ChoiceIsClaimable(s.jobs, q, s.now);
        assert Store.Choose(s.jobs, q, s.now).value != id;
      }
    }
  }

  lemma SubmitSparesLeased(c: Config, s: State, sub: JobSubmission, id: string)
    requires s.jobs.Valid() && id in s.jobs.records && Enabled(s, Submit(sub))
    ensures id in SubmitStep(c, s, sub).jobs.records && SubmitStep(c, s, sub).jobs.records[id] == s.jobs.records[id]
  {
    if Store.SubmitOutcomeOf(s.jobs, sub).Created? {
      FreshKey(s, sub);
    }
  }

  lemma CancelSparesOthers(c: Config, s: State, jobId: string, id: string)
    requires s.jobs.Listed() && id in s.jobs.records && jobId != id
    ensures id in Apply(c, s, Cancel(jobId)).jobs.records && Apply(c, s, Cancel(jobId)).jobs.records[id] == s.jobs.records[id]
  {
  }

  lemma AdvanceSparesLeased(c: Config, s: State, call: nat, token: Token, id: string)
    requires s.jobs.Listed() && SameKeys(s) && Enabled(s, Advance(call, token))
    requires id in s.jobs.records && HeldAt(s.jobs.records[id], s.now)
    requires !ActsUnder(s, Advance(call, token), id, s.jobs.records[id].claimToken)
    ensures var s' := Apply(c, s, Advance(call, token));
            id in s'.jobs.records && s'.jobs.records[id] == s.jobs.records[id]
  {
    match s.calls[call]
    case JobCall(_, _, _, _, stage) =>
      if stage.Acting? {
        ActUnderOtherToken(c, s, call, id);
      }
    case LeaseCall(_, _, _, _) => LeaseCallSparesLeased(c, s, call, token, id);
    case _ =>
  }

  /** While a lease is unexpired, only the host's cancel and calls that carry the lease's own token
   *  touch the job at all; every lease call, of whatever worker, passes it by. */
  lemma LeaseIsExclusive(c: Config, s: State, e: Event, id: string)
    requires s.jobs.Valid() && SameKeys(s) && Enabled(s, e)
    requires id in s.jobs.records && HeldAt(s.jobs.records[id], s.now)
    requires e != Cancel(id) && !ActsUnder(s, e, id, s.jobs.records[id].claimToken)
    ensures id in Apply(c, s, e).jobs.records && Apply(c, s, e).jobs.records[id] == s.jobs.records[id]
  {
    match e
    case Submit(sub) => SubmitSparesLeased(c, s, sub, id);
    case Cancel(jobId) => CancelSparesOthers(c, s, jobId, id);
    case Advance(call, token) => AdvanceSparesLeased(c, s, call, token, id);
    case _ =>
  }

  /** The run contains no cancel of the job and no compare-and-set for it under its present token,
   *  and the clock stays within `until`. */
  ghost predicate LeftToLessee(c: Config, s: State, es: seq<Event>, id: string, token: Option<Token>, until: int)
    requires s.jobs.Valid() && Legal(c, s, es)
    decreases |es|
  {
    && s.now <= until
    && (es != [] ==>
          && es[0] != Cancel(id) && !ActsUnder(s, es[0], id, token)
          && (StepKeepsValid(c, s, es[0]); LeftToLessee(c, Apply(c, s, es[0]), es[1..], id, token, until)))
  }

  lemma StepKeepsSameKeys(c: Config, s: State, e: Event)
    requires s.jobs.Listed() && SameKeys(s) && Enabled(s, e)
    ensures SameKeys(Apply(c, s, e))
  {
    if e.Advance? {
      AdvanceKeepsSameKeys(c, s, e.id, e.token);
    }
  }

  lemma ActKeepsSameKeys(c: Config, s: State, call: nat)
    requires SameKeys(s) && call in s.calls && s.calls[call].JobCall? && s.calls[call].stage.Acting?
    ensures SameKeys(ActStep(c, s, call))
  {
    ActStepShape(c, s, call);
  }

  lemma GrantKeepsSameKeys(c: Config, s: State, call: nat, token: Token)
    requires s.jobs.Listed() && SameKeys(s) && token !in s.issued
    requires call in s.calls && s.calls[call].LeaseCall? && s.calls[call].leaseStage.Granting?
    ensures SameKeys(GrantStep(c, s, call, token))
  {
    GrantStepShape(c, s, call, token);
  }

  lemma ExpireKeepsSameKeys(s: State, call: nat)
    requires SameKeys(s) && call in s.calls && s.calls[call].LeaseCall? && s.calls[call].leaseStage.Expiring?
    ensures SameKeys(ExpireStep(s, call))
  {
  }

  lemma AdvanceKeepsSameKeys(c: Config, s: State, call: nat, token: Token)
    requires s.jobs.Listed() && SameKeys(s) && Enabled(s, Advance(call, token))
    ensures SameKeys(Apply(c, s, Advance(call, token)))
  {
    match s.calls[call]
    case JobCall(_, _, _, _, stage) =>
      if stage.Acting? {
        ActKeepsSameKeys(c, s, call);
      }
    case LeaseCall(_, _, _, stage) =>
      if stage.Granting? {
        GrantKeepsSameKeys(c, s, call, token);
      } else if stage.Expiring? {
        ExpireKeepsSameKeys(s, call);
      }
    case _ =>
  }

  /** Over a whole run: until its lease runs out a job stays exactly as granted, whatever every other
   *  worker does, unless its host cancels it or its holder acts. Every reachable state has the
   *  invariants asked for. */
  lemma {:induction false} LeaseHolds(c: Config, s: State, es: seq<Event>, id: string, r: JobRecord)
    requires s.jobs.Valid() && SameKeys(s) && Legal(c, s, es) && id in s.jobs.records && s.jobs.records[id] == r
    requires r.status.Processing? && r.leaseUntil.Some? && LeftToLessee(c, s, es, id, r.claimToken, r.leaseUntil.value)
    ensures id in Run(c, s, es).jobs.records && Run(c, s, es).jobs.records[id] == r
    decreases |es|
  {
    if es != [] {
      StepKeepsValid(c, s, es[0]);
      StepKeepsSameKeys(c, s, es[0]);
      LeaseIsExclusive(c, s, es[0], id);
      LeaseHolds(c, Apply(c, s, es[0]), es[1..], id, r);
    }
  }

  /** A grant lasts for exactly the seconds asked for, to the worker that asked. */
  lemma GrantLasts(c: Config, s: State, call: nat, token: Token, id: string, t: int)
    requires s.jobs.Listed() && SameKeys(s) && token !in s.issued
    requires call in s.calls && s.calls[call].LeaseCall? && s.calls[call].leaseStage.Granting?
    requires id in s.jobs.records && id in GrantStep(c, s, call, token).history
    requires GrantStep(c, s, call, token).history[id] != s.history[id]
    ensures id in GrantStep(c, s, call, token).jobs.records
    ensures var r' := GrantStep(c, s, call, token).jobs.records[id];
            && r'.leasedBy == Some(s.calls[call].leaseStage.worker.workerId) && r'.claimToken == Some(token)
            && (HeldAt(r', t) <==>
                  t <= s.now + if s.calls[call].seconds.Some? then s.calls[call].seconds.value else c.defaultLeaseSeconds)
  {
    GrantStepShape(c, s, call, token);
  }

  /** An accepted heartbeat keeps the lease and makes it last the default time from now: it may
   *  shorten a lease granted for longer. */
  lemma RenewalLasts(c: Config, s: State, call: nat, t: int)
    requires SameKeys(s) && call in s.calls && s.calls[call].JobCall? && s.calls[call].stage.Acting?
    requires s.calls[call].stage.action.Renew? && Store.Owns(s.jobs, s.calls[call].jobId, s.calls[call].token)
    ensures var id := s.calls[call].jobId;
            && id in ActStep(c, s, call).jobs.records
            && SameLease(s.jobs.records[id], ActStep(c, s, call).jobs.records[id])
            && (HeldAt(ActStep(c, s, call).jobs.records[id], t) <==> t <= s.now + c.defaultLeaseSeconds)
  {
    ActStepShape(c, s, call);
  }

  /** In every reachable state a heartbeat about to renew leaves the lease at least as long exactly when
   *  it ended no later than the default time from now. */
  lemma RenewalShortens(c: Config, es: seq<Event>, call: nat)
    requires START.jobs.Valid() && Legal(c, START, es)
    requires call in Reached(c, es).calls
    requires var k := Reached(c, es).calls[call];
             k.JobCall? && k.stage.Acting? && k.stage.action.Renew? && Store.Owns(Reached(c, es).jobs, k.jobId, k.token)
    ensures var s := Reached(c, es);
            var id := s.calls[call].jobId;
            var s' := ActStep(c, s, call);
            && id in s'.jobs.records
            && s.jobs.records[id].leaseUntil.Some? && s'.jobs.records[id].leaseUntil.Some?
            && (s'.jobs.records[id].leaseUntil.value >= s.jobs.records[id].leaseUntil.value
                <==> s.jobs.records[id].leaseUntil.value <= s.now + c.defaultLeaseSeconds)
  {
    ReachedHasInv(c, es);
    var s := Reached(c, es);
    var id := s.calls[call].jobId;
    assert JobOk(c, s.workers, s.assets, s.issued, id, s.jobs.records[id], s.history[id]);
    ActStepShape(c, s, call);
  }

  /** An hour's lease, renewed ten seconds later by a default of five minutes, ends 49 minutes 50
   *  seconds early. */
  lemma HourLeaseShortened(sub: JobSubmission)
    ensures var granted := Store.LeasedRecord(Store.NewRecord(sub, "", 0), "w", 0, 3600, 0);
            var jobs := Store.Jobs([sub.jobId], map[sub.jobId := granted]);
            var renewed := Store.Heartbeat(jobs, sub.jobId, 0, 300, None, 10).records[sub.jobId];
            && Store.Owns(jobs, sub.jobId, 0)
            && granted.leaseUntil == Some(3600) && renewed.leaseUntil == Some(310)
  {
  }
}
