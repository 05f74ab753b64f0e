/** The coordinator's admission rules, written out from the text of the rules (service.py, validation.py). */
module Rules {
  import opened Json
  import opened Contracts
  import opened Text
  import opened Profiles
  import opened Registry
  import opened Service
  import Store = JobStore

  /** The key's part before its first @, and the part after it. */
  predicate SplitsInto(key: string, base: string, profile: string) {
    '@' !in base && (key == base + "@" + profile || (key == base && profile == ""))
  }

  lemma {:induction false} PartitionSplits(key: string)
    ensures SplitsInto(key, Partition(key, '@').0, Partition(key, '@').1)
  {
    if key != [] && key[0] != '@' {
      PartitionSplits(key[1..]);
      var (base, profile) := Partition(key[1..], '@');
      assert key == [key[0]] + key[1..];
      assert [key[0]] + (base + "@" + profile) == [key[0]] + base + "@" + profile;
    }
  }

  lemma {:induction false} PartitionOfPlain(key: string)
    requires '@' !in key
    ensures Partition(key, '@') == (key, "")
  {
    if key != [] {
      assert key[0] != '@' && key == [key[0]] + key[1..];
      PartitionOfPlain(key[1..]);
    }
  }

  lemma SplitIsPartition(key: string, base: string, profile: string)
    requires SplitsInto(key, base, profile)
    ensures Partition(key, '@') == (base, profile)
  {
    if key == base + "@" + profile {
      PartitionJoined(base, profile, '@');
    } else {
      PartitionOfPlain(key);
    }
  }

  /** A runtime version that names a profile the pool must not run, or one of its recipes. */
  predicate NamesRefused(c: Config, key: string, value: string, base: string, profile: string) {
    && SplitsInto(key, base, profile)
    && (|| profile in c.refusedProfiles
        || (base == "magic_profile" && value in c.refusedProfiles)
        || (base == "magic_recipe" && value in c.refusedRecipes))
  }

  /** No capability is refused, and no version names a refused profile or recipe. */
  ghost predicate Clean(c: Config, capabilityIds: seq<string>, versions: Versions) {
    && (forall id | id in capabilityIds :: id !in c.refusedCapabilities)
    && (forall key, base, profile | key in versions :: !NamesRefused(c, key, versions[key], base, profile))
  }

  lemma RefusedVersionNames(c: Config, key: string, value: string)
    ensures RefusedVersion(c, key, value) <==> exists base, profile :: NamesRefused(c, key, value, base, profile)
  {
    var (base, profile) := Partition(key, '@');
    PartitionSplits(key);
    assert RefusedVersion(c, key, value) <==> NamesRefused(c, key, value, base, profile);
    forall b, p | NamesRefused(c, key, value, b, p) ensures b == base && p == profile {
      SplitIsPartition(key, b, p);
    }
  }

  /** `_unqualified_reason` gives no reason exactly for what names nothing refused. */
  lemma QualifiedIsClean(c: Config, capabilityIds: seq<string>, versions: Versions)
    ensures !Unqualified(c, capabilityIds, versions) <==> Clean(c, capabilityIds, versions)
  {
    forall key | key in versions
      ensures RefusedVersion(c, key, versions[key]) <==> exists base, profile :: NamesRefused(c, key, versions[key], base, profile)
    {
      RefusedVersionNames(c, key, versions[key]);
    }
  }

  /** The bounds every stored job keeps. */
  predicate WithinBounds(job: JobSubmission) {
    && 1 <= |job.jobId| <= 255 && 1 <= |job.idempotencyKey| <= 255
    && (job.tenantId.Some? ==> 1 <= |job.tenantId.value| <= 255)
    && 1 <= |job.outputKey| <= 1024 && |job.inputKeys| <= 16
    && (forall key | key in job.inputKeys :: 1 <= |key| <= 1024)
    && (forall i, k | 0 <= i < k < |job.inputKeys| :: job.inputKeys[i] != job.inputKeys[k])
    && 1 <= job.contractVersion && 0 <= job.priority <= 1000 && 1 <= job.attemptBudget <= 20
    && 60 <= job.executionDeadlineSeconds <= 7200
  }

  lemma ValidIsWithinBounds(c: Config, job: JobSubmission)
    ensures ValidSubmission(c, job) <==> WithinBounds(job) && c.wellFormed(job)
  {
    if WithinBounds(job) {
      forall i | 0 <= i < |job.inputKeys| ensures 1 <= |job.inputKeys[i]| <= 1024 {
        assert job.inputKeys[i] in job.inputKeys;
      }
    }
  }

  /** `submit` stores a new job exactly when it is within bounds, names nothing refused and comes under a
   *  new idempotency key; otherwise it changes nothing. */
  lemma SubmitStoresExactly(c: Config, s: State, job: JobSubmission)
    requires s.jobs.Valid() && job.jobId !in s.jobs.records
    ensures var stored := SubmitStep(c, s, job).jobs.records;
            if && WithinBounds(job) && c.wellFormed(job)
               && Clean(c, [job.capabilityId], job.requirements.runtimeVersions)
               && (forall k | k in s.jobs.records :: s.jobs.records[k].job.idempotencyKey != job.idempotencyKey)
            then && job.jobId in stored && stored == s.jobs.records[job.jobId := stored[job.jobId]]
                 && stored[job.jobId].job == job && stored[job.jobId].digest == c.requestDigest(job)
                 && stored[job.jobId].status.Queued? && stored[job.jobId].attempts == 0
            else SubmitStep(c, s, job) == s
  {
    QualifiedIsClean(c, [job.capabilityId], job.requirements.runtimeVersions);
    ValidIsWithinBounds(c, job);
    NewKeyIsCreated(s.jobs, job);
  }

  lemma NewKeyIsCreated(jobs: Store.Jobs, job: JobSubmission)
    requires jobs.Valid()
    ensures Store.SubmitOutcomeOf(jobs, job).Created? <==>
      forall k | k in jobs.records :: jobs.records[k].job.idempotencyKey != job.idempotencyKey
  {
    if Store.SubmitOutcomeOf(jobs, job).Created? {
      forall k | k in jobs.records ensures jobs.records[k].job.idempotencyKey != job.idempotencyKey {
        assert k in jobs.order;
      }
    }
  }

  // ----- who may call

  /** An identity is approved for a tenant exactly when it is registered under its own subject, not
   *  revoked, for that tenant; or not registered at all and enrolled under its own subject for it. */
  lemma ApprovedExactly(c: Config, w: Workers, identity: WorkerIdentity, tenant: Option<string>)
    ensures ApprovedTenant(c, w, identity) == Some(tenant) <==>
      || (&& identity.workerId in w && w[identity.workerId].identitySubject == identity.subject
          && w[identity.workerId].status != Revoked && w[identity.workerId].tenantId == tenant)
      || (&& identity.workerId !in w && identity.workerId in c.enrollments
          && c.enrollments[identity.workerId] == WorkerEnrollment(identity.subject, tenant))
  {
  }

  /** The caller may not go on: it is revoked, bound to another subject, or neither registered nor
   *  enrolled under its own. */
  predicate Barred(c: Config, w: Workers, identity: WorkerIdentity) {
    if identity.workerId in w
    then w[identity.workerId].status == Revoked || w[identity.workerId].identitySubject != identity.subject
    else identity.workerId !in c.enrollments || c.enrollments[identity.workerId].identitySubject != identity.subject
  }

  predicate FirstStage(call: Call) {
    match call
    case JobCall(_, _, _, _, stage) => stage == Entering
    case LeaseCall(_, _, _, stage) => stage == LeaseEntering
    case RegisterCall(_, _, upserting) => !upserting
    case EnrollCall(_, _, _) => false
  }

  /** A barred caller's call ends at its first step, with nothing changed. */
  lemma BarredCallEnds(c: Config, s: State, k: nat, token: Token)
    requires s.jobs.Listed() && Enabled(s, Advance(k, token)) && FirstStage(s.calls[k])
    requires Barred(c, s.workers, s.calls[k].identity)
    ensures Apply(c, s, Advance(k, token)) == s.(calls := s.calls - {k})
  {
  }

  /** A registration goes on to its upsert exactly when it is the caller's own, for the caller's approved
   *  tenant, and names nothing refused. */
  lemma RegistrationProceedsExactly(c: Config, s: State, call: Call)
    requires call.RegisterCall?
    ensures NextRegisterCall(c, s, call) ==
      if && call.registration.workerId == call.identity.workerId
         && ApprovedTenant(c, s.workers, call.identity) == Some(call.registration.tenantId)
         && Clean(c, call.registration.capabilityIds, call.registration.runtimeVersions)
      then Some(RegisterCall(call.identity, call.registration, true)) else None
  {
    QualifiedIsClean(c, call.registration.capabilityIds, call.registration.runtimeVersions);
  }

  /** An approved lease call goes on exactly when its worker is registered, not draining, runs nothing
   *  refused, and registered some requested capability that is not refused. */
  lemma LeaseProceedsExactly(c: Config, s: State, call: Call)
    requires call.LeaseCall? && call.leaseStage == LeaseApproved
    ensures var id, next := call.identity.workerId, NextLeaseCall(c, s, call);
            && (next.Some? <==>
                  && id in s.workers && s.workers[id].status != Draining
                  && Clean(c, [], s.workers[id].runtimeVersions)
                  && exists cap | cap in call.capabilityIds :: cap in s.workers[id].capabilityIds && cap !in c.refusedCapabilities)
            && (next.Some? ==>
                  && next.value == call.(leaseStage := next.value.leaseStage)
                  && next.value.leaseStage.Expiring? && next.value.leaseStage.worker == s.workers[id]
                  && forall cap :: cap in next.value.leaseStage.effective <==>
                       cap in call.capabilityIds && cap in s.workers[id].capabilityIds && cap !in c.refusedCapabilities)
  {
    if call.identity.workerId in s.workers {
      var worker := s.workers[call.identity.workerId];
      QualifiedIsClean(c, [], worker.runtimeVersions);
      var effective := Effective(c, worker, call.capabilityIds);
      assert effective != [] ==> effective[0] in effective;
    }
  }
}
