/** The job store (memory.py): an insertion-ordered dict of records, and the class that updates it.
 *
 * Every operation is a function on `Jobs` values, which the coordinator's step relation also uses;
 * each method of `MemoryJobStore` is proved to make exactly that change to the object it updates.
 */
module JobStore {
  import opened Json
  import opened Contracts
  import opened Requirements

  /** A Python dict: its keys in insertion order and its entries. */
  datatype Jobs = Jobs(order: seq<string>, records: map<string, JobRecord>) {
    ghost predicate Valid() {
      && (forall i, k | 0 <= i < k < |order| :: order[i] != order[k])
      && (forall id :: id in order <==> id in records)
      && (forall id | id in records :: records[id].job.jobId == id)
      && (forall a, b | a in records && b in records && records[a].job.idempotencyKey == records[b].job.idempotencyKey :: a == b)
    }

    /** Every listed key has an entry. */
    ghost predicate Listed() {
      forall i | 0 <= i < |order| :: order[i] in records
    }

    /** `self.records[id] = record`: a new key goes last, an old one keeps its place. */
    function Put(id: string, record: JobRecord): Jobs {
      Jobs(if id in records then order else order + [id], records[id := record])
    }
  }

  const EMPTY: Jobs := Jobs([], map[])

  // ----- submission

  /** `_replays`: every field of the request except its two identifiers. */
  predicate Replays(r: JobRecord, s: JobSubmission) {
    && r.job.capabilityId == s.capabilityId
    && r.job.contractVersion == s.contractVersion
    && r.job.inputKeys == s.inputKeys
    && r.job.outputKey == s.outputKey
    && PyEqFields(r.job.payload, s.payload)
    && r.job.tenantId == s.tenantId
    && r.job.requirements == s.requirements
    && r.job.priority == s.priority
    && r.job.attemptBudget == s.attemptBudget
    && r.job.executionDeadlineSeconds == s.executionDeadlineSeconds
  }

  function NewRecord(s: JobSubmission, digest: string, now: int): JobRecord {
    JobRecord(s, digest, Queued, 0, now, now, None, None, None, None, None, None, None, None, None, None, None, false, None, None)
  }

  /** The first record, in insertion order, that carries the idempotency key. */
  function FindKey(jobs: Jobs, ids: seq<string>, key: string): (r: Option<string>)
    requires forall i | 0 <= i < |ids| :: ids[i] in jobs.records
    ensures r.Some? ==> r.value in ids && jobs.records[r.value].job.idempotencyKey == key
    ensures r.None? ==> forall i | 0 <= i < |ids| :: jobs.records[ids[i]].job.idempotencyKey != key
  {
    if ids == [] then None
    else if jobs.records[ids[0]].job.idempotencyKey == key then Some(ids[0])
    else FindKey(jobs, ids[1..], key)
  }

  datatype SubmitOutcome = Created | Replayed(jobId: string) | Conflict

  function SubmitOutcomeOf(jobs: Jobs, s: JobSubmission): SubmitOutcome
    requires jobs.Listed()
  {
    var found := FindKey(jobs, jobs.order, s.idempotencyKey);
    if found.None? then Created
    else if Replays(jobs.records[found.value], s) then Replayed(found.value)
    else Conflict
  }

  function Submit(jobs: Jobs, s: JobSubmission, digest: string, now: int): Jobs
    requires jobs.Listed()
  {
    if SubmitOutcomeOf(jobs, s).Created? then jobs.Put(s.jobId, NewRecord(s, digest, now)) else jobs
  }

  // ----- transitions of one record

  /** `_settled`: the lease is dropped, nothing else. */
  function Settled(r: JobRecord, now: int): JobRecord {
    r.(claimToken := None, leasedBy := None, leaseUntil := None, updatedAt := now)
  }

  function CancelledRecord(r: JobRecord, now: int): JobRecord {
    Settled(r, now).(status := Cancelled, cancelledAt := Some(now))
  }

  function LeasedRecord(r: JobRecord, workerId: string, token: Token, seconds: int, now: int): JobRecord {
    r.(status := Processing, attempts := r.attempts + 1, claimToken := Some(token),
       leasedBy := Some(workerId), leaseUntil := Some(now + seconds), updatedAt := now)
  }

  function RenewedRecord(r: JobRecord, seconds: int, progress: Option<int>, now: int): JobRecord {
    r.(leaseUntil := Some(now + seconds), progressPercent := if progress.None? then r.progressPercent else progress,
       updatedAt := now)
  }

  function CompletedRecord(r: JobRecord, contentType: string, sha256: string, byteLength: int,
                           metadata: ExecutionMetadata, now: int): JobRecord {
    Settled(r, now).(status := Completed, executedBy := r.leasedBy, executionMetadata := Some(metadata),
                     outputContentType := Some(contentType), outputSha256 := Some(sha256),
                     outputByteLength := Some(byteLength), error := None)
  }

  function FailedRecord(r: JobRecord, reason: Reason, code: FailureCode, message: Option<string>,
                        retryable: bool, now: int): JobRecord {
    Settled(r, now).(status := Failed, error := Some(reason), failureCode := Some(code),
                     failureMessage := message, retryable := retryable)
  }

  function ReleasedRecord(r: JobRecord, reason: Reason, now: int): JobRecord {
    Settled(r, now).(status := Queued, error := Some(reason))
  }

  function ExhaustedRecord(r: JobRecord, now: int): JobRecord {
    Settled(r, now).(status := Failed, error := Some(BudgetExhausted),
                     failureCode := Some(TemporaryFailure), retryable := true)
  }

  // ----- fenced updates

  /** `_leased`: the record a claim token still owns. The lease's expiry is not consulted. */
  predicate Owns(jobs: Jobs, id: string, token: Token) {
    id in jobs.records && jobs.records[id].status.Processing? && jobs.records[id].claimToken == Some(token)
  }

  predicate Cancellable(jobs: Jobs, id: string) {
    id in jobs.records && (jobs.records[id].status.Queued? || jobs.records[id].status.Processing?)
  }

  function Cancel(jobs: Jobs, id: string, now: int): Jobs {
    if Cancellable(jobs, id) then jobs.Put(id, CancelledRecord(jobs.records[id], now)) else jobs
  }

  function Heartbeat(jobs: Jobs, id: string, token: Token, seconds: int, progress: Option<int>, now: int): Jobs {
    if Owns(jobs, id, token) then jobs.Put(id, RenewedRecord(jobs.records[id], seconds, progress, now)) else jobs
  }

  function Complete(jobs: Jobs, id: string, token: Token, contentType: string, sha256: string, byteLength: int,
                    metadata: ExecutionMetadata, now: int): Jobs {
    if Owns(jobs, id, token)
    then jobs.Put(id, CompletedRecord(jobs.records[id], contentType, sha256, byteLength, metadata, now))
    else jobs
  }

  function Fail(jobs: Jobs, id: string, token: Token, reason: Reason, code: FailureCode, message: Option<string>,
                retryable: bool, now: int): Jobs {
    if Owns(jobs, id, token)
    then jobs.Put(id, FailedRecord(jobs.records[id], reason, code, message, retryable, now))
    else jobs
  }

  function Release(jobs: Jobs, id: string, token: Token, reason: Reason, now: int): Jobs {
    if Owns(jobs, id, token) then jobs.Put(id, ReleasedRecord(jobs.records[id], reason, now)) else jobs
  }

  // ----- leasing

  predicate Leasable(r: JobRecord, now: int) {
    r.status.Queued? || (r.status.Processing? && r.leaseUntil.Some? && r.leaseUntil.value < now)
  }

  /** The conditions a record meets to be a candidate for this worker. */
  predicate Claimable(r: JobRecord, q: WorkerQuery, now: int) {
    && r.job.capabilityId in q.capabilityIds
    && r.attempts < r.job.attemptBudget
    && r.job.tenantId == q.tenantId
    && Satisfies(r.job.requirements, q)
    && Leasable(r, now)
  }

  function Candidates(jobs: Jobs, ids: seq<string>, q: WorkerQuery, now: int): (r: seq<string>)
    requires forall i | 0 <= i < |ids| :: ids[i] in jobs.records
    ensures forall i | 0 <= i < |r| :: r[i] in jobs.records
  {
    if ids == [] then []
    else (if Claimable(jobs.records[ids[0]], q, now) then [ids[0]] else []) + Candidates(jobs, ids[1..], q, now)
  }

  /** `(priority, created_at)` compared as Python compares tuples. */
  predicate KeyLE(a: JobRecord, b: JobRecord) {
    a.job.priority < b.job.priority || (a.job.priority == b.job.priority && a.createdAt <= b.createdAt)
  }

  /** Python's `min` over a list: the first of the elements with the least key. */
  function FirstLeast(jobs: Jobs, ids: seq<string>): (r: string)
    requires ids != [] && forall i | 0 <= i < |ids| :: ids[i] in jobs.records
    ensures r in jobs.records
  {
    if |ids| == 1 then ids[0]
    else
      var rest := FirstLeast(jobs, ids[1..]);
      if KeyLE(jobs.records[ids[0]], jobs.records[rest]) then ids[0] else rest
  }

  /** The job a lease call would take, if any. */
  function Choose(jobs: Jobs, q: WorkerQuery, now: int): (r: Option<string>)
    requires jobs.Listed()
    ensures r.Some? ==> r.value in jobs.records
  {
    var candidates := Candidates(jobs, jobs.order, q, now);
    if candidates == [] then None else Some(FirstLeast(jobs, candidates))
  }

  function Lease(jobs: Jobs, q: WorkerQuery, seconds: int, token: Token, now: int): Jobs
    requires jobs.Listed()
  {
    var choice := Choose(jobs, q, now);
    if choice.None? then jobs
    else jobs.Put(choice.value, LeasedRecord(jobs.records[choice.value], q.workerId, token, seconds, now))
  }

  // ----- expiry

  predicate Exhausted(r: JobRecord, now: int) {
    && r.status.Processing?
    && r.leaseUntil.Some?
    && r.leaseUntil.value < now
    && r.attempts >= r.job.attemptBudget
  }

  function ExpireExhausted(jobs: Jobs, now: int): Jobs {
    Jobs(jobs.order, map id | id in jobs.records ::
        if Exhausted(jobs.records[id], now) then ExhaustedRecord(jobs.records[id], now) else jobs.records[id])
  }

  function ExhaustedCount(jobs: Jobs, ids: seq<string>, now: int): nat
    requires forall i | 0 <= i < |ids| :: ids[i] in jobs.records
  {
    if ids == [] then 0
    else ExhaustedCount(jobs, ids[..|ids| - 1], now) + (if Exhausted(jobs.records[ids[|ids| - 1]], now) then 1 else 0)
  }

  /** The records after the loop has visited the keys `ids`, deciding each from the snapshot. */
  function ExpiredOver(snapshot: map<string, JobRecord>, ids: seq<string>, now: int): map<string, JobRecord>
    requires forall i | 0 <= i < |ids| :: ids[i] in snapshot
  {
    if ids == [] then snapshot
    else
      var before, id := ExpiredOver(snapshot, ids[..|ids| - 1], now), ids[|ids| - 1];
      if Exhausted(snapshot[id], now) then before[id := ExhaustedRecord(snapshot[id], now)] else before
  }

  lemma {:induction false} ExpiredOverVisits(snapshot: map<string, JobRecord>, ids: seq<string>, now: int, id: string)
    requires forall i | 0 <= i < |ids| :: ids[i] in snapshot
    requires id in snapshot
    ensures ExpiredOver(snapshot, ids, now).Keys == snapshot.Keys
    ensures ExpiredOver(snapshot, ids, now)[id] ==
            if id in ids && Exhausted(snapshot[id], now) then ExhaustedRecord(snapshot[id], now) else snapshot[id]
  {
    if ids != [] {
      assert ids == ids[..|ids| - 1] + [ids[|ids| - 1]];
      ExpiredOverVisits(snapshot, ids[..|ids| - 1], now, id);
    }
  }

  /** One more key visited. */
  lemma ExpiredOverNext(jobs: Jobs, i: nat, now: int)
    requires jobs.Listed() && i < |jobs.order|
    ensures var id, done := jobs.order[i], ExpiredOver(jobs.records, jobs.order[..i], now);
            ExpiredOver(jobs.records, jobs.order[..i + 1], now) ==
              if Exhausted(jobs.records[id], now) then done[id := ExhaustedRecord(jobs.records[id], now)] else done
    ensures ExhaustedCount(jobs, jobs.order[..i + 1], now) ==
              ExhaustedCount(jobs, jobs.order[..i], now) + if Exhausted(jobs.records[jobs.order[i]], now) then 1 else 0
  {
    assert jobs.order[..i + 1][..i] == jobs.order[..i];
  }

  lemma ExpiredOverAll(jobs: Jobs, now: int)
    requires jobs.Valid()
    ensures ExpiredOver(jobs.records, jobs.order, now) == ExpireExhausted(jobs, now).records
  {
    forall id | id in jobs.records
      ensures ExpiredOver(jobs.records, jobs.order, now).Keys == jobs.records.Keys
      ensures ExpiredOver(jobs.records, jobs.order, now)[id] == ExpireExhausted(jobs, now).records[id]
    {
      ExpiredOverVisits(jobs.records, jobs.order, now, id);
    }
    if jobs.order == [] {
      assert jobs.records.Keys == {};
    } else {
      ExpiredOverVisits(jobs.records, jobs.order, now, jobs.order[0]);
    }
  }

  // ----- which job is chosen

  /** The candidates are exactly the listed jobs this worker may claim. */
  lemma {:induction false} CandidatesExactly(jobs: Jobs, ids: seq<string>, q: WorkerQuery, now: int, id: string)
    requires forall i | 0 <= i < |ids| :: ids[i] in jobs.records
    ensures id in Candidates(jobs, ids, q, now) <==> id in ids && Claimable(jobs.records[id], q, now)
  {
    if ids != [] {
      assert id in ids <==> id == ids[0] || id in ids[1..];
      CandidatesExactly(jobs, ids[1..], q, now, id);
    }
  }

  lemma {:induction false} FirstLeastIsLeast(jobs: Jobs, ids: seq<string>, k: nat)
    requires forall i | 0 <= i < |ids| :: ids[i] in jobs.records
    requires k < |ids|
    ensures FirstLeast(jobs, ids) in ids
    ensures KeyLE(jobs.records[FirstLeast(jobs, ids)], jobs.records[ids[k]])
  {
    if |ids| > 1 {
      assert ids == [ids[0]] + ids[1..];
      FirstLeastIsLeast(jobs, ids[1..], if k > 0 then k - 1 else 0);
    }
  }

  lemma ChoiceIsClaimable(jobs: Jobs, q: WorkerQuery, now: int)
    requires jobs.Listed() && Choose(jobs, q, now).Some?
    ensures Claimable(jobs.records[Choose(jobs, q, now).value], q, now)
  {
    var c := Candidates(jobs, jobs.order, q, now);
    FirstLeastIsLeast(jobs, c, 0);
    CandidatesExactly(jobs, jobs.order, q, now, FirstLeast(jobs, c));
  }

  /** A job is chosen exactly when some job is claimable, and then none has a smaller priority number, nor
   *  the same number and an earlier creation time. */
  lemma ChoiceIsLeastClaimable(jobs: Jobs, q: WorkerQuery, now: int)
    requires jobs.Valid()
    ensures Choose(jobs, q, now).Some? <==> exists id | id in jobs.records :: Claimable(jobs.records[id], q, now)
    ensures Choose(jobs, q, now).Some? ==> Claimable(jobs.records[Choose(jobs, q, now).value], q, now)
    ensures Choose(jobs, q, now).Some? ==> forall id | id in jobs.records && Claimable(jobs.records[id], q, now) ::
              var mine, other := jobs.records[Choose(jobs, q, now).value], jobs.records[id];
              || mine.job.priority < other.job.priority
              || (mine.job.priority == other.job.priority && mine.createdAt <= other.createdAt)
  {
    var c := Candidates(jobs, jobs.order, q, now);
    if c != [] {
      FirstLeastIsLeast(jobs, c, 0);
      CandidatesExactly(jobs, jobs.order, q, now, FirstLeast(jobs, c));
    }
    forall id | id in jobs.records && Claimable(jobs.records[id], q, now)
      ensures c != []
      ensures var mine, other := jobs.records[FirstLeast(jobs, c)], jobs.records[id];
              || mine.job.priority < other.job.priority
              || (mine.job.priority == other.job.priority && mine.createdAt <= other.createdAt)
    {
      assert id in jobs.order;
      CandidatesExactly(jobs, jobs.order, q, now, id);
      var k :| 0 <= k < |c| && c[k] == id;
      FirstLeastIsLeast(jobs, c, k);
    }
  }

  // ----- every operation keeps the dict well formed

  lemma PutKeepsValid(jobs: Jobs, id: string, r: JobRecord)
    requires jobs.Valid() && id in jobs.records && r.job == jobs.records[id].job
    ensures jobs.Put(id, r).Valid()
  {
  }

  lemma PutNewKeepsValid(jobs: Jobs, id: string, r: JobRecord)
    requires jobs.Valid() && id !in jobs.records && r.job.jobId == id
    requires forall k | k in jobs.records :: jobs.records[k].job.idempotencyKey != r.job.idempotencyKey
    ensures jobs.Put(id, r).Valid()
  {
  }

  lemma ExpireKeepsValid(jobs: Jobs, now: int)
    requires jobs.Valid()
    ensures ExpireExhausted(jobs, now).Valid()
  {
  }

  lemma LeaseKeepsValid(jobs: Jobs, q: WorkerQuery, seconds: int, token: Token, now: int)
    requires jobs.Valid()
    ensures Lease(jobs, q, seconds, token, now).Valid()
  {
    var choice := Choose(jobs, q, now);
    if choice.Some? {
      PutKeepsValid(jobs, choice.value, LeasedRecord(jobs.records[choice.value], q.workerId, token, seconds, now));
    }
  }

  // ----- the store object

  /** At most the record `id` differs; a record that was there still is. */
  predicate OnlyChanges(before: map<string, JobRecord>, after: map<string, JobRecord>, id: string) {
    before.Keys <= after.Keys && forall k | k in after && k != id :: k in before && after[k] == before[k]
  }

  /** A lease that has run out, of a job with no attempt left. */
  predicate OverAndSpent(r: JobRecord, now: int) {
    r.status.Processing? && r.leaseUntil.Some? && r.leaseUntil.value < now && r.attempts >= r.job.attemptBudget
  }

  /** The exhausted jobs among the listed ones. */
  function ExhaustedIds(jobs: Jobs, ids: seq<string>, now: int): set<string>
    requires forall i | 0 <= i < |ids| :: ids[i] in jobs.records
  {
    set id | id in ids && Exhausted(jobs.records[id], now)
  }

  lemma {:induction false} ExhaustedCountIs(jobs: Jobs, ids: seq<string>, now: int)
    requires forall i | 0 <= i < |ids| :: ids[i] in jobs.records
    requires forall i, k | 0 <= i < k < |ids| :: ids[i] != ids[k]
    ensures ExhaustedCount(jobs, ids, now) == |ExhaustedIds(jobs, ids, now)|
  {
    if ids != [] {
      var front, last := ids[..|ids| - 1], ids[|ids| - 1];
      assert ids == front + [last];
      ExhaustedCountIs(jobs, front, now);
      assert last !in front;
      assert ExhaustedIds(jobs, ids, now) ==
        if Exhausted(jobs.records[last], now) then ExhaustedIds(jobs, front, now) + {last} else ExhaustedIds(jobs, front, now);
    }
  }

  /** No listed record carries the key exactly when no record does. */
  lemma NewKeyExactly(jobs: Jobs, key: string)
    requires jobs.Valid()
    ensures FindKey(jobs, jobs.order, key).None? <==> forall k | k in jobs.records :: jobs.records[k].job.idempotencyKey != key
  {
    if FindKey(jobs, jobs.order, key).None? {
      forall k | k in jobs.records ensures jobs.records[k].job.idempotencyKey != key {
        assert k in jobs.order;
      }
    }
  }

  class MemoryJobStore {
    var order: seq<string>
    var records: map<string, JobRecord>

    function Value(): Jobs
      reads this
    {
      Jobs(order, records)
    }

    constructor ()
      ensures Value() == EMPTY && Value().Valid()
    {
      order := [];
      records := map[];
    }

    method Put(id: string, record: JobRecord)
      modifies this
      ensures Value() == old(Value()).Put(id, record)
    {
      if id !in records {
        order := order + [id];
      }
      records := records[id := record];
    }

    method SubmitJob(s: JobSubmission, digest: string, now: int) returns (outcome: SubmitOutcome)
      requires Value().Valid()
      modifies this
      ensures outcome == SubmitOutcomeOf(old(Value()), s)
      ensures Value() == Submit(old(Value()), s, digest, now)
      ensures outcome.Created? <==> forall k | k in old(records) :: old(records)[k].job.idempotencyKey != s.idempotencyKey
      ensures outcome.Created? ==>
                && (s.jobId !in old(records) ==> order == old(order) + [s.jobId])
                && records == old(records)[s.jobId :=
                     JobRecord(s, digest, Queued, 0, now, now, None, None, None, None, None, None, None, None, None,
                               None, None, false, None, None)]
      ensures outcome.Replayed? ==>
                && outcome.jobId in old(records) && old(records)[outcome.jobId].job.idempotencyKey == s.idempotencyKey
                && Replays(old(records)[outcome.jobId], s)
      ensures outcome.Conflict? ==>
                exists k | k in old(records) ::
                  old(records)[k].job.idempotencyKey == s.idempotencyKey && !Replays(old(records)[k], s)
      ensures !outcome.Created? ==> Value() == old(Value())
    {
      var found := FindRecord(s.idempotencyKey);
      NewKeyExactly(Value(), s.idempotencyKey);
      if found.Some? {
        return if Replays(records[found.value], s) then Replayed(found.value) else Conflict;
      }
      Put(s.jobId, NewRecord(s, digest, now));
      outcome := Created;
    }

    /** The loop of `submit`: the first record that carries the idempotency key. */
    method FindRecord(key: string) returns (found: Option<string>)
      requires Value().Listed()
      ensures found == FindKey(Value(), order, key)
    {
      for i := 0 to |order|
        invariant FindKey(Value(), order, key) == FindKey(Value(), order[i..], key)
      {
        assert order[i..][0] == order[i] && order[i..][1..] == order[i + 1..];
        if records[order[i]].job.idempotencyKey == key {
          return Some(order[i]);
        }
      }
      found := None;
    }

    method CancelJob(id: string, now: int) returns (changed: bool)
      modifies this
      ensures changed == Cancellable(old(Value()), id)
      ensures Value() == Cancel(old(Value()), id, now)
      ensures changed <==> id in old(records) && (old(records)[id].status.Queued? || old(records)[id].status.Processing?)
      ensures order == old(order) && OnlyChanges(old(records), records, id)
      ensures !changed ==> records == old(records)
      ensures changed ==> records[id] == old(records)[id].(
                claimToken := None, leasedBy := None, leaseUntil := None, updatedAt := now,
                status := Cancelled, cancelledAt := Some(now))
    {
      if id !in records || !(records[id].status.Queued? || records[id].status.Processing?) {
        return false;
      }
      Put(id, CancelledRecord(records[id], now));
      changed := true;
    }

    method LeaseJob(q: WorkerQuery, seconds: int, token: Token, now: int) returns (leased: Option<JobRecord>)
      requires Value().Valid()
      modifies this
      ensures Value() == Lease(old(Value()), q, seconds, token, now)
      ensures leased.Some? <==> Choose(old(Value()), q, now).Some?
      ensures leased.Some? ==>
                leased.value == LeasedRecord(old(records)[Choose(old(Value()), q, now).value], q.workerId, token, seconds, now)
      ensures leased.None? ==> records == old(records)
      ensures leased.Some? ==>
                var id := leased.value.job.jobId;
                && id in old(records) && Claimable(old(records)[id], q, now)
                && order == old(order) && OnlyChanges(old(records), records, id) && records[id] == leased.value
                && leased.value == old(records)[id].(
                     status := Processing, attempts := old(records)[id].attempts + 1, claimToken := Some(token),
                     leasedBy := Some(q.workerId), leaseUntil := Some(now + seconds), updatedAt := now)
                && forall k | k in old(records) && Claimable(old(records)[k], q, now) ::
                     || old(records)[id].job.priority < old(records)[k].job.priority
                     || (old(records)[id].job.priority == old(records)[k].job.priority
                         && old(records)[id].createdAt <= old(records)[k].createdAt)
      ensures leased.None? ==> forall k | k in old(records) :: !Claimable(old(records)[k], q, now)
    {
      ChoiceIsLeastClaimable(Value(), q, now);
      var candidates := Candidates(Value(), order, q, now);
      if candidates == [] {
        return None;
      }
      var id := FirstLeast(Value(), candidates);
      var record := LeasedRecord(records[id], q.workerId, token, seconds, now);
      Put(id, record);
      leased := Some(record);
    }

    method HeartbeatJob(id: string, token: Token, seconds: int, progress: Option<int>, now: int) returns (accepted: bool)
      modifies this
      ensures accepted == Owns(old(Value()), id, token)
      ensures Value() == Heartbeat(old(Value()), id, token, seconds, progress, now)
      ensures accepted <==> id in old(records) && old(records)[id].status.Processing? && old(records)[id].claimToken == Some(token)
      ensures order == old(order) && OnlyChanges(old(records), records, id)
      ensures !accepted ==> records == old(records)
      ensures accepted ==> records[id] == old(records)[id].(
                leaseUntil := Some(now + seconds), updatedAt := now,
                progressPercent := if progress.Some? then progress else old(records)[id].progressPercent)
    {
      accepted := Owns(Value(), id, token);
      if accepted {
        Put(id, RenewedRecord(records[id], seconds, progress, now));
      }
    }

    method CompleteJob(id: string, token: Token, contentType: string, sha256: string, byteLength: int,
                       metadata: ExecutionMetadata, now: int) returns (accepted: bool)
      modifies this
      ensures accepted == Owns(old(Value()), id, token)
      ensures Value() == Complete(old(Value()), id, token, contentType, sha256, byteLength, metadata, now)
      ensures accepted <==> id in old(records) && old(records)[id].status.Processing? && old(records)[id].claimToken == Some(token)
      ensures order == old(order) && OnlyChanges(old(records), records, id)
      ensures !accepted ==> records == old(records)
      ensures accepted ==> records[id] == old(records)[id].(
                claimToken := None, leasedBy := None, leaseUntil := None, updatedAt := now,
                status := Completed, error := None, executedBy := old(records)[id].leasedBy,
                executionMetadata := Some(metadata), outputContentType := Some(contentType),
                outputSha256 := Some(sha256), outputByteLength := Some(byteLength))
    {
      accepted := Owns(Value(), id, token);
      if accepted {
        Put(id, CompletedRecord(records[id], contentType, sha256, byteLength, metadata, now));
      }
    }

    method FailJob(id: string, token: Token, reason: Reason, code: FailureCode, message: Option<string>,
                   retryable: bool, now: int) returns (accepted: bool)
      modifies this
      ensures accepted == Owns(old(Value()), id, token)
      ensures Value() == Fail(old(Value()), id, token, reason, code, message, retryable, now)
      ensures accepted <==> id in old(records) && old(records)[id].status.Processing? && old(records)[id].claimToken == Some(token)
      ensures order == old(order) && OnlyChanges(old(records), records, id)
      ensures !accepted ==> records == old(records)
      ensures accepted ==> records[id] == old(records)[id].(
                claimToken := None, leasedBy := None, leaseUntil := None, updatedAt := now,
                status := Failed, error := Some(reason), failureCode := Some(code), failureMessage := message,
                retryable := retryable)
    {
      accepted := Owns(Value(), id, token);
      if accepted {
        Put(id, FailedRecord(records[id], reason, code, message, retryable, now));
      }
    }

    method ReleaseJob(id: string, token: Token, reason: Reason, now: int) returns (accepted: bool)
      modifies this
      ensures accepted == Owns(old(Value()), id, token)
      ensures Value() == Release(old(Value()), id, token, reason, now)
      ensures accepted <==> id in old(records) && old(records)[id].status.Processing? && old(records)[id].claimToken == Some(token)
      ensures order == old(order) && OnlyChanges(old(records), records, id)
      ensures !accepted ==> records == old(records)
      ensures accepted ==> records[id] == old(records)[id].(
                claimToken := None, leasedBy := None, leaseUntil := None, updatedAt := now,
                status := Queued, error := Some(reason))
    {
      accepted := Owns(Value(), id, token);
      if accepted {
        Put(id, ReleasedRecord(records[id], reason, now));
      }
    }

    method ExpireExhaustedJobs(now: int) returns (expired: nat)
      requires Value().Valid()
      modifies this
      ensures Value() == ExpireExhausted(old(Value()), now)
      ensures expired == ExhaustedCount(old(Value()), old(order), now)
      ensures order == old(order) && records.Keys == old(records).Keys
      ensures forall id | id in old(records) ::
                records[id] ==
                if OverAndSpent(old(records)[id], now)
                then old(records)[id].(
                  claimToken := None, leasedBy := None, leaseUntil := None, updatedAt := now, status := Failed,
                  error := Some(BudgetExhausted), failureCode := Some(TemporaryFailure), retryable := true)
                else old(records)[id]
      ensures expired == |set id | id in old(records) && OverAndSpent(old(records)[id], now)|
    {
      ghost var before := Value();
      expired := SweepRecords(now);
      ExpiredOverAll(before, now);
      ExhaustedCountIs(before, before.order, now);
      assert ExhaustedIds(before, before.order, now) == set id | id in before.records && OverAndSpent(before.records[id], now);
    }

    /** The loop of `expire_exhausted`, over the records as they were when it began. */
    method SweepRecords(now: int) returns (expired: nat)
      requires Value().Listed()
      modifies this
      ensures order == old(order) && records == ExpiredOver(old(records), order, now)
      ensures expired == ExhaustedCount(old(Value()), order, now)
    {
      ghost var before := Value();
      var snapshot := records;
      expired := 0;
      for i := 0 to |order|
        invariant order == before.order
        invariant records == ExpiredOver(snapshot, order[..i], now)
        invariant expired == ExhaustedCount(before, order[..i], now)
      {
        var id, record := order[i], snapshot[order[i]];
        ExpiredOverNext(before, i, now);
        if !(!record.status.Processing? || record.leaseUntil.None? || record.leaseUntil.value >= now
             || record.attempts < record.job.attemptBudget) {
          records := records[id := ExhaustedRecord(record, now)];
          expired := expired + 1;
        }
      }
      assert order[..|order|] == order;
    }
  }
}
