/** The order in which repeated leases hand out the queue. */
module Queue {
  import opened Contracts
  import opened JobStore

  /** `a` was inserted before `b`. */
  ghost predicate Precedes(order: seq<string>, a: string, b: string) {
    exists p, q | 0 <= p < q < |order| :: order[p] == a && order[q] == b
  }

  /** `a` is served before `b`: by priority, then creation time, then insertion. */
  ghost predicate ServedBefore(jobs: Jobs, a: string, b: string)
    requires a in jobs.records && b in jobs.records
  {
    var x, y := jobs.records[a], jobs.records[b];
    || x.job.priority < y.job.priority
    || (x.job.priority == y.job.priority && x.createdAt < y.createdAt)
    || (x.job.priority == y.job.priority && x.createdAt == y.createdAt && Precedes(jobs.order, a, b))
  }

  lemma HeadPrecedes(ids: seq<string>, b: string)
    requires ids != [] && b in ids[1..]
    ensures Precedes(ids, ids[0], b)
  {
    var q :| 0 <= q < |ids[1..]| && ids[1..][q] == b;
    assert ids[q + 1] == b;
  }

  lemma TailPrecedes(ids: seq<string>, a: string, b: string)
    requires ids != [] && Precedes(ids[1..], a, b)
    ensures Precedes(ids, a, b)
  {
    var p, q :| 0 <= p < q < |ids[1..]| && ids[1..][p] == a && ids[1..][q] == b;
    assert ids[p + 1] == a && ids[q + 1] == b;
  }

  lemma {:induction false} CandidatesKeepOrder(jobs: Jobs, ids: seq<string>, q: WorkerQuery, now: int, i: nat, k: nat)
    requires forall j | 0 <= j < |ids| :: ids[j] in jobs.records
    requires i < k < |Candidates(jobs, ids, q, now)|
    ensures Precedes(ids, Candidates(jobs, ids, q, now)[i], Candidates(jobs, ids, q, now)[k])
  {
    var rest, c := Candidates(jobs, ids[1..], q, now), Candidates(jobs, ids, q, now);
    if Claimable(jobs.records[ids[0]], q, now) {
      assert c == [ids[0]] + rest;
      if i == 0 {
        CandidatesExactly(jobs, ids[1..], q, now, rest[k - 1]);
        HeadPrecedes(ids, rest[k - 1]);
      } else {
        CandidatesKeepOrder(jobs, ids[1..], q, now, i - 1, k - 1);
        TailPrecedes(ids, rest[i - 1], rest[k - 1]);
      }
    } else {
      assert c == rest;
      CandidatesKeepOrder(jobs, ids[1..], q, now, i, k);
      TailPrecedes(ids, rest[i], rest[k]);
    }
  }

  /** Of the elements that share the least key, `FirstLeast` is the first. */
  lemma {:induction false} FirstLeastIsFirst(jobs: Jobs, ids: seq<string>, k: nat) returns (i: nat)
    requires forall j | 0 <= j < |ids| :: ids[j] in jobs.records
    requires k < |ids| && KeyLE(jobs.records[ids[k]], jobs.records[FirstLeast(jobs, ids)])
    ensures i <= k && ids[i] == FirstLeast(jobs, ids)
  {
    if k == 0 || FirstLeast(jobs, ids) == ids[0] {
      i := 0;
    } else {
      var p := FirstLeastIsFirst(jobs, ids[1..], k - 1);
      i := p + 1;
    }
  }

  /** The chosen job is served before every other claimable one. */
  lemma ChosenIsServedFirst(jobs: Jobs, q: WorkerQuery, now: int, id: string)
    requires jobs.Valid() && id in jobs.records && Claimable(jobs.records[id], q, now)
    ensures Choose(jobs, q, now).Some?
    ensures id == Choose(jobs, q, now).value || ServedBefore(jobs, Choose(jobs, q, now).value, id)
  {
    var c := Candidates(jobs, jobs.order, q, now);
    CandidatesExactly(jobs, jobs.order, q, now, id);
    assert id in jobs.order;
    var k :| 0 <= k < |c| && c[k] == id;
    var first := FirstLeast(jobs, c);
    FirstLeastIsLeast(jobs, c, k);
    if KeyLE(jobs.records[id], jobs.records[first]) && id != first {
      var i := FirstLeastIsFirst(jobs, c, k);
      CandidatesKeepOrder(jobs, jobs.order, q, now, i, k);
    }
  }

  function ClaimableIds(jobs: Jobs, q: WorkerQuery, now: int): set<string> {
    set id | id in jobs.records && Claimable(jobs.records[id], q, now)
  }

  lemma LeasedIsNotClaimable(r: JobRecord, worker: string, token: Token, seconds: int, q: WorkerQuery, now: int)
    requires seconds >= 0
    ensures !Claimable(LeasedRecord(r, worker, token, seconds, now), q, now)
  {
  }

  lemma PutTakesOne(jobs: Jobs, q: WorkerQuery, now: int, id: string, r: JobRecord)
    requires id in jobs.records && !Claimable(r, q, now)
    ensures ClaimableIds(jobs.Put(id, r), q, now) == ClaimableIds(jobs, q, now) - {id}
  {
  }

  /** With a lease that is not already over, the leased job and only it stops being claimable. */
  lemma LeaseTakesOne(jobs: Jobs, q: WorkerQuery, seconds: int, token: Token, now: int)
    requires jobs.Valid() && seconds >= 0 && Choose(jobs, q, now).Some?
    ensures Lease(jobs, q, seconds, token, now).Valid()
    ensures ClaimableIds(Lease(jobs, q, seconds, token, now), q, now) == ClaimableIds(jobs, q, now) - {Choose(jobs, q, now).value}
    ensures Choose(jobs, q, now).value in ClaimableIds(jobs, q, now)
  {
    var id := Choose(jobs, q, now).value;
    LeaseKeepsValid(jobs, q, seconds, token, now);
    ChoiceIsClaimable(jobs, q, now);
    LeasedIsNotClaimable(jobs.records[id], q.workerId, token, seconds, q, now);
    PutTakesOne(jobs, q, now, id, LeasedRecord(jobs.records[id], q.workerId, token, seconds, now));
  }

  /** The jobs one worker is handed by leasing, at one clock reading, until nothing is left. */
  ghost function Drain(jobs: Jobs, q: WorkerQuery, seconds: int, token: Token, now: int): seq<string>
    requires jobs.Valid() && seconds >= 0
    decreases |ClaimableIds(jobs, q, now)|
  {
    var choice := Choose(jobs, q, now);
    if choice.None? then []
    else
      LeaseTakesOne(jobs, q, seconds, token, now);
      [choice.value] + Drain(Lease(jobs, q, seconds, token, now), q, seconds, token + 1, now)
  }

  /** Every claimable job is handed out, and nothing else. */
  lemma {:induction false} DrainServesAll(jobs: Jobs, q: WorkerQuery, seconds: int, token: Token, now: int, id: string)
    requires jobs.Valid() && seconds >= 0
    ensures id in Drain(jobs, q, seconds, token, now) <==> id in ClaimableIds(jobs, q, now)
    decreases |ClaimableIds(jobs, q, now)|
  {
    var choice := Choose(jobs, q, now);
    if choice.Some? {
      LeaseTakesOne(jobs, q, seconds, token, now);
      DrainServesAll(Lease(jobs, q, seconds, token, now), q, seconds, token + 1, now, id);
    } else {
      ChoiceIsLeastClaimable(jobs, q, now);
    }
  }

  lemma ServedBeforeKept(jobs: Jobs, after: Jobs, a: string, b: string)
    requires a in jobs.records && b in jobs.records && a in after.records && b in after.records
    requires after.records[a] == jobs.records[a] && after.records[b] == jobs.records[b] && after.order == jobs.order
    requires ServedBefore(after, a, b)
    ensures ServedBefore(jobs, a, b)
  {
  }

  /** Two different jobs, the first to be served before the second. */
  ghost predicate InServiceOrder(jobs: Jobs, a: string, b: string) {
    a != b && a in jobs.records && b in jobs.records && ServedBefore(jobs, a, b)
  }

  ghost predicate AllInServiceOrder(jobs: Jobs, ids: seq<string>) {
    forall i, k | 0 <= i < k < |ids| :: InServiceOrder(jobs, ids[i], ids[k])
  }

  lemma PrependInOrder(jobs: Jobs, first: string, rest: seq<string>)
    requires AllInServiceOrder(jobs, rest) && forall k | 0 <= k < |rest| :: InServiceOrder(jobs, first, rest[k])
    ensures AllInServiceOrder(jobs, [first] + rest)
  {
    var ids := [first] + rest;
    forall i, k | 0 <= i < k < |ids| ensures InServiceOrder(jobs, ids[i], ids[k]) {
      assert ids[k] == rest[k - 1];
    }
  }

  /** Each job is handed out once, and each before all those it is to be served before. */
  lemma {:induction false} DrainIsOrdered(jobs: Jobs, q: WorkerQuery, seconds: int, token: Token, now: int)
    requires jobs.Valid() && seconds >= 0
    ensures AllInServiceOrder(jobs, Drain(jobs, q, seconds, token, now))
    decreases |ClaimableIds(jobs, q, now)|
  {
    if Choose(jobs, q, now).Some? {
      LeaseTakesOne(jobs, q, seconds, token, now);
      var after := Lease(jobs, q, seconds, token, now);
      DrainIsOrdered(after, q, seconds, token + 1, now);
      RestIsOrdered(jobs, q, seconds, token, now);
    }
  }

  lemma RestIsOrdered(jobs: Jobs, q: WorkerQuery, seconds: int, token: Token, now: int)
    requires jobs.Valid() && seconds >= 0 && Choose(jobs, q, now).Some?
    requires Lease(jobs, q, seconds, token, now).Valid()
    requires AllInServiceOrder(Lease(jobs, q, seconds, token, now), Drain(Lease(jobs, q, seconds, token, now), q, seconds, token + 1, now))
    ensures AllInServiceOrder(jobs, [Choose(jobs, q, now).value] + Drain(Lease(jobs, q, seconds, token, now), q, seconds, token + 1, now))
  {
    var after, first := Lease(jobs, q, seconds, token, now), Choose(jobs, q, now).value;
    var rest := Drain(after, q, seconds, token + 1, now);
    forall k | 0 <= k < |rest| ensures InServiceOrder(jobs, first, rest[k]) {
      FirstIsInOrder(jobs, q, seconds, token, now, rest[k]);
    }
    forall i, k | 0 <= i < k < |rest| ensures InServiceOrder(jobs, rest[i], rest[k]) {
      LaterAreInOrder(jobs, q, seconds, token, now, after, rest[i], rest[k]);
    }
    PrependInOrder(jobs, first, rest);
  }

  lemma FirstIsInOrder(jobs: Jobs, q: WorkerQuery, seconds: int, token: Token, now: int, id: string)
    requires jobs.Valid() && seconds >= 0 && Choose(jobs, q, now).Some?
    requires Lease(jobs, q, seconds, token, now).Valid()
    requires id in Drain(Lease(jobs, q, seconds, token, now), q, seconds, token + 1, now)
    ensures InServiceOrder(jobs, Choose(jobs, q, now).value, id)
  {
    LeftAlone(jobs, q, seconds, token, now, Lease(jobs, q, seconds, token, now), id);
    ChosenIsServedFirst(jobs, q, now, id);
  }

  lemma LaterAreInOrder(jobs: Jobs, q: WorkerQuery, seconds: int, token: Token, now: int, after: Jobs, a: string, b: string)
    requires jobs.Valid() && seconds >= 0 && Choose(jobs, q, now).Some?
    requires after == Lease(jobs, q, seconds, token, now) && after.Valid()
    requires a in Drain(after, q, seconds, token + 1, now)
    requires b in Drain(after, q, seconds, token + 1, now)
    requires InServiceOrder(after, a, b)
    ensures InServiceOrder(jobs, a, b)
  {
    LeftAlone(jobs, q, seconds, token, now, after, a);
    LeftAlone(jobs, q, seconds, token, now, after, b);
    ServedBeforeKept(jobs, after, a, b);
  }

  /** A job handed out later is still claimable, and untouched, before the first one is leased. */
  lemma LeftAlone(jobs: Jobs, q: WorkerQuery, seconds: int, token: Token, now: int, after: Jobs, id: string)
    requires jobs.Valid() && seconds >= 0 && Choose(jobs, q, now).Some?
    requires after == Lease(jobs, q, seconds, token, now) && after.Valid()
    requires id in Drain(after, q, seconds, token + 1, now)
    ensures && id != Choose(jobs, q, now).value
            && id in jobs.records && id in after.records && after.records[id] == jobs.records[id]
            && Claimable(jobs.records[id], q, now) && after.order == jobs.order
  {
    LeaseTakesOne(jobs, q, seconds, token, now);
    DrainServesAll(after, q, seconds, token + 1, now, id);
  }
}
