/** The worker registry and the asset store (memory.py). */
module Registry {
  import opened Json
  import opened Contracts

  type Workers = map<string, WorkerRecord>

  datatype RegistryError = IdentityMismatch | TenantMismatch | SubjectTaken

  /** Rows sit under their own id and no two workers share an identity subject. */
  ghost predicate ValidWorkers(w: Workers) {
    && (forall id | id in w :: w[id].workerId == id)
    && (forall a, b | a in w && b in w && w[a].identitySubject == w[b].identitySubject :: a == b)
  }

  predicate TakenByOther(w: Workers, workerId: string, subject: string) {
    exists id | id in w :: w[id].identitySubject == subject && w[id].workerId != workerId
  }

  /** Why an upsert is refused, in the order the checks run. */
  function UpsertError(w: Workers, r: WorkerRegistration, subject: string): Option<RegistryError> {
    if r.workerId in w && w[r.workerId].identitySubject != subject then Some(IdentityMismatch)
    else if r.workerId in w && w[r.workerId].tenantId != r.tenantId then Some(TenantMismatch)
    else if TakenByOther(w, r.workerId, subject) then Some(SubjectTaken)
    else None
  }

  function UpsertStatus(w: Workers, r: WorkerRegistration): WorkerStatus {
    if r.workerId in w && w[r.workerId].status.Revoked? then Revoked
    else if r.draining then Draining else Active
  }

  function UpsertRecord(w: Workers, r: WorkerRegistration, subject: string, now: int): WorkerRecord {
    var existing := r.workerId in w;
    WorkerRecord(r.workerId, subject, UpsertStatus(w, r), r.capabilityIds, r.gpuModel, r.vramMb, r.runtimeVersions,
                 r.labels, r.tenantId, if existing then w[r.workerId].createdAt else now, now, now,
                 if existing then w[r.workerId].revokedAt else None)
  }

  function Upsert(w: Workers, r: WorkerRegistration, subject: string, now: int): Workers {
    if UpsertError(w, r, subject).Some? then w else w[r.workerId := UpsertRecord(w, r, subject, now)]
  }

  function SetStatus(w: Workers, id: string, status: WorkerStatus, now: int): Workers {
    if id !in w then w
    else w[id := w[id].(status := status, updatedAt := now, revokedAt := if status.Revoked? then Some(now) else w[id].revokedAt)]
  }

  /** Every worker keeps the subject and tenant it was first stored with. */
  ghost predicate BindingsKept(before: Workers, after: Workers) {
    forall id | id in before ::
      id in after && after[id].identitySubject == before[id].identitySubject && after[id].tenantId == before[id].tenantId
  }

  /** A heartbeat or an enrolment never rebinds a worker, whatever it presents. */
  lemma UpsertKeepsBindings(w: Workers, r: WorkerRegistration, subject: string, now: int)
    requires ValidWorkers(w)
    ensures ValidWorkers(Upsert(w, r, subject, now))
    ensures BindingsKept(w, Upsert(w, r, subject, now))
  {
    if UpsertError(w, r, subject).None? {
      forall id | id in w && w[id].identitySubject == subject ensures id == r.workerId {
        assert w[id].workerId == id;
      }
    }
  }

  lemma SetStatusKeepsBindings(w: Workers, id: string, status: WorkerStatus, now: int)
    requires ValidWorkers(w)
    ensures ValidWorkers(SetStatus(w, id, status, now))
    ensures BindingsKept(w, SetStatus(w, id, status, now))
  {
  }

  class MemoryWorkerRegistry {
    var workers: Workers

    constructor ()
      ensures workers == map[]
    {
      workers := map[];
    }

    method UpsertWorker(r: WorkerRegistration, subject: string, now: int) returns (outcome: Result<WorkerRecord, RegistryError>)
      modifies this
      ensures workers == Upsert(old(workers), r, subject, now)
      ensures outcome == match UpsertError(old(workers), r, subject)
                         case Some(e) => Err(e)
                         case None => Ok(UpsertRecord(old(workers), r, subject, now))
      ensures outcome == Err(IdentityMismatch) <==>
                r.workerId in old(workers) && old(workers)[r.workerId].identitySubject != subject
      ensures outcome == Err(TenantMismatch) <==>
                && r.workerId in old(workers) && old(workers)[r.workerId].identitySubject == subject
                && old(workers)[r.workerId].tenantId != r.tenantId
      ensures outcome == Err(SubjectTaken) <==>
                && (r.workerId in old(workers) ==>
                      old(workers)[r.workerId].identitySubject == subject && old(workers)[r.workerId].tenantId == r.tenantId)
                && exists id | id in old(workers) ::
                     old(workers)[id].identitySubject == subject && old(workers)[id].workerId != r.workerId
      ensures outcome.Err? ==> workers == old(workers)
      ensures outcome.Ok? ==> workers == old(workers)[r.workerId := outcome.value]
      ensures outcome.Ok? ==>
                var known := r.workerId in old(workers);
                && outcome.value.workerId == r.workerId && outcome.value.identitySubject == subject
                && outcome.value.tenantId == r.tenantId && outcome.value.capabilityIds == r.capabilityIds
                && outcome.value.runtimeVersions == r.runtimeVersions && outcome.value.labels == r.labels
                && outcome.value.gpuModel == r.gpuModel && outcome.value.vramMb == r.vramMb
                && outcome.value.updatedAt == now && outcome.value.lastHeartbeatAt == now
                && (known && old(workers)[r.workerId].status.Revoked? ==> outcome.value.status == Revoked)
                && (!(known && old(workers)[r.workerId].status.Revoked?) ==>
                      outcome.value.status == if r.draining then Draining else Active)
                && outcome.value.createdAt == (if known then old(workers)[r.workerId].createdAt else now)
                && outcome.value.revokedAt == (if known then old(workers)[r.workerId].revokedAt else None)
    {
      var status := if r.draining then Draining else Active;
      var known := r.workerId in workers;
      if known && workers[r.workerId].identitySubject != subject {
        return Err(IdentityMismatch);
      }
      if known && workers[r.workerId].tenantId != r.tenantId {
        return Err(TenantMismatch);
      }
      if known && workers[r.workerId].status.Revoked? {
        status := Revoked;
      }
      var pending := workers.Keys;
      while pending != {}
        invariant workers == old(workers) && pending <= workers.Keys
        invariant forall id | id in workers && id !in pending ::
            !(workers[id].identitySubject == subject && workers[id].workerId != r.workerId)
      {
        var other :| other in pending;
        if workers[other].identitySubject == subject && workers[other].workerId != r.workerId {
          return Err(SubjectTaken);
        }
        pending := pending - {other};
      }
      var record := WorkerRecord(
        r.workerId, subject, status, r.capabilityIds, r.gpuModel, r.vramMb, r.runtimeVersions, r.labels, r.tenantId,
        if known then workers[r.workerId].createdAt else now, now, now,
        if known then workers[r.workerId].revokedAt else None);
      workers := workers[record.workerId := record];
      outcome := Ok(record);
    }

    method SetWorkerStatus(id: string, status: WorkerStatus, now: int) returns (changed: bool)
      modifies this
      ensures changed == (id in old(workers))
      ensures workers == SetStatus(old(workers), id, status, now)
      ensures !changed ==> workers == old(workers)
      ensures changed ==> workers == old(workers)[id := old(workers)[id].(
                status := status, updatedAt := now,
                revokedAt := if status == Revoked then Some(now) else old(workers)[id].revokedAt)]
    {
      if id !in workers {
        return false;
      }
      var record := workers[id];
      workers := workers[id := record.(status := status, updatedAt := now,
                                       revokedAt := if status.Revoked? then Some(now) else record.revokedAt)];
      changed := true;
    }
  }

  // ----- assets

  type Assets = map<string, Bytes>

  /** `write_once`: a key is created at most once and never replaced. */
  function WriteOnce(assets: Assets, key: string, content: Bytes): Assets {
    if key in assets then assets else assets[key := content]
  }

  /** Nothing stored is lost or changed. */
  ghost predicate AssetsKept(before: Assets, after: Assets) {
    forall key | key in before :: key in after && after[key] == before[key]
  }

  lemma WriteOnceKeeps(assets: Assets, key: string, content: Bytes)
    ensures AssetsKept(assets, WriteOnce(assets, key, content))
    ensures key in WriteOnce(assets, key, content)
  {
  }

  class MemoryAssetStore {
    var assets: Assets
    var contentTypes: map<string, string>
    var publishCount: nat

    constructor ()
      ensures assets == map[] && contentTypes == map[] && publishCount == 0
    {
      assets := map[];
      contentTypes := map[];
      publishCount := 0;
    }

    method Write(key: string, content: Bytes, contentType: string) returns (created: bool)
      modifies this
      ensures created == (key !in old(assets))
      ensures assets == WriteOnce(old(assets), key, content)
      ensures contentTypes == if created then old(contentTypes)[key := contentType] else old(contentTypes)
      ensures publishCount == old(publishCount) + if created then 1 else 0
      ensures created ==> assets == old(assets)[key := content]
      ensures !created ==> assets == old(assets)
    {
      if key in assets {
        return false;
      }
      assets := assets[key := content];
      contentTypes := contentTypes[key := contentType];
      publishCount := publishCount + 1;
      created := true;
    }
  }
}
