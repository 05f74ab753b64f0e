/** The typed values workers, hosts and the coordinator exchange (contracts.py). */
module Contracts {
  import opened Json

  /** Claim tokens are opaque and fresh; only their identity matters. */
  type Token = nat

  type Bytes = seq<bv8>

  datatype JobStatus = Queued | Processing | Completed | Failed | Cancelled

  datatype FailureCode = InvalidInput | UnsupportedOperation | ProviderUnavailable | TemporaryFailure

  datatype WorkerStatus = Active | Draining | Revoked

  const MAX_JOB_ID_LENGTH := 255
  const MAX_ASSET_KEY_LENGTH := 1024
  const MAX_JOB_INPUT_KEYS := 16
  const MIN_JOB_PRIORITY := 0
  const MAX_JOB_PRIORITY := 1000
  const MIN_JOB_ATTEMPT_BUDGET := 1
  const MAX_JOB_ATTEMPT_BUDGET := 20
  const MIN_EXECUTION_DEADLINE_SECONDS := 60
  const MAX_EXECUTION_DEADLINE_SECONDS := 7200

  /** Why a completion is refused; the names follow the coordinator's reason codes. */
  datatype Rejection =
    | ProfileNotQualified
    | RecipeConfigurationMismatch
    | EffectiveInputsMismatch
    | OutputKeyMismatch
    | IdempotencyKeyMismatch
    | RequestDigestMismatch
    | PublicationModeMismatch
    | OutputMissing
    | ByteLengthMismatch
    | OutputTooLarge
    | Sha256Mismatch

  /** The text of a record's `error` column. */
  datatype Reason = Given(text: string) | BudgetExhausted | Rejected(why: Rejection)

  datatype PublicationMode = ImmutableCreateOnce | OtherMode(mode: string)

  /** A job's constraints on the workers it may run on; an empty field constrains nothing. */
  datatype JobRequirements = JobRequirements(
    minVramMb: Option<int>,
    gpuModels: seq<string>,
    labels: seq<string>,
    workerIds: seq<string>,
    runtimeVersions: map<string, string>)

  datatype JobSubmission = JobSubmission(
    jobId: string,
    idempotencyKey: string,
    capabilityId: string,
    inputKeys: seq<string>,
    outputKey: string,
    contractVersion: int,
    payload: map<string, Json>,
    tenantId: Option<string>,
    requirements: JobRequirements,
    priority: int,
    attemptBudget: int,
    executionDeadlineSeconds: int)

  /** What a completion records about the execution. */
  datatype ExecutionMetadata = ExecutionMetadata(
    modelId: string,
    modelVersion: string,
    pluginId: string,
    pluginVersion: string,
    seed: Option<int>,
    diagnostics: map<string, Json>)

  /** One durable row. The columns a job keeps for life are nested in `job` and `digest`. */
  datatype JobRecord = JobRecord(
    job: JobSubmission,
    digest: string,
    status: JobStatus,
    attempts: nat,
    createdAt: int,
    updatedAt: int,
    claimToken: Option<Token>,
    leasedBy: Option<string>,
    leaseUntil: Option<int>,
    executedBy: Option<string>,
    executionMetadata: Option<ExecutionMetadata>,
    outputContentType: Option<string>,
    outputSha256: Option<string>,
    outputByteLength: Option<int>,
    error: Option<Reason>,
    failureCode: Option<FailureCode>,
    failureMessage: Option<string>,
    retryable: bool,
    progressPercent: Option<int>,
    cancelledAt: Option<int>)
  {
    predicate Terminal() {
      status.Completed? || status.Failed? || status.Cancelled?
    }
  }

  /** What one worker offers when it asks for work. */
  datatype WorkerQuery = WorkerQuery(
    workerId: string,
    capabilityIds: seq<string>,
    tenantId: Option<string>,
    vramMb: Option<int>,
    gpuModel: Option<string>,
    labels: seq<string>,
    runtimeVersions: map<string, string>)

  /** The authenticated principal behind one request. */
  datatype WorkerIdentity = WorkerIdentity(workerId: string, subject: string)

  datatype WorkerRegistration = WorkerRegistration(
    workerId: string,
    capabilityIds: seq<string>,
    tenantId: Option<string>,
    gpuModel: Option<string>,
    vramMb: Option<int>,
    runtimeVersions: map<string, string>,
    labels: seq<string>,
    draining: bool)

  datatype WorkerRecord = WorkerRecord(
    workerId: string,
    identitySubject: string,
    status: WorkerStatus,
    capabilityIds: seq<string>,
    gpuModel: Option<string>,
    vramMb: Option<int>,
    runtimeVersions: map<string, string>,
    labels: seq<string>,
    tenantId: Option<string>,
    createdAt: int,
    updatedAt: int,
    lastHeartbeatAt: int,
    revokedAt: Option<int>)

  /** An operator-approved identity and tenant for one worker id. */
  datatype WorkerEnrollment = WorkerEnrollment(identitySubject: string, tenantId: Option<string>)

  /** Everything a worker receives for one leased job, asset URLs aside. */
  datatype LeaseGrant = LeaseGrant(
    jobId: string,
    claimToken: Token,
    capabilityId: string,
    contractVersion: int,
    requestDigest: string,
    idempotencyKey: string,
    inputKeys: seq<string>,
    outputKey: string,
    payload: map<string, Json>,
    tenantId: Option<string>)

  /** The claims that come with a finished output. */
  datatype OutputManifest = OutputManifest(
    outputKey: string,
    contentType: string,
    byteLength: int,
    sha256: string,
    idempotencyKey: string,
    requestDigest: string,
    pluginId: string,
    pluginVersion: string,
    modelId: string,
    modelVersion: string,
    publicationMode: PublicationMode,
    seed: Option<int>,
    diagnostics: map<string, Json>)

  /** `str.lower()` on the ASCII letters. */
  function Lower(s: string): (r: string)
    ensures |r| == |s|
  {
    seq(|s|, i requires 0 <= i < |s| =>
      if 'A' <= s[i] <= 'Z' then ((s[i] as int) + 32) as char else s[i])
  }

  const UPPER := "ABCDEFGHIJKLMNOPQRSTUVWXYZ"
  const LOWER := "abcdefghijklmnopqrstuvwxyz"

  /** Letter for letter the upper-case alphabet becomes the lower-case one, and nothing else changes. */
  lemma LowerIsAlphabetical(s: string, i: nat)
    requires i < |s|
    ensures forall k | 0 <= k < 26 && s[i] == UPPER[k] :: Lower(s)[i] == LOWER[k]
    ensures s[i] !in UPPER ==> Lower(s)[i] == s[i]
  {
    if 'A' <= s[i] <= 'Z' {
      assert UPPER[s[i] as int - 'A' as int] == s[i];
    }
  }
}
