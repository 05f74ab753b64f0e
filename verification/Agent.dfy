/** The worker agent's side of the protocol (agent.py). */
module Agent {
  import opened Json
  import opened Contracts

  const MAX_REASON_LENGTH := 300

  /** How one awaited action ends: it may raise, and the agent's task may be cancelled in it. */
  datatype Fate = Done | Raised(error: string) | Interrupted

  /** What a plugin's `execute` comes to. */
  datatype Execution =
    | Produced(output: PluginOutput)
    | RejectedRequest(reason: string)
    | Crashed(error: string)
    | Cancelled

  datatype PluginOutput = PluginOutput(
    content: Bytes,
    contentType: string,
    modelId: string,
    modelVersion: string,
    seed: Option<int>,
    diagnostics: map<string, Json>)

  /** The coordinator's answer to a completion; `Lost` when none arrives, `Unawaited` when the task is
   *  cancelled first. */
  datatype Reply = Accepted | Conflict | Unprocessable | OtherStatus | Lost | Unawaited

  /** What the outside does during one lease; `settlement` is the fate of a failure or release post. */
  datatype World = World(
    served: bool,
    validation: Option<string>,
    stopping: bool,
    download: Fate,
    execution: Execution,
    upload: Fate,
    reply: Reply,
    settlement: Fate)
  {
    /** The lease gets as far as the download, or as far as the execution. */
    predicate Taken() {
      served && validation.None? && !stopping
    }

    predicate Executed() {
      Taken() && download.Done?
    }
  }

  datatype Request =
    | PutOutput(key: string, content: Bytes)
    | PostComplete(jobId: string, token: Token, manifest: OutputManifest)
    | PostFail(jobId: string, token: Token, reason: string)
    | PostRelease(jobId: string, token: Token, reason: string)

  datatype Outcome = COMPLETED | REJECTED | RELEASED | FAILED

  /** How `_publish` ends: with an outcome, an exception, or the task's cancellation. */
  datatype Publication = Answered(outcome: Outcome) | PublishRaised(error: string) | PublishInterrupted

  /** The grant `service.lease` builds from the leased record. */
  function GrantOf(r: JobRecord): LeaseGrant
    requires r.claimToken.Some?
  {
    LeaseGrant(r.job.jobId, r.claimToken.value, r.job.capabilityId, r.job.contractVersion, r.digest,
               r.job.idempotencyKey, r.job.inputKeys, r.job.outputKey, r.job.payload, r.job.tenantId)
  }

  /** The manifest `_publish` posts for what it uploaded. */
  function Manifest(lease: LeaseGrant, output: PluginOutput, sha256: string, plugin: (string, string)): OutputManifest {
    OutputManifest(lease.outputKey, output.contentType, |output.content|, sha256, lease.idempotencyKey,
                   lease.requestDigest, plugin.0, plugin.1, output.modelId, output.modelVersion,
                   ImmutableCreateOnce, output.seed, output.diagnostics)
  }

  function Truncated(reason: string): string {
    if |reason| > MAX_REASON_LENGTH then reason[..MAX_REASON_LENGTH] else reason
  }

  /** At most the first 300 characters. */
  function First300(text: string): string {
    if |text| <= 300 then text else text[..300]
  }

  /** What a grant tells the worker is what the leased record says. */
  lemma GrantTells(r: JobRecord)
    requires r.claimToken.Some?
    ensures GrantOf(r) == LeaseGrant(
      jobId := r.job.jobId, claimToken := r.claimToken.value, capabilityId := r.job.capabilityId,
      contractVersion := r.job.contractVersion, requestDigest := r.digest, idempotencyKey := r.job.idempotencyKey,
      inputKeys := r.job.inputKeys, outputKey := r.job.outputKey, payload := r.job.payload, tenantId := r.job.tenantId)
  {
  }

  /** Every request is about the leased job, under its token and its output key. */
  predicate UnderLease(lease: LeaseGrant, r: Request) {
    match r
    case PutOutput(key, _) => key == lease.outputKey
    case PostComplete(jobId, token, m) =>
      jobId == lease.jobId && token == lease.claimToken && m.outputKey == lease.outputKey
      && m.idempotencyKey == lease.idempotencyKey && m.requestDigest == lease.requestDigest
    case PostFail(jobId, token, _) => jobId == lease.jobId && token == lease.claimToken
    case PostRelease(jobId, token, _) => jobId == lease.jobId && token == lease.claimToken
  }

  class WorkerAgent {
    const sha256: Bytes -> string
    const plugin: (string, string)
    var busyJobId: Option<string>

    constructor (sha256: Bytes -> string, plugin: (string, string))
      ensures this.sha256 == sha256 && this.plugin == plugin && busyJobId == None
    {
      this.sha256 := sha256;
      this.plugin := plugin;
      busyJobId := None;
    }

    /** `_publish`: the upload goes first, and what is attested is what was sent. A request counts as
     *  sent once it is begun. */
    method Publish(lease: LeaseGrant, output: PluginOutput, world: World)
      returns (sent: seq<Request>, end: Publication)
      ensures !world.upload.Done? ==> sent == [PutOutput(lease.outputKey, output.content)]
      ensures world.upload.Done? ==>
                sent == [PutOutput(lease.outputKey, output.content),
                         PostComplete(lease.jobId, lease.claimToken, Manifest(lease, output, sha256(output.content), plugin))]
      ensures end.Answered? <==> world.upload.Done? && (world.reply.Accepted? || world.reply.Conflict? || world.reply.Unprocessable?)
      ensures end.Answered? ==> end.outcome == if world.reply.Accepted? then COMPLETED else FAILED
      ensures end.PublishInterrupted? <==> world.upload.Interrupted? || (world.upload.Done? && world.reply.Unawaited?)
      ensures |sent| == 2 ==> sent[1].PostComplete? && sent[1].manifest == OutputManifest(
                outputKey := lease.outputKey, contentType := output.contentType, byteLength := |output.content|,
                sha256 := sha256(output.content), idempotencyKey := lease.idempotencyKey,
                requestDigest := lease.requestDigest, pluginId := plugin.0, pluginVersion := plugin.1,
                modelId := output.modelId, modelVersion := output.modelVersion,
                publicationMode := ImmutableCreateOnce, seed := output.seed, diagnostics := output.diagnostics)
    {
      var digest, byteLength := sha256(output.content), |output.content|;
      sent := [PutOutput(lease.outputKey, output.content)];
      match world.upload {
        case Raised(error) => return sent, PublishRaised(error);
        case Interrupted => return sent, PublishInterrupted;
        case Done =>
      }
      sent := sent + [PostComplete(lease.jobId, lease.claimToken, OutputManifest(
        lease.outputKey, output.contentType, byteLength, digest, lease.idempotencyKey, lease.requestDigest,
        plugin.0, plugin.1, output.modelId, output.modelVersion, ImmutableCreateOnce, output.seed, output.diagnostics))];
      match world.reply {
        case Conflict => end := Answered(FAILED);
        case Unprocessable => end := Answered(FAILED);
        case Accepted => end := Answered(COMPLETED);
        case Unawaited => end := PublishInterrupted;
        case _ => end := PublishRaised("HTTPError");
      }
    }

    /** `_serve`: the agent is idle again afterwards, whatever raised or was cancelled, and has settled its
     *  lease at most once, except that a completion whose reply was lost or unusable is followed by
     *  one release. No outcome means that an exception or the cancellation left the method. */
    method Serve(lease: LeaseGrant, world: World) returns (sent: seq<Request>, outcome: Option<Outcome>)
      modifies this`busyJobId
      ensures busyJobId == None
      ensures forall i | 0 <= i < |sent| :: UnderLease(lease, sent[i])
      ensures forall i | 0 <= i < |sent| && sent[i].PutOutput? ::
                i == 0 && world.execution.Produced? && sent[0] == PutOutput(lease.outputKey, world.execution.output.content)
      ensures forall i | 0 <= i < |sent| && sent[i].PostComplete? ::
                && i == 1 && sent[0].PutOutput? && world.upload.Done?
                && sent[1].manifest == Manifest(lease, world.execution.output, sha256(world.execution.output.content), plugin)
      ensures forall i | 0 <= i < |sent| && (sent[i].PostFail? || sent[i].PostRelease?) :: i == |sent| - 1
      ensures sent == [] <==>
                world.Taken() && (world.download.Interrupted? || (world.Executed() && world.execution.Cancelled?))
      ensures sent != [] && sent[0].PutOutput? <==> world.Executed() && world.execution.Produced?
      ensures sent != [] && sent[0].PostFail? <==>
                !world.served || world.validation.Some? || (world.Executed() && world.execution.RejectedRequest?)
      ensures |sent| >= 2 && sent[1].PostComplete? <==> world.Executed() && world.execution.Produced? && world.upload.Done?
      ensures |sent| <= 3
      ensures |sent| == 3 ==> sent[1].PostComplete? && sent[2].PostRelease?
      ensures |sent| >= 2 && sent[1].PostComplete? ==> (|sent| == 3 <==> world.reply.OtherStatus? || world.reply.Lost?)
      ensures |sent| == 2 && sent[1].PostRelease? ==> world.upload.Raised?
      ensures outcome == Some(COMPLETED) <==> sent != [] && sent[|sent| - 1].PostComplete? && world.reply.Accepted?
      ensures outcome == Some(FAILED) <==>
                sent != [] && sent[|sent| - 1].PostComplete? && (world.reply.Conflict? || world.reply.Unprocessable?)
      ensures outcome == Some(RELEASED) <==> sent != [] && sent[|sent| - 1].PostRelease? && world.settlement.Done?
      ensures outcome == Some(REJECTED) <==> sent != [] && sent[|sent| - 1].PostFail? && world.settlement.Done?
      ensures !world.served ==>
                sent == [PostFail(lease.jobId, lease.claimToken, "capability is not served by this worker")]
      ensures world.served && world.validation.Some? ==>
                sent == [PostFail(lease.jobId, lease.claimToken, First300(world.validation.value))]
      ensures world.served && world.validation.None? && world.stopping ==>
                sent == [PostRelease(lease.jobId, lease.claimToken, "draining")]
      ensures world.Taken() && world.download.Raised? ==>
                sent == [PostRelease(lease.jobId, lease.claimToken, First300(world.download.error))]
      ensures world.Executed() && world.execution.RejectedRequest? ==>
                sent == [PostFail(lease.jobId, lease.claimToken, First300(world.execution.reason))]
      ensures world.Executed() && world.execution.Crashed? ==>
                sent == [PostRelease(lease.jobId, lease.claimToken, First300(world.execution.error))]
    {
      if !world.served {
        busyJobId := None;
        outcome := Settle(REJECTED, world.settlement);
        return [PostFail(lease.jobId, lease.claimToken, Truncated("capability is not served by this worker"))], outcome;
      }
      if world.validation.Some? {
        busyJobId := None;
        outcome := Settle(REJECTED, world.settlement);
        return [PostFail(lease.jobId, lease.claimToken, Truncated(world.validation.value))], outcome;
      }
      if world.stopping {
        busyJobId := None;
        outcome := Settle(RELEASED, world.settlement);
        return [PostRelease(lease.jobId, lease.claimToken, "draining")], outcome;
      }
      busyJobId := Some(lease.jobId);
      sent, outcome := [], None;
      match world.download {
        case Interrupted =>
        case Raised(error) =>
          sent := [PostRelease(lease.jobId, lease.claimToken, Truncated(error))];
          outcome := Settle(RELEASED, world.settlement);
        case Done =>
          match world.execution {
            case RejectedRequest(reason) =>
              sent := [PostFail(lease.jobId, lease.claimToken, Truncated(reason))];
              outcome := Settle(REJECTED, world.settlement);
            case Crashed(error) =>
              sent := [PostRelease(lease.jobId, lease.claimToken, Truncated(error))];
              outcome := Settle(RELEASED, world.settlement);
            case Cancelled =>
            case Produced(output) =>
              var published: Publication;
              sent, published := Publish(lease, output, world);
              match published {
                case Answered(answer) => outcome := Some(answer);
                case PublishInterrupted =>
                case PublishRaised(error) =>
                  sent := sent + [PostRelease(lease.jobId, lease.claimToken, Truncated(error))];
                  outcome := Settle(RELEASED, world.settlement);
              }
          }
      }
      busyJobId := None;
    }
  }

  /** The outcome of a failure or release post; none when the post raises or is cancelled. */
  function Settle(outcome: Outcome, settlement: Fate): Option<Outcome> {
    if settlement.Done? then Some(outcome) else None
  }
}
