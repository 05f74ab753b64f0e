# Verified model of the outbound GPU worker pool

The pool is a coordinator that leases jobs to workers which only ever call out to it. This project
models its hard parts in Dafny and proves what they are for:

* **The lease protocol** (`JobStore`, `Registry`, `Service`, `PoolInvariant`, `PoolTheorems`,
  `Exclusivity`, `Rules`, `Authority`, `Steps`, `Decisions`, `Attestation`, `Queue`, `Agent`, `Retry`,
  `Downloads`). The job store, the
  worker registry and the asset store are classes whose methods are proved equal to functions on their contents. `Service`
  is a step relation over those contents: a service call is a sequence of awaited steps, each one
  atomic access to a store, and between two steps of one call any other call, host action, upload or
  clock tick may run. A call carries the snapshot it has read, so its compare-and-set may rest on a
  record that has since changed. `PoolInvariant` proves one invariant of every step; `PoolTheorems`,
  `Exclusivity`, `Authority`, `Decisions`, `Attestation` and `Retry` draw from it what holds over whole runs. `history` (each job's accepted
  moves) and `issued` (the tokens handed out) are part of the state only so that these properties can
  be stated.
* **The rate limiter** (`RateLimiter`), an ordered evicting table of token buckets that refines an
  unbounded one, over the reals.
* **The payload validator** (`PayloadTree`), an explicit-stack traversal of an object graph that may
  share or cycle.
* **ComfyUI templates** (`Templates`, `ComfyRequest`, `Workflow`, `GraphTheorems`, `SubmittedGraph`): what a template
  accepts, the schema published for it, and the graph a job submits.
* **Engine stages** (`EngineRequest`, with `JsonSchema` for the keywords both schemas use): what a
  stage accepts and the schema published for it. The repository names no draft; the schemas are read
  by JSON Schema Validation, draft 2020-12: section 6.1.1 (`type`), 6.1.2 (`enum`), 6.2 (numbers), 6.3
  (strings) and 6.5.3 (`required`).
* **Agreement of two implementations** (`Requirements`, `Sql`, `Profiles`): the SQL predicates and the
  in-memory ones, and registered against attested recipe versions.

Where a model function is shared by many results, another result pins it by a definition of its own that
no operation uses: `Rules`, `Steps` and `Decisions` write out what each step of the service does,
`SubmittedGraph` what each position of the submitted graph holds, and the ideal limiter has its own
arithmetic.

`dafny verify dfyconfig.toml` checks everything. Nothing was executed.

## Hypotheses

* New job ids and claim tokens are fresh (`Service.Enabled`); the SQL primary key and `uuid4` provide
  this. The in-memory `submit` would overwrite a reused job id.
* One integer clock that does not go back serves the stores and the service. The limiter's theorems
  state their clock hypothesis as `Monotone`.
* An expired token still works until the job is leased again or expired, as in `_leased`, and a worker
  revoked between the service's check and the store's lease can still be granted that lease. Nothing
  proved here needs the opposite.
* `RetryIsNeverRejected` assumes an output within the size bound, and that everyone who writes the output
  key writes the same content and attests it, the pinned recipe included (`Retry.Honest`). A ComfyUI
  profile's plugin meets the recipe part (`ProfileOutputAttests`).
* `JobGraphIsWellFormed` assumes what `_validate_template` does not check: every node has `inputs`,
  the template has no dangling link, slot nodes are distinct and defaults link inside the template.
  A dependent node shared by a bound and an unbound slot is dropped, as in the source.
* The recipe theorems assume distinct profiles on one unchanged runtime, whose fixed versions agree.

## Where the code falls short of the plain statement

Each comes with its exact condition and, where the statement fails, a concrete input.

* The store's `release` alone strands a job exactly when its budget is spent (`StoreReleaseCanStrand`), as
  after one lease of any one-attempt job (`StoreRunStrands`); the service's check makes up for it
  (`NoStrandedJob`).
* The two replay tests differ exactly when a bool in one payload meets an equal number in the other
  (`SqlReplaysAgrees`, `ReplayTestsDiffer`).
* Both stores find work or neither does (`BothStoresFindWork`), but they lease the same job exactly when
  the query's row was inserted before every claimable job it ties with (`BothStoresChooseAlike`,
  `TiedJobsLeasedDifferently`).
* A heartbeat ends the lease the default time from now, so it shortens it exactly when it ended later
  (`RenewalShortens`, `HourLeaseShortened`).
* With a clock that goes back the limiter's window bound fails (`BackwardClockBreaksTheBound`).
* A float with a zero fraction meets the published schema of an integer input and is refused, and that is
  the only disagreement for ComfyUI templates and for stages with a required input
  (`ComfyRequest.SchemaAgrees`, `EngineRequest.SchemaAgreesWhenInputsRequired`, both
  `IntegralFloatDisagrees`). For other stages a payload without `inputs` never meets the schema but may
  be served (`MissingInputs`, `EmptyPayloadIsServed`).
* An accepted lease's graph cannot be built when the output node is dropped, an unbound slot takes a later
  bound slot's node, or a node lacks `inputs` where they are needed; `BuildsExactly` is the exact condition
  (`SharedNodeCannotBeBuilt`, `DroppedOutputCannotBeBuilt`, `BareOutputCannotBeBuilt`).
* Two granted keys with one file name share a file, harmless exactly when their contents are equal
  (`DownloadInputs`, `OneNameTwoInputs`).

## Model

| member | source | states |
|---|---|---|
| `JobStore.MemoryJobStore.SubmitJob` | src/outbound_gpu_worker_pool/memory.py:56-84 | a new idempotency key creates a queued record with nothing but the request; a known one replays an equal request and conflicts with another, changing nothing |
| `JobStore.MemoryJobStore.CancelJob` | src/outbound_gpu_worker_pool/memory.py:96-113 | exactly the queued and processing jobs can be cancelled; a cancel drops the lease, keeps the request and changes no other record |
| `JobStore.MemoryJobStore.LeaseJob` | src/outbound_gpu_worker_pool/memory.py:115-152 | leases a claimable job with the smallest priority number and then the earliest creation time, under the given token, spending one attempt; None exactly when nothing is claimable |
| `JobStore.MemoryJobStore.HeartbeatJob` | src/outbound_gpu_worker_pool/memory.py:154-176 | accepted exactly while the token owns the job; moves the lease's end and the progress, and keeps request, attempts, token, lessee and every other record |
| `JobStore.MemoryJobStore.CompleteJob` | src/outbound_gpu_worker_pool/memory.py:178-201 | accepted exactly while the token owns the job; records the output and the lessee, drops the lease, and changes no other record |
| `JobStore.MemoryJobStore.FailJob` | src/outbound_gpu_worker_pool/memory.py:203-224 | accepted exactly while the token owns the job; records the failure, drops the lease, and changes no other record |
| `JobStore.MemoryJobStore.ReleaseJob` | src/outbound_gpu_worker_pool/memory.py:226-233 | accepted exactly while the token owns the job; the job is queued again whatever attempts are left, and no other record changes |
| `JobStore.MemoryJobStore.ExpireExhaustedJobs` | src/outbound_gpu_worker_pool/memory.py:235-254 | fails exactly the processing jobs whose lease is over and whose budget is spent, as temporary and retryable failures, and returns how many |
| `JobStore.MemoryJobStore.SweepRecords` | src/outbound_gpu_worker_pool/memory.py:238-253 | the sweep's loop visits the records in insertion order, deciding each from the snapshot |
| `JobStore.ExpiredOverAll` | src/outbound_gpu_worker_pool/memory.py:238-253 | visiting every record once, in any insertion order, is the map that fails exactly the exhausted jobs |
| `JobStore.CandidatesExactly` | src/outbound_gpu_worker_pool/memory.py:128-136 | the candidate list holds exactly the records this worker may claim |
| `JobStore.ChoiceIsLeastClaimable` | src/outbound_gpu_worker_pool/memory.py:139-141 | a job is chosen exactly when some job is claimable, and then one with the least (priority, created_at) |
| `JobStore.LeaseKeepsValid` | src/outbound_gpu_worker_pool/memory.py:143-152 | leasing keeps job ids and idempotency keys unique and the order a listing of the records |
| `Registry.MemoryWorkerRegistry.UpsertWorker` | src/outbound_gpu_worker_pool/memory.py:372-410 | an upsert either changes nothing and says which binding it violates, or writes that worker's record; a revoked worker stays revoked |
| `Registry.MemoryWorkerRegistry.SetWorkerStatus` | src/outbound_gpu_worker_pool/memory.py:429-441 | changes one known worker's status and nothing else |
| `Registry.MemoryAssetStore.Write` | src/outbound_gpu_worker_pool/memory.py:329-335 | creates a key at most once and reports whether it did |
| `Registry.UpsertKeepsBindings` | src/outbound_gpu_worker_pool/memory.py:372-410 | no heartbeat or enrolment rebinds a worker id to another subject or tenant or gives two ids one subject |
| `Registry.WriteOnceKeeps` | src/outbound_gpu_worker_pool/memory.py:329-335 | nothing stored is lost or replaced |
| `PoolInvariant.StepKeepsInv` | src/outbound_gpu_worker_pool/service.py:494-785 | every step of every interleaved call, host action, upload and clock tick keeps the whole pool invariant |
| `PoolInvariant.ActKeepsJobOk` | src/outbound_gpu_worker_pool/service.py:586-725 | a compare-and-set keeps the job's invariant although it was decided on an earlier snapshot, because the token's live period fixes attempts and lessee |
| `PoolInvariant.StepEvolves` | src/outbound_gpu_worker_pool/memory.py:96-254 | whatever the step, a record keeps its request and digest, a terminal record is untouched, and a record can be processing afterwards only under the same lease or the token just handed out |
| `PoolInvariant.StepGrowsStores` | src/outbound_gpu_worker_pool/memory.py:329-441 | whatever the step, worker bindings, stored objects and issued tokens are for ever |
| `PoolTheorems.ReachedHasInv` | src/outbound_gpu_worker_pool/service.py:216-785 | every state reachable from the empty pool satisfies the invariant |
| `PoolTheorems.NoStrandedJob` | src/outbound_gpu_worker_pool/service.py:690-725 | in every reachable state a queued job has an attempt left |
| `PoolTheorems.StoreReleaseCanStrand` | src/outbound_gpu_worker_pool/memory.py:226-233 | the store's release alone strands a job exactly when its budget is already spent: the guarantee rests on the service's check |
| `PoolTheorems.StoreRunStrands` | src/outbound_gpu_worker_pool/memory.py:226-233 | every one-attempt job that is submitted, leased and released at the store alone is left queued with its budget spent |
| `PoolTheorems.SettledByGrantee` | src/outbound_gpu_worker_pool/service.py:738-748 | in every reachable state each settlement was made by the worker and token of the grant right before it |
| `PoolTheorems.SettleOnce` | src/outbound_gpu_worker_pool/memory.py:277-286 | over whole runs no claim token settles twice, neither one job at two moments nor two jobs |
| `PoolTheorems.WhenRetired` | src/outbound_gpu_worker_pool/memory.py:277-286 | in every reachable state an issued token is retired exactly when the job it was issued for does not hold it, and every token that has settled is retired |
| `PoolTheorems.LosingTheLeaseRetires` | src/outbound_gpu_worker_pool/memory.py:96-254 | every step leaves a live token with its job or retires it: an accepted completion, failure or release, a cancel, an expiry and another grant all retire it |
| `PoolTheorems.RetiredForEver` | src/outbound_gpu_worker_pool/memory.py:277-286 | a token once replaced or cleared never owns a job again |
| `PoolTheorems.RetiredTokenIsInert` | src/outbound_gpu_worker_pool/service.py:586-725 | once a token has settled or its job no longer holds it, no step of a duplicated, delayed or earlier call under it changes any job, after any further run |
| `PoolTheorems.TerminalForEver` | src/outbound_gpu_worker_pool/memory.py:96-233 | a completed, failed or cancelled record is never touched again by any run, the agent's release after a lost completion reply included |
| `Decisions.RejectionIsFirstMismatch` | src/outbound_gpu_worker_pool/service.py:750-773 | a manifest is refused for its first mismatch with the job, in the source's order, and only then |
| `Decisions.OwnedOnly` | src/outbound_gpu_worker_pool/service.py:738-748 | a job call ends at once unless it is for a processing job leased by the caller |
| `Decisions.CompleteDecides` | src/outbound_gpu_worker_pool/service.py:610-657 | a completion with any mismatch is decided as a rejection with that reason; any other goes on to its object |
| `Decisions.DescriptionDecides` | src/outbound_gpu_worker_pool/service.py:774-780 | a missing, differently long or too large object is refused, with its reason |
| `Decisions.ContentDecides` | src/outbound_gpu_worker_pool/service.py:781-785 | an object of another digest is refused; the right one is committed |
| `Decisions.CommitIsChecked` | src/outbound_gpu_worker_pool/service.py:610-657 | in every reachable state a completion about to commit carries the stored job's output key, idempotency key, digest and create-once mode, names nothing refused, reports the pinned recipe's versions and inputs, and matches the stored object |
| `Decisions.CallTakesEffect` | src/outbound_gpu_worker_pool/service.py:586-725 | in every reachable state a call acting under its job's live token changes exactly that job, as its own request asks: renewal, completion, rejection, failure with its code and flag, requeue or budget failure; under any other token nothing changes |
| `Decisions.SettlementIsRecorded` | src/outbound_gpu_worker_pool/memory.py:178-233 | the history entry of a settlement says what it was |
| `PoolTheorems.OutputIntegrity` | src/outbound_gpu_worker_pool/service.py:610-657 | in every reachable state and ever after, a completed job's output key names a stored object with the recorded length and digest, within max_verify_bytes, although verification and commit are separate steps |
| `PoolTheorems.MovesAreBounded` | src/outbound_gpu_worker_pool/memory.py:115-254 | attempts equal the granted leases, never exceed the budget, and a job has at most 2 * attempt_budget transitions other than heartbeats |
| `PoolTheorems.MovesAreRecorded` | src/outbound_gpu_worker_pool/memory.py:96-254 | a step changes a job's status, attempts or token exactly when it adds one entry to the job's history, so the bound counts real transitions |
| `PoolTheorems.LesseeSharesTenant` | src/outbound_gpu_worker_pool/service.py:524-534 | in every reachable state a processing job's lessee is a registered worker of exactly the job's tenant, house work included |
| `PoolTheorems.BindingsForEver` | src/outbound_gpu_worker_pool/service.py:383-415 | over any run each worker id keeps its first subject and tenant and subjects stay unique |
| `PoolTheorems.ProgressPartition` | src/outbound_gpu_worker_pool/memory.py:532-539 | at every clock reading an unfinished job is in exactly one position: under an unexpired lease, claimable by every matching worker, or failed by the next expiry sweep |
| `Exclusivity.LeaseIsExclusive` | src/outbound_gpu_worker_pool/memory.py:532-539 | while a lease is unexpired only the host's cancel and calls under the lease's own token touch the job |
| `Exclusivity.LeaseHolds` | src/outbound_gpu_worker_pool/memory.py:115-152 | over a whole run a job stays exactly as granted until its lease ends, whatever other workers do, unless its host cancels it or its holder acts |
| `Exclusivity.GrantLasts` | src/outbound_gpu_worker_pool/service.py:521-534 | a grant belongs to the asking worker and lasts exactly the seconds asked for, or the default |
| `Exclusivity.RenewalLasts` | src/outbound_gpu_worker_pool/service.py:586-608 | an accepted heartbeat keeps the lease and ends it exactly the default time from now |
| `Exclusivity.RenewalShortens` | src/outbound_gpu_worker_pool/service.py:586-608 | in every reachable state a renewal leaves the lease at least as long exactly when it ended no later than the default time from now |
| `Exclusivity.HourLeaseShortened` | src/outbound_gpu_worker_pool/memory.py:154-176 | a concrete lease of an hour that a heartbeat cuts to five minutes |
| `Authority.SettlerIsLessee` | src/outbound_gpu_worker_pool/service.py:738-748 | in every reachable state a call about to change a job under its live token is the lessee's own and was made under the lessee's registered subject, whatever enrolments came between its checks |
| `Rules.QualifiedIsClean` | src/outbound_gpu_worker_pool/service.py:182-201 | no reason is given exactly for capabilities that are not refused and versions that name no refused profile or recipe |
| `Rules.ValidIsWithinBounds` | src/outbound_gpu_worker_pool/validation.py:65-106 | a submission is valid exactly within the stated bounds, its identifiers and payload aside |
| `Rules.SubmitStoresExactly` | src/outbound_gpu_worker_pool/service.py:261-273 | a new job is stored, queued and unattempted, exactly when it is within bounds, names nothing refused and has a new idempotency key; otherwise nothing changes |
| `Rules.ApprovedExactly` | src/outbound_gpu_worker_pool/service.py:404-415 | an identity is approved exactly when registered under its own subject and not revoked, or unregistered and enrolled under its own subject |
| `Rules.BarredCallEnds` | src/outbound_gpu_worker_pool/service.py:404-415 | the call of a revoked worker, another subject or an unenrolled stranger ends at its first step with nothing changed |
| `Rules.RegistrationProceedsExactly` | src/outbound_gpu_worker_pool/service.py:458-480 | a registration goes on exactly when it is the caller's own, for its approved tenant, and names nothing refused |
| `Rules.LeaseProceedsExactly` | src/outbound_gpu_worker_pool/service.py:499-520 | a lease call goes on exactly for a registered, not draining worker that runs nothing refused and registered some requested capability; it keeps exactly those capabilities |
| `Steps.OutsideSteps` | src/outbound_gpu_worker_pool/memory.py:329-441 | a tick, an upload and a status change touch the clock, one new object, one worker, and nothing else |
| `Steps.CancelStep` | src/outbound_gpu_worker_pool/memory.py:96-113 | a cancel ends exactly a queued or processing job |
| `Steps.ApprovedCallProceeds` | src/outbound_gpu_worker_pool/service.py:404-415 | the call of a caller that is not barred goes on, with nothing changed |
| `Steps.ExpiringSweeps` | src/outbound_gpu_worker_pool/service.py:524-524 | before it leases, a lease call fails exactly the jobs whose lease is over and whose budget is spent |
| `Steps.GrantingLeases` | src/outbound_gpu_worker_pool/service.py:525-534 | a lease call's last step grants the first job, by priority, creation and insertion, that its worker may lease, for the seconds asked or the default; or there is none |
| `Steps.EnrolmentProceeds` | src/outbound_gpu_worker_pool/service.py:383-402 | an enrolment of a known worker changes nothing |
| `Steps.UpsertStores` | src/outbound_gpu_worker_pool/memory.py:372-410 | a registration or enrolment stores the presented worker unless it would rebind an id or a subject; revoked stays revoked |
| `Authority.NothingUnqualified` | src/outbound_gpu_worker_pool/service.py:458-492 | in every reachable state no registered worker and no stored job names a refused profile, recipe or capability, and every stored job is within the submission bounds |
| `Authority.QuerySelectsExactly` | src/outbound_gpu_worker_pool/service.py:524-534 | a lease call's store query selects exactly the jobs of the call's capabilities and the worker's tenant that have an attempt left, whose constraints the worker's registration meets and that no unexpired lease holds |
| `Authority.GrantFitsCaller` | src/outbound_gpu_worker_pool/service.py:494-534 | whatever a reachable lease call is granted, the caller asked for and had registered its capability, it is not refused, and tenant and requirements match the registration the call selected |
| `Queue.ChosenIsServedFirst` | src/outbound_gpu_worker_pool/memory.py:139-141 | the leased job precedes every other claimable one in (priority, created_at, insertion) order |
| `Queue.LeaseTakesOne` | src/outbound_gpu_worker_pool/memory.py:115-152 | a lease of nonnegative length makes exactly the leased job unclaimable |
| `Queue.DrainServesAll` | src/outbound_gpu_worker_pool/memory.py:115-152 | leasing until nothing is left hands out exactly the jobs claimable for that worker |
| `Queue.DrainIsOrdered` | src/outbound_gpu_worker_pool/memory.py:115-152 | each of them once, in (priority, created_at, insertion) order |
| `Agent.GrantTells` | src/outbound_gpu_worker_pool/service.py:569-584 | a grant tells the worker the leased record's own fields |
| `Agent.WorkerAgent.Publish` | src/outbound_gpu_worker_pool/agent.py:353-413 | uploads before it completes and attests the bytes it sent; it ends with the coordinator's answer, an exception or a cancellation, exactly as upload and reply do |
| `Agent.WorkerAgent.Serve` | src/outbound_gpu_worker_pool/agent.py:275-322 | settles its lease at most once, except one release after a completion whose reply was lost or unusable; which requests are sent, in which order and with what outcome follows what each awaited action came to, an exception or a cancellation of the task at any of them included; it is idle afterwards |
| `Downloads.DownloadInputs` | src/outbound_gpu_worker_pool/agent.py:324-351 | every granted key's path holds that key's bytes exactly when no two different inputs share a file name |
| `Downloads.OneNameTwoInputs` | src/outbound_gpu_worker_pool/agent.py:331-344 | two concrete keys with one file name and different bytes: some path does not hold its input |
| `Retry.PublishedManifestAttests` | src/outbound_gpu_worker_pool/agent.py:353-384 | what an agent publishes under a grant attests the job it was granted, whoever holds the grant, given that its diagnostics meet the pinned recipe, if any |
| `Retry.SubmittedCanStart` | src/outbound_gpu_worker_pool/service.py:261-273 | a job just submitted under an unused output key is in the state the retry theorem starts from |
| `Retry.RetryIsNeverRejected` | src/outbound_gpu_worker_pool/service.py:750-785 | over any run in which writers of the output key write the same content, however workers crash between upload and completion and are replaced, no completion is rejected |
| `Retry.RetryCompletes` | src/outbound_gpu_worker_pool/service.py:610-657 | and after any such run a commit under a live token completes the job with that content's digest and length, the manifest's metadata and the caller as executor |
| `Requirements.FromPayloadAccepts` | src/outbound_gpu_worker_pool/contracts.py:102-116 | a requirements column is read exactly when each field it gives is of its kind, false values aside |
| `Requirements.FromPayloadReads` | src/outbound_gpu_worker_pool/contracts.py:102-122 | each field is read as it is, and what is not given reads as no constraint |
| `Requirements.RequirementsRoundTrip` | src/outbound_gpu_worker_pool/contracts.py:86-122 | from_payload(as_payload(r)) == r for every requirements value |
| `Contracts.LowerIsAlphabetical` | src/outbound_gpu_worker_pool/memory.py:508-529 | the case folding of GPU models maps the upper-case alphabet to the lower-case one and nothing else |
| `Sql.LeaseWhereAgrees` | src/outbound_gpu_worker_pool/postgres.py:193-229 | the lease query's WHERE over the JSON column selects exactly the records the in-memory predicate accepts, for every job and worker, under three-valued logic |
| `Sql.BothStoresFindWork` | src/outbound_gpu_worker_pool/postgres.py:193-218 | the query returns a row exactly when the in-memory store finds a job |
| `Sql.SqlRowIsUnique` | src/outbound_gpu_worker_pool/postgres.py:217-218 | the query's order leaves one first row |
| `Sql.BothStoresChooseAlike` | src/outbound_gpu_worker_pool/postgres.py:193-218 | both stores lease from the same (priority, created_at), and the same job exactly when the query's row was inserted before every claimable job that ties with it |
| `Sql.TiedJobsLeasedDifferently` | src/outbound_gpu_worker_pool/memory.py:139-141 | two concrete tied jobs, both acceptable to either store: the in-memory store leases one, the query returns the other |
| `Sql.FencedWhereAgrees` | src/outbound_gpu_worker_pool/postgres.py:242-324 | the fenced UPDATEs touch a row exactly when the in-memory store accepts the token |
| `Sql.ExpireWhereAgrees` | src/outbound_gpu_worker_pool/postgres.py:326-338 | the expiry UPDATE touches exactly the jobs the in-memory sweep fails |
| `Sql.JsonbEqIsPyEqWithoutBools` | src/outbound_gpu_worker_pool/memory.py:542-555 | jsonb equality is Python equality minus a bool meeting a number |
| `Sql.RequirementsColumnsEqual` | src/outbound_gpu_worker_pool/postgres.py:107-151 | two requirements have equal jsonb columns exactly when they are equal |
| `Sql.SqlReplaysAgrees` | src/outbound_gpu_worker_pool/postgres.py:107-151 | the two replay tests agree exactly when no bool in one payload meets a number in the other |
| `Sql.ReplayTestsDiffer` | src/outbound_gpu_worker_pool/memory.py:542-555 | a concrete resubmission that replays in memory and conflicts in SQL |
| `Profiles.PrepareVersions` | src/outbound_gpu_worker_pool/machine_profiles.py:471-474 | registers exactly the first profile's values under the plain keys, every further profile's own values under its namespaced keys, and no other namespaced key |
| `Profiles.NamespacedKeysDiffer` | src/outbound_gpu_worker_pool/machine_profiles.py:344-370 | keys of different profiles never collide |
| `Profiles.AttestationAgrees` | src/outbound_gpu_worker_pool/machine_profiles.py:360-384 | what a profile's plugin attests equals what the worker registered on every key they share |
| `Profiles.PinnedJobPasses` | src/outbound_gpu_worker_pool/memory.py:520-521 | a worker that satisfies a job pinning only one profile's attested keys attests every pinned value |
| `Attestation.ReportsOnDiagnostics` | src/outbound_gpu_worker_pool/service.py:757-758 | the check on a manifest's diagnostics is the comparison of the attested with the pinned versions |
| `Attestation.GrantedJobPassesConfiguration` | src/outbound_gpu_worker_pool/service.py:755-759 | a job granted by a reachable lease call on a registration prepared for these profiles, pinning only keys one profile's plugin attests, is never refused for its recipe configuration, after any further run |
| `Attestation.EffectiveInputsPass` | src/outbound_gpu_worker_pool/service.py:760-765 | for every lease a template accepts, the effective inputs its plugin reports pass the coordinator's comparison exactly when every attested media map is in the payload |
| `Attestation.ProfileOutputAttests` | src/outbound_gpu_worker_pool/machine_profiles.py:403-413 | what a profile's plugin publishes under any grant of such a job passes both recipe checks and attests the job, after any further run |
| `Profiles.AttestedExactly` | src/outbound_gpu_worker_pool/machine_profiles.py:360-384 | a further profile attests exactly the shared facts under their own keys and its recipe, configuration, profile and features under its namespaced keys |
| `Profiles.FurtherProfileHidesPlainKeys` | src/outbound_gpu_worker_pool/machine_profiles.py:373-384 | a further profile never attests the first profile's plain keys |
| `Profiles.PinnedRecipeExactly` | src/outbound_gpu_worker_pool/machine_profiles.py:352-357 | the plain key wins, then the namespaced key that sorts first; without either no recipe is pinned |
| `Profiles.PinnedRecipeOfProfile` | src/outbound_gpu_worker_pool/machine_profiles.py:352-357 | a job that pins a further profile's attested recipe is bound to that profile's recipe |
| `RateLimiter.RateLimiter.Allow` | src/outbound_gpu_worker_pool/service.py:113-130 | one call answers and updates the ordered table as specified, for every clock reading |
| `RateLimiter.RateLimiter.EvictIdle` | src/outbound_gpu_worker_pool/service.py:115-119 | the oldest-first loop removes the longest prefix of buckets idle for a minute |
| `RateLimiter.EvictIsSuffix` | src/outbound_gpu_worker_pool/service.py:115-119 | on a sorted table the oldest-first loop removes exactly the buckets idle for 60 s or more |
| `RateLimiter.EvictKeepsLevel` | src/outbound_gpu_worker_pool/service.py:115-119 | eviction is invisible: an evicted bucket had refilled completely |
| `RateLimiter.CallKeepsWellFormed` | src/outbound_gpu_worker_pool/service.py:113-130 | every call keeps the table sorted, without repeats, within max_keys and its tokens within [0, limit] |
| `RateLimiter.EarnedIsProduct` | src/outbound_gpu_worker_pool/service.py:123-126 | the accrual used in the proofs is elapsed * limit / 60 |
| `RateLimiter.RoomAgrees` | src/outbound_gpu_worker_pool/service.py:120-121 | a new key finds no room in the table exactly when max_keys other keys were seen in the last 60 seconds |
| `RateLimiter.RefinesIdeal` | src/outbound_gpu_worker_pool/service.py:95-130 | under a monotone clock the evicting limiter answers every run exactly as one that never forgets a key: tokens plus elapsed * limit / 60 up to the limit, one spent when there is one, and a new key refused when max_keys others were seen in the last 60 seconds |
| `RateLimiter.WindowBound` | src/outbound_gpu_worker_pool/service.py:113-130 | in any run a key is admitted at most limit + T * limit / 60 times within any T seconds, even across its eviction and return |
| `RateLimiter.TableIsBounded` | src/outbound_gpu_worker_pool/service.py:113-130 | after any run the table is within max_keys, its keys distinct and its tokens within [0, limit] |
| `RateLimiter.BackwardClockBreaksTheBound` | src/outbound_gpu_worker_pool/service.py:113-130 | with a clock that goes back, on a concrete run a key is admitted twice in zero seconds at a limit of one a minute, more than the window bound |
| `PayloadTree.ValidateJsonTree` | src/outbound_gpu_worker_pool/validation.py:143-167 | terminates on every finite object graph, cyclic or shared, and accepts exactly the trees of depth at most 8 with string keys, finite numbers and supported leaves |
| `PayloadTree.RefusalRefutes` | src/outbound_gpu_worker_pool/validation.py:146-167 | whenever the loop raises, the graph is not such a tree, whatever the visit order |
| `PayloadTree.VisitKeepsInvariant` | src/outbound_gpu_worker_pool/validation.py:143-167 | one turn of the loop keeps the correspondence between stack, seen set and paths from the root |
| `Templates.ValidateTemplate` | src/outbound_gpu_worker_pool/comfy.py:592-634 | accepts exactly the templates with unique names, known kinds, declared nodes and slots of the right class |
| `ComfyRequest.BoundSlots` | src/outbound_gpu_worker_pool/comfy.py:664-689 | returns the payload's slot map exactly when it binds declared slots to granted keys and every required one |
| `ComfyRequest.FillInputs` | src/outbound_gpu_worker_pool/comfy.py:281-288 | each declared input is the job's checked value, the template's default or absent; a bad or missing required value refuses the request |
| `ComfyRequest.Validate` | src/outbound_gpu_worker_pool/comfy.py:269-309 | serves exactly the leases whose payload meets the template's allowlist and binds exactly the granted keys, and returns exactly the declared values |
| `ComfyRequest.InputSchema` | src/outbound_gpu_worker_pool/comfy.py:167-212 | the published schema lists exactly the declared inputs and the media maps |
| `ComfyRequest.SlotsMeetSchema` | src/outbound_gpu_worker_pool/comfy.py:664-689 | a slot map is accepted exactly when it meets its schema and binds granted keys |
| `ComfyRequest.SchemaAgrees` | src/outbound_gpu_worker_pool/comfy.py:269-309 | for every payload: served exactly when it meets the published schema, binds exactly the granted keys and has no integral float where an integer is declared |
| `ComfyRequest.IntegralFloatDisagrees` | src/outbound_gpu_worker_pool/comfy.py:652-655 | the float 1.0 meets every published schema of a template with one integer input and is refused |
| `Workflow.DropIsUnion` | src/outbound_gpu_worker_pool/comfy.py:702-719 | dropping one set of nodes and then another is dropping both, in either order |
| `Workflow.PromptGraph.DropSlot` | src/outbound_gpu_worker_pool/comfy.py:702-719 | removes the slot's node and dependents and exactly the inputs whose value is a list starting with one of their ids; fails exactly when a surviving node has no inputs |
| `Workflow.PromptGraph.Assign` | src/outbound_gpu_worker_pool/comfy.py:692-699 | sets one input of one node, or fails and changes nothing when the node or its inputs are missing |
| `Workflow.PromptGraph.FillInputs` | src/outbound_gpu_worker_pool/comfy.py:378-382 | sets every declared input the request carries, in order |
| `Workflow.PromptGraph.BindSlots` | src/outbound_gpu_worker_pool/comfy.py:385-405 | binds or drops every slot of one kind of media, in order |
| `Workflow.PromptGraph.Build` | src/outbound_gpu_worker_pool/comfy.py:377-410 | the whole in-place rewrite computes the specified graph, or fails exactly when that is undefined |
| `GraphTheorems.EditsShape` | src/outbound_gpu_worker_pool/comfy.py:385-405 | any run of edits succeeds exactly when none sets an input of a removed node, and then removing slot by slot comes to binding everything and removing all at once |
| `GraphTheorems.OrderIrrelevant` | src/outbound_gpu_worker_pool/comfy.py:385-405 | independent bindings and drops give one graph in whatever order they are made |
| `GraphTheorems.SlotOrderIrrelevant` | src/outbound_gpu_worker_pool/comfy.py:385-405 | binding and dropping a template's slots in any order gives the graph of the source's order |
| `GraphTheorems.BuildsExactly` | src/outbound_gpu_worker_pool/comfy.py:377-410 | for every template and request: building succeeds exactly when the edited nodes, and once a slot is dropped the survivors, have inputs, no unbound slot takes a later bound slot's node, and the output node survives with inputs |
| `GraphTheorems.BuiltExactly` | src/outbound_gpu_worker_pool/comfy.py:377-410 | where every node has inputs: building succeeds exactly when the output node survives and no unbound slot takes a later bound slot's node; the graph has exactly the surviving nodes, of their template class |
| `GraphTheorems.SharedNodeCannotBeBuilt` | src/outbound_gpu_worker_pool/comfy.py:592-634 | a valid template with two slots on one node and an accepted payload binding the second, whose graph cannot be built |
| `GraphTheorems.DroppedOutputCannotBeBuilt` | src/outbound_gpu_worker_pool/comfy.py:592-634 | a valid template whose output node depends on a slot and an accepted empty payload, whose graph cannot be built |
| `GraphTheorems.BareOutputCannotBeBuilt` | src/outbound_gpu_worker_pool/comfy.py:592-634 | a valid template whose output node has no inputs object and an accepted empty payload, whose graph cannot be built |
| `GraphTheorems.BuiltAt` | src/outbound_gpu_worker_pool/comfy.py:377-410 | at every node and input the built graph holds the bound or template value unless it links into a removed node, and the output prefix where there was one |
| `SubmittedGraph.NodesExactly` | src/outbound_gpu_worker_pool/comfy.py:374-410 | for every accepted lease on distinct slot nodes: a graph exactly when no slot without a key takes the output node, and exactly the nodes no such slot takes |
| `SubmittedGraph.JobGraphIsWellFormed` | src/outbound_gpu_worker_pool/comfy.py:374-410 | for every accepted lease: from a template without dangling links the submitted graph has none |
| `SubmittedGraph.AllowlistFrame` | src/outbound_gpu_worker_pool/comfy.py:374-410 | for every accepted lease: at every surviving position that no declared input, slot file or output prefix fills, the graph holds exactly the template's values that do not point at a lost node |
| `SubmittedGraph.LinksAreTheTemplates` | src/outbound_gpu_worker_pool/comfy.py:374-410 | every link in the submitted graph is the template's own or a default the job did not override, and none points at a lost node |
| `SubmittedGraph.DeclaredInputIsSubmitted` | src/outbound_gpu_worker_pool/comfy.py:378-382 | a declared input that alone fills its position is submitted with the job's value, or else with its default unless that points at a lost node |
| `SubmittedGraph.ImageIsSubmitted` | src/outbound_gpu_worker_pool/comfy.py:385-392 | every image slot with a key has its node in the graph, with the uploaded file's name under `image` |
| `SubmittedGraph.AudioIsSubmitted` | src/outbound_gpu_worker_pool/comfy.py:395-405 | every audio slot with a key has its node in the graph, with the uploaded file's name under `audio` |
| `SubmittedGraph.PrefixIsTheJobs` | src/outbound_gpu_worker_pool/comfy.py:406-410 | a file name prefix on the output node is always `ogwp/` and the job id; the template's is replaced and none is added |
| `EngineRequest.CheckInputs` | src/outbound_gpu_worker_pool/engine.py:461-472 | the bound inputs are declared, granted and complete, and every granted key is bound |
| `EngineRequest.CheckSettings` | src/outbound_gpu_worker_pool/engine.py:473-476 | every carried setting passes its domain, and exactly the carried settings are returned |
| `EngineRequest.CheckPresence` | src/outbound_gpu_worker_pool/engine.py:477-481 | the required settings are present, and exactly one of the alternatives when there are any |
| `EngineRequest.Validate` | src/outbound_gpu_worker_pool/engine.py:451-486 | serves exactly the leases the stage accepts and returns the payload with its input bindings filled in |
| `EngineRequest.OneCounted` | src/outbound_gpu_worker_pool/engine.py:480-481 | counting the alternatives to one is the schema's exactly-one-branch rule |
| `EngineRequest.InputSchema` | src/outbound_gpu_worker_pool/engine.py:351-370 | the published schema lists exactly the stage's inputs and settings |
| `EngineRequest.SchemaAgrees` | src/outbound_gpu_worker_pool/engine.py:351-380 | a payload that carries inputs is served exactly when it meets the published schema, binds exactly the granted keys and has no integral float in an integer range |
| `EngineRequest.MissingInputs` | src/outbound_gpu_worker_pool/engine.py:459-461 | a payload without inputs never meets the schema, and is served exactly when nothing is granted, no input is required and it would be served with an empty map there |
| `EngineRequest.SchemaAgreesWhenInputsRequired` | src/outbound_gpu_worker_pool/engine.py:351-380 | a stage with a required input serves a payload exactly when it meets the published schema, binds exactly the granted keys and has no integral float in an integer range |
| `EngineRequest.ShippedStages` | src/outbound_gpu_worker_pool/engine_recipes.py:142-163 | both shipped stages are well formed and have a required input |
| `EngineRequest.EmptyPayloadIsServed` | src/outbound_gpu_worker_pool/engine.py:459-461 | a stage that needs nothing, unlike the shipped ones, serves the empty payload, which its schema refuses |
| `EngineRequest.IntegralFloatDisagrees` | src/outbound_gpu_worker_pool/engine.py:373-380 | the shipped mesh stage refuses a seed of 1.0 that meets its schema |

## Left out

- The HTTP routes, request and response objects, application wiring and environment parsing: plumbing with per-field bounds.
- Authentication of requests and the wiring of the limiter into it: the identity is taken as given, and the limiter is modelled alone.
- Google Cloud storage, signed URLs, asyncpg pools, migrations, row locks and `SKIP LOCKED`: foreign calls; the SQL appears as predicates on rows, the asset store as the create-once map.
- The failure to create an asset URL after a lease was granted: it ends the call after its last store access.
- sha256, `json.dumps` sizes, the request digest and the identifier patterns: uninterpreted functions of `Service.Config`.
- Audit rows, worker views, queue depth, logging, fixed recipe data, and the record columns for GPU telemetry, cost class, active leases and the busy job: nothing modelled depends on them.
- The service's steps are functions on the stores' contents rather than calls of the store classes, because runs interleave them; the classes' methods are proved equal to the functions the steps use.
- Job ids other than canonical lower-case uuid texts in SQL: these order as their uuids do.
- Clock skew between the stores and the service: there is one clock.
- Floating-point rounding in the limiter and non-finite numbers in requests: the reals take their place.
- `str.lower()` and SQL `lower()` beyond the ASCII letters: `Contracts.Lower` folds ASCII only.
- Subprocesses, the engine runner, ComfyUI probing, submission and polling, GPU sampling, poll backoff and progress: operating-system and network effects.
- Whether a request the agent began arrived: it counts as sent, and what the coordinator does with it is the protocol's part.
- The content type `describe` reports and the failure of a read between two steps other than a missing or oversized object.
- The `seed` field of a validated request, and which of several rejection messages is raised: requests are accepted or refused.
- The file left behind by a download that fails half-way, and the directory names: `DownloadInputs` maps keys to file names only.
- JSON Schema keywords the published schemas do not use.
