# A model of firerunner, with proofs

firerunner runs GitHub Actions jobs on ephemeral microVMs and EC2 instances. This project models the
parts of it that must stay right under concurrency and failure, and proves what they promise. Each
part is a set of specification functions (one per section of code that runs under a lock), the classes
and loops that implement them, a transition system in which everything else interleaves, and theorems
about every run.

- **Runner scheduler** (`Scheduling`, `SchedulerCode`, `SchedulerRuns`, `SchedulerFacts`,
  `SchedulerSafety`, `SchedulerPass`, `SchedulerTheorems`, `SchedulerRace`, `SchedulerSecondPass`,
  `SchedulerTiers`, `SchedulerEffects`): the warm-pool controller with its launch goroutines, remove
  loop, lost-runner check and GitHub. GitHub is a small environment that registers, assigns and removes
  runners; a failed DELETE took effect before its error came back or never does.
- **Cache store** (`CacheStore`, `CacheLookup`, `CacheEviction`, `CacheServerCode`, `CacheRuns`,
  `CacheSafety`, `CacheSteps`, `CacheTheorems`, `CacheMatch`, `CacheEffects`, `CacheScenes`,
  `CacheOrphans`, `CacheRoundTrip`): reserve, upload, finalize, match, evict and reclaim, with uploads
  that hold an entry's lock while creating and reclaiming do not take it.
- **Job-identity leases** (`JobIdentity`, `Leases`, `Slots`, `LeaseRuns`, `LeaseSafety`,
  `LeaseTheorems`, `LeaseEffects`, `Scope`; `EndToEnd` joins them to the cache): generations across slot
  reuse, late resolver answers, failed revocations and file operations that fail after they took effect.
- **EC2 stopped pool** (`Pool`, `PoolRuns`, `PoolSafety`, `PoolOwners`, `PoolTheorems`, `PoolEffects`):
  the pool's loop, resizes, claims, waiters, cold launches and the reaper calling AWS at once.
- **Sequential algorithms**: the streaming marker detector (`Markers`), schedule windows and the tier
  catalog (`Schedule`, `Tiers`), handing out JIT configs once (`Jit`), single-flight resolution
  (`Resolver`) and the cache scope decision (`Policy`, `PolicyGrants`).

The modules named `...Effects` (and `CacheMatch`, `PolicyGrants`) say what each operation does in terms
of runners, entries, records and instances alone, over every run where it is a step of one: whom an
answer cancels, which entry a lookup finds, whose rights a record carries, where each instance goes.

Where the code and its comments part ways the model follows the code, and three promises have their
exact limits proved.

- No job is cancelled before shutdown exactly when there is a remover or the tier's limit is zero
  (`SchedulerRace.NoJobIsCancelledExactly`).
- A second planning pass changes nothing exactly when the first met the count or emptied the removal
  queue (`SchedulerPass.SecondPass`); a completed runner in that queue can prevent it
  (`SchedulerSecondPass.SecondPassMayChange` gives a run).
- Entry ids are unique only within one process. Isolation, immutability and one entry per key hold from
  every start; that what is served under an id this process hands out is its owner's upload holds
  exactly for ids under which the start found no blob and no staged block within the per-entry cap
  (`CacheTheorems.ServedBytes`, `CacheOrphans.OwnersExactly`). An upload that outlives its reservation
  leaves such a blob behind for the next process (`CacheOrphans.LateUploadIsServed`).

Assumptions: GitHub's answers are linearizable; AWS names an instance's spot request correctly when it
describes the instance; generations, launch names and spot request ids are fresh; the clock does not
go back; files are replaced atomically.

`dafny verify dfyconfig.toml` checks the whole project.

## Model

| member | source | states |
|---|---|---|
| SchedulerTheorems.NoJobIsCancelled | internal/scheduler/scheduler.go:322-466 | With a remover and before shutdown, a runner whose VM is cancelled has no job then and never gets one later: GitHub no longer knows it, in every interleaving of assignment, marks, ambiguous deletes, retries and lost-runner cancels |
| SchedulerTheorems.OnlyTheWatcherMayRace | internal/scheduler/scheduler.go:731-759 | Even during shutdown, a cancelled runner that GitHub has working was cancelled by the shutdown watcher, never by scale-down or as lost |
| SchedulerRace.NoJobIsCancelledExactly | internal/scheduler/scheduler.go:322-354 | Before shutdown no run cancels a runner with a job exactly when there is a remover or the limit is zero, for every limit and minimum |
| SchedulerRace.JobCancelledWithoutRemover | internal/scheduler/scheduler.go:322-354 | Without a remover, for every positive limit and every minimum, some run cancels a VM whose runner was just assigned a job |
| SchedulerTheorems.CountersAgree | internal/scheduler/scheduler.go:158-187 | In every reachable state each counter is the number of launches in the phase it stands for, 0 <= running <= max, pending <= live, and the clamp in Capacity never acts |
| SchedulerTheorems.DrainNeverGrows | internal/scheduler/scheduler.go:888-893 | From the moment a drain begins the number of in-flight launches never rises |
| SchedulerTheorems.RemovalDiscipline | internal/scheduler/scheduler.go:361-466 | Queued names are distinct, the one in flight is not queued, a queue has exactly its one loop, and until shutdown every removing, uncancelled handle is queued or in flight |
| SchedulerTheorems.OneLoop | internal/scheduler/scheduler.go:339-353 | In every run a pass, for a count or a new minimum, starts a remove loop only when none runs |
| SchedulerTheorems.FinishLive | internal/scheduler/scheduler.go:296-310 | Leaving running commits at most one launch, only after a completion and a later count, and never lifts live above what is asked |
| SchedulerTheorems.ExitReplans | internal/scheduler/scheduler.go:587-597 | An exit re-plans only if its completion was reported and a count came in since, with at most one launch, never more running than before, nor live above desired |
| SchedulerTheorems.ReplansBounded | internal/scheduler/scheduler.go:296-310 | Over any run re-planned launches never outnumber exits of runners whose job was done |
| SchedulerEffects.AnswerActedOn | internal/scheduler/scheduler.go:440-466 | In every run, acting on an answer about a tracked, uncancelled runner cancels it exactly if GitHub removed it and it was not busy, marks it busy if GitHub says so, unmarks it if it is still there or busy, queues it again exactly if nothing is known and it was not busy, and touches nobody else |
| SchedulerEffects.AnswerMeans | internal/listener/scaleset.go:729-760 | In every run each reply of GitHub to the look-up, the delete and the check after it is taken for what it means: gone, running a job, still there or unknown |
| SchedulerEffects.NextInOrder | internal/scheduler/scheduler.go:418-433 | The remove loop takes the first queued runner still to be removed, uncancelled and not busy, leaving what is behind it; it ends only when the queue has none |
| SchedulerEffects.JobSignals | internal/scheduler/scheduler.go:688-710 | In every run a start or completion report marks its runner busy, or completed at the current count, and nobody else |
| SchedulerEffects.CancelSignals | internal/scheduler/scheduler.go:731-759 | In every run the lost-runner check cancels the runner exactly if it is idle and not being removed, the shutdown watcher exactly if it is not busy |
| SchedulerEffects.ExitMeans | internal/scheduler/scheduler.go:574-609 | In every run a VM that is over is tracked no more, and its launch backs off exactly if it failed and nobody had cancelled it |
| SchedulerEffects.BusyIsSafe | internal/scheduler/scheduler.go:688-710 | From the report of its job until its VM is over, an uncancelled runner stays busy and is cancelled by nobody, with or without a remover, shutdown included |
| SchedulerEffects.CountIsMet | internal/scheduler/scheduler.go:201-247 | In every run a reported count is met at once: that many live over the minimum, or the tier full, or draining; more only where nothing idle is left |
| SchedulerEffects.MinimumIsMet | internal/scheduler/scheduler.go:766-785 | In every run a new minimum is stored and, when a count is known and the context is live, met by the same measure |
| SchedulerEffects.MinimumKept | internal/scheduler/scheduler.go:803-832 | In every run a top-up brings running up to the minimum or to max, never beyond, and launches nothing while draining |
| SchedulerEffects.ReplanExactly | internal/scheduler/scheduler.go:296-310 | A re-plan launches one runner exactly when a count is known, nothing stops it, fewer are live than asked for, there is room, and no queued removal can be recalled |
| SchedulerEffects.LeavingReplans | internal/scheduler/scheduler.go:481-498 | In every run a launch that goes for good gives its place up at once, and exactly if its completion was reported, a count came in since and too few are left is a queued removal recalled or, none being there and room left, one more launched |
| SchedulerEffects.PicksIdle | internal/scheduler/scheduler.go:322-354 | Scale-down picks the first idle runners it comes to, as many as are too many and no others: queued in that order behind those already queued, or cancelled for want of a remover |
| SchedulerEffects.ReclaimsNone | internal/scheduler/scheduler.go:361-375 | Reclaiming gives back nothing exactly when nothing is needed or nothing queued can be recalled |
| SchedulerEffects.ReclaimsFromBack | internal/scheduler/scheduler.go:361-375 | Reclaimed are the runners queued last; one still queued, or never queued, is as it was |
| SchedulerEffects.LiveIsCount | internal/scheduler/scheduler.go:179-187 | In every run live is the number of launches that can still take a job: not backing off, cancelled, being removed or completed |
| SchedulerPass.PassMeets | internal/scheduler/scheduler.go:213-247 | A pass ends with live at least desired or running at max, or draining, when it launches nothing; it never lifts live above desired nor scales it below, stops above only with nothing idle left, and touches no busy runner |
| SchedulerPass.SecondPass | internal/scheduler/scheduler.go:213-247 | A second pass right after the first changes nothing exactly when the first ended with the count met or the removal queue empty |
| SchedulerPass.PassSettles | internal/scheduler/scheduler.go:213-247 | With no completed runner queued for removal a pass does end so, and boots only once no removal is left to recall |
| SchedulerSecondPass.SecondPassMayChange | internal/scheduler/scheduler.go:361-375 | With a completed runner in the removal queue a second pass can still change the state: a run that gets there |
| SchedulerPass.ScaleDownMeets | internal/scheduler/scheduler.go:322-354 | Scale-down ends at the floor or with nothing idle, never below the floor |
| SchedulerPass.PickManyUntouched | internal/scheduler/scheduler.go:322-354 | A busy, cancelled or removing runner is never picked |
| SchedulerPass.ReclaimLive | internal/scheduler/scheduler.go:361-375 | Reclaiming raises live by at most what is needed and stops short only on an empty queue |
| SchedulerTiers.SharedCountExact | internal/scheduler/scheduler.go:65-71 | For any number of tiers the shared pending count is the sum of their pending launches and those between the two halves of entering, so no tier is undercounted |
| SchedulerTiers.CapacityHonest | internal/scheduler/scheduler.go:870-883 | In every run of any number of tiers, capacity is between 0 and max, and what it counts on booting or launching fits the free slots as read |
| SchedulerTiers.CapacityLargest | internal/scheduler/scheduler.go:870-883 | In every run capacity is the largest count that can be served: a count is within it exactly if live runners, launches up to max, and free slots nobody speaks for can make it up |
| SchedulerTiers.CapacityServed | internal/scheduler/scheduler.go:870-883 | In every run, with or without a slot limit, a count within the advertised capacity is met by one pass, whose launches fit the free slots nobody speaks for |
| SchedulerSafety.InvStep | internal/scheduler/scheduler.go:390-466 | Every step of every actor keeps the invariant the theorems rest on |
| SchedulerSafety.CountsStep | internal/scheduler/scheduler.go:470-638 | Every step keeps every counter equal to the launches it counts, across the gaps between enter and track, exit and backoff, backoff and finish |
| SchedulerSafety.MovesCounts | internal/scheduler/scheduler.go:497-521 | Leaving pending in two halves, being tracked, backing off and waking each keep every counter at the launches it counts |
| SchedulerSafety.SettleQueue | internal/scheduler/scheduler.go:440-466 | Whatever the answer to a removal, the queue stays in order and (until shutdown) nothing is left marked removing, uncancelled and forgotten |
| SchedulerSafety.SettleFollows | internal/scheduler/scheduler.go:440-466 | An answer cancels nobody but the runner it is about, and that one only when the answer is that GitHub removed it; when it must is SchedulerEffects.AnswerActedOn |
| SchedulerSafety.SignalsFollow | internal/scheduler/scheduler.go:688-759 | A signal cancels only runners GitHub no longer knows, except for the shutdown watcher, which cancels only the runner it is at; a completed runner stays busy |
| SchedulerSafety.QueueStep | internal/scheduler/scheduler.go:390-466 | Every step keeps the removal queue in order |
| SchedulerSafety.CancelsStep | internal/listener/scaleset.go:729-760 | Every step cancels only names GitHub no longer has, given what each outcome of RemoveRunner means |
| SchedulerCode.Scheduler.LiveCount | internal/scheduler/scheduler.go:179-187 | live is running less backing-off and dismissed handles, whatever order the map is ranged in |
| SchedulerCode.Scheduler.CommitLaunches | internal/scheduler/scheduler.go:254-258 | The tier and the shared count take on the same number of launches |
| SchedulerCode.Scheduler.ReclaimFromQueue | internal/scheduler/scheduler.go:361-375 | The loop from the back of the queue is the reclaim function |
| SchedulerCode.Scheduler.ScaleDownIdle | internal/scheduler/scheduler.go:322-354 | The loop over the active map picks as the specification does for the order it happens on |
| SchedulerCode.Scheduler.ReconcileSection | internal/scheduler/scheduler.go:213-247 | The locked pass: reclaim, plan, commit or scale down |
| SchedulerCode.Scheduler.ReconcileJobs | internal/scheduler/scheduler.go:201-208 | A reported count is recorded and planned for |
| SchedulerCode.Scheduler.ChangeMin | internal/scheduler/scheduler.go:766-785 | A new minimum is planned for at once if a count is known |
| SchedulerCode.Scheduler.TopUp | internal/scheduler/scheduler.go:803-832 | The locked part of one tick of keeping the minimum |
| SchedulerCode.Scheduler.ReplanSection | internal/scheduler/scheduler.go:296-310 | Re-planning after an exit commits at most one launch |
| SchedulerCode.Scheduler.FinishLaunch | internal/scheduler/scheduler.go:481-498 | Leaving running, with a re-plan if the job was done |
| SchedulerCode.Scheduler.LaunchReturned | internal/scheduler/scheduler.go:574-609 | What an exit does to the handle, the counters and the plan |
| SchedulerCode.Scheduler.NextQueued | internal/scheduler/scheduler.go:418-433 | The loop skips stale names and unmarks busy ones |
| SchedulerCode.Scheduler.RemoveLoopTop | internal/scheduler/scheduler.go:390-413 | An empty or cancelled loop clears the queue and its active flag in one section |
| SchedulerCode.Scheduler.CapacityNow | internal/scheduler/scheduler.go:870-883 | The method that answers; that its answer is the largest honest one is SchedulerTiers.CapacityLargest |
| SchedulerCode.BackoffDelay | internal/scheduler/scheduler.go:655-667 | The delay is the base doubled once per further failure, or the maximum |
| CacheTheorems.LoggedByOwner | internal/cacheserver/cacheserver.go:496-528 | Every successful upload was made under the generation, job and run that reserved its entry |
| CacheTheorems.ServedBytes | internal/cacheserver/cacheserver.go:725-756 | Whatever is served comes from a completed entry of the reader's repository and a readable ref and equals what was sealed; for an entry reserved under a clean id it is the last successful PUT or block list of the reserving generation, job and run |
| CacheOrphans.OwnersExactly | internal/cacheserver/cacheserver.go:941-960 | For an id still to be handed out, every run serves under it only its owner's uploads exactly when the process starts with no blob and no fitting staged block under it |
| CacheOrphans.OrphanIsServed | internal/cacheserver/cacheserver.go:941-960 | A blob left under such an id is handed to any newcomer by some run, finalized and served though nobody uploaded it |
| CacheOrphans.OrphanBlockIsServed | internal/cacheserver/cacheserver.go:580-656 | and so is a staged block within the cap |
| CacheOrphans.LateUploadIsServed | internal/cacheserver/cacheserver.go:917-935 | How that comes about: an upload that outlives its reservation leaves a blob past every indexed id, and a run of the restarted process serves it to somebody else |
| CacheTheorems.FinalizedForever | internal/cacheserver/cacheserver.go:496-528 | After finalize an entry's bytes, size, scope, key and owner never change and no upload to it gets through |
| CacheTheorems.OneEntryPerKey | internal/cacheserver/cacheserver.go:351-399 | There is never more than one entry per repository, non-empty ref, key and version |
| CacheTheorems.FinalizedFits | internal/cacheserver/cacheserver.go:530-578 | Nothing is finalized or stored past the per-entry cap under an id handed out by this process, unless a blob past it lay there at the start |
| CacheOrphans.CapExactly | internal/cacheserver/cacheserver.go:530-578 | and that proviso is exact: a blob past the cap under such an id is finalized by some run |
| CacheTheorems.StagedWithinCap | internal/cacheserver/cacheserver.go:547-578 | In every run what an entry is charged for its uploads stays within the per-entry cap, blocks and block lists included |
| CacheTheorems.FinalizeKeepsCap | internal/cacheserver/cacheserver.go:425-452 | In every run a finalize under a size cap leaves the completed and staged bytes within it, or nothing else evictable |
| CacheTheorems.StreamIsPut | internal/cacheserver/cacheserver.go:981-995 | A PUT cut into pieces any way comes to the same as one write of the whole |
| CacheSteps.InvStep | internal/cacheserver/cacheserver.go:333-456 | Every step of every request, the janitor and eviction keeps the store invariant and takes nothing sealed or served back |
| CacheSteps.KeptOnRuns | internal/cacheserver/cacheserver.go:496-528 | Over any stretch of a run sealed bytes, answers and an entry's identity stay |
| CacheSteps.CommitAllOrNothing | internal/cacheserver/cacheserver.go:580-656 | A block list is all or nothing: the blob becomes the blocks concatenated exactly when no I/O error comes, all are staged and the whole fits, else it stays |
| CacheSteps.KeyIsFree | internal/cacheserver/cacheserver.go:351-399 | Once the reservation found for a key is reclaimed no entry has that key |
| CacheRoundTrip.UploadIsServed | internal/cacheserver/cacheserver.go:333-756 | From any start, whoever has a free key can reserve it, upload any bytes within the cap and finalize them; a lookup by any job that reads that ref first then finds the entry whatever restore keys it names, and the bytes served are those uploaded |
| CacheEffects.CreateAnswers | internal/cacheserver/cacheserver.go:333-405 | Reserving answers NoScope exactly without a write ref, Exists exactly if the key is completed, BeingCreated exactly if a reservation for it was used in the last half hour, SaveFailed or the next id otherwise |
| CacheEffects.CreateReserves | internal/cacheserver/cacheserver.go:369-399 | A reservation is the creator's, for the key asked for; it takes the place of a stale one and its files, and every other entry and file stays |
| CacheEffects.FinalizeAnswers | internal/cacheserver/cacheserver.go:418-452 | Finalizing succeeds exactly for the owner of a reservation still there whose blob has the size the request names; each refusal exactly in its case, changing nothing |
| CacheEffects.FinalizeSeals | internal/cacheserver/cacheserver.go:425-452 | A finalized entry has its blob's size and keeps its blob and what it was reserved as; what else goes is what an eviction takes |
| CacheEffects.GcTakes | internal/cacheserver/cacheserver.go:917-935 | The janitor takes exactly the reservations not used for half an hour, with their files |
| CacheEffects.PutKeeps | internal/cacheserver/cacheserver.go:530-545 | A PUT is kept exactly if its body came whole and fits the cap; then the blob is the body and is charged, otherwise there is none |
| CacheEffects.BlockKeeps | internal/cacheserver/cacheserver.go:547-578 | A block is kept exactly if named, whole and within what the entry has left of the cap; other blocks stay |
| CacheEffects.CommitCharges | internal/cacheserver/cacheserver.go:580-656 | A committed list leaves no blocks and charges the whole; past the cap the blocks go and nothing is charged |
| CacheEffects.LetIn | internal/cacheserver/cacheserver.go:496-528 | In every run a blob request goes on exactly if it may: to write for the reservation's own job under its generation, to read for a completed entry of the reader's repository and a readable ref |
| CacheLookup.FirstHitMeans | internal/cacheserver/cacheserver.go:786-807 | A match is the newest hit of the first search that has one; a miss means no search has any |
| CacheLookup.LookupSeesOnlyItsScope | internal/cacheserver/cacheserver.go:786-831 | A lookup depends on completed entries of its repository, readable refs and version alone |
| CacheMatch.MatchMeans | internal/cacheserver/cacheserver.go:786-807 | A lookup gives the best match, stated without the searches: the first ref with any, then the exact key, its prefix, restore key j exact then prefix with smaller j first, then the latest created and the higher id |
| CacheMatch.ScopeMeans | internal/cacheserver/cacheserver.go:787-805 | and within one ref alone |
| CacheMatch.BestMatchUnique | internal/cacheserver/cacheserver.go:786-844 | There is only one best match, so that statement fixes the answer |
| CacheEffects.LookupTouches | internal/cacheserver/cacheserver.go:810-831 | A lookup marks its match as used now and changes nothing else |
| CacheStore.NewestUnique | internal/cacheserver/cacheserver.go:836-844 | There is one newest hit, so map iteration order does not matter |
| CacheStore.VictimUnique | internal/cacheserver/cacheserver.go:909-914 | There is one least recently used entry to evict |
| CacheEviction.EvictionExact | internal/cacheserver/cacheserver.go:871-905 | Eviction ends with completed and staged bytes within the cap or nothing evictable, having taken exactly a minimal prefix by last use, never the kept entry |
| CacheEviction.EvictionUnique | internal/cacheserver/cacheserver.go:871-914 | That prefix is the only one: what is evicted does not depend on iteration order |
| CacheEffects.EvictsOldest | internal/cacheserver/cacheserver.go:871-914 | Whatever is evicted was last used before anything evictable that stays, the lower id first among equals |
| CacheServerCode.Server.constructor | internal/cacheserver/cacheserver.go:941-960 | The next id follows every id the loaded index holds, and no more |
| CacheServerCode.Server.Search | internal/cacheserver/cacheserver.go:760-782 | The search loop finds the newest hit |
| CacheServerCode.Server.MatchRestoreKeys | internal/cacheserver/cacheserver.go:797-804 | Restore keys are tried in order, exact before prefix |
| CacheServerCode.Server.MatchScope | internal/cacheserver/cacheserver.go:787-805 | Within a ref the best match: the exact key, then its newest prefix, then each restore key exact before prefix, smaller index first; newest means latest created, then the higher id |
| CacheServerCode.Server.Match | internal/cacheserver/cacheserver.go:786-807 | The best match over the readable refs: a ref that has any is never passed over, and within it the order of MatchScope |
| CacheServerCode.Server.CreateEntry | internal/cacheserver/cacheserver.go:333-405 | Reserve, refuse, or take over a stale reservation; the id is used up even when saving fails |
| CacheServerCode.Server.TotalBytes | internal/cacheserver/cacheserver.go:875-883 | Completed plus staged bytes, in any order |
| CacheServerCode.Server.FindVictim | internal/cacheserver/cacheserver.go:885-893 | The loop finds the least recently used evictable entry |
| CacheServerCode.Server.EvictLRU | internal/cacheserver/cacheserver.go:871-905 | The eviction loop and how many it took |
| CacheServerCode.Server.FinalizeEntry | internal/cacheserver/cacheserver.go:425-452 | Seal, or why not |
| CacheServerCode.Server.Reclaim | internal/cacheserver/cacheserver.go:917-935 | Exactly the abandoned reservations go |
| CacheServerCode.Server.WriteBlob | internal/cacheserver/cacheserver.go:981-995 | The blob is truncated and takes the body up to the cap |
| CacheServerCode.Server.UploadSingle | internal/cacheserver/cacheserver.go:530-545 | A whole PUT; a broken or oversized one leaves no blob |
| CacheServerCode.Server.CommitBlockList | internal/cacheserver/cacheserver.go:580-656 | The assembly loop, with an I/O error wherever it may come |
| JobIdentity.RightsAreExclusive | internal/jobidentity/identity.go:74-114 | A record never both grants rights and waits for them; whoever may write a ref may read it |
| LeaseTheorems.GrantsAreOwn | internal/cacheserver/scope.go:100-128 | A connection bound to a generation is only ever granted the identity resolved for that generation's own lease |
| LeaseTheorems.OneJobPerGeneration | internal/jobidentity/registry.go:177-234 | What a generation was made for and the job it started never change |
| LeaseTheorems.RevokedAtOnce | internal/jobidentity/registry.go:157-173 | Once a lease was released successfully its generation is granted nothing more |
| LeaseTheorems.RevokedByExpiry | internal/jobidentity/registry.go:157-173 | After any release, failed ones included, a grant can only come from the record left behind, which is never renewed, and only before that record expires |
| LeaseTheorems.SlotsExclusive | internal/provisioner/firecracker.go:233-254 | Live launches never share a slot or guest address; each slot is free once, held by one launch, or quarantined |
| LeaseTheorems.QuarantinedForever | internal/provisioner/firecracker.go:240-248 | A slot whose release failed is never handed out again |
| LeaseTheorems.ConnectsAsItself | internal/cacheserver/scope.go:30-41 | A connection from a running VM's address is bound to that VM's generation |
| LeaseTheorems.InvStep | internal/jobidentity/registry.go:128-244 | Every step keeps leases, records, slots and grants consistent, whatever file operations fail or took effect |
| LeaseSafety.AnswerInv | internal/jobidentity/registry.go:199-233 | Whatever the answer and whenever it comes, leases, records, slots and grants stay consistent, and nothing known of a generation is taken back |
| LeaseEffects.AnswerPublishes | internal/jobidentity/registry.go:199-233 | In every run an answer that comes while its lease is there publishes exactly its rights under the lease's own address, runner and generation; a missing or unusable one, or one that cannot be published, leaves the lease unresolved and its record too once that is written; no other lease or record changes |
| LeaseEffects.LateChangesNothing | internal/jobidentity/registry.go:199-233 | In every run an answer for a lease that is gone or was replaced changes no lease and no record |
| LeaseEffects.ResolvedIsGranted | internal/cacheserver/scope.go:72-128 | In every run what a VM's connection asks after a usable answer was published, before the record expires, is granted with the refs the resolver named |
| LeaseEffects.LookupMeans | internal/cacheserver/scope.go:72-128 | In every run a look grants exactly when the record at the connection's address is valid and of its generation, and grants that record's rights |
| LeaseEffects.ConnectMeans | internal/cacheserver/scope.go:30-41 | In every run a connection is bound to the generation in the record at its address, to none without one |
| LeaseEffects.RegisterMeans | internal/jobidentity/registry.go:128-153 | In every run a VM gets its lease exactly when its slot makes an address, it has a name, neither name nor address is leased and its record was published; that record is its own and grants nothing |
| LeaseEffects.StartMeans | internal/jobidentity/registry.go:177-193 | In every run the first job reported for a lease is noted for its generation, put in its record without rights and handed to the resolver; any other report changes nothing |
| LeaseEffects.ReleaseMeans | internal/jobidentity/registry.go:157-173 | In every run a release ends its lease at once, gives the slot back only if the record is gone for certain and quarantines it otherwise |
| LeaseEffects.RenewMeans | internal/jobidentity/registry.go:236-244 | In every run a renewal extends the record of its lease for ninety seconds, and no other |
| LeaseSafety.ReleaseInv | internal/jobidentity/registry.go:157-173 | A release, failed or not, leaves no lease and keeps every record its own generation's |
| LeaseSafety.StartInv | internal/jobidentity/registry.go:177-193 | The first report for a lease notes its job without giving rights: every record, lease and grant stays its own generation's, and no job or holder noted before changes |
| LeaseSafety.SlotTaken | internal/provisioner/network.go:149-158 | Taking a slot keeps each slot free once, held by one launch or quarantined |
| LeaseSafety.SlotBack | internal/provisioner/network.go:168-172 | and so does giving one back |
| Leases.RenewAllMeans | internal/jobidentity/registry.go:236-244 | A renewal extends each lease's own record and no other, in any order |
| Leases.Registry.RegisterVM | internal/jobidentity/registry.go:128-153 | Register refuses bad input and taken names and addresses, else publishes a pending record |
| Leases.Registry.Refresh | internal/jobidentity/registry.go:236-244 | Every lease's record is renewed |
| Scope.AwaitIdentity | internal/cacheserver/scope.go:100-128 | The polling loop |
| Scope.AwaitMeans | internal/cacheserver/scope.go:100-128 | A request is granted exactly when some look finds a valid record of its own generation and all before found that lease pending in time |
| Scope.DenialMeans | internal/cacheserver/scope.go:100-139 | A request is denied for a reason exactly when the first look that does not find its lease waiting in time gives that reason, or it waited in vain |
| Scope.LookGrants | internal/cacheserver/scope.go:72-95 | One look of that loop grants what the interleaved lookup grants |
| Slots.GuestIPInjective | internal/provisioner/network.go:35-44 | Different slots have different guest addresses |
| LeaseEffects.GuestIsAddress | internal/provisioner/network.go:35-44 | That address is an IPv4 address exactly if base and slot fit an octet |
| Slots.Ipam.constructor | internal/provisioner/network.go:140-146 | The pool starts with every slot once |
| LeaseEffects.SlotsMean | internal/provisioner/network.go:149-172 | In every run a launch takes the slot given back last, and a slot given back is free again |
| EndToEnd.ServedToItsJob | internal/cacheserver/scope.go:72-158 | Across cache and leases: bytes served to a granted identity come from the repository of the job on that connection's own lease, under a ref resolved for it |
| EndToEnd.UploadedByItsOwner | internal/cacheserver/scope.go:72-158 | Across cache and leases: what is uploaded under a granted identity goes only to entries its own lease, job and run reserved |
| PoolTheorems.NeverTerminatesOpen | internal/ec2/pool.go:520-542 | No TerminateInstances call, by any actor in any interleaving with any failures, names an instance whose persistent spot request is open |
| PoolTheorems.OnePlaceOnly | internal/ec2/pool.go:325-483 | Every instance is at most once ready, or warming, or with one launch, or with one resize's trim, or with the pool's own loop |
| PoolTheorems.GivenOnce | internal/ec2/pool.go:325-366 | An instance given to one launch is never given to another nor returned to the pool |
| PoolOwners.ClaimOwners | internal/ec2/pool.go:325-341 | A claim moves an instance from the ready list to one launch and leaves every other where it was |
| PoolOwners.GivenBack | internal/ec2/pool.go:371-384 | A claim that gives its instance up, to warming, to the front of the ready list or to nobody, leaves every instance in one place |
| PoolOwners.MarkOwners | internal/ec2/pool.go:252-265 | Marking an instance ready, or failing to tag it, leaves every instance in one place |
| PoolSafety.SpotsStep | internal/ec2/provisioner.go:218-258 | Every step keeps each actor's record of the spot request right and a closed request closed |
| PoolSafety.EndsOk | internal/ec2/provisioner.go:336-356 | Whoever is ending an instance knows its request and terminates only once it is closed |
| PoolSafety.TerminateSpots | internal/ec2/reaper.go:262-279 | Terminating, by whichever actor, keeps that |
| PoolOwners.OwnersStep | internal/ec2/pool.go:207-483 | Every step keeps each instance in the one place its owner names |
| PoolEffects.CheckMoves | internal/ec2/pool.go:388-435 | In every run one description checked moves nothing if it says stopped or its instance is not ready any more; else that instance alone leaves the ready list, to be followed as warming, or if gone to have its request cancelled |
| PoolEffects.CheckFollows | internal/ec2/pool.go:371-435 | In every run the first is then warming from now, and the other has had its request cancelled if the call took effect and is nobody's |
| PoolEffects.CheckSorts | internal/ec2/pool.go:388-435 | A check with nothing in between leaves ready exactly the ready instances no description called other than stopped, and warming exactly those that were and those first described running again |
| PoolEffects.StoppedStays | internal/ec2/pool.go:388-435 | Whatever others do meanwhile, the check itself takes out no instance that no description left calls other than stopped |
| PoolEffects.RefreshMoves | internal/ec2/pool.go:207-249 | In every run a description of a warming instance has it tagged if stopped, followed no longer if gone, discarded if it overstayed, and changes nothing otherwise |
| PoolEffects.DiscardsExactly | internal/ec2/pool.go:231-245 | In every run the pool discards an instance exactly when it is described neither stopped nor gone and has warmed for more than 600 seconds |
| PoolEffects.MarkMoves | internal/ec2/pool.go:252-265 | In every run a stopped instance that was tagged goes from warming to the end of the ready list, and one that was not stays |
| PoolEffects.DiscoverMoves | internal/ec2/pool.go:180-203 | In every run rediscovery tags a stopped instance and follows any other as warming |
| PoolEffects.TrimMoves | internal/ec2/pool.go:132-150 | In every run a trim, by the loop or a resize, takes the last ready instance exactly if more are ready than the target, and starts by cancelling its request if it has one |
| PoolEffects.TrimUndone | internal/ec2/pool.go:520-542 | A trim whose three cancels all fail leaves the pool as it was and terminates nothing |
| PoolEffects.EndingMoves | internal/ec2/pool.go:520-542 | In every run a successful cancel is followed by a terminate, a failed one by another try while tries are left; after the last, or a failed terminate, the instance is left to its place |
| PoolEffects.ClaimMoves | internal/ec2/pool.go:325-366 | In every run a claim takes the first ready instance; not stopped it goes back to warming, gone it is ended, and on any other error it goes back to the front unless it was tagged and could not be tagged back |
| PoolEffects.ClaimUndone | internal/ec2/pool.go:462-483 | A claim that fails for a reason other instances share leaves the pool as it was |
| PoolEffects.FillMoves | internal/ec2/pool.go:269-311 | In every run a launch adds one warming instance and clears the failures; the n-th failure in a row waits 2, 4, ... 256, then 300 seconds |
| Pool.TrimEnds | internal/ec2/pool.go:132-150 | A trim by itself ends at the target, at a discard that failed, or with its context, having ended exactly the instances past those left |
| Pool.FillMeets | internal/ec2/pool.go:269-302 | Filling adds one warming instance per launch and reaches the target exactly |
| Pool.PoolCode.Trim | internal/ec2/pool.go:132-150 | The trim loop |
| Pool.PoolCode.TakeById | internal/ec2/pool.go:439-449 | The search loop takes exactly the named instance |
| Pool.PoolCode.Fill | internal/ec2/pool.go:269-302 | The fill loop rechecks the target before each launch |
| Pool.PoolCode.Failed | internal/ec2/pool.go:304-311 | Failures back off, doubling up to the cap |
| Markers.Detects | internal/provisioner/firecracker.go:715-764 | Over any split of the stream the detector has fired exactly when the whole so far holds a marker; until then its tail is the last keep bytes |
| Markers.HitsOnce | internal/provisioner/firecracker.go:743-764 | onHit is called by the first write after which the whole holds a marker and by no other |
| Markers.ChunkingDoesNotMatter | internal/provisioner/firecracker.go:743-764 | Two splits of one stream leave the same state |
| Markers.MarkerDetector.constructor | internal/provisioner/firecracker.go:723-732 | keep is the longest marker less one |
| Markers.MarkerDetector.Write | internal/provisioner/firecracker.go:743-764 | One write, its new state and whether it called onHit |
| Schedule.CoversCyclic | internal/schedule/schedule.go:162-171 | A window covers exactly the minutes within its length of its start on a listed day, around the week |
| Schedule.MarkRange | internal/schedule/schedule.go:123-128 | The wrapping day loop ends and marks exactly the cyclic range |
| Schedule.ListDays | internal/schedule/schedule.go:102-130 | A window lists exactly the days its parts reach |
| Schedule.SizesNow | internal/schedule/schedule.go:177-194 | The loop over windows |
| Schedule.AtFirst | internal/schedule/schedule.go:177-194 | The first covering window sizes the moment; with none the base does |
| Schedule.LargestMin | internal/schedule/schedule.go:208-216 | The largest minimum any window asks for |
| Schedule.LargestPool | internal/schedule/schedule.go:197-205 | The largest stopped pool any window asks for |
| Schedule.AtWithin | internal/schedule/schedule.go:177-216 | At no moment is more kept, hot or stopped, than the base or the largest window |
| Tiers.ValidateTiers | internal/config/config.go:559-605 | The validation loop and the first fault it finds |
| Tiers.CheckWindows | internal/config/config.go:577-586 | The first fault among a tier's windows |
| Tiers.AcceptsExactly | internal/config/config.go:559-605 | A catalog is accepted exactly when each tier is named, bounded, of a known kind and within what that kind allows (for Firecracker cores, memory, golden image and slot budget), its windows too, names differ and the warm pools fit the budget |
| Tiers.BudgetKept | internal/config/config.go:134-167 | At every instant, in whatever time zones, an accepted catalog keeps the Firecracker minimums within the budget, each minimum within its maximum, each stopped pool within the largest it was sized for, and none for a Firecracker tier |
| Jit.ServedOnce | internal/jitserver/jitserver.go:159-173 | Each registration's config is answered at most once, unaltered, to its own address and before it expires |
| Jit.AnswersExactly | internal/jitserver/jitserver.go:106-173 | In every run a request is answered with the config of the registration its address holds exactly if that was never answered and has not expired, is forbidden exactly if the address holds none; and what a waiter is told, pending or served, is just that |
| Jit.PendingIsServed | internal/jitserver/jitserver.go:82-173 | In every run a registration is taken on exactly if it is complete and its address holds none, the first request in time is served it, and a revocation ends it |
| Jit.NeitherMeansNever | internal/ec2/provisioner.go:314-329 | When the waiter's two reads find neither pending nor served, that config was never served and never will be |
| Jit.NotPendingStays | internal/jitserver/jitserver.go:106-111 | While an address keeps its registration, not pending stays not pending |
| Jit.ClaimInv | internal/jitserver/jitserver.go:159-173 | Handing a config out, or refusing to, keeps every answer its own registration's and every registration answered at most once |
| Resolver.SingleFlight | internal/jobidentity/github.go:208-263 | At most one caller resolves for a repository, run and event; the memo is bounded; every caller is answered for its own job |
| Resolver.LookMeans | internal/jobidentity/github.go:214-237 | In every run a caller is answered from the memo if a policy of its run is fresh, waits exactly while another resolves that run, and else resolves |
| Resolver.FinishMeans | internal/jobidentity/github.go:239-261 | In every run a success is memoized for two minutes for whichever job of the run, dropping at most one other policy of a full memo; a failure is not; either way nobody waits on |
| Resolver.MemoServes | internal/jobidentity/github.go:208-263 | Whoever asks next for the same repository, run and event within two minutes gets the same policy under its own job id |
| Resolver.KeyInjective | internal/jobidentity/github.go:212 | The key tells repositories (up to case), runs and events apart |
| Resolver.MemoBounded | internal/jobidentity/github.go:242-258 | Saving a policy never grows the memo past its bound |
| Resolver.CachedIsOwn | internal/jobidentity/github.go:214-237 | What the memo answers a caller is an answer for that caller's own job, with its own job id |
| Resolver.Memo.Done | internal/jobidentity/github.go:239-261 | Memoize a success without its job, and let the others go on |
| Policy.DecisionSound | internal/jobidentity/github.go:267-390 | Whatever is decided is for the job asked about and makes a valid record, reading at least the default branch |
| PolicyGrants.DecidesExactly | internal/jobidentity/github.go:267-390 | A job gets an identity exactly if GitHub identifies its run and repository and the run is attributed: a pull_request run to exactly one of its candidates, a branch run to that branch of this repository; and these, no others and in this order, are the refs it then writes and reads |
| PolicyGrants.MatchMeans | internal/jobidentity/github.go:302-321 | Candidates settle on a pull request exactly if all could be looked up and just one belongs to the run |
| Policy.WritesOwnScope | internal/jobidentity/github.go:287-384 | A pull request writes only its own merge ref and a branch run only its own branch, so neither writes the other's scope |
| Policy.MatchPulls | internal/jobidentity/github.go:302-318 | The loop over candidate pull requests |
| Policy.RefsOf | internal/jobidentity/github.go:187-204 | The loop that builds the readable refs |
| Policy.RefsMean | internal/jobidentity/github.go:187-204 | Each non-empty ref once, the own ref first |
| Policy.MergeRefValid | internal/jobidentity/identity.go:48-53 | A merge ref is valid whatever the number |

## Left out

- Real time, sleeps and randomness: timers are steps that may come at any moment, names and generations are fresh.
- Methods that only set or step a field (entering, tracking, marking, draining, requeueing, publishing, claiming a config and the like) have no row above: what they mean is stated by the lemmas about the steps they are.
- nftables, iproute2, jailer and Firecracker REST calls, AWS and GitHub HTTP requests, pagination, tokens: only the outcomes they may have are modelled, as choices of a step.
- The artifact proxy, diagnostics, health, metrics, logging, CLI flags and the parsing of config files and week-day names: presentation or plumbing.
- JSON encoding, file permissions and ownership checks of records and the index.
- Runner names: a launch's name is the launch itself, since the generator makes fresh names; the registry and the slots take any names, repeated ones too.
- Scheduler contexts: one shutdown context per tier; a handle's cancelled flag stands for its cancelled context, and handles are values in the map rather than pointers.
- wg.Add after the lock is released: draining is stated on `running`, not on `Wait`.
- Scheduler.IdleRunners and the pacing of reconcile.Check: the lost-runner check may list idle runners at any time and ask about each in any order, which includes every pacing.
- Session recycling, reconnecting, message order and the client pool of the listener: messages reach the scheduler as steps in any order.
- CacheServerCode.Server.EvictLRU: does not model a file that cannot be removed; the code ignores that error too, here and wherever it removes a file.
- CacheTheorems.ServedBytes: is about one process; CacheOrphans says what a second one makes of the files of the first.
- Staged-byte accounting is not exact in the code (a PUT overwrites it, a late upload can set it for a reclaimed id); only its bound is stated.
- Cache lower-casing covers ASCII letters only.
- Registry.Close and the directory lock: they act only when the daemon stops.
- PoolSafety.TerminateSpots: does not model which instances the reaper picks (age, tags, deregistration, dry run); any instance may be reaped at any time, which is more than the reaper does.
- The EC2 waiter's timers (termination retries, maximum lifetime): it may terminate at any time and any number of times.
- RunInstances' walk over markets, types and subnets: a launch succeeds, fails, or takes effect and still returns an error.
- The connect watchdog, console log writers and VM exit classification: easy flags beside the marker detector.
- Tiers.ValidateTiers: does not model the fields of an EC2 block or the files named, which enter as two flags.
- Schedule.ListDays: takes the days as parsed numbers; "daily" is an empty list of parts.
- Policy.DecisionSound: takes GitHub's answers as given; the search for evidence that a commit was on a branch is one answer.
