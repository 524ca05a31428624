# llama-toolchest: the GPU memory arbiter and its jobs, verified

A Dafny model of the part of llama-toolchest that decides who gets GPU memory and for how long: the
lock between chat requests and unloads, making room for LLMs and for generation backends, reservations,
the store and the runners of generation jobs, a benchmark job's ownership of the router and of GPUs, the
startup move of model files, and the parsers that measure finished songs. Code that works by changing
things is a class or a method here, proved against a function of its old state; what the source promises
of it is then proved of that function or over every run of it.

| File | What it holds |
|---|---|
| `LlmUse.dfy` | the request and eviction lock as a class, and as any number of goroutines interleaved |
| `GpuPlan.dfy` | cards, plans, what backends and forks count for on each GPU |
| `StopBackends.dfy` | stopping backends largest first, and why no choice of them is smaller |
| `LoadedLlms.dfy`, `GenRoom.dfy` | the LLMs on a GPU by size, and making room for a generation job |
| `LlmRoom.dfy` | unloading idle LLMs, least recently used first, for Max Loaded and for memory |
| `NeverFits.dfy` | refusing a load before anything is unloaded for it |
| `LoadProtocol.dfy` | one load: the load mutex, the hold on job queues, the checks before it is sent |
| `LoadRace.dfy` | any number of loads at once, and Max Loaded |
| `Reservations.dfy`, `GenInstances.dfy` | reservations over every run of the handlers, and the handlers |
| `GpuFreed.dfy` | telling from readings that a card has given memory back |
| `JobStore.dfy`, `JobSaves.dfy` | the job store, and its records on disk under its two mutexes |
| `ImageJob.dfy`, `ImageCourse.dfy` | the image runner against cancel, delete and prune; how a job ends and what clients see |
| `JobEnv.dfy`, `KeptGpus.dfy` | whose options the router runs under, and the GPUs a job keeps |
| `GenMove.dfy` | the move of model files, with a crash between any two steps |
| `Mp3Length.dfy`, `WavLength.dfy`, `ByteStrings.dfy` | MP3 and WAV lengths against a grammar of frames and chunks |
| `Common.dfy` | Option and Result, maximum, minimum and sums |

Conventions. Concurrent code is a `World` and a total `Step`, where a step that is not enabled changes
nothing, so a lemma over every list of actions is one over every interleaving. The clock, the router, the
processes, the disk and the system monitor are parameters: an oracle says what each call to them comes to.
Sizes are whole MiB, lengths exact rationals.

Where the code falls short of what its comments or the obvious reading promise, the lemmas say exactly when:

- Cleanup after a benchmark job that reports success leaves no router of the job alive, exactly unless one was
  alive without counting as running: on its way up when its wait was given up, hung past its health check, or
  lost when another was started over a hung one. It takes "not running" for "stopped". The first kind then
  serves under the job's options with nobody owning it, the others live on until they exit by themselves
  (`JobEnv.CleanupGivesBack`, `JobEnv.LeakedRouterServes`, `JobEnv.CancelledWaitLeaks`,
  `JobEnv.HungRouterIsLost`; `internal/api/jobs_env.go:428-431` against the comment at `286-290`).
- A router the user stops stays stopped through cleanup exactly unless the job had stopped it for an evaluation
  before (`JobEnv.CleanupRestores`, `JobEnv.UserStopIsUndone`; `internal/api/jobs_env.go:424-428`).
- `StopRouterForEval` succeeds with no router process alive exactly unless one was alive without counting as
  running, or the router is up although the job has recorded a stop for an evaluation before, which it also does
  for a stop that failed (`JobEnv.StoppedForEvalMeansStopped`, with `JobEnv.EvalMeetsUsersStart`,
  `JobEnv.EvalMeetsJobsStart`, `JobEnv.SecondEvalFindsRouterUp` and `JobEnv.FailedStopCountsAsMade`).
- Max Loaded holds from a step on exactly when the router answers a count made at the limit, which else reads
  0, and no load is given up between being accepted and being listed; after any other step loads that do all
  right can go past it (`LoadRace.SoundIsExact`, `LoadRace.UnsoundStepsGoPast`).
- A load found blocked by busy models is sent without a reservation check. It keeps to the reservations exactly
  when that check would have passed on what is loaded (`LoadProtocol.SkippedCheck`, stated of every call by
  `LoadProtocol.Loader.LoadWithRoom`; `NeverFits.BusyBlockedLoadCrowdsOut` is a load for which it fails).
- A load that `neverFits` passes may be refused for a GPU it does not use, exactly when what stays overruns a
  reservation there (`NeverFits.RefusedElsewhere`, `NeverFits.RefusedThoughNeverFitsPasses`).
- With eviction on, the reservation of a running instance can be raised past its card (`Reservations.UncheckedRaise`).
- A removed job's record comes back, whatever happens later, exactly when a write of it was under way at its
  removal (`JobSaves.RemovedRecordComesBack`, `JobSaves.RemovedJobIsReopened`).
- The files of a job that has ended are those it lists exactly unless a failed write left part of one, which no
  job lists (`ImageJob.FilesMatchTheJob`, `ImageJob.PartialFileStays`).
- After a crash while sets are being pointed at a moved file, a component whose file is gone from its path is
  pointed at the file by a later run exactly when a catalog component still has that path, so a custom set can
  be stranded for good (`GenMove.WhoIsFound`, `GenMove.CrashStrandsCustomSet`). A wrong recorded size strands a
  catalog one (`GenMove.WrongSizeStrands`).

## Model

| member | source | states |
|---|---|---|
| LlmUse.Use.constructor | internal/api/gen_evict.go:60-88 | a new lock has no counts, no marks, no waiters and no channel yet |
| LlmUse.Use.Notify | internal/api/gen_evict.go:90-94 | closes the current channel, which wakes everyone asleep on it, and replaces it |
| LlmUse.Use.Enter | internal/api/gen_evict.go:96-112 | a call is granted at once when its condition holds, else it is counted as waiting on the channel that is open now |
| LlmUse.Use.Resume | internal/api/gen_evict.go:96-112 | back from its sleep a call stops being counted as waiting, and is cancelled, granted, or sleeps on the new channel |
| LlmUse.Use.WaitTurn | internal/api/gen_evict.go:96-148 | the outcome and the new lock are those of one turn of the wait loop |
| LlmUse.Use.TryEvict | internal/api/gen_evict.go:163-186 | marks a model for eviction exactly when no request and no other eviction is on it |
| LlmUse.Use.Touch | internal/api/gen_evict.go:190-196 | records a use and wakes nobody |
| LlmUse.Use.Busy | internal/api/gen_evict.go:206-210 | true exactly while requests are counted for the model or it is marked |
| LlmUse.Use.Finish | internal/api/gen_evict.go:123-186 | ends a granted call: the count or mark goes, a count of zero is forgotten, and waiters are woken |
| LlmUse.NoLostWakeup | internal/api/gen_evict.go:90-112 | over every interleaving, a sleeping call whose condition holds can wake now, and is granted if nobody takes the mutex first |
| LlmUse.ExclusionAndConservation | internal/api/gen_evict.go:121-186 | counts equal the requests not yet ended, at most one eviction of a model is out, and never beside a request on it |
| LlmUse.TryEvictIsExact | internal/api/gen_evict.go:163-186 | in every reachable state an unload is granted at once exactly when no request and no other unload of the model is in progress |
| LlmUse.FinishIsOnce | internal/api/gen_evict.go:121-186 | ending a call twice, however late, changes nothing |
| LlmUse.CancelledCallReturns | internal/api/gen_evict.go:96-112 | a cancelled sleeper returns with nothing granted |
| LlmUse.UsesAreRecorded | internal/api/gen_evict.go:121-200 | over every run the last use on record is when a request on the model last began or ended, or it was touched |
| LlmUse.Drains | internal/api/gen_evict.go:96-186 | from every reachable state, with nothing cancelled, all calls can return and all requests and evictions end: no deadlock |
| LlmUse.StepKeepsInv | internal/api/gen_evict.go:90-186 | every step keeps the counts exact and every sleeper on a live channel with a false condition |
| GpuPlan.GenVram | internal/api/gen_vram.go:58-99 | the table has a row for exactly the GPUs something counts on, holding the sums of shares, use and evictable shares |
| GpuPlan.ForkVram | internal/api/fork_instances.go:511-538 | a running fork reserves its whole GPU or what it uses, and is never evictable |
| GpuPlan.RowStep | internal/api/gen_vram.go:58-99 | one instance more adds its share to its own GPU's row and to no other |
| GpuPlan.VramIs | internal/api/gen_vram.go:58-99 | what is reserved, in use and evictable on a GPU, as sums over the instances and forks that count there, each by the larger of its reservation and what it holds |
| GpuPlan.RowMeans | internal/api/gen_vram.go:58-99 | a GPU has a row exactly when an instance or a fork counts on it |
| StopBackends.Manager.StopUntil | internal/api/gen_evict.go:343-385 | asks the stoppable backends on the GPU, largest share first, looking before each whether it fits by now, and no further once it does; stops exactly those asked that do stop |
| StopBackends.Order | internal/api/gen_evict.go:354-368 | the backends asked are exactly the active ones on the GPU that are neither excluded nor kept running, largest first |
| StopBackends.OrderIsStable | internal/api/gen_evict.go:354-368 | that order is the stable sort: every candidate as often as it is listed, and those of one share in the order of the list |
| StopBackends.GreedyIsMinimal | internal/api/gen_evict.go:348-385 | when stops succeed and free their shares, no choice of backends that makes room, by the last look that found it missing, is smaller |
| StopBackends.LeastAfterOthers | internal/api/gen_evict.go:266-271 | stops on other GPUs change neither the order, nor that each stop was needed, nor the minimality of those on this one |
| StopBackends.LargestMakeRoom | internal/api/gen_evict.go:368-372 | if any n backends make room, the n largest do |
| StopBackends.ReservedAfter | internal/api/gen_vram.go:58-99 | stopping backends takes exactly their shares off what counts |
| LoadedLlms.LlmsOn | internal/api/gen_evict.go:487-527 | the in-place selection names every model with memory on the GPU once, the larger first, equal ones as listed |
| LoadedLlms.OrderIsPermutation | internal/api/gen_evict.go:512-525 | that order names every model once: nothing lost, nothing twice |
| GenRoom.Room.MakeRoomForGen | internal/api/gen_evict.go:463-483 | succeeds exactly when the plans on the GPU, the reservation and what the others count for are within the card afterwards; backends first, LLMs only when they are not enough, neither once it fits; refuses only with all asked and no LLM left on the GPU |
| GenRoom.Room.UnloadUntil | internal/api/gen_evict.go:475-482 | unloads the LLMs in order, each because it still did not fit |
| GenRoom.AllUnloaded | internal/api/gen_evict.go:487-527 | once all listed models are gone, none holds memory on the GPU |
| LlmRoom.ByLruSorts | internal/api/llm_room.go:54-83 | the models come by their last use, the earlier first, those of one time by ID as text, each once |
| LlmRoom.StringLeqIs | internal/api/llm_room.go:76-81 | an ID comes first exactly when it begins the other, or has the smaller character where they first differ |
| LlmRoom.VictimIsLeastRecentlyUsed | internal/api/llm_room.go:110-135 | the model unloaded, or the one whose unload failed, was last used before every other idle one on the GPUs that no request took first, or as long ago and comes first by ID; if none is left, requests took them all |
| LlmRoom.RoomIsMade | internal/api/llm_room.go:255-281 | ends below Max Loaded; and its very last look found no GPU short, or its last round tried every model idle on the short GPUs and each had been taken by a request |
| LlmRoom.EveryVictimIsJustified | internal/api/llm_room.go:235-281 | each unload was forced by the limit or by a GPU short at that moment, and took the right model; nothing else is unloaded |
| LlmRoom.ShortGpus | internal/api/llm_room.go:148-161 | lists exactly the GPUs, reserved or not, where the plan is over the budget |
| LlmRoom.ShortIs | internal/api/llm_room.go:140-161 | a card is short when m's plan and those of the other models are more than it has beside what is reserved, and full when something is reserved on it as well |
| LlmRoom.FirstFull | internal/api/gen_vram.go:291-310 | refuses exactly when some GPU with a reservation is over its budget, naming the first one |
| NeverFits.Check | internal/api/llm_room.go:296-370 | the loops over models and cards compute the verdict |
| NeverFits.AddPlan | internal/api/gen_vram.go:176-180 | adds a plan to the memory per GPU, on every GPU |
| NeverFits.StayingIsNotIdle | internal/api/llm_room.go:296-330 | what stays is, beside the model to load, exactly what unloading idle models cannot take at that moment |
| NeverFits.VerdictOn | internal/api/llm_room.go:331-369 | an error names a used GPU with something kept that stays over budget; otherwise busyBlocked says that busy models leave a used GPU without anything kept over budget |
| NeverFits.NeverMeansNever | internal/api/llm_room.go:285-295 | an error is final: no unloads of idle models and stops of evictable backends, in any combination, make the plan fit there |
| NeverFits.MaybeMeansItMay | internal/api/llm_room.go:285-301 | without an error, with all gone that may go, jobs of stoppable backends ended, no reservation refuses the load on a GPU it uses; busyBlocked exactly when busy models leave a used GPU short even then |
| NeverFits.RefusedElsewhere | internal/api/llm_room.go:331-369 | it is then still refused exactly when what stays overruns a reservation on a GPU it does not use |
| NeverFits.RefusedThoughNeverFitsPasses | internal/api/gen_vram.go:291-310 | such a load |
| NeverFits.BusyBlockedLoadCrowdsOut | internal/api/llm_room.go:396-406 | a load that is found blocked by busy models and overruns a reservation that unloading an idle model would have spared |
| LoadProtocol.SkippedCheck | internal/api/llm_room.go:396-421 | a load blocked by busy models is sent beside every reservation exactly when the check it skips passes on the models left after Max Loaded, which below the limit are those there were |
| LoadProtocol.Loader.UnloadIdleOn | internal/api/llm_room.go:235-249 | tries the idle models on the GPUs in order, skipping those in use, and drops exactly the one unloaded |
| LoadProtocol.Loader.UnloadToCount | internal/api/llm_room.go:255-266 | the Max Loaded loop is the recursion the theorems are about |
| LoadProtocol.Loader.UnloadToFit | internal/api/llm_room.go:267-280 | and so is the planned memory loop |
| LoadProtocol.Loader.MakeRoomByUnloading | internal/api/llm_room.go:255-281 | count first, then memory, stopping at the first error |
| LoadProtocol.Loader.MakeRoomForLlm | internal/api/gen_evict.go:230-278 | takes a hold exactly when a reservation or a measurement is in the way and keeps it only on success, when every reservation is respected by the last look; stops only what the rounds on the GPUs it holds stop; it refuses for the first GPU its last look finds full, and if it held that one, nothing there is left to stop or models listed since its round are in the way |
| LoadProtocol.Loader.HoldAndStop | internal/api/gen_evict.go:255-278 | refused exactly when the job queues are not held; otherwise the stops are those of one round on each of the GPUs, and the hold is given back when the last look still finds a GPU full |
| LoadProtocol.Loader.StopOn | internal/api/gen_evict.go:266-271 | while other loads change the list between any two looks: on every held GPU each stop was needed by the look before it, what is stopped is the least that makes room by the last of those, and it ends with a look that shows room or with nothing left to stop; nothing else is stopped |
| LoadProtocol.Loader.LoadWithRoom | internal/api/llm_room.go:382-473 | the mutex is free again on every path, an error leaves no hold and success at most the one returned; a load is sent below Max Loaded and, unless busy models block it, beside every reservation and straight from the look that showed what it needs free on every reading of its GPUs, or from the round that found all idle ones on the others in use; a blocked one keeps to the reservations exactly when the skipped check passes; one that can never fit changes nothing |
| LoadProtocol.Loader.RoomThenLoad | internal/api/llm_room.go:404-473 | the same from the room making on; backends are touched only when unloading was not enough |
| LoadProtocol.Loader.FreeThenLoad | internal/api/llm_room.go:433-473 | with the room made: frees real memory, sends, and on an error gives the hold back |
| LoadProtocol.Loader.MakeRoomNow | internal/api/llm_room.go:404-431 | room by unloading alone where that is enough; otherwise by stopping backends too, with the limit and the reservations kept at the end |
| LoadProtocol.Loader.MakeRoomByStopping | internal/api/llm_room.go:411-431 | the unlock around makeRoomForLLM is matched by a lock unless it fails, and a failed second round gives the hold back |
| LoadProtocol.Loader.FreeForReal | internal/api/llm_room.go:433-452 | with busy models in the way it unloads nothing; else it is the loop FreeUpEnds is about |
| LoadProtocol.FreeUpEnds | internal/api/llm_room.go:433-452 | the free memory loop ends with the very last look showing that much free on every reading of every GPU of the plan, or with its last round finding every model idle on the short ones in use; it breaks no reservation |
| LoadProtocol.RealShortIs | internal/api/llm_room.go:175-212 | a GPU is short exactly when m is planned on it and some reading shows less free than m's plan, the plans still loading, the margin and what is reserved beyond use |
| LoadProtocol.Loader.Send | internal/api/llm_room.go:453-472 | the load succeeds only once the router lists the model |
| LoadProtocol.FitsBesideIsMonotone | internal/api/gen_evict.go:266-271 | the stop condition of each look never breaks by reserving less, which is what minimality asks of it |
| LoadProtocol.FitsBesideMeansNotFull | internal/api/gen_vram.go:291-329 | it holds exactly when the reservation check passes on that GPU |
| LoadProtocol.MustHoldIs | internal/api/gen_evict.go:230-258 | a hold is taken exactly when a card is full or a measurement is on a GPU of the plan |
| LoadProtocol.HeldGpusAre | internal/api/gen_evict.go:230-266 | held are, with a card full, all GPUs with planned memory of m or of another model, else those of m's plan |
| LoadRace.MaxLoadedHolds | internal/api/llm_room.go:255-266 | with any number of loads interleaved, each unlocking while it waits, loaded and loading models never exceed a set Max Loaded, if counts at the limit are answered and accepted loads are seen listed |
| LoadRace.StepKeepsInv | internal/api/llm_room.go:382-473 | every step keeps the mutex with the one load inside it, a cleared load below the limit, and at most its own model unlisted |
| LoadRace.SoundIsExact | internal/api/llm_room.go:87-105 | a step lets the limit hold after it and after every sound run from there exactly when it is no unanswered count at the limit and no giving up of an accepted load not yet listed |
| LoadRace.UnsoundStepsGoPast | internal/api/llm_room.go:457-469 | after any other step the router can be taken past the limit by sound steps alone |
| LoadRace.FillsUp | internal/api/llm_room.go:255-266 | beside a model nobody waits for, loads go past the limit by sound steps alone |
| LoadRace.UnloadingLetsIn | internal/api/llm_room.go:255-266 | at the limit a counting load stays out until a model is unloaded, or dropped by the router, and is then cleared |
| Reservations.EnabledInstancesStart | internal/api/gen_instances.go:677-710 | with eviction off, after every run of the handlers and of checked loads each card has room for all reserved on it beside the planned LLMs, and no enabled instance with a reservation is refused its start |
| Reservations.StepKeepsInv | internal/api/gen_vram.go:182-214 | every action keeps that room, with eviction on too for what counts then, unless it raises a running instance past the check |
| Reservations.LoadStep | internal/api/gen_vram.go:240-310 | a load that passes the reservation check, replacing or not, keeps it |
| Reservations.UncheckedRaise | internal/api/gen_vram.go:1485-1498 | with eviction on, setting a running instance's reservation goes through, and the room is kept exactly when the skipped check would have passed |
| Reservations.SuggestionFits | internal/api/gen_vram.go:1006-1022 | a capped suggestion always fits where it was measured and covers the measured peak, or all of the room; it is what was found where that leaves the slack, else the room less the slack or what the peak needs |
| Reservations.MeasurementApplies | internal/api/gen_vram.go:906-947 | what each measurement comes to: only a video's changes a reservation; an sd-server's is refused only for a video whose peak is past the room and its allowance, a music one's when it does not fit |
| Reservations.PutReserves | internal/api/gen_vram.go:58-99 | changing one instance changes what its GPU reserves by its own part only |
| Reservations.FitIs | internal/api/gen_vram.go:186-214 | an instance fits exactly when its reservation, the loaded plans and what the others count for are within the card |
| Reservations.EditDropsReservation | internal/api/gen_instances.go:557-568 | an accepted edit keeps everything but the GPU, and the reservation unless it is to run differently |
| Reservations.DisableFrees | internal/api/gen_instances.go:752-756 | a disabled instance runs no more, keeps its reservation and counts for nothing |
| Reservations.CreatedCountsForNothing | internal/api/gen_instances.go:590-612 | a new instance is enabled and counts for nothing until it has a reservation |
| Reservations.DeletedIsGone | internal/api/gen_instances.go:781-793 | only a stopped instance goes, and no other |
| Reservations.LoadsAreListed | internal/api/gen_vram.go:240-310 | a load is listed exactly when on every card with a reservation the plans and the reservations are within it, and is refused otherwise |
| GenInstances.Instances.Fits | internal/api/gen_vram.go:186-214 | the check over cards, instances and loaded models is the one the theorems are about |
| GenInstances.Instances.LlmOn | internal/api/gen_vram.go:138-170 | the planned memory of the loaded models on a GPU |
| GenInstances.Instances.LeftFor | internal/api/gen_vram.go:186-213 | the budget beside the other instances less the loaded models, or nothing for an unknown card |
| GenInstances.Instances.SetReservation | internal/api/gen_vram.go:1468-1503 | sets it, unless the instance is enabled, counts while stopped, and does not fit; changes nothing else |
| GenInstances.Instances.Enable | internal/api/gen_instances.go:741-751 | enables it, unless its reservation starts to count and does not fit; changes nothing else |
| GenInstances.Instances.KeepRunning | internal/api/gen_instances.go:757-766 | marks it, unless it is enabled, stopped and does not fit; changes nothing else |
| GenInstances.Instances.Start | internal/api/gen_instances.go:677-710 | starts it only enabled, reserved, stopped and fitting, with its file not moving and the launch working, and says so |
| GenInstances.Instances.Edit | internal/api/gen_instances.go:557-568 | refuses exactly an unknown, running or measured instance, and drops the reservation of one that will run differently |
| GenInstances.Instances.ApplyMeasurement | internal/api/gen_vram.go:817-849 | stops it and records what the measurement suggests, or disables one left without a reservation |
| GenInstances.Instances.Measure | internal/api/gen_vram.go:906-947 | the instance a measurement leaves, by kind, peak and room |
| GpuFreed.Freed | internal/api/gen_evict.go:656-697 | over every trace of readings and timers, answers at the first event that decides: yes on a reading near the target or no longer falling after a drop, with little held, or after the grace; no at the deadline |
| GpuFreed.YesBeforeGrace | internal/api/gen_evict.go:656-669 | with more than the slack held, yes before the grace means the first reading near the target, or the first that is steady after a drop; every reading before was neither |
| GpuFreed.Settled | internal/api/gen_vram.go:1049-1080 | over every run of looks, answers yes at the first fresh sample that settles, no when the limit passes first |
| GpuFreed.DetectorsAgree | internal/api/gen_vram.go:1049-1080 | with the target out of reach and more than the slack held, both detectors say yes after the same samples |
| GpuFreed.SameSampleDecides | internal/api/gen_evict.go:670-697 | so over one run of samples they answer at the same one |
| JobStore.Store.constructor | internal/api/gen_jobs.go:161-180 | a new store is empty and not open |
| JobStore.Store.Open | internal/api/gen_jobs.go:194-240 | adds a job for every readable record, oldest first, behind the jobs there are, which stay; the records of jobs a restart failed are rewritten |
| JobStore.Store.ReadRecords | internal/api/gen_jobs.go:194-262 | exactly the readable records, and of them those the restart failed |
| JobStore.Store.Close | internal/api/gen_jobs.go:186-190 | from then on nothing is saved |
| JobStore.Store.Save | internal/api/gen_jobs.go:285-300 | writes the job's own record, only open and not closed |
| JobStore.Store.Add | internal/api/gen_jobs.go:302-311 | appends the job and saves it; list and map stay in step exactly when its ID is new |
| JobStore.Store.Update | internal/api/gen_jobs.go:356-374 | changes one job and saves it only when its status changed |
| JobStore.Store.RemoveLocked | internal/api/gen_jobs.go:378-390 | the job, its record and its own files go, nothing else |
| JobStore.Store.Remove | internal/api/gen_jobs.go:392-402 | removes only a finished job, and takes it from the order list |
| JobStore.Store.DropFinished | internal/api/gen_jobs.go:409-424 | the loop drops exactly the jobs the specification drops, with their files and records |
| JobStore.Store.Prune | internal/api/gen_jobs.go:409-454 | the list and the map stay one duplicate-free set, limited to what is set or 200; orphaned files go as well |
| JobStore.PruneKeepsAndDrops | internal/api/gen_jobs.go:404-424 | prune keeps every unfinished job, drops every one finished more than a day ago, and of the others at most as many as the store was over its limit, none within it; it keeps the order, and ends within the limit or with only unfinished jobs |
| JobStore.PruneDropsOldestFirst | internal/api/gen_jobs.go:404-424 | before a dropped job that is not yet a day old no finished one is kept |
| JobStore.OrphansGo | internal/api/gen_jobs.go:426-450 | of the output files exactly those go that no job owns and that are more than a day old |
| JobStore.ReopenIs | internal/api/gen_jobs.go:194-240 | the jobs of a reopened store are the restored records, each once |
| JobSaves.WritesLandInOrder | internal/api/gen_jobs.go:282-300 | over every interleaving, records reach the disk in the order of the changes they save, at most two behind |
| JobSaves.RestartIsExact | internal/api/gen_jobs.go:86-91 | reopening after close brings back every unremoved job whole but for its place in the queue if it had finished at close, else failed by the restart, whatever came after close |
| JobSaves.CrashIsExact | internal/api/gen_jobs.go:86-91 | the same for a crash at any moment no save is under way |
| JobSaves.CloseSettles | internal/api/gen_jobs.go:186-300 | at any moment of any run, once the writes under way end and close comes, all that was to be saved is on disk |
| JobSaves.JobStepsAreLawful | internal/api/gen_jobs.go:95-138 | cancel ends exactly what had not finished; start leaves a cancelled job alone, and runs any other in its phase from its first start, which is lawful for all its callers give it |
| ImageJob.StepsAreLawful | internal/api/gen_image_jobs.go:139-238 | what any step of the runner, finish and the saving phase included, or of cancel makes of the stored job is what the records rely on |
| JobSaves.RemovedRecordComesBack | internal/api/gen_jobs.go:376-402 | over every run before and after its removal, a job never comes back, and once no write of it is under way its record is there exactly when a write of it was under way when it was removed |
| JobSaves.RemovedJobIsReopened | internal/api/gen_jobs.go:290-297 | for every job and every end of it, a run in which it is removed and there again after a restart |
| ImageJob.FilesMatchTheJob | internal/api/gen_image_jobs.go:139-238 | once the runner has ended, whatever raced with it, the files on disk are those of a succeeded stored job, else none, exactly unless a failed write left part of one |
| ImageJob.EveryImageIsListed | internal/api/gen_image_jobs.go:199-238 | over every run a succeeded job lists exactly one file for each image the backend answered with, in order |
| ImageJob.TerminalIsAbsorbing | internal/api/gen_image_jobs.go:139-238 | finished and a terminal status coincide, and such a job stays as it is until deleted |
| ImageJob.PartialFileStays | internal/api/gen_image_jobs.go:224-233 | a full disk leaves part of a file that no job lists |
| ImageJob.ImageFilesDiffer | internal/api/gen_image_jobs.go:224-235 | two images of a job never share a file name |
| ImageJob.ImageIsOwned | internal/api/gen_jobs.go:454-461 | an output's name leads back to its job, for an image as for a song or a video |
| ImageJob.StepKeepsInv | internal/api/gen_image_jobs.go:139-238 | every step of the runner, cancel and delete keeps files and job in step |
| ImageCourse.RunnerEnds | internal/api/gen_image_jobs.go:139-238 | whatever goes wrong, a runner that gets its turn, or whose wait is cancelled, ends |
| ImageCourse.CancelledInQueueEnds | internal/api/gen_jobs.go:120-138 | a job cancelled in the queue leaves it, with nothing made |
| ImageCourse.ClientsDo | internal/api/gen_jobs.go:120-138 | a cancel marks an unfinished job and a delete takes a finished one with its files, once, and neither does anything else |
| ImageCourse.OutcomeIsExact | internal/api/gen_image_jobs.go:139-238 | over every run a job that has ended was cancelled exactly if a client cancelled it before it finished, and else failed exactly if something went wrong |
| ImageCourse.ClientsSee | internal/api/gen_image_jobs.go:165-215 | over every run a phase shows exactly until the job has finished, the runner's own while it generates and saves, and an error exactly if it failed |
| ImageCourse.StartIsOnce | internal/api/gen_jobs.go:95-104 | once set, the time a job was started stays |
| ImageCourse.StartingShows | internal/api/gen_image_jobs.go:165-172 | a job with its turn shows that its backend starts, unless that runs |
| JobEnv.JobRouterIsOwned | internal/api/jobs_env.go:29-71 | until cleanup, every live router process under a job's options is owned by it, after failed and cancelled restarts too, whatever the user does; any other runs as the user would start it |
| JobEnv.AppliedConfigRuns | internal/api/jobs_env.go:62-72 | over every run, a config applied without an error is the one the router runs under, on the build the job chose last or else the user's, after one start and at most one stop |
| JobEnv.EnsuredBuildRuns | internal/api/jobs_env.go:129-198 | over every run, a build ensured without an error, and no config to follow, is the one the router runs, under the last config applied |
| JobEnv.CleanupGivesBack | internal/api/jobs_env.go:399-452 | success leaves no live router of the job, exactly unless one was alive without counting as running: starting, hung, or lost; what else lives is the user's; it always releases ownership |
| JobEnv.LeakedRouterServes | internal/api/jobs_env.go:428-431 | one on its way up then serves under the job's options, unowned, and the user's start does not replace it |
| JobEnv.CancelledWaitLeaks | internal/api/jobs_env.go:209-219 | one cell whose wait is cancelled is enough |
| JobEnv.HungRouterIsLost | internal/process/supervisor.go:383-389 | one that never gets healthy lives on beside the user's next router, and survives the user's stop |
| JobEnv.ExitedRouterIsLeft | internal/api/jobs_env.go:428-431 | one that exits under the job stays down through cleanup |
| JobEnv.CleanupRestores | internal/api/jobs_env.go:399-452 | a router stopped for an evaluation comes back as the user's; one found stopped stays stopped exactly unless the job had stopped it for an evaluation, or its start fails |
| JobEnv.UserStopIsUndone | internal/api/jobs_env.go:40-46 | a job after whose evaluation and next cell the user stops the router, which cleanup starts again |
| JobEnv.NothingToRestore | internal/api/jobs_env.go:150-177 | over every interleaving with the user and the processes, a job that never takes the router over leaves everything, cleanup included, as if it had not been there |
| JobEnv.CellTakesRouter | internal/api/jobs_env.go:171-197 | a cell takes the router over exactly when it does not serve the build on the user's config with all models, and no config follows |
| JobEnv.RestartMeansOwned | internal/api/jobs_env.go:191-197 | a call that stops or starts the router owns it |
| JobEnv.StoppedForEvalMeansStopped | internal/api/jobs_env.go:461-506 | after success no router process is alive, exactly unless one was without counting as running, or the router is up although the job had recorded a stop before; it starts none and stops at most the running one, once |
| JobEnv.EvalMeetsUsersStart | internal/api/jobs_env.go:474-484 | a router the user has just started comes up during the evaluation |
| JobEnv.EvalMeetsJobsStart | internal/api/jobs_env.go:209-219 | and so does the job's own whose wait was given up |
| JobEnv.SecondEvalFindsRouterUp | internal/api/jobs_env.go:470-473 | a job whose second evaluation finds the router up |
| JobEnv.FailedStopCountsAsMade | internal/api/jobs_env.go:469-487 | tried again after a failed stop, it succeeds with the router up |
| JobEnv.Env.Start | internal/process/supervisor.go:106-155 | a start is refused while a process is up or on its way, and loses a hung one |
| JobEnv.Env.Stop | internal/process/supervisor.go:157-192 | a stop that succeeds leaves the process down |
| JobEnv.Env.WaitRunning | internal/process/supervisor.go:243-272 | ends with the process up, dead, hung, or still on its way when cancelled |
| JobEnv.Env.RestartRouter | internal/api/jobs_env.go:200-221 | stops only a running router, and starts it under the job's present options |
| JobEnv.Env.EnsureBuildActive | internal/api/jobs_env.go:129-198 | restarts, and takes the router over, only off the build, with other settings or for models it lacks |
| JobEnv.Env.ApplyEphemeralConfig | internal/api/jobs_env.go:271-300 | takes the router over before it restarts it, and keeps it when that fails |
| JobEnv.Env.StopRouterForEval | internal/api/jobs_env.go:468-504 | records only a stop of a running router |
| JobEnv.Env.ClearEphemeralConfig | internal/api/jobs_env.go:406-452 | drops the job's options before it restarts anything |
| KeptGpus.KeepsAreConserved | internal/api/jobs_env.go:361-396 | over all claims and releases, at most one keep is out for a GPU, all are the owner's, and each ever taken is out or was given back |
| KeptGpus.ClaimKeeps | internal/api/jobs_env.go:364-379 | a claim keeps all its GPUs, and another owner's go back first |
| KeptGpus.ReleaseGivesBack | internal/api/jobs_env.go:383-396 | over every run, after the release by the owner of the last claim no keep is out and all have been given back; a release by anyone else changes nothing |
| KeptGpus.GpuKeeper.constructor | internal/api/jobs_env.go:47-52 | the ledger starts empty |
| KeptGpus.GpuKeeper.KeepGpus | internal/api/jobs_env.go:364-379 | keeps only what is not kept yet, after releasing another owner's |
| KeptGpus.GpuKeeper.ReleaseGpus | internal/api/jobs_env.go:383-389 | releases only for the owner |
| KeptGpus.GpuKeeper.ReleaseKeptLocked | internal/api/jobs_env.go:391-396 | gives every keep back once and forgets the owner |
| GenMove.Mover.Starts | internal/api/gen_move.go:98-129 | after any number of runs cut short or failing at any step, one run left alone puts every catalog component at its target with its content, and changes components of any set only as WhoIsFound says |
| GenMove.WhoIsFound | internal/api/gen_move.go:98-174 | for every component of every set: it is pointed at its file by a run left alone exactly when a catalog component still has its path, and is otherwise untouched; one whose file is gone is found again exactly then, or when its path is a target |
| GenMove.Mover.MoveGenModels | internal/api/gen_move.go:114-129 | however it ends, no component loses its file, and left alone it moves all of them, and disk and sets follow its list of moves and nothing else |
| GenMove.Mover.MoveOne | internal/api/gen_move.go:114-129 | one move: nothing is lost, and left alone the file arrives and every set follows it |
| GenMove.Mover.MoveGenFile | internal/api/gen_move.go:133-154 | done means the file is at its target; cut short, it is still found at its path or its target |
| GenMove.Mover.Copy | internal/atomicfile/atomicfile.go:49-79 | a copy cut short is never taken for the file |
| GenMove.Mover.RepointGenFile | internal/api/gen_move.go:157-174 | in every set, of the catalog or not, nothing but components with the old path changes, and left alone all of them get the new one |
| GenMove.Mover.Pending | internal/api/gen_move.go:74-91 | one move for each path catalog components are to leave, shared files once |
| GenMove.Mover.constructor | internal/api/gen_move.go:98-109 | a start goes on from the disk and the sets as they are |
| GenMove.RenameKeeps | internal/api/gen_move.go:146-149 | a rename loses no file |
| GenMove.RemoveKeeps | internal/api/gen_move.go:134-139 | removing the old file once it is at its target loses none |
| GenMove.RepointKeeps | internal/api/gen_move.go:157-174 | pointing one set at a moved file keeps every component found |
| GenMove.WrongSizeStrands | internal/api/gen_move.go:133-142 | a crash after the rename strands a component exactly when its recorded size is wrong |
| GenMove.NothingPending | internal/api/gen_move.go:74-91 | with all catalog components in place nothing is moved any more |
| GenMove.CrashStrandsCustomSet | internal/api/gen_move.go:157-174 | a crash between two sets that strands a custom one for good |
| Mp3Length.SumFrames | internal/api/audio_length.go:83-116 | the loop over the bytes is the recursive walk, in bounds and ending |
| Mp3Length.Mp3Seconds | internal/api/audio_length.go:71-121 | the parser is the specification function |
| Mp3Length.FrameAdvances | internal/api/audio_length.go:84-108 | an accepted frame is at least 24 bytes long |
| Mp3Length.BitratesRise | internal/api/audio_length.go:54-69 | each table rises with the index, no layer below the next, to its top rate, with none for a free or bad index |
| Mp3Length.HeaderRoundTrip | internal/api/audio_length.go:84-108 | a frame's header reads back as its version, rate, size and samples |
| Mp3Length.FieldsRoundTrip | internal/api/audio_length.go:84-108 | every header the parser accepts is that of a frame of the grammar |
| Mp3Length.TagIsSkipped | internal/api/audio_length.go:72-81 | an ID3v2 tag with its footer is skipped whole |
| Mp3Length.XingIs | internal/api/audio_length.go:121-137 | a first frame is a header without audio exactly when its tag follows the side information of its version and channels |
| Mp3Length.Mp3OfStream | internal/api/audio_length.go:71-121 | tag, Xing frames, frames and other bytes: the length is the exact sum of samples over rate |
| Mp3Length.Mp3OfAnyFile | internal/api/audio_length.go:71-121 | every byte string parses as such a file, and its length is that of the parse |
| WavLength.WavSeconds | internal/api/audio_length.go:28-52 | the loop over the chunks is the recursive reading, in bounds and ending |
| WavLength.SizeRoundTrip | internal/api/audio_length.go:32-34 | a chunk size reads back |
| WavLength.WavOfChunks | internal/api/audio_length.go:28-52 | chunks, padded to even length, are passed over and the last fmt counts |
| WavLength.WavOfStream | internal/api/audio_length.go:36-45 | a data chunk has a length exactly after a byte rate; a size unset or past the end stands for the rest of the file |
| WavLength.WavOfAnyFile | internal/api/audio_length.go:28-52 | every byte string is chunks and an end, and has the end's length |
| WavLength.WavOfSong | internal/api/audio_length.go:28-52 | fmt before data with any chunks around: the length is data bytes over byte rate |

## Left out

- LlmUse.Use.WaitTurn: one call of the class is one turn of the loop; the interleaving of many is the machine in the same module.
- GpuPlan.GenVram: process readings, the job queue's running job and activity are fields of an instance; the message names are not there.
- StopBackends.Manager.StopUntil: which stops succeed is settled beforehand; the wait for the card after each stop is module GpuFreed.
- StopBackends.GreedyIsMinimal: assumes that each stop succeeds and frees its share, and that less reserved never stops fitting, as holds of the conditions in use.
- GenRoom.Room.MakeRoomForGen: LLMs and other programs' use do not change on their own meanwhile; waiting for requests on an LLM is module LlmUse.
- LlmRoom.RoomIsMade: the limit and the shortage are those of the list the router gave; with a router that does not answer it promises nothing, as in the code.
- LoadProtocol.Loader.LoadWithRoom: other goroutines change models and backends only while the mutex is free; while it is held only uses, the router's answers and the readings do.
- LoadProtocol.Loader.MakeRoomForLlm: while the job queues are held, no backend but those it stops starts or stops; models come and go.
- LoadRace.MaxLoadedHolds: the limit is fixed, and loads sent outside loadLLMWithRoom are not there.
- Reservations.EnabledInstancesStart: fixed other-program use, no forks, no jobs holding a turn, each GPU listed once, every load checked, a running backend within what counts for it, and the measurement run itself only by its outcome.
- Reservations.StepKeepsInv: with eviction on, jobs that start to count by getting a GPU's turn are not there.
- GenInstances.Instances.Edit: model set, build and arguments are one flag that says the instance will run differently.
- GpuFreed.Settled: the clock and the monitor are the list of looks; the parse of monitor snapshots is left out.
- JobStore.Store.Open: record files that cannot be read or parsed are skipped as records that do not load; disk write failures are not there.
- JobSaves.RestartIsExact: speaks of moments with no write under way and of jobs that are not removed, and takes a new job's random ID to be one not used before.
- ImageJob.FilesMatchTheJob: a partial file left by a failed write is set apart, since the code does not remove it.
- JobEnv.JobRouterIsOwned: each call of the job is one step, its waits included, the user's build is fixed, and the user may start the router also while a job runs that does not own it, which the code refuses.
- GenMove.Mover.Starts: a path holds one file and one target, the paths to leave are no targets, recorded sizes are right or unknown, and a file that looks right at its target is right; directories are not there.
- GenMove.Mover.Copy: what a crash leaves of a copy is empty or whole, never read either way.
- Mp3Length.Mp3OfStream: exact rationals for floats, so rounding is not modelled.
- The choice of the WAV or MP3 parser by a file's first bytes.
- makeRoomForConfig, makeRoomForMeasure, startGenFromUI and genReady: the same steps as makeRoomForLLM and makeRoomForGen in other orders.
- The music and video job runners, which follow the image runner.
- The planner behind the plans, and the split of a model over cards: a plan is a fixed amount per GPU.
- Handlers, pages, proxies, subprocess launch, downloads, settings and the agent command line.
