# teleworker: output streaming, stop handshake, registry and shutdown

A Dafny model of the concurrent core of teleworker, a worker that runs child processes as
jobs, stores their output, and serves it to any number of streaming callers.

Labelled transition systems carry the concurrency. In each, one lock section or one channel
operation is one step, the number of clients is unbounded, and a schedule is any
sequence of enabled steps.

* **The job system** (`JobSystem`) is one job with everything that touches it: two pipe
  goroutines, the waiter that publishes the exit code, the signal goroutine, and any mix of
  StreamJobOutput calls (each with its streams and its fan-in loop), `toProtoJob` snapshots,
  Stop callers and direct-exec loops. The lock sections that notify listeners are split
  further: the append, the cancellation of the done context and every single non-blocking
  send are separate steps taken while the write lock is held, and receivers may drain their
  channels in between. Step functions and what they model: `CoreStep` (`worker/runner.go:59-141`,
  `worker/job.go:172-207`), `StreamStep` and `SessionStep` (`workergrpc/service.go:197-355`),
  `SnapStep` (`workergrpc/service.go:78-120`), `StopStep` (`worker/job.go:142-157`,
  `workergrpc/service.go:170-195`), `ExecStep` (`cmd/exec.go:70-148`).
* **The registry system** (`Registry`) is the worker's two-level job map, its shutdown flag
  and the read-write lock around it, with any number of GetJob, SubmitJob and Shutdown calls
  (`worker/worker.go:77-211`). A Shutdown that waits for the lock keeps new readers out, as a
  pending writer does in Go.
* **The worker system** (`WorkerSystem`) puts the two together: the registry, and one job system
  for every job it has started. A job is over for the registry only when its done context is
  closed.

The invariants are proved in rely-guarantee style (`JobCoreProofs`, `StreamProofs`,
`SessionProofs`, `ClientProofs`, `SystemProofs`, `RegistryProofs`): each client's invariant is
stable under what every other step may do. The main results hold in every reachable state or
over every continuation of one: `JobTheorems`, `JobProgress` (the job can always be finished),
`SessionProgress` (a call can always catch up), `DeliveryTheorems` (what a caller gets, while the
job runs and at the end), `FanInTheorems`, `SignalTheorems`, `RegistryTheorems`, `ShutdownNil`
(what a nil result of Shutdown means), `LockTheorems` and `WorkerSystem`. `JobRuns`,
`StreamCounterexample`, `ExecCounterexample` and `RegistryRuns` hold concrete runs. `Inv` in a
precondition holds in every reachable state (`SystemProofs.ReachableInv`,
`RegistryProofs.ReachableInv`).

Beside the systems stand the program's own objects and loops as imperative code: `JobObject`
(growable output buffers, bounded channels, the lock sections of a job), `Runner` (pipe and
signal loops), `Streaming` (`allOutput`, `toProtoJob`, `streamOutput`), `FanIn` (the loop of
StreamJobOutput), `DirectExec` (`drainOutput`, `runDirectExec`), `WorkerObject` and
`ShutdownWait` (the wait of Shutdown). A loop that runs beside other goroutines
takes a `World`: an arbitrary plan of what the job's goroutines do before each of its lock
sections, of the selects that find the context closed, and of the file writes that fail and how
much they wrote. A plan is finite, so a loop may end parked. The byte slices that `streamOutput`
puts into its messages are arrays: that they are not disturbed by later reads into the reused
buffer is proved, not assumed.

## Where the code departs from its stated intent

The configuration flags of the two systems and the `shortReadOnly` parameter select the code
as written or a corrected variant.

* A stream returns on the first read that carries the exit code, even when that read filled
  its 1024-byte buffer (`workergrpc/service.go:337-340` against
  `workergrpc/worker.proto:136-139`). `CallGetsAllIff` gives the exact condition in terms of the
  state in which the call is made, `CleanEndDelivers` and `CleanReturnDelivers` the exact amount
  delivered, `CleanReturnLosesOutput` a family of runs that lose output.
* GetJob defers a second `RLock` (`worker/worker.go:79`). `OneGetLeaks` is the concrete leak,
  `CanLockIff` the exact condition for a Shutdown call ever to get the lock,
  `GetBlocksShutdownForever` and `WaitingShutdownBlocksAll` the consequence,
  `WaitingShutdownGetsLock` what holds once the lock is released.
* Shutdown can return nil although jobs run, when every Stop came back because the context
  closed (`worker/worker.go:205-210` against `worker/worker.go:155-157`). `NilWithRunningJob`
  is a concrete run, `NilMeansFinishedIff` the exact condition; `NilWithoutExitCode` and
  `NilMeansComplete` say the same of the jobs' exit codes and output.
* The signal loop selects on the context instead of the nil-able channel
  (`worker/runner.go:108`). `ThreeSignals` is a concrete run, `KillsBoundedIff` the exact
  condition.
* direct-exec crosses the two streams (`cmd/exec.go:134-138`). `StdoutEndsOnStderr` is a family
  of runs, `DirectExecCrossed` the exact effect.
* The server's forced shutdown after a failed graceful one (`cmd/server.go:99`) never succeeds.
  It can return nothing but ErrShutdown (`SecondShutdownFails`; `SecondAttemptFails` is a run),
  and because of the leak in GetJob it need not return: `SecondShutdownReturnsIff` is the exact
  condition, `SecondAttemptStuck` a run in which it waits forever.

## Model

| member | source | states |
|---|---|---|
| JobTheorems.PipeConservation | worker/runner.go:118-141 | The stored stream, followed by a chunk still in a pipe goroutine's hands, is everything its pipe ever returned, in order; nothing is missing once the pipe has ended |
| JobTheorems.RunGrew | worker/job.go:169-191 | Over every run each earlier output is a prefix of each later one, the exit code is written once, and nothing changes after it |
| JobTheorems.ExitFinality | worker/runner.go:75-94 | A set exit code means both pipes have ended with everything they read stored, it is the reaped code, and output and code never change again |
| JobTheorems.NoLostWakeup | workergrpc/service.go:302-353 | A parked stream has read everything and there is no exit code, or its two-slot channel holds an update, or the lock holder has still to notify it |
| JobTheorems.LockHolderProgress | worker/job.go:183-190 | The goroutine that holds the write lock never waits for a client: it always has a step of its own |
| JobTheorems.LockWorkFalls | worker/job.go:183-190 | While the lock is held every step of the holder brings its release closer and no step of anybody else puts it off, so pending notifications arrive |
| JobProgress.JobFinishes | worker/runner.go:75-94 | From every state the invariant allows, the job's own goroutines alone, with all clients standing still, store exactly what was read, publish the code the child was reaped with (any code, if it had not been reaped), close the done context and leave every listener an update to find |
| JobTheorems.ExactDelivery | workergrpc/service.go:264-336 | Bytes handed over plus the pending chunk equal the output from the stream's start to its cursor; messages have 1 to 1024 bytes and past ones come first |
| JobTheorems.AbortedDelivery | workergrpc/service.go:295-299 | A stream that fails does so only because its context closed, never out of bounds, and has delivered a prefix |
| JobTheorems.PastMessageCount | workergrpc/service.go:274-301 | The past phase sends exactly ceil(total/1024) messages, and none unless the beginning was asked for |
| JobTheorems.PastReadProgress | workergrpc/service.go:276-287 | A past read fills its buffer with output and moves the offset towards the initial total |
| JobTheorems.CleanEndDelivers | workergrpc/service.go:312-345 | A clean end delivers the output up to min(q+1024, total), all of it if and only if at most 1024 bytes were left at q; returning only on short reads delivers all |
| StreamCounterexample.CleanReturnLosesOutput | workergrpc/service.go:337-340 | For any 1024-byte chunk followed by another there is a run that returns cleanly, exit code included, having sent only the first |
| JobTheorems.NothingHandedOverIsLost | workergrpc/service.go:221-242 | At its select the fan-in loop has sent every message handed over so far, each stream's in its own order, before any stream result is consumed |
| JobTheorems.CleanReturn | workergrpc/service.go:243-251 | On clean return the log interleaves the started streams' messages and ends with one exit-code message carrying the code given to markDone |
| JobTheorems.CleanReturnDelivers | workergrpc/worker.proto:136-139 | On clean return the log holds, for every stream asked for, the output from its start up to min(q+1024, total); all of it if and only if at most 1024 bytes were left at q, and always when streams return only on short reads |
| DeliveryTheorems.CallGetsAllIff | workergrpc/worker.proto:136-139 | As written, every clean return of a call, over all runs, has sent all of a stream asked for if and only if the pipe of that stream had returned its last bytes when the call was made |
| DeliveryTheorems.CallOnDoneJobGetsAll | workergrpc/service.go:197-251 | A call made once the job has its exit code gets all output on every clean return, as written |
| JobTheorems.HandlerSafe | workergrpc/service.go:246-250 | The final dereference of the exit code is never of nil, and the handler takes no stream error other than the context's |
| SessionProgress.SessionEnabled | workergrpc/service.go:221-354 | While the lock is free a call that has not returned has an undisturbed step, unless it is at its select and every stream it has waits with an empty channel |
| SessionProgress.SessionStepWork | workergrpc/service.go:221-354 | Every undisturbed step of a call lowers its remaining work, whatever the state of the job |
| SessionProgress.CatchUp | workergrpc/service.go:302-353 | While the lock is free a call with an open context catches up by a bounded number of its own steps: it returns cleanly if there is an exit code, and otherwise comes to rest with every stream parked and all output there is sent |
| DeliveryTheorems.LiveCallCatchesUp | workergrpc/worker.proto:121-123 | Live delivery from every reachable state: the lock holder's steps and then the call's own, both bounded, bring it up to date with the output there is, or to its clean return |
| SessionProgress.CallCompletes | workergrpc/worker.proto:136-140 | On a finished job every call with an open context runs to a clean return by its own steps, bounded in number, and the exit code is its last message |
| JobTheorems.SnapshotGuarantee | workergrpc/service.go:86-105 | A result with an exit code holds the complete final output of every requested stream in all later states; otherwise a prefix; no out-of-bounds failure |
| JobTheorems.DoneHandshake | worker/job.go:142-157 | A closed done context implies an exit code, Stop never dereferences nil, a StopJob response carries the job's code, and a waiting Stop has closed its own context |
| JobTheorems.Int32Exact | workergrpc/service.go:91 | The exit code survives the conversion to int32 if and only if it fits |
| JobTheorems.DirectExecDrains | cmd/exec.go:79-98 | Each file always holds the prefix of its source that its offset says, plus part of one chunk when its write failed; on the exit-code path all of it, with the job's code as exit status |
| JobTheorems.DirectExecCrossed | cmd/exec.go:125-138 | As written os.Stdout receives the job's stderr and vice versa; the files are right only when both outputs are equal |
| ExecCounterexample.StdoutEndsOnStderr | cmd/exec.go:134-138 | For every chunk of 1 to 1024 bytes there is a run in which the job writes it to its stdout and direct-exec exits with it on os.Stderr and nothing on os.Stdout |
| JobTheorems.DirectExecNeverMissesExit | cmd/exec.go:70-98 | The parked loop has written everything and there is no exit code, or its five-slot channel holds or is about to get an update |
| SignalTheorems.SignalDiscipline | worker/runner.go:96-113 | SIGTERM at most once and only after a non-forced stop, SIGKILL only after a forced one, the loop ends only when the job is done or both were sent; at most two signals in the corrected loop |
| SignalTheorems.SignalUsesChannel | worker/runner.go:101-111 | A signal uses up one non-nil channel, except a SIGKILL after the force channel is already nil |
| SignalTheorems.KillsBoundedIff | worker/runner.go:101-111 | As written, in any reachable state, before a forced stop or after, the SIGKILLs over all runs have a bound if and only if the loop has ended or the non-forced stop was handled; then none, or at most one more, is sent |
| SignalTheorems.ThreeSignals | worker/runner.go:108-110 | One forced stop of a running job, and a run that sends three SIGKILLs |
| RegistryTheorems.PlaceholderOwned | worker/worker.go:113-122 | Nil entries correspond one to one to submissions in flight between reserving and publishing or rolling back |
| RegistryTheorems.DuplicateIff | worker/worker.go:113-125 | A submission is refused as a duplicate exactly when its name was published before or is held by another submission |
| RegistryTheorems.RollbackRemovesOwn | worker/worker.go:126-134 | A failed submission removes its own placeholder and changes nothing else |
| RegistryTheorems.PublishedOnce | worker/worker.go:147-152 | Each (namespace, ID) is published at most once and stays in the map under its own name |
| RegistryTheorems.SubmitSound | worker/worker.go:97-101 | A successful SubmitJob returns its own started job under the requested or a non-empty generated ID |
| RegistryTheorems.GetJobSound | worker/worker.go:74-86 | GetJob yields only started jobs bearing the requested namespace and ID |
| RegistryTheorems.GetJobExact | worker/worker.go:83-85 | What GetJob reads is exactly the job published under that name so far; reserved IDs read as not found |
| RegistryTheorems.ShutdownMissesNothing | worker/worker.go:162-190 | The map Shutdown takes holds exactly the jobs of all successful submissions and no placeholder; nothing ever panics on the nil map or a nil job |
| RegistryTheorems.NothingPublishedAfterFlag | worker/worker.go:103-108 | Over every continuation after the flag is set no submission succeeds and the map taken stays the same |
| RegistryTheorems.OneCallPasses | worker/worker.go:161-170 | Of two Shutdown calls that have returned at least one returned ErrShutdown |
| RegistryTheorems.SecondShutdownFails | cmd/server.go:91-101 | A Shutdown begun after another returned can return nothing but ErrShutdown |
| LockTheorems.SecondShutdownReturnsIff | cmd/server.go:91-101 | As written a Shutdown that has not had the lock when the flag is already set can return at all if and only if no GetJob call has entered the lock so far, and then only ErrShutdown |
| RegistryRuns.SecondAttemptFails | cmd/server.go:91-101 | A run in which the first Shutdown ends with the context's error, the second with ErrShutdown, and the job still runs |
| RegistryRuns.SecondAttemptStuck | cmd/server.go:91-101 | A run in which a GetJob is turned away between the two attempts and the second Shutdown waits for a lock that is never free again |
| RegistryTheorems.ShutdownResult | worker/worker.go:191-211 | Nil: every Stop returned, so each job finished or the context closed; the context error: it closed; with the context open, or stop errors reported, nil means all finished |
| RegistryRuns.NilWithRunningJob | worker/worker.go:205-210 | A concrete run in which Shutdown returns nil and a job is still running |
| ShutdownNil.NilMeansFinishedIff | worker/worker.go:155-210 | As written nil is bound to mean finished, over all continuations that do not close the context, if and only if the context is open or all jobs have finished |
| WorkerSystem.NilMeansComplete | worker/worker.go:155-159 | In the whole worker: after a nil result with the context open, or with stop errors reported, every job ever submitted with success has its exit code and its complete output |
| WorkerSystem.NilWithoutExitCode | worker/worker.go:205-210 | In the whole worker as written: a reachable nil result with a submitted job that has no exit code |
| WorkerSystem.FoundHasRecord | worker/worker.go:74-86 | A job GetJob yields is one the worker has started, under the requested names, and its record is in a state the job system can reach |
| LockTheorems.LockBalance | worker/worker.go:77-86 | The reader count is the number of calls inside the lock, plus two per completed GetJob as written |
| LockTheorems.FlipEnabledIff | worker/worker.go:162-165 | A waiting Shutdown can take the lock if and only if no call is inside and, as written, no GetJob ever completed |
| RegistryRuns.OneGetLeaks | worker/worker.go:78-79 | One GetJob on an idle worker returns and leaves the reader count at two |
| LockTheorems.GetBlocksShutdownForever | worker/worker.go:78-79 | As written, once a GetJob call has entered the lock no continuation contains a Shutdown taking it, and the flag stays as it is, set or not |
| LockTheorems.WaitingShutdownBlocksAll | worker/worker.go:78-79 | With a Shutdown waiting as well, before or after the flag is set, no call ever enters again and no GetJob in flight returns |
| LockTheorems.CanLockIff | worker/worker.go:78-79 | As written, a Shutdown call that has not had the lock can ever take it if and only if no GetJob call has entered the lock so far |
| LockTheorems.InsideWorkFalls | worker/worker.go:104-105 | While a Shutdown waits for the lock, each step of a GetJob or SubmitJob call brings it closer to leaving, and no step lets anyone in or puts leaving off |
| LockTheorems.WaitingShutdownGetsLock | worker/worker.go:162-165 | When GetJob releases the lock, or none has entered it, the calls inside leave by at most five steps of their own each, and then the waiting Shutdown's step is enabled |
| JobObject.ByteLog.Append | worker/job.go:178-183 | Appending copies the source bytes to the end of the stored bytes, in place or in a new array |
| JobObject.ByteLog.CopyTo | worker/job.go:102-109 | Copies as many stored bytes from the offset as fit, and leaves the rest of the buffer alone |
| JobObject.Job.ReadOutput | worker/job.go:93-111 | A read returns the stored bytes from the offset that fit, the total and the exit code, fails only beyond the end with a non-empty buffer, and changes nothing else |
| JobObject.Job.UpdateOutput | worker/job.go:169-191 | Appends to one stream only and offers the update to every listener without blocking |
| JobObject.Job.MarkDone | worker/job.go:193-207 | Sets exit code and done together and offers the exit update to every listener |
| JobObject.Job.Notify | worker/job.go:184-190 | Every listener gets the update unless its buffer is full |
| JobObject.Job.RequestStop | worker/job.go:142-148 | A forced stop closes the force context, any other the stop context |
| Runner.StartPipe | worker/runner.go:117-141 | With one reused buffer, the stream grows by exactly everything read up to and including the first error |
| Runner.SignalLoop | worker/runner.go:96-113 | The loop over two local channels computes the signal steps of the job system; SIGTERM at most once and only after a select that found the stop context closed, SIGKILL only after one that found the force context closed, the end only on a closed done context or with both sent; at most two signals when corrected |
| Runner.SelectedIsStep | worker/runner.go:101-111 | A signal step of the job system is enabled exactly when the running loop would take that case, with the same effect |
| Streaming.AllOutput | workergrpc/service.go:107-120 | Under any interference the result is the whole output as of the last read, and it never fails |
| Streaming.ToProtoJob | workergrpc/service.go:78-105 | Under any interference a result with an exit code is complete, one without holds prefixes |
| Streaming.PastPhase | workergrpc/service.go:274-301 | Sends the output up to the initial total in ceil(total/1024) full chunks, each in an array of its own that keeps its bytes, unless the context closes |
| Streaming.DrainLoop | workergrpc/service.go:311-345 | Ends drained with no exit code, or at the read that carried it, with everything up to the offset sent; each message has a fresh array of its own, distinct from all others, the reused buffer and the job's, which still holds the bytes sent |
| Streaming.AwaitUpdate | workergrpc/service.go:349-353 | Stays blocked only if nothing happened to the job since it parked |
| Streaming.StreamOutput | workergrpc/service.go:253-355 | The whole function under any interference: exact delivery across the past-to-live switch, the clean-end bound, nothing unread when parked for good, and every message still holding its bytes in a fresh array of its own |
| FanIn.StreamJobOutput | workergrpc/service.go:220-251 | Over any sequence of messages, results and cancellations: a call still waiting has sent every message received, in order; it returns cleanly only when every send worked and all started streams returned nil, and then its log is the messages received, in order, and one exit-code message; one that fails has sent a prefix of what it received |
| FanIn.AllForwards | workergrpc/service.go:221-242 | Unless the call returns, the loop sends on exactly what it receives, and an error channel is nil exactly when its stream was not started or has returned nil |
| FanInTheorems.HandlerRefinesLoop | workergrpc/service.go:220-251 | In every reachable state of the job system the handler has done what that loop does on some events, and returned, what the loop or the final send after it does |
| DirectExec.DrainOutput | cmd/exec.go:125-148 | Writes exactly the output from the start offset to the offset returned, which is the end unless a write fails; a failed write may add part of one more chunk |
| DirectExec.RunDirectExec | cmd/exec.go:70-123 | Under any interference: the files always hold prefixes; on the exit-code path both are complete and the code is the job's; parked for good, complete with no exit code |
| WorkerObject.Worker.GetJob | worker/worker.go:77-86 | Reads the map or fails after shutdown, and as written adds two to the reader count |
| WorkerObject.Worker.SubmitJob | worker/worker.go:102-153 | While other submissions run during its start the nil entry keeps its ID; it succeeds exactly if the ID was free and the job can start, and then owns the ID; otherwise the ID reads as before; no nil entry is left and the read lock is released on every path |
| WorkerObject.Worker.Shutdown | worker/worker.go:160-211 | Sets the flag, takes the map, requests a stop of every job in it and waits: nil after a wait means every Stop returned, the context's error that the context closed first; nil at once without jobs; a second call only fails |
| ShutdownWait.AwaitStops | worker/worker.go:191-210 | The two selects over any events: it wakes on the group or the context and then looks at the group once more, also at what came in between |
| ShutdownWait.EventIsStep | worker/worker.go:183-196 | The events it goes through are the steps of a waiting call of the registry, with the same effect |

## Left out

- Streaming.StreamOutput: one stream runs against an arbitrary environment, and `FanIn.StreamJobOutput` against arbitrary events; the two interleaved are `JobSystem.SessionStep`, which `FanInTheorems.HandlerRefinesLoop` ties to the loop.
- WorkerObject.Worker.Shutdown: what the Stop goroutines and the context do while it waits is an input, and other calls do not run beside it; that is `Registry`.
- WorkerObject.Worker.SubmitJob: other submissions run to their end inside it, nested to any depth, but do not interleave step by step with it; that is `Registry`. Job records are found through references, and starting the runner is an input.
- Linux isolation and resource limits (`worker/runner_linux.go`, `worker/runner_nonlinux.go`): cgroups, mounts and clone flags are system calls; a failing limited runner is the failing start of `Registry.SubLaunch`.
- Real processes, pipes and signals: a child is two byte sequences delivered in arbitrary chunks and an exit code, a signal an entry in a list. That Wait ends without an exit code and yields -1 is one possible code.
- TLS, certificates, peer lookup and gRPC transport: the namespace is an input and a send appends to a log or fails.
- Generated protobuf code: only message shapes, and that the stream limit is a oneof (`Limit`).
- Request validation and the mapping of errors to status codes: single branches.
- CLI commands, flags and printing; the signal branch of direct-exec after its first receive.
- Wall-clock timeouts and fairness: a context may close at any step; progress is stated as enabled steps and decreasing measures.
- UUID generation: an arbitrary non-empty ID that passes the same uniqueness check.
- Immutable job fields (command, arguments, creation time, PID): copied, never changed.
