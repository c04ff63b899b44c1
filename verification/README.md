# Elastic Fruit Runner, verified

A Dafny model of the parts of elastic-fruit-runner in which several goroutines
change shared maps and a small SQL database, and of the loops that keep its
history, config and logins in order. `dafny verify dfyconfig.toml` checks all of
it.

Elastic-fruit-runner starts short-lived CI runners in containers and virtual
machines and keeps a history of the jobs they ran. In cloud mode a server sends
start and cleanup commands, each handled in its own goroutine; in standalone
mode a controller scales one set of runners by itself.

## How it is modelled

Each concurrent component is a state machine. An action is one mutex section,
one SQL statement or transaction, or one backend call, and an action that cannot
happen changes nothing. `Exec` runs any list of actions, so a statement about
`Exec` is a statement about every interleaving. Objects that the program updates
in place are classes; their methods are proved against functions on values, and
the properties are lemmas about those functions.

| file | models |
|---|---|
| `tracker.dfy` | the runner tracker: preparing, idle and busy |
| `agent.dfy` | the maps of the cloud agent and the methods that change them |
| `lifecycle.dfy` | the start, cleanup and set cleanup handlers in every interleaving |
| `strangers.dfy` | what cleanups remove, also of runners and sets the agent does not know |
| `scaler.dfy` | the standalone controller in every interleaving: spawning, job events, reaping, shutdown |
| `capacity.dfy`, `shutdown.dfy` | how many runners it counts, and what a shutdown leaves behind |
| `jobkept.dfy` | whether a runner is left alone while its job runs |
| `controller.dfy` | the controller object and its calls one at a time |
| `queries.dfy` | the job tables, their SQL statements and the transaction that moves a job |
| `jobs.dfy` | job records and log capture, one call after another |
| `records.dfy`, `closingnote.dfy` | what a job row says, column by column, and the note of a closed one |
| `jobhistory.dfy` | what the messages for one runner leave behind, in any case |
| `handover.dfy` | attach and close calls on one provisional record, interleaved |
| `capturelogs.dfy` | the capture goroutines while the record is moved and closed under them |
| `sequences.dfy` | the numbers of log rows through all of this |
| `secrets.dfy`, `yamlnodes.dfy` | secret masking on YAML trees, as values and as nodes rewritten in place |
| `lines.dfy`, `text.dfy` | the same on text that is not valid YAML, line by line |
| `history.dfy` | history retention and size-based eviction |
| `revisions.dfy` | config revisions |
| `limiter.dfy` | the login limiter |
| `paging.dfy` | job records by cursor and log rows by sequence |
| `validation.dfy` | the two config validators |
| `acceptance.dfy`, `reported.dfy` | what an accepted config is, and where faults are reported |

## What the code does not promise

Some properties hold only under a condition. Each of these has a run or an
input that shows it, and a theorem that says when the property holds.

- A set cleanup finds resources by name prefix. A forgotten runner that was
  alive stays alive exactly when it is not named after its set
  (`Lifecycle.OddlyNamedRunnerLeaks`, `Lifecycle.SetCleanupLeavesIff`).
- Two starts of one name on two kinds of backend leave the first resource to
  nobody (`Lifecycle.TwoKindsLeak`).
- A standalone runner that is up when the session ends, but not yet marked idle,
  may be left alive; if there is none, nothing is left
  (`Shutdown.ReadyTooLateHappens`, `Shutdown.NothingStaysIff`).
- A job started on a runner that was just reaped takes the count over MaxRunners,
  exactly when no place is free (`Capacity.StartedAfterReapedExceeds`,
  `Capacity.StartedFitsIff`); a job completed for a runner that is still starting
  lets a run exceed it (`Capacity.CompletedTooEarlyExceeds`,
  `Capacity.CompletedFitsIff`).
- A job that starts while its runner is up but not yet marked idle leaves the
  runner idle afterwards, and the reaper can remove it under the job; the runner
  is safe exactly when its start is over and no cleanup of it is under way
  (`JobKept.JobDuringStartHappens`, `JobKept.JobIsSafeIff`).
- The note of a closed record can say that no job ran although the log shows
  one: exactly when every line that says so was split by two reads
  (`ClosingNote.SplitLineIsMissed`, `ClosingNote.NoteIsRightIff`).
- A job event for a preparing runner puts it in two phases
  (`Tracker.BusyWhilePreparingCountsTwice`, `Tracker.SeparateIffExpected`).
- A job event for a runner the agent has already forgotten leaves a name in the
  tracker that is in no map (`Lifecycle.AgreesIffTimely`).
- A cleanup between the confirmation of a runner and the opening of its record
  leaves a row that stays running (`JobHistory.CleanupBeforeOpenStaysRunning`).
- A close between the read and the lookup of an attach can leave log rows under
  a placeholder that is no job any more: exactly when the close stopped the
  capture before that lookup and the capture wrote after the move
  (`CaptureLogs.CloseCanOrphanRows`, `CaptureLogs.OrphanedIff`).
- An increment over 1 MiB loses its beginning
  (`CaptureLogs.CaptureFollowsTheRecord`).
- With m logins at once, m + 4 failures fit into one instant
  (`Limiter.OverlappingLoginsReach`).
- A config revision saved with the clock behind ten others is dropped at once,
  and can leave no config active; a new row is safe exactly when a place is free
  or some row is older (`Revisions.LateSaveIsLost`, `Revisions.NewRowIsKeptIff`).
- History retention drops the old log rows of a job that is still running
  (`History.RetentionKeepsRunning`).

## Model

| member | source | states |
|---|---|---|
| Lifecycle.NoRunnerIsEverLeaked | internal/cloudagent/commands.go:124-223 | From a new agent, in every interleaving of any number of start, cleanup and set cleanup handlers and job events: a live resource is tracked, has a removal still to come, or is between its start and its confirmation; once no handler is in flight, every live resource is tracked. Needs one backend kind per name and runner names that begin with the set name |
| Lifecycle.NoRunnerIsLeaked | internal/cloudagent/commands.go:124-223 | The same from any world in which it holds, so it is kept by every further run |
| Lifecycle.StartAlone | internal/cloudagent/commands.go:124-180 | An undisturbed start leaves the runner live, tracked under its set and backend, and idle, and changes nothing else |
| Lifecycle.RepeatedStartAlone | internal/cloudagent/commands.go:149-160 | A start sent again for a tracked runner starts nothing and changes neither the runner nor its phase |
| Strangers.CleanupRemovesIff | internal/cloudagent/commands.go:185-200 | An undisturbed cleanup forgets the runner and removes exactly its resource: on its own backend if it is tracked, otherwise on every installed kind, cached before or not |
| Strangers.UnknownRunnerIsRemoved | internal/cloudagent/commands.go:182-200 | Whatever other handlers do in between: when the cleanup of a runner that is not tracked and that nobody starts is done, no installed backend has its resource, also right after a restart |
| Strangers.SetCleanupRemovesIff | internal/cloudagent/commands.go:202-223 | An undisturbed set cleanup forgets exactly the runners of the set and removes exactly the resources whose names begin with the set name and a dash: on the kinds its runners use or it was last seen with, otherwise on every installed kind |
| Strangers.UnknownSetIsRemoved | internal/cloudagent/commands.go:202-223 | Whatever other handlers do in between: when the cleanup of a set nobody has mentioned is done, no installed backend has a resource named after it that nobody starts |
| Lifecycle.SetCleanupLeavesIff | internal/cloudagent/commands.go:206-223 | A runner of the set that was alive is forgotten by an undisturbed set cleanup, and is still alive afterwards if and only if its name does not begin with the set name |
| Lifecycle.OddlyNamedRunnerLeaks | internal/cloudagent/commands.go:206-223 | A run from a new agent that shows why runner names must begin with the set name: all handlers are done, nothing is tracked, and the runner is alive |
| Lifecycle.TwoKindsLeak | internal/cloudagent/commands.go:124-180 | A run that shows why a name must keep to one backend kind: two starts of one name, the second one fails and forgets it, and the resource of the first stays alive, tracked by nobody |
| Lifecycle.AgreesIffTimely | internal/cloudagent/commands.go:228-267 | Handlers keep the runner map and the tracker in agreement; a job event keeps it if and only if it is for a tracked runner, past preparing if it starts a job |
| Lifecycle.JobEventsShow | internal/cloudagent/commands.go:228-267 | An assigned job makes its runner busy since now and its set known, and a finished one makes it idle since now |
| Lifecycle.TrackedRunnersAreAlwaysShown | internal/cloudagent/service.go:230-342 | From a new agent, in every run each tracked runner has a phase and its set is known, and no name is idle and busy, whatever the order of handlers and job events |
| Lifecycle.TimelyRunsAlwaysAgree | internal/cloudagent/service.go:249-342 | From a new agent, with such events the tracker holds exactly the tracked runners, each in one phase, and its total is their number |
| AgentService.Service.BackendFor | internal/cloudagent/service.go:214-227 | Builds a backend once per specification and keeps it; an unknown kind is an error and changes nothing |
| AgentService.Service.RememberRunnerSet | internal/cloudagent/service.go:230-245 | The new set state, where an empty field keeps what was known |
| AgentService.Service.TrackRunner | internal/cloudagent/service.go:249-258 | Adds the runner and marks it starting, unless the name is taken, in which case nothing changes |
| AgentService.Service.ConfirmRunnerStarted | internal/cloudagent/service.go:262-270 | Marks a runner idle only if it is still tracked |
| AgentService.Service.ForgetRunner | internal/cloudagent/service.go:303-310 | Returns what was tracked and removes the name from the map and from every phase |
| AgentService.Service.ForgetRunnerSet | internal/cloudagent/service.go:314-342 | Removes exactly the runners of the set and lists each of them once, and each of their backends once |
| AgentService.Service.CapableBackends | internal/cloudagent/service.go:276-300 | Lists exactly the cached backends of installed kinds, with a default one for an installed kind that has none |
| Strangers.ReachedIff | internal/cloudagent/service.go:276-300 | A kind is among these backends if and only if it is installed and is docker or tart or cached already |
| Agent.BackendForIff | internal/cloudagent/service.go:214-227 | There is a backend for every specification that is cached, is docker, or is tart without a runtime |
| Agent.LastSaidIsKnown | internal/cloudagent/service.go:230-245 | After any commands a set has the image and the platform that were named last; a command without them takes nothing back |
| Tracker.NeverIdleAndBusy | internal/controller/runnerstate.go:75-151 | Over every call sequence no name is idle and busy |
| Tracker.PhasesAre | internal/controller/runnerstate.go:75-151 | After any calls on a new tracker a runner is preparing, idle or busy since a time if and only if it was so marked then and no later call ended it; reaping ends only what has been idle for longer than the timeout |
| Tracker.SeparateIffExpected | internal/controller/runnerstate.go:75-105 | A call keeps the three phases disjoint if and only if MarkStarting sees a name that is not up yet and MarkBusy one that is past preparing |
| Tracker.TotalIffSeparate | internal/controller/runnerstate.go:42-44 | The total is at least the number of distinct names, and equal to it exactly when the phases are disjoint |
| Tracker.ExpectedRunsCountDistinctNames | internal/controller/runnerstate.go:75-151 | Over every run of expected calls the total is the number of distinct names |
| Tracker.BusyWhilePreparingCountsTwice | internal/controller/runnerstate.go:97-105 | A job event for a preparing runner puts one name in two phases, and the total counts it twice |
| Tracker.RunnerTracker.RemoveAll | internal/controller/runnerstate.go:119-134 | Empties the tracker and lists exactly the idle and busy names; preparing names are only counted |
| Tracker.RunnerTracker.RemoveIdleOlderThan | internal/controller/runnerstate.go:138-151 | Removes and lists exactly the idle names older than the timeout, each once |
| Tracker.RunnerTracker.Snapshot | internal/controller/runnerstate.go:154-169 | One entry for each phase a name is in, with its start time, and as many entries as the total |
| Scaler.NoRunnerIsEverLeaked | internal/controller/scaler.go:55-208 | In every interleaving of spawning, failing starts, job events, reaping and shutdown with new names: a live runner is tracked, queued for cleanup or held by a start in flight; a preparing name has a start in flight or about to begin; when all is over, only runners marked idle after the tracker was emptied are left |
| Scaler.NoRunnerIsLeaked | internal/controller/scaler.go:55-208 | The same from any state in which it holds |
| Shutdown.NothingStaysIff | internal/controller/scaler.go:115-170 | From the end of a session on, with the context of the starts cancelled: every continuation of the shutdown that comes to rest leaves nothing alive, if and only if there is no start whose runner is up and alive, still to be marked idle, and to be removed by nobody else |
| Shutdown.NothingStaysAfterSessionIff | internal/controller/controller.go:165-172 | The same after every session of a new controller with new names |
| Shutdown.ReadyTooLateHappens | internal/controller/scaler.go:115-150 | A session that ends while such a start is there: its runner came up before the context was cancelled |
| Shutdown.CancelledStartsFail | internal/controller/controller.go:170-172 | In no run after the cancellation does a start get any further: none begins to run its runner and none that runs it succeeds |
| JobKept.JobIsSafeIff | internal/controller/scaler.go:64-208 | A live runner whose job has just started is kept in every continuation of the session in which the job does not end, if and only if its start is over and no cleanup of it is under way |
| JobKept.JobDuringStartHappens | internal/controller/scaler.go:115-150 | A session in which the job arrives while the start has not marked its runner idle yet; it is then idle, and reaped, under its job |
| JobKept.CompletedIsRemoved | internal/controller/scaler.go:84-107 | A completed job takes its runner, and no other, out of the tracker and off the host |
| JobKept.ExpiredAreRemoved | internal/controller/scaler.go:188-208 | A round of the reaper takes exactly the runners that have been idle for longer than the timeout, out of the tracker and off the host |
| Capacity.NeverOverMaxRunners | internal/controller/scaler.go:28-62 | From an empty controller the count never exceeds MaxRunners within a session, for every interleaving with new names in which a started job is for an idle or busy runner or finds a free place, and a completed job is not for a runner that may still become ready |
| Capacity.NeverOverCapacity | internal/controller/scaler.go:28-62 | The same from any state that fits, counting what the spawn loop will still add |
| Capacity.ScalingReaches | internal/controller/scaler.go:28-62 | A scaling call that nothing interrupts ends with what is desired, at most MaxRunners, or with what was there if that is more |
| Capacity.StartedFitsIff | internal/controller/scaler.go:66-80 | A started job keeps the count within MaxRunners if and only if its runner is idle or busy or the count is below it |
| Capacity.CompletedFitsIff | internal/controller/scaler.go:84-107 | A completed job leaves the count within MaxRunners in every such continuation of the session if and only if no start of its runner may still become ready |
| Capacity.CompletedTooEarlyExceeds | internal/controller/scaler.go:84-107 | Otherwise a run exceeds it: the next scaling call fills the place, and then the start marks its runner idle |
| Capacity.StartedAfterReapedExceeds | internal/controller/scaler.go:66-80 | A run from an empty controller in which a job starts on a runner just reaped and comes on top of its replacement |
| ScalerService.ScaleSetController.HandleDesiredRunnerCount | internal/controller/scaler.go:28-62 | One scaling call alone ends with max(old count, min(desired, MaxRunners)) runners, starts exactly the missing ones and stops none |
| ScalerService.StartAllCounts | internal/controller/scaler.go:56-60 | Marking n new distinct names adds exactly n to the total |
| ScalerService.ScaleSetController.HandleJobCompleted | internal/controller/scaler.go:84-107 | The runner leaves the tracker and exactly one cleanup is started for it |
| ScalerService.ScaleSetController.ReapExpiredIdleRunners | internal/controller/scaler.go:188-208 | Exactly the idle runners past the timeout leave the tracker, and exactly they get a cleanup |
| ScalerService.ScaleSetController.Shutdown | internal/controller/scaler.go:156-170 | The tracker is emptied and every idle and busy runner is removed from the host; nothing else is |
| Queries.MoveJobConserves | internal/management/provisional.go:146-179 | A successful move changes the id of the job row and of exactly its log and sample rows; the start time, the number, order, keys and texts of rows and all other jobs stay |
| Queries.MoveJobFails | internal/storage/sqlc/queries.sql:32-41 | The move fails if and only if the job is not running or the new id is taken by another job |
| Queries.MovedText | internal/storage/sqlc/queries.sql:37-41 | A move carries the whole text of the old id to a new id without rows, leaves none behind and changes no other text |
| JobStore.JobStore.MoveJob | internal/management/provisional.go:146-179 | All or nothing: the moved tables, or the tables as they were |
| JobStore.JobStore.RecordJobMessageStarted | internal/management/jobs.go:118-127 | The upserted row, which keeps the first start time, and a registered capture if there are diagnostics |
| JobStore.JobStore.RecordJobMessageCompleted | internal/management/jobs.go:150-186 | Stops the capture after its last read, then completes the row or inserts a bare one; an unknown result changes nothing |
| JobStore.JobStore.StopCapture | internal/management/jobs.go:233-245 | Stores what the last read finds and takes the capture out of the register |
| JobStore.JobStore.CaptureLogs | internal/management/jobs.go:247-270 | Appends what is new in the log, at most its last MiB, under the current job id; a log that did not grow changes nothing |
| JobStore.JobStore.AttachJobMetadata | internal/management/provisional.go:43-78 | Moves row, rows and capture to the real id and merges the details, or reports failure and changes nothing |
| JobRecords.AttachedRow | internal/management/provisional.go:114-125 | An attached row has every value the control plane sent, and what the agent knew for each one that came empty: display name, runner, set and backend, each by itself; details are those of the message; start time and state stay |
| JobRecords.AttachedCapture | internal/management/provisional.go:58-77 | The capture goes with the row; without one a new one starts exactly if the backend has diagnostics |
| JobRecords.StartedRow | internal/cloudagent/commands.go:174-178 | A started runner has a running row under its placeholder, with its set and backend, and is captured from the beginning |
| JobRecords.AssignedWithoutRecord | internal/cloudagent/commands.go:225-245 | An assignment without such a row is recorded fresh under the id of the job |
| JobRecords.CompletedRow | internal/management/jobs.go:150-186 | A completion changes result and end time of its row and nothing else; a job nobody recorded gets a bare row; a result that is not known changes nothing |
| JobRecords.FinishedRow | internal/cloudagent/commands.go:247-267 | Succeeded and canceled are recorded as such and every other outcome as failed |
| JobRecords.AddedRow | internal/management/jobs.go:247-270 | A read adds one row under the id of the capture: all that is new in the log, or its last MiB |
| JobStore.JobStore.CloseProvisionalJob | internal/management/provisional.go:84-108 | Stops the capture and closes a row that is still running as unknown, with a note that says whether a job ran |
| ClosingNote.CloseNoteIff | internal/management/provisional.go:84-108 | A close ends a running row as unknown; its note says that a job ran if and only if one single log row has the line that says so |
| ClosingNote.NoteIsRightIff | internal/management/provisional.go:133-142 | So the note agrees with the whole stored log if and only if the log shows no job, or shows it at a place where no row ends |
| ClosingNote.SplitLineIsMissed | internal/storage/sqlc/queries.sql:43-47 | A log whose line was split by two reads: the text shows a job and the search finds none |
| Sequences.RunsNumber | internal/storage/sqlc/queries.sql:54-56 | In every interleaving of captures, attach and close calls, rows keep strictly increasing numbers that are never given out again |
| Sequences.CleaningNumbers | internal/management/host.go:90-126 | And for cleaning |
| JobHistory.AssignedJobIsRecorded | internal/cloudagent/commands.go:177-267 | Start, assignment, finish and cleanup with any reads in between leave exactly one row of the runner, under the real id, with the mapped result, the first start time and the whole log since the runner start; every other job and its text is untouched |
| JobHistory.UnassignedJobIsRecorded | internal/cloudagent/commands.go:247-267 | The same if the assignment never arrives |
| JobHistory.AssignmentChangesOnlyDetails | internal/cloudagent/commands.go:228-267 | With and without the assignment the very same log rows and the same single job row are left, up to set, backend, name and details |
| JobHistory.UnnamedRunnerIsClosed | internal/management/provisional.go:84-131 | If no job message arrives, cleanup leaves exactly the placeholder row, unknown, with the whole log and the right note |
| JobHistory.CleanupBeforeOpenStaysRunning | internal/cloudagent/commands.go:168-177 | A cleanup between the confirmation of a runner and the opening of its record closes nothing: the row stays running |
| JobHistory.TicksCommuteWithMove | internal/management/jobs.go:247-270 | Capturing and then moving the record leaves the same rows as moving and then capturing |
| Handover.ExactlyOneTakesEffect | internal/management/provisional.go:43-108 | Every interleaving of any number of attach and close calls on one record, statement by statement: at most one changes a job row, and the table is exactly what the one move or the one close makes of it, in every column; once a close, or an attach to a free id, has returned, one has |
| CaptureLogs.CaptureFollowsTheRecord | internal/management/jobs.go:202-270 | Every interleaving of the captures with any number of attach and close calls while the log grows. Unless the record was moved without the lock of its capture: the rows under the current id are the log up to logSize if and only if no increment was over 1 MiB, no row is left under the placeholder after the move, and with the lock free the capture is registered by the id it writes under, or was stopped. After a move without the lock the placeholder gets exactly what the log has grown by since |
| CaptureLogs.OrphanedIff | internal/management/provisional.go:43-108 | In every such run, once the record has moved, rows lie under the placeholder if and only if a close had stopped the capture ahead of the lookup of the attach that moves the record, and the capture wrote again after the move |
| CaptureLogs.EveryMoveLooksUp | internal/management/provisional.go:58-66 | Every record that was moved was moved by a call that had looked its capture up, so the condition always has its two places in the run |
| CaptureLogs.CloseCanOrphanRows | internal/management/provisional.go:43-108 | A run that leaves rows under a placeholder that is no job |
| CaptureLogs.CaptureCatchesUp | internal/management/jobs.go:247-270 | From any reachable state with the lock free, unless the record was moved without it, one undisturbed round stores everything the log holds under the current id |
| CaptureLogs.CaptureRoundAlone | internal/management/jobs.go:247-270 | The sections of one undisturbed round do what the sequential capture does |
| CaptureLogs.AttachAlone | internal/management/provisional.go:43-78 | An attach that runs alone through the interleaved steps ends as the sequential attach does |
| CaptureLogs.AttachUncapturedAlone | internal/management/provisional.go:66-77 | The same for a record without a capture, which starts one if there are diagnostics |
| CaptureLogs.CloseAlone | internal/management/provisional.go:84-108 | A close that runs alone, with the last read of the capture, ends as the sequential close does |
| Secrets.RoundTrip | internal/configstate/storage.go:237-275 | For every tree with distinct keys per mapping, merging the redacted tree with the tree itself gives the tree back |
| Secrets.RedactHides | internal/configstate/service.go:191-210 | Redaction masks the value of every pat_token at every depth and changes nothing else |
| Secrets.SameRedacted | internal/configstate/service.go:191-210 | Two trees look the same redacted if and only if they agree outside pat_token values |
| Secrets.RedactIdempotent | internal/configstate/service.go:191-210 | Redacting twice is redacting once |
| Secrets.TokenIsShownAsStars | internal/configstate/service.go:191-210 | What is shown for a pat_token is eight stars |
| Secrets.TypedTokenSurvives | internal/configstate/storage.go:247-257 | A pat_token of the draft with any character but a star survives the merge with every config |
| Secrets.MaskedTokenIsFilled | internal/configstate/storage.go:241-257 | One of stars only, or empty, takes the value of the last pair with that key in the config |
| Secrets.MergeIsMerge | internal/configstate/storage.go:237-266 | The same at every depth: the merge has item by item what belongs there, stated without the search and the mask test of the code |
| Secrets.MergeIsUnique | internal/configstate/storage.go:237-266 | And no other tree has |
| Secrets.RedactMerge | internal/configstate/storage.go:237-266 | For all drafts and configs the merged tree redacts to the same tree as the draft |
| Secrets.MergeIdempotent | internal/configstate/storage.go:237-266 | Merging the same config again changes nothing, for configs with distinct keys |
| YamlNodes.RedactNode | internal/configstate/service.go:191-210 | The nodes rewritten in place stand for the redacted tree; no node is added |
| YamlNodes.MergeSecretNodes | internal/configstate/storage.go:237-266 | The draft rewritten in place stands for the merged tree and shares no node with the current one, which is unchanged |
| YamlNodes.CopyNode | internal/configstate/storage.go:268-275 | A tree of new nodes that stands for the same value |
| Lines.RoundTrip | internal/configstate/storage.go:214-235 | For every text, merging its redaction with it keeps the number of lines and every line without the key, and gives each key line its own secret back, trimmed, after its own prefix |
| Lines.RoundTripExact | internal/configstate/storage.go:214-235 | The text itself comes back if and only if each key is followed by one space and a trimmed value |
| Lines.RedactMerge | internal/configstate/storage.go:214-235 | For all drafts and configs the merged text redacts to the same text as the draft |
| Lines.TypedLineSurvives | internal/configstate/storage.go:221-233 | A line without the key stays, and so does a key line whose value has any character but a star or a quote |
| Lines.MaskedLineIsFilled | internal/configstate/storage.go:214-235 | A masked key line takes the token of the key line of the config that has as many key lines before it |
| Lines.RedactedLineIs | internal/configstate/service.go:174-181 | A key line is shown as its prefix, the key and eight stars, every other line as it is |
| Lines.RedactInPlace | internal/configstate/service.go:174-181 | The loop over the lines computes the redacted text |
| Lines.MergeMaskedLines | internal/configstate/storage.go:214-235 | The two loops together compute the merged text |
| History.HostStore.CleanHistory | internal/management/host.go:90-127 | Retention, then passes only above the maximum: each pass frees what the file is over the target, and the loop ends for one of three reasons. It terminates, by the number of jobs left |
| History.HostStore.EvictOldest | internal/management/host.go:106-117 | One inner loop: evicts oldest first until the estimates cover the bytes to free or no completed job is left |
| History.HostStore.EvictToTarget | internal/management/host.go:101-126 | The outer loop: its passes follow one another, and it stops only at or below the target, after a pass that freed nothing, or on a failed compaction |
| History.HostStore.GetOldestCompletedJobSize | internal/storage/sqlc/queries.sql:132-141 | Some completed job with the least end time and its estimate, or nothing if no job is completed |
| History.PassIsShortest | internal/management/host.go:106-117 | No shorter start of a pass frees enough |
| History.PassesEvictOldestFirst | internal/management/host.go:101-126 | All passes together evict one list, oldest first, and exactly the jobs in it with their rows |
| History.CleaningRemovesOldest | internal/management/host.go:90-126 | Whatever the file sizes are: a removed job was completed, no job kept is older, and no log row of it is left |
| History.EvictionKeeps | internal/management/host.go:101-126 | Eviction keeps every running job, and row, text and estimate of every job it keeps |
| History.RetentionKeepsRunning | internal/storage/sqlc/queries.sql:114-130 | Retention keeps a running job and drops exactly its log rows older than the cutoff |
| History.RetainedIff | internal/storage/sqlc/queries.sql:114-130 | Retention removes exactly the completed jobs that ended 30 days ago with all their log rows and samples, and of other jobs the rows that are 30 days old |
| History.HostSamplesKeptIff | internal/storage/sqlc/queries.sql:109-113 | A host sample stays for 30 days, one taken every five seconds for one day |
| History.EvictedRows | internal/management/host.go:101-126 | Eviction removes exactly the log rows and samples of the evicted jobs, which were all completed |
| History.EstimateIs | internal/storage/sqlc/queries.sql:132-141 | The estimate of a job is a page, the length of its whole log and 256 bytes a sample |
| History.PassFreesTheExcess | internal/management/host.go:101-117 | Each pass works on a file over 9 GiB and frees what it is over, or every completed job; one job less would not do |
| History.StopsFor | internal/management/host.go:101-126 | In the end the file is at or below the target, or no completed job is left, or a compaction failed |
| Revisions.RevisionStore.SaveRevision | internal/configstate/storage.go:152-188 | One save: clear, insert and trim; the trim keeps ten newest rows |
| Revisions.RevisionStore.LoadLastActive | internal/storage/sqlc/queries.sql:197-201 | The newest active config, found if and only if a row is active |
| Revisions.TableIsSmall | internal/storage/sqlc/queries.sql:212-222 | Whatever the clock does, every run of saves leaves at most ten rows and at most one active |
| Revisions.KeepsLastTen | internal/configstate/storage.go:152-188 | With increasing times the rows are exactly the last ten saves, and only the last active save among them is active |
| Revisions.RecoverableIff | internal/configstate/storage.go:27-33 | The last active config can be loaded if and only if fewer than ten revisions were saved after it; no other is ever loaded |
| Revisions.NothingActive | internal/configstate/storage.go:27-33 | If no save was active, no config is loaded |
| Revisions.LateSaveIsLost | internal/storage/sqlc/queries.sql:219-222 | A save older than ten rows is dropped by its own trim, and if it was active no row is active any more |
| Revisions.NewRowIsKeptIff | internal/storage/sqlc/queries.sql:219-222 | Every trim the statement allows keeps the new row if and only if a place is free or some row is older; rows of the same time may push it out |
| Limiter.LoginLimiter.CheckLoginLimit | internal/auth/service.go:190-205 | Refuses before the block ends; otherwise compacts the array in place to exactly the attempts of the last five minutes |
| Limiter.LoginLimiter.RecordLoginFailure | internal/auth/service.go:207-215 | Appends the failure; the fifth starts a block of a minute and empties the list |
| Limiter.LoginLimiter.Login | internal/auth/service.go:91-109 | Only a wrong password records a failure and only a right one clears them; a blocked login changes nothing |
| Limiter.FailuresAreLimited | internal/auth/service.go:91-109 | However at most m logins overlap, without a success in between: the list has at most four entries, five failures in a row within five minutes include one that starts a block, and m + 5 failures in a row take a minute or more |
| Limiter.LetInIff | internal/auth/service.go:190-205 | A login is let in if and only if no block is running |
| Limiter.BlockEnds | internal/auth/service.go:190-215 | Nobody is locked out for good: in every run, a minute after whatever happened last, the next login is let in |
| Limiter.OnlyFailuresBlock | internal/auth/service.go:190-215 | Logins that are refused or right prolong no block: a minute after the last failure the next login is let in |
| Limiter.FailureBlocksIff | internal/auth/service.go:190-215 | A wrong password starts a block of a minute if and only if four failures of the last five minutes are listed; otherwise it joins them and older ones are forgotten |
| Limiter.SequentialLimit | internal/auth/service.go:190-222 | One login at a time: any window shorter than a minute holds at most five failures |
| Limiter.OverlappingLoginsReach | internal/auth/service.go:91-109 | The bound m + 4 is reached: with m overlapping logins m + 4 failures fall on one instant |
| Limiter.LoginIsARun | internal/auth/service.go:91-109 | The sequential login is a run of the interleaved model |
| Paging.List | internal/management/jobs.go:306-334 | The page of the matching records that the cursor and the page size ask for |
| Paging.CursorYieldsAll | internal/management/jobs.go:306-334 | For any page size, following the cursor from 0 ends and yields the matching records once, in order |
| Paging.PagesAreFull | internal/management/jobs.go:322-333 | Every page but the last is full and none is empty |
| Paging.PagesHoldMatchingJobs | internal/management/jobs.go:306-334 | With at most 2000 jobs the pages together hold exactly the jobs that meet every filter that is set, spelled out |
| Paging.Logs | internal/management/jobs.go:399-417 | The rows after the given sequence, up to the page size, and where to go on |
| Paging.JobRowsAre | internal/storage/sqlc/queries.sql:74-80 | Log pages hold rows of the asked job alone, and all of them |
| Paging.SequenceYieldsAll | internal/management/jobs.go:399-417 | Whatever is appended between the calls, a client has every row up to its place once and in order, and a page that is not full means it has all |
| Validation.Config.ValidateConfig | config/validation.go:125-209 | Exactly the issues of the whole config in order; none if and only if the config runs and is strict; every org gets its default group |
| Validation.Config.Validate | config/config.go:179-212 | The first problem in order, or none if and only if every check passes; the orgs before it get their default group |
| Validation.ValidateRunnerSetsAll | config/validation.go:310-344 | The issues of the runner sets, with the shared map of names |
| Validation.ValidateRunnerSets | config/config.go:304-330 | The first problem of the runner sets, with the shared set of names |
| Validation.NoIssuesIff | config/validation.go:125-209 | ValidateConfig accepts if and only if the checks of Validate and the stricter ones all pass |
| Validation.NoErrorIff | config/config.go:179-330 | Validate accepts if and only if every check it makes passes and no runner set name is used twice |
| Acceptance.ValidIff | config/config.go:179-330 | Validate accepts exactly the configs that are valid field by field, spelled out without its checks |
| Acceptance.AcceptedIff | config/validation.go:125-344 | ValidateConfig accepts exactly those that are also sound field by field |
| Reported.ReportedIff | config/validation.go:125-344 | ValidateConfig reports a place if and only if something is wrong there: every field, every runner set, and every name used before |
| Reported.ErrorIsReported | config/config.go:179-330 | The problem Validate stops at is at a place where something is wrong, and ValidateConfig reports that place too |
| Validation.AcceptedIsValid | config/validation.go:125-209 | Every config ValidateConfig accepts is accepted by Validate |
| Validation.ValidIsAcceptedIff | config/config.go:179-330 | A config Validate accepts is accepted by ValidateConfig if and only if it is strict |
| Validation.AcceptedNamesDiffer | config/config.go:304-330 | In an accepted config no two runner sets of any orgs and repos share a name |
| Validation.LongTimeoutIsOnlyValid | config/validation.go:142-144 | The converse fails: an idle timeout above a day is only rejected by ValidateConfig |
| Validation.GroupsDoNotMatter | config/config.go:237-239 | The default group that one validator writes makes no difference to either |

## Left out

- Lifecycle.NoRunnerIsEverLeaked: assumes one backend kind per runner name, runner names that begin with the set name, and a backend whose cleanup removes the named resource; without the naming rule it is false.
- Capacity.NeverOverMaxRunners: assumes new random names and the two conditions on job events that `Capacity.StartedFitsIff` and `Capacity.CompletedFitsIff` show to be exact.
- JobHistory.AssignedJobIsRecorded: handlers run one after another here, a job's messages arrive in order and not repeated, and no read is more than 1 MiB ahead of the last. The runner's backend offers diagnostics. A repeated start message reopens a finished row and keeps its old completion time.
- JobStore.JobStore.StopCapture: waits for the last read; the program gives up after six seconds. Handover does not wait at all, which allows more.
- CaptureLogs.CaptureFollowsTheRecord: assumes that inserts succeed, that real job ids are no placeholders and are taken or without log rows, and that the runner log only grows. The Tart backend reads the last 5000 lines (internal/backend/tart.go:208-214), so there the log stops growing once it is longer, and the text theorems do not apply from then on. A stopped capture may read any number of times here, and at most once in the program.
- Strangers.UnknownSetIsRemoved: assumes that no command mentions the set while the cleanup runs; Strangers.SetCleanupRemovesIff says what is removed otherwise, with nothing else going on.
- AgentService.Service.ForgetRunnerSet: the order of the two lists it returns; the program sorts the names.
- AgentService.Service.BackendFor: a cached backend is known by its specification only, not by its connection state.
- YamlNodes.RedactNode: comments, styles, anchors and aliases of nodes; parsing and printing YAML.
- Secrets.RoundTrip: nothing is claimed for drafts whose sequence items were reordered, as merging pairs items by index.
- Text.IndexStays: strings are sequences of characters here, byte strings in the program.
- History.HostStore.CleanHistory: file sizes and compaction results are arbitrary functions of the reading; delete statements succeed, and nothing else writes between them. A job end time is a number.
- Revisions.RevisionStore.SaveRevision: row ids count from 0 here and from 1 in the database; times are numbers, and a transaction that fails is not modelled, as it changes nothing.
- Limiter.LoginLimiter.Login: creating the session after a right password, which does not touch the limiter.
- Paging.List: case folding is a parameter, and decoding the label list of a record is left out. The cursor is a number here and its decimal text in the program.
- Validation.Config.ValidateConfig: message texts, the warning about GitHub connectivity, and YAML decoding; URL parsing, address splitting, key files and path checks are answers of the environment, fixed during a call.
- Resource samples are moved and deleted with their job here, but measuring and inserting them is not modelled.
- ListRunnerSets, event reports, diagnostics lookup and isolation selection: they only read or forward.
- Host sample recording, rollups and their averages: floating point.
- Docker, Tart, SSH and GitHub calls beyond success, failure and removal by name; reconnect backoff and heartbeats.
- The dashboard, the RPC server, generated code, sessions and password hashing.
