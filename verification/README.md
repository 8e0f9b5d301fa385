# The dexbtx miner, modelled and proved

`dexbtx-miner` is an asyncio Stratum client. It feeds nonce ranges to a long-running solver daemon, submits what the
daemon finds to a mining pool, restarts the daemon when it wedges, and keeps both itself and the solver binary up to
date. This project models that program in Dafny and proves what it keeps, over every run. `dafny verify dfyconfig.toml`
checks all of it.

## How the model is laid out

| modules | what they model |
|---|---|
| `Daemon`, `GbtSolveWrapper` | the daemon driver: spawn, handshake, one job and one line at a time, retry, shutdown, forced restart |
| `SliceControl`, `AnswerPairing`, `AnswerRuns`, `ShapeSafety` | where every step takes a slice and its daemon; whose answer a slice reads; which daemon a job goes to |
| `Client`, `StratumClient`, `ClientRuns` | the attributes of the client and what each method does to them between two awaits |
| `Session` | sessions, tasks, calls and submissions: every interleaving of the atomic steps |
| `SolverMoves`, `SessionLife`, `SessionStructure`, `Handshakes`, `CallCorrelation`, `Registrations`, `ShareLedger`, `ShareVerdicts`, `Tracking`, `NoRescan`, `Preemption`, `SessionRuns`, `HealWatch`, `Reconnect` | what each step of the solver and of a session leads to; theorems about every run of `Session` |
| `EndToEnd` | `Session` and `Daemon` run together: what a submitted share was found for, and which slices never try a nonce again |
| `Disk`, `SolverUpdater`, `UpdateLaws` | the solver updater on a file system whose every state is kept |
| `Versions`, `WrapperUpdater`, `UpgradeChain`, `Watcher` | the self-upgrade across re-execs, start-up, the periodic re-check |
| `Numerals`, `Nonces` | nonce and version texts |
| `Texts`, `CMakePatch`, `PatchLaws` | the build-time patcher for CMakeLists.txt |

Concurrency is a state machine. A step is the code between two awaits; a run is any finite sequence of steps, and an
event that cannot happen in a state leaves the state alone. The pool, the solver, the clock, the operating system and
cancellation are events, so a theorem about every run covers every interleaving and every failure. The classes
`GbtSolveWrapper.Wrapper` and `StratumClient.Stratum` have the attributes of the Python classes and change them step by
step. `Wrapper.Valid()` says that the object is in a state of some run; every step keeps it, so each step's contract can
say what the theorems about runs give its caller. `Stratum.Do` performs any stretch of code between two awaits, and in
every reachable state of `Session` the attributes are what some sequence of those stretches makes of the initial ones
(`RunsAreStretches`). Histories (`handed`, `got`, `history`, `exits`, `trace`) record what happened; no step decides
anything on them.

What a step does is a function; what it has to do is said again, without that function, in the laws named `...Exactly` and
in the contracts of the classes, so that a wrong branch, a swapped value or a skipped step fails one of them.

The environment is as free as the code allows: the pool sends any response with any id at any time, the daemon prints
anything, processes die at any moment, any await may be cancelled, the hash function is unknown (a digest is not the empty
text, and that is all), and every file operation of the updater may fail. Assumptions: the daemon prints at most one line per job it was sent, in
order, each under the limit of the stream reader; `nonce64_start` is an integer or absent; the name `mkstemp` picks is not
in use and is neither the solver nor its backup.

## What turned out to be so

- **Left-over answers.** A slice cancelled after its job was written leaves its answer on the pipe (`LeftOverIsRead` is
  the shortest such run). From then on every slice on that daemon reads the answer to an earlier job, until a restart
  (`LeftOverPoisonsDaemon`, `RestartClears`). One thing can use a left-over up: if a forced restart has closed stdin, the
  write is swallowed and that slice reads somebody else's line (`SwallowedWriteUsesUpALeftOver`). So the number of
  left-overs is the number of cancelled slices less those stray reads (`LockFreeBacklog`). A share is submitted under the
  job it was found for exactly when its slice wrote to an empty, open pipe (`SharesAreForTheirJobs`).
- **Shape guard.** The daemon handle and its recorded shape can come apart in exactly one way: a forced restart completes
  while a new daemon shakes hands (`CoherentExactly`). A job goes to a daemon of another shape exactly when its slice
  meets a live daemon on record for the job's shape but launched for another (`FitsExactly`), and that takes such a
  handshake first (`MisfitNeedsOrphan`). Eleven steps are enough (`OverlapIsUnsafe`).
- **Carried cursor.** A notify that is not clean carries the cursor even to another parent, although the comment speaks
  of the same parent block (`BroadcastHonouredExactly`; `CursorIsCarriedToAnotherParent` is such a run).
- **A preempt may find no slice running.** A slice that raises and a slice that is cancelled both stay on record as in
  flight until the next slice is begun. A notify preempts with no slice running exactly when the latest slice begun with
  a usable job failed or was cancelled, and the notify is for another parent (`MissesExactly`); one run for each cause is
  `FailedSliceIsPreempted` and `CancelledSliceIsPreempted`. While a slice runs, the preempt is exactly right
  (`HitsExactly`).
- **Found slices.** The end position is dropped when a share is found (`EndPositionSurvivesOnlyMisses`), so the next
  slice skips a whole budget ahead; ranges still never overlap.
- **A share list with an element that is no dictionary** loses the shares after it (`HandOverExactly`), a block among
  them if it comes late (`BlockAfterJunkIsLost`).
- **The reconnect delay is never reset.** The reader leaves its loop by an exception only, and a session ends with its
  reader, so no session of any run returns normally (`EverySessionRaises`) and the line that resets the delay is never
  reached (`DelaysNeverReset`). A normal return would reset it (`AReturnWouldReset`).
- **The hard floor of the solver manifest** is not enforced if the verified download cannot be installed: the updater
  reports "not updated" and mining goes on (`InstallFailureIgnoresFloor`, `MinesUnderFloorExactly`). The documentation
  promises a refusal.
- **The loop guard of the self-upgrade** stops two consecutive upgrades, not a loop: the watcher's next call may upgrade
  again. The comments promise one attempt and no loop for a broken release. That is kept exactly if the version pip leaves
  on disk is at least the published one: then a release is installed once and left alone, and otherwise every second call
  upgrades for ever (`SettlesExactly`; `BrokenReleaseNeverSettles` is one such release).
- **`maybe_self_upgrade` can raise**, although its documentation says it never does: exactly when the call is neither
  opted out nor guarded, and either an exception escapes the fetch or an upgrade is due and the URL template does not
  format (`RaisesExactly`). At start-up, and only there, that ends the process (`DiesExactly`); a manifest that is a list
  does it (`ListManifestKills`).
- **A solver path written with `~`** is expanded by the updater but not by the watcher's hash, so the watcher never
  re-execs for it (`TildeNeverReexecs`), even when it has just installed a new solver there (`TildeMissesAnInstall`).

## Model

| member | source | states |
|---|---|---|
| SliceControl.LeavesExactly | src/dexbtx_miner/gbt_solve_wrapper.py:357-401 | A slice gives the lock back if and only if it is cancelled, has read a record, gets no daemon, its shutdown finds none to kill, or its second attempt is over |
| SliceControl.BacksOffExactly | src/dexbtx_miner/gbt_solve_wrapper.py:393-400 | It backs off if and only if its first attempt is over: the I/O has failed and the daemon has been seen off; from there it tries again or is cancelled |
| SliceControl.GivesUpAfterTwo | src/dexbtx_miner/gbt_solve_wrapper.py:374-401 | In every run, a slice that is given up without an answer, a cancellation, a missing daemon or a crashed shutdown has failed once, backed off, and failed again |
| SliceControl.AsksExactly | src/dexbtx_miner/gbt_solve_wrapper.py:192-228 | Where an attempt begins: spawn without a daemon or with a dead one, retire one of another shape, write to any other |
| SliceControl.ConnectsExactly | src/dexbtx_miner/gbt_solve_wrapper.py:228-382 | From spawn over handshake and hand-over to reading: each is entered from the one before and from nowhere else |
| SliceControl.ShutsDownExactly | src/dexbtx_miner/gbt_solve_wrapper.py:240-244 | A slice shuts the current daemon down if and only if its I/O fails or its handshake is late |
| SliceControl.WaitsExactly | src/dexbtx_miner/gbt_solve_wrapper.py:263-278 | It waits until the process is gone; after five seconds it waits for the current daemon, which it has killed |
| SliceControl.RecordMoves | src/dexbtx_miner/gbt_solve_wrapper.py:228-278 | Daemon handle and shape are set by a spawn and a ready line, forgotten together when a shutdown is over, and never otherwise changed |
| SliceControl.ProcessMoves | src/dexbtx_miner/gbt_solve_wrapper.py:263-392 | Who changes a process: its pipe takes the slice's job at a write to an open stdin, gives one line to the reading slice, closes when a shutdown begins; it dies by itself or is killed as the daemon on record |
| SliceControl.HealMoves | src/dexbtx_miner/gbt_solve_wrapper.py:280-293 | The forced restart waits, kills and ends as a slice's shutdown does, and needs no lock |
| AnswerPairing.LockFreeBacklog | src/dexbtx_miner/gbt_solve_wrapper.py:358-401 | In every run, with the lock free, the written-but-unread jobs of the current daemon are the slices cancelled on it since it was spawned, less the lines read by slices whose own job a closed stdin had swallowed |
| AnswerPairing.OwnAnswerExactly | src/dexbtx_miner/gbt_solve_wrapper.py:376-392 | A line that any slice of any run reads answers that slice's own job if and only if the slice was pristine when it wrote, and an earlier job otherwise |
| AnswerPairing.PristineMeansNothingUnread | src/dexbtx_miner/gbt_solve_wrapper.py:376-380 | Pristine means: stdin was open and nothing written to that daemon was still unread |
| AnswerPairing.NoCancelNoMixUp | src/dexbtx_miner/gbt_solve_wrapper.py:317-401 | In a run in which no slice is cancelled, every line read answers the job of the slice that read it, whatever times out, dies or is restarted |
| AnswerPairing.LeftOverPoisonsDaemon | src/dexbtx_miner/gbt_solve_wrapper.py:317-401 | Once a slice was cancelled on a daemon, every later line read from it answers an earlier job than the reader's, until as many swallowed jobs as cancellations have come by |
| AnswerRuns.RestartClears | src/dexbtx_miner/gbt_solve_wrapper.py:263-278 | If a step of a run ends a shutdown, the next hand-over, whatever happens before it, goes to a daemon spawned later whose pipe is empty, and is pristine if and only if its stdin is open |
| AnswerRuns.LeftOverIsRead | src/dexbtx_miner/gbt_solve_wrapper.py:357-392 | Eight steps in which one slice is cancelled after writing and the next slice reads the answer to its job |
| AnswerRuns.SwallowedWriteUsesUpALeftOver | src/dexbtx_miner/gbt_solve_wrapper.py:280-293 | Nine steps after which a slice has been cancelled on the daemon, yet nothing on it is unread: a swallowed write had its slice read the left-over |
| ShapeSafety.OnlyOrphanReadyBreaks | src/dexbtx_miner/gbt_solve_wrapper.py:236-261 | A step separates daemon handle and recorded shape if and only if it completes a handshake whose daemon has been forgotten |
| ShapeSafety.CoherentExactly | src/dexbtx_miner/gbt_solve_wrapper.py:192-278 | Handle and shape agree in every state of a run if and only if no step of the run is such an orphaned handshake |
| ShapeSafety.FitsExactly | src/dexbtx_miner/gbt_solve_wrapper.py:192-261 | In every state of a run all hand-overs went to daemons launched with the job's shape if and only if no step so far wrote to a live daemon whose recorded shape is the job's and whose launch shape is not |
| ShapeSafety.MisfitNeedsOrphan | src/dexbtx_miner/gbt_solve_wrapper.py:236-261 | A step that writes to a daemon of another shape is never a handshake, and an orphaned handshake came before it |
| ShapeSafety.NoOverlapIsSafe | src/dexbtx_miner/gbt_solve_wrapper.py:192-293 | If no forced restart overlaps a handshake, every job ever handed over went to a daemon launched with exactly its n, b, r and epsilon bits, whatever is cancelled and whoever dies |
| ShapeSafety.OverlapIsUnsafe | src/dexbtx_miner/gbt_solve_wrapper.py:280-293 | A run of eleven steps with such an overlap hands a job to a daemon of another shape |
| Daemon.EveryRunExists | src/dexbtx_miner/gbt_solve_wrapper.py:186-401 | Every sequence of events is a run of the daemon machine, so the theorems above speak of all of them |
| Daemon.ReachedIsClosed | src/dexbtx_miner/gbt_solve_wrapper.py:186-401 | A step from a state of some run leads to a state of some run |
| GbtSolveWrapper.Wrapper.constructor | src/dexbtx_miner/gbt_solve_wrapper.py:159-176 | A new wrapper is in the first state of every run |
| GbtSolveWrapper.Wrapper.DaemonReady | src/dexbtx_miner/gbt_solve_wrapper.py:236-261 | If there still is a daemon, it is the one that shook hands and was launched for the slice's shape, and the job goes to it; if it has been forgotten nothing is handed over, the slice ends, and the shape stays recorded with no daemon |
| GbtSolveWrapper.Wrapper.HandshakeTimedOut | src/dexbtx_miner/gbt_solve_wrapper.py:240-244 | The current daemon's stdin is closed and the slice waits for it to exit before it ends; with no daemon the slice ends at once |
| GbtSolveWrapper.Wrapper.IoFailed | src/dexbtx_miner/gbt_solve_wrapper.py:393-401 | A time-out, an end of file or a broken pipe loses no read and no hand-over; the current daemon is asked to exit, or with none the first attempt backs off and the second ends the slice |
| GbtSolveWrapper.Wrapper.LineRead | src/dexbtx_miner/gbt_solve_wrapper.py:381-392 | The one line taken off the pipe answers the slice's own job if and only if the slice was pristine when it wrote, and an earlier job otherwise; a record ends the slice, anything else fails the attempt |
| GbtSolveWrapper.Wrapper.SolveSlice | src/dexbtx_miner/gbt_solve_wrapper.py:317-376 | The job is handed over at once if and only if a live daemon is on record for its shape; otherwise a daemon of another shape is retired, and without one or with a dead one a new one is spawned. The slice is pristine if and only if the pipe is open and has nothing unread |
| GbtSolveWrapper.Wrapper.RetrySlice | src/dexbtx_miner/gbt_solve_wrapper.py:374-401 | The same for the second attempt, of the same job |
| GbtSolveWrapper.Wrapper.DaemonSpawned | src/dexbtx_miner/gbt_solve_wrapper.py:205-235 | A new process launched for the slice's shape, with an empty pipe, becomes the daemon; no other process changes |
| GbtSolveWrapper.Wrapper.Cancelled | src/dexbtx_miner/gbt_solve_wrapper.py:357-359 | The lock is free again, every pipe holds as many unread jobs as before, and the daemon that owed a line is one cancellation further |
| GbtSolveWrapper.Wrapper.ProcessReaped | src/dexbtx_miner/gbt_solve_wrapper.py:269-278 | After the wait daemon and shape are forgotten together; a retiring slice then spawns, one without a handshake ends, and a failed one backs off after its first attempt and ends after its second |
| GbtSolveWrapper.Wrapper.WaitTimedOut | src/dexbtx_miner/gbt_solve_wrapper.py:270-278 | After five seconds whatever is the current daemon by then is killed and waited for; if it is gone already the slice goes on as after the wait, and if there is none it ends |
| GbtSolveWrapper.Wrapper.HealBegins | src/dexbtx_miner/gbt_solve_wrapper.py:280-293 | A forced restart leaves the slice in flight and everything unread as they are, but closes the daemon's stdin |
| GbtSolveWrapper.Wrapper.HealReaped | src/dexbtx_miner/gbt_solve_wrapper.py:280-293 | When its process is gone the current daemon, whichever that is, and the shape are forgotten while the slice stays where it was |
| GbtSolveWrapper.Wrapper.HealWaitTimedOut | src/dexbtx_miner/gbt_solve_wrapper.py:270-278 | After five seconds the forced restart kills the current daemon, not the one it waited for, and leaves the slice where it was |
| GbtSolveWrapper.Wrapper.Dispatch | src/dexbtx_miner/gbt_solve_wrapper.py:145-401 | After any step, the environment's included, the object is in a state of a run: every line ever read was its reader's own exactly if the reader was pristine, with the lock free the left-overs are the cancelled slices less stray reads, no record or launch shape changes, and a job is handed over exactly when a live daemon is on record for its shape or its own handshake is done |
| Session.EveryRunExists | src/dexbtx_miner/stratum_client.py:187-264 | Every sequence of events is a run of the session machine, so the theorems below speak of all of them |
| EndToEnd.EveryRunExists | src/dexbtx_miner/stratum_client.py:489-579 | Every sequence of steps of the client, the driver and the daemon's process is a run of the two machines together |
| EndToEnd.SharesAreForTheirJobs | src/dexbtx_miner/stratum_client.py:515-569 | In every state of every such run, each share was handed over under the job its slice was begun for, and was found for that very job if and only if the daemon's stdin was open and nothing on it unread at the slice's last write before the answer, a step of the run that the contract names |
| EndToEnd.HonestSolverNeverRescans | src/dexbtx_miner/stratum_client.py:497-604 | With a solver that stays within its budget and below the end it reports, job by job, what a slice tried lies below every later start of its run, unless the slice read the answer to another job |
| EndToEnd.AnotherAnswerRescans | src/dexbtx_miner/stratum_client.py:574-579 | Two honest pieces of work where the end reported for one sends the client back into what the other tried |
| SessionStructure.OneTaskOfAKind | src/dexbtx_miner/stratum_client.py:208-254 | In every reachable state no two live tasks are of the same kind, across all reconnects |
| SessionStructure.NothingOutlivesASession | src/dexbtx_miner/stratum_client.py:227-264 | Between two sessions no reader, solver, metrics or heal task is alive, there is no connection and no job |
| SessionStructure.NoLostWakeup | src/dexbtx_miner/stratum_client.py:491-497 | A solver loop blocked on an unset event implies that there is no job |
| Handshakes.TasksNeedHandshake | src/dexbtx_miner/stratum_client.py:311-326 | In every reachable state, while the session serves or any solver, metrics or heal task is alive, its subscribe call has come back well-formed and the authorize call made after it has come back true |
| Handshakes.ServesExactly | src/dexbtx_miner/stratum_client.py:323-326 | The step that lets the session serve is the return of a true answer to authorize, and no other |
| Handshakes.ServeStarts | src/dexbtx_miner/stratum_client.py:208-225 | It starts one solver, one metrics task and, if enabled, one watchdog, and opens the watchdog's window |
| SessionLife.ConnectsExactly | src/dexbtx_miner/stratum_client.py:200-213 | A connection starts the reader before anything is asked, and subscribes; without one the delay is slept |
| SessionLife.SubscribeAnswers | src/dexbtx_miner/stratum_client.py:311-323 | A well-formed answer to subscribe leads to authorize, any other ends the session |
| SessionLife.ReaderRoundExactly | src/dexbtx_miner/stratum_client.py:330-368 | A round of the reader: a notify reaches the client, what is no message changes nothing, and an empty or failed read or a malformed message ends the task by an exception |
| SessionLife.ServingEndsExactly | src/dexbtx_miner/stratum_client.py:226-227 | A session stops serving if and only if its reader has ended, and is left the way the reader was |
| SessionLife.TakesDownExactly | src/dexbtx_miner/stratum_client.py:227-264 | Reader, solver, metrics and heal task are taken down in this order, then the connection and the job; an exception is followed by the delay, a return would reset it |
| CallCorrelation.IdsAreNeverReused | src/dexbtx_miner/stratum_client.py:751-753 | Request ids strictly increase over the whole life of the process |
| CallCorrelation.ReturnedValueIsItsOwn | src/dexbtx_miner/stratum_client.py:346-355 | A call that returned got the value of exactly one response, with its own id, handled after the call was made; no other response ever completed it |
| Registrations.ResponseCompletes | src/dexbtx_miner/stratum_client.py:346-355 | In every reachable state of a session, a response with the id of a call of this session that still waits gives that call its outcome, changes no other and uses the registration up |
| Registrations.StrayChangesNothing | src/dexbtx_miner/stratum_client.py:346-355 | A response with the id of no waiting call changes no call |
| ShareVerdicts.CallMovesExactly | src/dexbtx_miner/stratum_client.py:751-767 | A call ends if and only if its write fails, its future is set or its time is up; it returns the value it was given or raises, and a time-out forgets the request |
| ShareLedger.SharesAreConserved | src/dexbtx_miner/stratum_client.py:606-640 | In every state, shares handed over with a nonce = accepted + rejected + in flight + cancelled, and blocks_found is the number of accepted shares marked as blocks |
| ShareLedger.InFlightIsReal | src/dexbtx_miner/stratum_client.py:614-622 | A share that counts as being submitted has an open call of its own |
| ShareLedger.ResultHandsOver | src/dexbtx_miner/stratum_client.py:519-569 | A result hands its shares over if the current parent is the slice's and none of them otherwise: one new share for each that is handed over, in order, with its nonce, its block mark and the slice's job, queued and awaited by nobody |
| ShareLedger.OnlyResultsHandOver | src/dexbtx_miner/stratum_client.py:536-569 | Every step other than the return of a slice leaves the list of handed-over shares, with their jobs, nonces and block marks, as it is |
| ShareLedger.HandOverExactly | src/dexbtx_miner/stratum_client.py:546-569 | All parsable shares of a list are handed over if and only if none of them comes after an element that is no dictionary |
| ShareLedger.HandedInTurn | src/dexbtx_miner/stratum_client.py:546-569 | Place by place: what is handed over are the parsable elements before the first that is no dictionary, each once, in the order of the list |
| ShareVerdicts.CallsDecide | src/dexbtx_miner/stratum_client.py:614-640 | In every reachable state a share is what its call says: on its way, accepted on a true answer, rejected on any other or an exception, cancelled with the solver |
| ShareVerdicts.AcceptedExactly | src/dexbtx_miner/stratum_client.py:624-640 | A share is accepted if and only if a call made for it came back with a true answer |
| ShareVerdicts.SubmitsExactly | src/dexbtx_miner/stratum_client.py:614-623 | A queued share is sent at its first turn if there is a connection and counts as rejected if there is none |
| ShareVerdicts.TeardownCancels | src/dexbtx_miner/stratum_client.py:227-239 | The end of a session cancels the share the solver waits for, with its call, and touches no other |
| ShareLedger.BlockAfterJunkIsLost | src/dexbtx_miner/stratum_client.py:546-569 | A result on the current parent with a share, an element that is no dictionary and a block hands over the share and loses the block |
| Tracking.CursorRefines | src/dexbtx_miner/stratum_client.py:388-604 | The start of every slice ever begun is the abstract cursor folded over notifies and slice ends, and so is the current job's |
| Tracking.JobIsTheLatest | src/dexbtx_miner/stratum_client.py:370-394 | In every reachable state the current job is that of the latest notify since the job was last cleared, in everything but where to start; and there is one if and only if there has been such a notify |
| Tracking.OldParentNeverWrites | src/dexbtx_miner/stratum_client.py:515-604 | While a slice on an old parent runs, cools down or awaits its inline submission, no step but a notify and the end of the session touches the current job and its cursor: no answer, find, failure, settled share or end of a pause does |
| Tracking.BroadcastHonouredExactly | src/dexbtx_miner/stratum_client.py:379-393 | A notify takes the pool's start if and only if it is clean, or nothing is there to carry, or both agree |
| SessionRuns.CursorIsCarriedToAnotherParent | src/dexbtx_miner/stratum_client.py:379-393 | A run in which a notify for another parent that is not clean starts at the place reached on the old one, against the start the pool sent |
| Tracking.CountsAreExact | src/dexbtx_miner/stratum_client.py:615-640 | The reject count is the number of rejects since the latest accept, heal or handshake; the heal count the number of heals since the latest accept |
| NoRescan.RangesNeverOverlap | src/dexbtx_miner/stratum_client.py:497-604 | In a run of consecutive slices on one parent, everything an earlier slice tried lies below the start of every later one, whatever notifies, failures and finds fell in between |
| NoRescan.CursorBounds | src/dexbtx_miner/stratum_client.py:574-604 | After k such slices from s within their budget the cursor is between s + k and s + k * nonces_per_slice |
| NoRescan.OnlyEndsScan | src/dexbtx_miner/stratum_client.py:489-604 | No step but the end of a slice changes what any slice is recorded to have tried, and a new slice is recorded to have tried nothing |
| SolverMoves.NextSliceExactly | src/dexbtx_miner/stratum_client.py:574-604 | In every reachable state, of two neighbouring slices of one session on one parent the second starts right after the end the first reported, if that lies beyond its start and its share list did not raise, and a whole budget further on otherwise |
| SolverMoves.AnswersExactly | src/dexbtx_miner/stratum_client.py:515-579 | What an answer leads to: a pause if its share list raises, a wait for its own submission, or the write-back and the next slice on the current job |
| SolverMoves.CoolsExactly | src/dexbtx_miner/stratum_client.py:582-604 | After a slice that raised and its pause, the cursor of its parent moves by a whole budget and the next slice begins |
| SolverMoves.ContinuesExactly | src/dexbtx_miner/stratum_client.py:491-515 | A fresh or woken solver takes up the current job where that says, refuses it without metadata, or waits if there is none |
| SolverMoves.ChallengeExactly | src/dexbtx_miner/stratum_client.py:92-113 | Each component of the challenge is the job's own or its default 512, 16, 8 and 18, and there is no challenge without seeds and height |
| Preemption.PreemptsExactly | src/dexbtx_miner/stratum_client.py:395-407 | In every reachable state a notify preempts if and only if the history has a slice in flight (begun with a usable job and not answered since) on another parent, and the signal names both parents |
| Preemption.RunsExactly | src/dexbtx_miner/stratum_client.py:502-515 | In every reachable state a slice runs if and only if the latest slice begun with a usable job has neither been answered nor failed nor been cancelled |
| Preemption.HitsExactly | src/dexbtx_miner/stratum_client.py:395-407 | While a slice runs, a notify preempts if and only if it is for another parent than that slice's |
| Preemption.MissesExactly | src/dexbtx_miner/stratum_client.py:580-585 | A notify preempts with no slice running if and only if the latest such slice failed or was cancelled, and was on another parent |
| SessionRuns.FailedSliceIsPreempted | src/dexbtx_miner/stratum_client.py:582-585 | A run in which a notify preempts a slice that has failed |
| SessionRuns.CancelledSliceIsPreempted | src/dexbtx_miner/stratum_client.py:580-581 | A run in which the first notify of a new session preempts a slice cancelled with the old one |
| HealWatch.HealsAreSpaced | src/dexbtx_miner/stratum_client.py:656-664 | Any two completed heals are at least one cooldown apart, across all sessions |
| HealWatch.UnhelpfulHealsSpread | src/dexbtx_miner/stratum_client.py:659-664 | k heals with no accept after the first span at least cooldown times the sum of 1 + min(i, 5) for i = 1 .. k-1 |
| HealWatch.GapSumClosed | src/dexbtx_miner/stratum_client.py:659-662 | From k = 6 that sum is 20 + 6 (k - 6) |
| HealWatch.FiresExactly | src/dexbtx_miner/stratum_client.py:656-681 | The watchdog restarts the daemon if and only if the history says so: a cooldown has passed since the last heal, two with one heal since the latest accept and so on up to six, and the rejects or the silence have reached their thresholds |
| SessionLife.HealCompletesExactly | src/dexbtx_miner/stratum_client.py:695-701 | A restart that is over counts from the moment it was decided |
| HealWatch.NoFalseTrip | src/dexbtx_miner/stratum_client.py:643-701 | A run with short reject streaks, a first result within max(stall, grace) and later gaps of at most stall never heals |
| Reconnect.EverySessionRaises | src/dexbtx_miner/stratum_client.py:227-254 | In every run every session ends by an exception, since the reader can only raise, and the delays slept are those of run_forever on that sequence of sessions |
| Reconnect.DelaysNeverReset | src/dexbtx_miner/stratum_client.py:187-198 | So the k-th base delay is min(initial * 2^k, max) for the whole life of the process, and never falls |
| Reconnect.RunForever | src/dexbtx_miner/stratum_client.py:187-198 | The loop of run_forever, over how its sessions end, sleeps one delay for each session that raised: the initial one after a return, the doubled and capped one after a failure |
| Reconnect.RaisingSessionsDouble | src/dexbtx_miner/stratum_client.py:187-198 | If all sessions raise, the k-th delay is min(initial * 2^k, max) |
| Reconnect.AReturnWouldReset | src/dexbtx_miner/stratum_client.py:187-191 | After a normal return and n failures the delay would be that of n failures, whatever came before |
| Client.OnNotify | src/dexbtx_miner/stratum_client.py:370-407 | A notify keeps every attribute what the history says, the job that of the latest notify among them, and records no heal |
| Tracking.NotifyAdopts | src/dexbtx_miner/stratum_client.py:370-394 | For every state and notify the new current job is the notify's in every component but where to start, which is its own or the one before |
| Client.WriteBack | src/dexbtx_miner/stratum_client.py:600-604 | So does the write-back |
| Client.RecordHeal | src/dexbtx_miner/stratum_client.py:695-701 | So does a heal |
| StratumClient.Stratum.OnNotify | src/dexbtx_miner/stratum_client.py:370-407 | The notify's job is adopted, with the start carried over unless the notify is clean or there is none; the solver is preempted exactly on a parent other than the one in flight |
| StratumClient.Stratum.OnResponse | src/dexbtx_miner/stratum_client.py:346-355 | A response completes the call registered under its id, and that registration is gone |
| StratumClient.Stratum.HandleMessage | src/dexbtx_miner/stratum_client.py:346-368 | A message is handled as the machine says and the attributes keep saying what has happened; it raises if and only if it is malformed |
| StratumClient.Stratum.ReaderLoop | src/dexbtx_miner/stratum_client.py:330-344 | The loop handles the messages in order up to the first read that is empty, fails or is malformed, and leaves only by an exception, only there; blank lines and lines that are no JSON are passed over |
| StratumClient.Stratum.BeginCall | src/dexbtx_miner/stratum_client.py:751-754 | A call registers under the next id |
| StratumClient.Stratum.LoopTop | src/dexbtx_miner/stratum_client.py:491-515 | The top of the solver loop: wait, or start a slice at the cursor |
| StratumClient.Stratum.HandOverShares | src/dexbtx_miner/stratum_client.py:546-569 | The loop over the shares hands over the parsable ones up to the first element that raises |
| StratumClient.Stratum.SliceReturned | src/dexbtx_miner/stratum_client.py:515-579 | From the solver's answer to the next start: the stale guard, the hand-over and where to go on |
| StratumClient.Stratum.FinishSlice | src/dexbtx_miner/stratum_client.py:600-604 | The write-back moves the cursor of the slice's own parent and leaves every other job as it is |
| StratumClient.Stratum.ShareSettled | src/dexbtx_miner/stratum_client.py:615-640 | An accept counts, also as a block if it is one, and clears streak and heal count; anything else, an exception included, counts as a reject |
| StratumClient.Stratum.HealCheck | src/dexbtx_miner/stratum_client.py:656-681 | A restart is due if and only if the cooldown, one more for each of the first five unhelpful heals, is over and a trigger holds; the trigger named is one that holds |
| StratumClient.Stratum.HealDone | src/dexbtx_miner/stratum_client.py:695-701 | A finished restart is recorded with the time of the check |
| StratumClient.Stratum.HandshakeDone | src/dexbtx_miner/stratum_client.py:214-220 | A handshake opens a new heal window |
| StratumClient.Stratum.SessionOver | src/dexbtx_miner/stratum_client.py:261-264 | The end of a session forgets job and pending calls and wakes the solver |
| ClientRuns.RunsAreStretches | src/dexbtx_miner/stratum_client.py:187-701 | In every reachable state of the session machine the attributes are what some sequence of these methods makes of the initial ones |
| StratumClient.Stratum.Do | src/dexbtx_miner/stratum_client.py:187-701 | Every such sequence of method calls keeps the class invariant and is followed by the object |
| Nonces.HexRoundTrip | src/dexbtx_miner/stratum_client.py:611 | The submitted form of a nonce parses back to it |
| Nonces.HexIsInjective | src/dexbtx_miner/stratum_client.py:611 | Different nonces are submitted as different texts |
| Nonces.SixteenDigitsExactly | src/dexbtx_miner/stratum_client.py:611 | The form has exactly 16 digits if and only if the nonce is below 2^64 |
| Nonces.DecodesDecimal | src/dexbtx_miner/gbt_solve_wrapper.py:419-423 | The result decoder returns n for the decimal print of every integer n |
| Nonces.DecodesHexExactly | src/dexbtx_miner/gbt_solve_wrapper.py:419-423 | It returns n for the hexadecimal print of n if and only if that print has a letter or n is at most 9 |
| Nonces.EndPositionSurvivesOnlyMisses | src/dexbtx_miner/gbt_solve_wrapper.py:403-434 | A found record loses its end position; a miss keeps a non-zero one, and an end of 0 falls back to nonce64 |
| Nonces.FoundRecordExactly | src/dexbtx_miner/gbt_solve_wrapper.py:419-434 | The nonce of a find is what nonce64 means, or nonce without it; it is a block unless the record says that it is none; its share list is passed on |
| Nonces.RaisesExactly | src/dexbtx_miner/gbt_solve_wrapper.py:403-423 | Decoding raises if and only if the end position is a text that is no decimal number, or the nonce of a find a text that is no number |
| Nonces.DecodesByDigits | src/dexbtx_miner/gbt_solve_wrapper.py:422-423 | A textual nonce behind any dashes is read in base 10 if it is nothing but digits and in base 16 otherwise |
| Numerals.DecimalRoundTrip | src/dexbtx_miner/gbt_solve_wrapper.py:408 | Every integer printed in base 10 reads back to itself |
| Numerals.ReadsExactly | src/dexbtx_miner/gbt_solve_wrapper.py:408-423 | int() accepts an optional sign and digits with single underscores between them, in base 16 also behind a prefix, and nothing else |
| Numerals.UnderscoresDoNotCount | src/dexbtx_miner/gbt_solve_wrapper.py:408-423 | Accepted underscores do not change the value |
| Numerals.BlanksDoNotCount | src/dexbtx_miner/gbt_solve_wrapper.py:408-423 | Blanks around the text do not change it |
| Versions.VersionRoundTrip | src/dexbtx_miner/wrapper_updater.py:48-55 | Every non-empty list of naturals, joined with dots and parsed, comes back |
| Versions.VersionsAreTotallyPreordered | src/dexbtx_miner/wrapper_updater.py:48-55 | The version comparison is a total preorder on all texts, and what does not parse ranks with 0 |
| Versions.LexPrefix | src/dexbtx_miner/wrapper_updater.py:176 | A proper prefix sorts strictly first |
| Versions.LexExactly | src/dexbtx_miner/wrapper_updater.py:176 | The comparison is the lexicographic one: by the first difference, or by being a prefix |
| Versions.ParsesExactly | src/dexbtx_miner/wrapper_updater.py:48-55 | A version is its components if every one of them is an integer, and a single 0 otherwise |
| SolverUpdater.MaybeUpdateSolver | src/dexbtx_miner/solver_updater.py:220-300 | True is returned if and only if the solver file changed; SolverUpdateRequired is raised if and only if a due download fails, in a handled way, under an unmet floor; no temporary file stays unless an exception escapes; in every state the disk passes through the solver is the old one, or has the manifest's hash with the old one in the backup; which entry decides is in `UpdateLaws` |
| SolverUpdater.DownloadAndVerify | src/dexbtx_miner/solver_updater.py:170-208 | The download touches the temporary file only, and leaves it behind exactly when it is verified or an exception escapes |
| SolverUpdater.InstallAtomic | src/dexbtx_miner/solver_updater.py:211-217 | Every state of an install is the old disk up to the backup, or the finished one |
| SolverUpdater.CopyChunks | src/dexbtx_miner/solver_updater.py:192-194 | The copy loop leaves every other file alone in every state and ends with all chunks in the file |
| UpdateLaws.OutcomeIsExact | src/dexbtx_miner/solver_updater.py:220-300 | The solver changes if and only if the outcome is True; then it has the manifest's hash and the old one is the backup. No temporary file stays unless an exception escapes, and nothing else changes |
| UpdateLaws.PlatformEntryDecides | src/dexbtx_miner/solver_updater.py:97-126 | With a dictionary of platforms the entry under the host's own key decides alone: the call installs if and only if that entry names a hash the solver does not have, bytes with that hash arrive and can be put in place; it refuses if and only if such an update cannot be had and the entry demands a hash the installed solver does not have |
| UpdateLaws.TopLevelDecides | src/dexbtx_miner/solver_updater.py:128-136 | Without one, the same holds with the top-level keys |
| UpdateLaws.NoEntryChangesNothing | src/dexbtx_miner/solver_updater.py:100-116 | With no manifest, on an unknown host, or with no entry for it the call changes nothing and returns False |
| UpdateLaws.BackupIsAPrefix | src/dexbtx_miner/solver_updater.py:211-217 | A call that installs nothing leaves the backup as it was or a beginning of the installed solver in it |
| UpdateLaws.RefusedExactly | src/dexbtx_miner/solver_updater.py:276-287 | SolverUpdateRequired is raised if and only if a due download fails, in a handled way, under a floor the installed solver does not match |
| UpdateLaws.MinesUnderFloorExactly | src/dexbtx_miner/solver_updater.py:17-22 | Below the floor the updater lets mining go on if and only if the entry is malformed, the manifest's own solver is installed, or a verified download cannot be installed |
| UpdateLaws.InstallFailureIgnoresFloor | src/dexbtx_miner/solver_updater.py:289-294 | A concrete case of the last kind |
| UpdateLaws.EverySolverIsVouchedFor | src/dexbtx_miner/solver_updater.py:220-300 | After any number of calls the solver is the original one or has the hash a manifest named in the call that installed it |
| UpdateLaws.InstalledAtMostOnce | src/dexbtx_miner/solver_updater.py:260-300 | While the manifest names one hash the solver is installed at most once, whatever fails how often |
| UpdateLaws.SecondCallIsIdle | src/dexbtx_miner/solver_updater.py:260-266 | A second call under the same manifest after a successful one changes nothing and returns False |
| WrapperUpdater.Process.RunPipInstall | src/dexbtx_miner/wrapper_updater.py:77-116 | The two attempts with pip, and what they leave on disk |
| WrapperUpdater.Process.MaybeSelfUpgrade | src/dexbtx_miner/wrapper_updater.py:119-197 | The call ends and leaves the process as the chain of processes says: stay, re-exec or raise |
| UpgradeChain.NeverTwiceInARow | src/dexbtx_miner/wrapper_updater.py:157-170 | Between two upgrades of a chain there is always a call that upgrades nothing, whatever version the tarballs carry |
| UpgradeChain.AtMostEverySecondCall | src/dexbtx_miner/wrapper_updater.py:157-170 | At most every second call re-execs |
| UpgradeChain.SettlesExactly | src/dexbtx_miner/wrapper_updater.py:127-170 | Called again and again for one release from an upgrade on, the chain upgrades once and then never moves again if the version pip leaves on disk is at least the published one, and at every second call for ever if it is less |
| UpgradeChain.BrokenReleaseNeverSettles | src/dexbtx_miner/wrapper_updater.py:127-170 | One release of the second kind, published as 2 and installing 1: for any number of calls every second one upgrades, and the process is back where it was |
| UpgradeChain.ReexecsExactly | src/dexbtx_miner/wrapper_updater.py:77-116 | A call re-execs if and only if it is not opted out, no upgrade has just been made, the manifest's version is above the loaded one, the template formats, pip exits with zero at its first attempt or, the first having exited otherwise, at its second, and the exec is possible |
| UpgradeChain.CallLeavesExactly | src/dexbtx_miner/wrapper_updater.py:119-197 | The process that comes of it loads what pip has left and knows the version; one that stays has spent that mark and goes on with what it has loaded |
| UpgradeChain.RaisesExactly | src/dexbtx_miner/wrapper_updater.py:58-74 | maybe_self_upgrade raises if and only if it is neither opted out nor guarded and either an exception escapes the fetch, or an upgrade is due and the URL template does not format |
| UpgradeChain.DiesExactly | src/dexbtx_miner/__main__.py:214-227 | A call ends the process if and only if it is the one at start-up and raises |
| UpgradeChain.ListManifestKills | src/dexbtx_miner/wrapper_updater.py:65-66 | A manifest that is a list ends every starting process that is neither opted out nor guarded |
| UpgradeChain.LoadedRises | src/dexbtx_miner/wrapper_updater.py:176-194 | When no release installs less than it is published as, the loaded version never falls and rises strictly at each upgrade, to the published one or beyond |
| UpgradeChain.UpgradesAreBounded | src/dexbtx_miner/wrapper_updater.py:119-197 | Then upgrades are at most the distinct versions published, across restarts, solver re-execs and failures |
| Watcher.Cycle | src/dexbtx_miner/__main__.py:145-174 | One cycle of the watcher: wrapper first, and a re-exec for the solver if and only if this cycle put a new binary over a readable old one at a path that needs no expansion |
| Watcher.CycleExactly | src/dexbtx_miner/__main__.py:145-174 | It stops where the wrapper's own call re-execs or raises; otherwise the solver is looked after, and the re-exec for it is an if and only if |
| Watcher.StartUp | src/dexbtx_miner/__main__.py:186-240 | Mining starts if and only if the wrapper stays, the command line asks for mining and parses, and the solver updater returns; if the wrapper does not stay or mining is not asked for, no file is touched |
| Watcher.ReexecsAtMostOnce | src/dexbtx_miner/__main__.py:145-174 | While the channel names one solver the watcher re-execs for it at most once |
| Watcher.TildeNeverReexecs | src/dexbtx_miner/__main__.py:156-163 | A path written with a tilde never leads to a re-exec |
| Watcher.TildeMissesAnInstall | src/dexbtx_miner/__main__.py:145-174 | A cycle that installs a new solver over a readable old one: it re-execs at the path spelled out and not at the same path written with a tilde |
| CMakePatch.PatchTopCMake | scripts/inject-hip-cmake.py:96-111 | The loop guards the flags one after the other and writes the file only if it guarded one |
| CMakePatch.PatchSrcCMake | scripts/inject-hip-cmake.py:81-93 | The file is written, once, if and only if the outcome is Patched, and with that text |
| PatchLaws.TopPatchIsIdempotent | scripts/inject-hip-cmake.py:96-111 | On every text, running the top-level patch twice equals running it once |
| PatchLaws.TopPatchIsTwoGuards | scripts/inject-hip-cmake.py:96-111 | On every text the top-level patch puts the first occurrence of each flag in a guard, unless there is none or a guarded one already, and changes nothing else |
| PatchLaws.SrcPatchOutcomes | scripts/inject-hip-cmake.py:81-89 | What the source patch does is decided by the marker first, the anchor next and the stub last |
| PatchLaws.SrcPatchIsTwoEdits | scripts/inject-hip-cmake.py:81-93 | For every wiring whose anchor, stub and option block cannot overlap (`Spliceable`) and whose branch carries the marker, a successful source patch is exactly two edits, at the first anchor and the first stub of the original text |
| PatchLaws.SrcPatchHappensOnce | scripts/inject-hip-cmake.py:81-86 | For every such wiring, after a successful source patch every later run leaves the file alone |
| PatchLaws.TheScriptIsGood | scripts/inject-hip-cmake.py:12-78 | The texts of the script make such a wiring, whatever the branch text says after its first line |
| PatchLaws.TheScriptPatchesOnce | scripts/inject-hip-cmake.py:81-93 | So the script's own source patch is two edits, and happens once |
| Texts.Find | scripts/inject-hip-cmake.py:90-91 | The place of the first occurrence, or none at all |

## Left out

- NoRescan.RangesNeverOverlap: assumes that the solver tried nothing beyond the end it reported, or beyond its budget when no end is used; without it no client could tell. `HonestSolverNeverRescans` derives it from what an honest solver does about each job.
- EndToEnd.HonestSolverNeverRescans: says nothing of a slice that read the answer to another job; `AnotherAnswerRescans` shows why.
- UpgradeChain.UpgradesAreBounded: speaks of releases that install their published version or a later one; `SettlesExactly` shows that a release that installs less has no bound.
- UpgradeChain.NeverTwiceInARow: speaks of calls with no restart by the operator between them, since a restart brings its own environment.
- ShapeSafety.NoOverlapIsSafe: speaks of runs without the overlap; for all runs `FitsExactly` says when every job fits, and `OverlapIsUnsafe` shows a run in which one does not.
- SolverUpdater.MaybeUpdateSolver: other programs do not touch the three files during a call; file modes are not part of the map.
- The endless loops of the client appear as one method for each stretch between two awaits (`StratumClient.Stratum`) and as steps of `Session`, not as loops; the tasks themselves, with their interleavings, are modelled on values.
- The error of the stream reader on an over-long line: with a line above 16 MiB the slice raises and its left-over is not counted.
- Absence of leaked daemon processes when a forced restart overlaps a respawn: the code relies on timing there.
- `wait_for` before Python 3.12 may swallow a cancellation that races with its timeout; the model cancels at every await.
- `CMakePatch.Script`: the HIP branch text after its first line is a parameter; the laws hold whatever it says.
- A notify whose matmul metadata is neither absent nor a dictionary: the metadata is read as a dictionary.
- Integer texts beyond the digit limit of Python 3.11 and later, Unicode digits, and blanks other than ASCII.
- `Path.expanduser` for a path that names another user; equal paths with different spellings.
- A preempt signal only makes the daemon answer earlier; the answers are free in the model, so its delivery is not recorded.
- What a job asks the daemon beyond its shape, and the digest of a share: solver and pool are foreign.
- The metrics task is there as a task, its payload is not.
- `detect_platform_key`: the platform key is a parameter.
- `set_difficulty`, `set_extranonce` and canonical names: values nothing in the model depends on.
- `hardware.py` but for one hash, `config.py`, `benchmark.py`, argument parsing and environment plumbing: thin.
- Sockets, TLS, pip, signals and exec: their outcomes are events.
