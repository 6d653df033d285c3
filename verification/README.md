# Proofs about hackbench and the tools around it

A Dafny model of a Linux scheduler test bench, and proofs about it. The main
subject is the `hackbench` worker protocol: main forks groups of receivers and
senders that share N pipes each, all workers report on one ready pipe and poll
for one GO byte, then every sender pushes `loops` messages of `datasize` bytes
down every pipe with partial writes while every receiver drains its quota with
partial reads. Around it stand the trial supervisor, the snapshot writer and its
reader, the measured HTTP sender, and the binning of the latency plots.

`dafny verify dfyconfig.toml` checks the whole project.

## How it is laid out

| file | subject |
|---|---|
| `Hackbench.dfy` | the protocol as a transition system: one action is one system call of one process, in any interleaving |
| `HackbenchInvariant.dfy` | what every reachable state satisfies: shape, every worker's state, the barrier counts, byte flow |
| `HackbenchProgress.dfy` | no broken pipe, no end of file, deadlock freedom, the one final state |
| `HackbenchRuns.dfy` | the theorems about whole runs |
| `HackbenchWaits.dfy` | exactly when a process waits, and how much one call can move |
| `HackbenchQuotas.dfy` | what the receivers' quota decides: broken pipes, and where a run with quotas nobody can meet comes to rest |
| `HackbenchStarved.dfy` | ends of file and endless schedules, in every configuration |
| `Packets.dfy` | the receiver's quota in 64-bit and in 32-bit arithmetic |
| `Workers.dfy`, `WorkersInRuns.dfy` | `ready`, `sender` and `receiver` as methods, proved to be the machine's loops, alone and within whole runs |
| `Descriptors.dfy`, `GroupSetup.dfy` | `group`, `signal_workers`, `reap_workers` and main's setup loop as methods on a class, with failing `fork`, `pipe` and `malloc` |
| `Lifecycle.dfy`, `LifecycleRests.dfy` | main under failures and caught signals, and where it can come to rest |
| `Text.dfy`, `SchedTracker.dfy`, `Plotter.dfy`, `RoundTrip.dfy` | the snapshot writer with its paced loop, the snapshot reader, and that the second undoes the first |
| `Launcher.dfy` | the trial supervisor, the sweep, and the option splitter |
| `HttpClient.dfy` | the measured sender and its two-process handshake |
| `Histogram.dfy` | the grid, the buckets and the densities |
| `Sums.dfy`, `Wrappers.dfy` | sums over index ranges, small facts about sets and products, and `Option` |

The group, fd, loop, message-size and pipe-capacity parameters are unbounded
everywhere (`Config`); the words of C that matter are written out (`WORD`,
`LONG`). Kernel choices are nondeterministic: which process moves, how many bytes
a read or write transfers, which child a `wait` returns, whether a call fails.
Pipes follow the `read`, `write` and `pipe` pages of POSIX.1-2017: a transfer is
positive and partial, it blocks on a full or empty pipe, a read returns 0 only
when no write end is open, a write is fatal only when no read end is open.

## What the proofs found

- `receiver` counts messages in a 32-bit `unsigned int` but compares it with a
  64-bit quota. The widened product in `group` is exact, so quotas always
  balance, yet a run can finish exactly when `num_fds * loops < 2^32`
  (`Packets.WideCanFinishIff`, `Workers.ReceiverCanReturnIff`). In infinite mode
  that leaves one or two descriptors (`Packets.InfiniteModeFinishesIff`); with
  more, a run only ends by a signal. `Balanced` configurations are exactly the ones
  that can end well (`HackbenchRuns.CanEndWellIff`).
- What the larger quotas do not harm: deadlock freedom holds for every
  configuration (`HackbenchRuns.DeadlockFree`), and no write is ever fatal when the
  quotas match (`HackbenchRuns.NoBrokenPipeNoEof`), so never in `hackbench.c`.
- What they do: exactly from 2^32 messages on a `read` can return 0 and there is no
  bound on the length of a schedule (`Packets.WideSpinsIff`, from
  `HackbenchStarved.EofReachableIff` and `HackbenchStarved.EndlessIff`, which decide
  both for every configuration). A schedule goes on for ever only by such
  reads, which change nothing (`HackbenchRuns.SchedulesEnd`, `HackbenchRuns.EofIdle`).
  Every schedule can be brought to one and the same state, and rests nowhere else
  (`HackbenchQuotas.SpinningOutcome`): every message delivered, every sender reaped,
  the last receiver of each group reading nothing over and over, and the others
  waiting at pipes which the later receivers hold open
  (`HackbenchQuotas.SpinningActions`).
- With the unwidened product of `toy/hackbench.c` a run can deliver everything
  exactly when the product does not wrap (`Packets.NarrowCanEndWellIff`); when it
  does, a sender can be killed by its pipe (`Packets.NarrowBreaksIff`), and all
  senders of a group can, so that a receiver is left in the middle of a message and
  reads nothing for ever. That takes messages of two bytes or more and a wrapped
  product other than 0 (`Packets.NarrowStarvesIff`); with one-byte messages every
  pipe was sent its quota before the last sender died.
- When a group comes up short, `group` reports one worker fewer than it started
  (`GroupSetup.Host.Group`), so the failure path leaves one worker unsignalled. That
  path alone never hangs: undisturbed it can come to rest only in exit(1)
  (`LifecycleRests.FailurePathExits`). A SIGINT caught during its reap restarts the reap
  with the count of whole groups, and that second reap can wait for the forgotten
  worker forever, in a state where no process can take a step;
  `LifecycleRests.InterruptedReapCanHangIff` gives the exact condition and
  `LifecycleRests.HangExample` a run. In that machine every run is finite
  (`LifecycleRests.EveryRunEnds`), and outside such a stuck reap it can always go on until
  main leaves (`LifecycleRests.RestsIff`). It does not count data calls and lets a worker
  that has seen GO end at any time, so the endless reads above are outside it. After a
  jump main can signal the pid of a worker it has already reaped exactly when it had
  reaped a worker it counted (`Lifecycle.KillsReapedIff`); before any wait it never
  does (`Lifecycle.KillsOnlyStarted`).
- `convolute` cuts the fraction off the lowest negated ping with `int()`. Both
  densities have mass 1 exactly when that value is whole or does not land on a
  bin boundary (`Histogram.ConvoluteMass`, `Histogram.FractionLostExample`).
- `string_to_vec_by_delim` skips one character after a delimiter of any length:
  it loses nothing exactly when the delimiter is one character long or absent
  (`Launcher.SplitLosslessIff`, `Launcher.SplitLossExample`). The program itself cannot
  meet the failing input: its only call passes "," (`launcher/launcher.cpp:150`).

## Where the definitions come from

The transition relations and specification functions carry no contract of their
own; the rows below state what holds of them.

- `Hackbench.SetupMain`, `SetupEnds`, `SetupWorkers`, `SetupTotal`: the setup loop
  with `group` inlined (`hackbench/hackbench.c:257-301`, `:449-457`).
- `Hackbench.SendNext`, `RecvNext`, `Counter`: one transfer of the `again` loops
  (`hackbench/hackbench.c:138-154`, `:171-184`).
- `Hackbench.Enabled`, `Next`: the calls of main and the workers
  (`hackbench/hackbench.c:106-189`, `:466-489`).
- `Lifecycle.Enabled`, `Next`: `hackbench/hackbench.c:205-237`, `:388-394`, `:447-503`.
- `Workers.SenderData`, `ReceiverData`, `Barred`: those loops, driven by the
  machine's own `SendNext` and `RecvNext`.
- `SchedTracker.Getline`, `Entry`, `Render`: `time_tracker/sched_tracker.cpp:93-146`.
- `Plotter.ParseLines`, `Parse`, `ReadLogOf`: `time_tracker/plotter.py:4-47`.
- `SchedTracker.Paced`, `Late`: `time_tracker/sched_tracker.cpp:172-194`.
- `HttpClient.Enabled`, `Next`, `Sock.Sent`: `apache/http_client/http_client.cpp:98-128`,
  `:279-334`; one write of `send_get` at `:42-52`. The machine's stream and the one
  `Socket.SendAll` writes are both copies of the request.
- `Launcher.Plan`, `Pieces`: `launcher/launcher.cpp:228-235`, `:64-77`.
- `Histogram.GridLow`, `GridHigh`, `Grid`, `CountIn`: `apache/handle_ping.py:28-49`.

## Model

| member | source | states |
|---|---|---|
| `HackbenchRuns.UniqueOutcome` | hackbench/hackbench.c:129-189 | in a balanced configuration, whatever the schedule, nothing can move exactly when the state is the one final state: all reaped, all quotas met, all pipes empty |
| `HackbenchRuns.SchedulesEnd` | hackbench/hackbench.c:129-189 | in every configuration a schedule has a bounded number of actions other than reads that return 0, with an explicit bound; in a balanced one that bounds its length |
| `HackbenchRuns.EofIdle` | hackbench/hackbench.c:176-183 | a read that returns 0 leaves the whole state as it was |
| `HackbenchRuns.DeadlockFree` | hackbench/hackbench.c:138-184 | in every reachable state of every configuration before the end some process has a step no pipe can block; after GO, while a worker has not exited, a worker has one |
| `HackbenchRuns.BlockedSenderHasReader` | hackbench/hackbench.c:140-154 | unless the quota is short, a sender with bytes left for a pipe has an unfinished receiver there, which can pass the poll or read what the pipe holds |
| `HackbenchWaits.WaitsIff` | hackbench/hackbench.c:106-189 | in a reachable state a worker has no step, and is not about to be reaped, exactly when it is not forked yet or reaped, or finds the ready pipe full, no GO byte, its data pipe empty with a writer or full with a reader, or main not reaping |
| `HackbenchWaits.MainWaitsIff` | hackbench/hackbench.c:447-503 | main has no step exactly while a report is missing and none is in the ready pipe, while a worker is missing and none has exited, and at the end |
| `HackbenchWaits.ReadsAnyAmount` | hackbench/hackbench.c:176-183 | a receiver at work in a reachable state can be given n bytes by one action exactly when n is at most what it asks for and what its pipe holds |
| `HackbenchWaits.WritesAnyAmount` | hackbench/hackbench.c:143-152 | a sender at work can put n bytes by one action exactly when n is at most the rest of its message and the room in the pipe, and a reader is left |
| `HackbenchWaits.ReadyBounded` | hackbench/hackbench.c:112-113 | the ready pipe never holds more than it has room for |
| `HackbenchRuns.NoBrokenPipeNoEof` | hackbench/hackbench.c:143-183 | in no reachable state can a write be fatal unless the quota is short, nor a read return 0 in a balanced configuration |
| `HackbenchQuotas.BrokenReachableIff` | hackbench/hackbench.c:143-147 | a fatal write is reachable exactly when a receiver can meet its quota before the senders are done |
| `HackbenchStarved.EofReachableIff` | hackbench/hackbench.c:172-183 | in every configuration, a read that returns 0 is reachable exactly when the quota cannot be met, or is short with two descriptors, two-byte messages and one message to read at least |
| `HackbenchStarved.NobodyStarves` | hackbench/hackbench.c:138-154 | a short quota with a single descriptor, one-byte messages or nothing to read leaves no receiver without its quota |
| `HackbenchStarved.RunToStarved` | hackbench/hackbench.c:138-184 | otherwise a run, built along a plan for the senders' rounds, to an end of file |
| `HackbenchStarved.ReachableKilled` | hackbench/hackbench.c:143-147 | in every reachable state a sender that left early was killed at a pipe whose receiver has left |
| `HackbenchStarved.EndlessIff` | hackbench/hackbench.c:172-183 | there are schedules of every length exactly when such a read is reachable |
| `HackbenchQuotas.SpinningOutcome` | hackbench/hackbench.c:161-189 | with quotas no receiver can meet, nothing but reads that return 0 can happen exactly in one state, with all messages delivered and all senders reaped, and every reachable state can be brought there |
| `HackbenchQuotas.SpinningActions` | hackbench/hackbench.c:161-189 | in that state the last receiver of each group can read nothing, and no other action is possible |
| `HackbenchQuotas.RunToBroken` | hackbench/hackbench.c:138-154 | with a short quota, a run from any lean state to a fatal write |
| `HackbenchRuns.Conservation` | hackbench/hackbench.c:138-184 | in every reachable state of any configuration, bytes written to a pipe are bytes its receiver read plus bytes in it, within its capacity |
| `HackbenchRuns.Ownership` | hackbench/hackbench.c:257-301 | exactly which worker holds which end of which data pipe in every reachable state, and that main holds none of a group it has set up |
| `HackbenchRuns.BarrierSafety` | hackbench/hackbench.c:466-480 | in every run, before any data write stand a ready write of every worker and main's reading of the clock |
| `HackbenchRuns.BarrierProgress` | hackbench/hackbench.c:106-120 | with a ready pipe of any capacity, balanced or not, the start cannot get stuck; after GO everyone has reported, every polling worker can pass, and no step takes the GO byte away |
| `HackbenchRuns.Completion` | hackbench/hackbench.c:447-489 | from every state the invariant allows there is a run to the final state |
| `HackbenchRuns.CanEndWellIff` | hackbench/hackbench.c:171-184 | a run in which all was sent, received and reaped exists exactly when the quota is the senders' total and fits the receiver's counter |
| `HackbenchRuns.NeverFinishes` | hackbench/hackbench.c:163-172 | with a quota of 2^32 or more main never finishes |
| `HackbenchRuns.RunKeeps` | hackbench/hackbench.c:396-489 | every run of any configuration keeps the invariant |
| `HackbenchRuns.RunBound` | hackbench/hackbench.c:129-189 | a run of any configuration has no more actions other than reads that return 0 than it takes off the measure of steps and bytes left; in a balanced one it has no such reads |
| `HackbenchRuns.LeftStep` | hackbench/hackbench.c:140-183 | every possible action but a read that returns 0 lowers that measure |
| `HackbenchInvariant.InvStep` | hackbench/hackbench.c:106-301 | one action of main or any worker keeps the invariant |
| `HackbenchInvariant.TransferBytes` | hackbench/hackbench.c:143-152 | one partial transfer moves exactly its bytes, on the pipe at hand and no other |
| `HackbenchInvariant.SetupShape` | hackbench/hackbench.c:257-301 | main's descriptor table after each call of the setup |
| `HackbenchProgress.SentBound` | hackbench/hackbench.c:270-270 | in every configuration the senders of a group send each pipe at most fds * loops * size bytes, and that much exactly when each has paid its share; this is the receiver's quota when the quotas match |
| `HackbenchProgress.ReaderLeft` | hackbench/hackbench.c:143-152 | unless the quota is short, a sender with bytes left for pipe j has a receiver j that has not exited and holds the read end |
| `HackbenchProgress.WriterLeft` | hackbench/hackbench.c:176-183 | a receiver at an empty pipe has a sender that still owes it bytes and holds the write end |
| `HackbenchProgress.Progress` | hackbench/hackbench.c:138-184 | names the step that cannot be blocked, in every configuration; it is not a fatal write unless the quota is short, and not an end of file when the quotas balance |
| `HackbenchProgress.FinishedIsFinal` | hackbench/hackbench.c:489-503 | when main has finished the whole state is determined |
| `Packets.WideIsExact` | hackbench/hackbench.c:270-270 | the widened product is exact for all 32-bit factors |
| `Packets.NarrowIsExactIff` | toy/hackbench.c:312-312 | the unwidened product is exact exactly below 2^32 |
| `Packets.WideCanFinishIff` | hackbench/hackbench.c:163-172 | a run of the 64-bit version can finish exactly when the product is below 2^32 |
| `Packets.WideSpinsIff` | hackbench/hackbench.c:163-183 | in the 64-bit version no write is ever fatal; from 2^32 messages on, and only then, reads can return 0 and schedules have no bound |
| `Packets.NarrowBreaksIff` | toy/hackbench.c:312-312 | in the 32-bit version a fatal write is reachable exactly when the product wrapped |
| `Packets.NarrowStarvesIff` | toy/hackbench.c:312-312 | in the 32-bit version a read that returns 0 is reachable, and schedules have no bound, exactly when the product wrapped, not to 0, with two descriptors and two-byte messages at least |
| `Packets.NarrowCanEndWellIff` | toy/hackbench.c:312-312 | a run of the 32-bit version can deliver everything exactly when the product is below 2^32 |
| `Packets.InfiniteModeFinishesIff` | hackbench/hackbench.c:424-426 | with INT_MAX loops a run can finish exactly with at most two descriptors |
| `Workers.Ready` | hackbench/hackbench.c:106-120 | it says go exactly when both calls answered 1; the report is the first call and made once, the poll follows only a report that was taken, and nothing else is called |
| `Workers.DataAfterBarrier` | hackbench/hackbench.c:134-147 | among all calls of a sender, and of a receiver after its first close, the report comes first, the poll only after it was taken, and data calls only after the poll said GO; a worker that returns has passed both |
| `Workers.Sender` | hackbench/hackbench.c:129-157 | makes exactly the calls of the machine's sender, for any answers of the kernel |
| `Workers.Receiver` | hackbench/hackbench.c:161-189 | closes its write end, then makes exactly the calls of the machine's receiver, its counter wrapping at 2^32 |
| `WorkersInRuns.SenderInRun` | hackbench/hackbench.c:129-157 | in any run of the machine: the sender's code, answered with the amounts that sender transferred, is at the machine's round, message and byte, has returned exactly when the rounds are over, and has put on each descriptor the bytes the machine counts as sent; so has the whole of `sender`, its report and poll answered 1 |
| `WorkersInRuns.ReceiverInRun` | hackbench/hackbench.c:161-189 | and likewise the receiver's, reads of 0 bytes included |
| `Workers.SenderPays` | hackbench/hackbench.c:138-154 | from any point of the loops, a sender that returns has written what it still owed each pipe, on that pipe's descriptor, and never more |
| `Workers.SenderDelivers` | hackbench/hackbench.c:138-154 | a sender that returns has written loops * size bytes to every pipe |
| `Workers.SenderWhole` | hackbench/hackbench.c:129-157 | `sender` from its first call to its last, for any answers: it barfs without moving a byte if the report or the poll fails; else its data calls are answered one by one, it barfs exactly at a failed one, is unfinished only if the answers are used up, and returns only with loops * size bytes on each descriptor |
| `Workers.ReceiverTakes` | hackbench/hackbench.c:171-184 | a receiver that returns has read exactly its quota, which is below 2^32 |
| `Workers.ReceiverWhole` | hackbench/hackbench.c:161-189 | `receiver` likewise, after its first close: it returns only with its whole quota read |
| `Workers.ReceiverCanReturnIff` | hackbench/hackbench.c:163-172 | some answers of the kernel let a receiver return exactly when its quota is below 2^32 |
| `Workers.ReceiverSpinsOnEof` | hackbench/hackbench.c:176-183 | at end of file an unfinished receiver repeats the same read for as long as it is answered 0 |
| `GroupSetup.Host.CreateWorker` | hackbench/hackbench.c:191-203 | a new pid of its own, or -1, goes into exactly one slot; the worker has main's table and its context |
| `GroupSetup.Host.StartReceiver` | hackbench/hackbench.c:257-283 | one round of the receiver loop: context, pipe, fork, and main keeps only the write end |
| `GroupSetup.Host.CloseWriteEnds` | hackbench/hackbench.c:298-301 | main's table is what it was before the group |
| `GroupSetup.Host.Group` | hackbench/hackbench.c:240-305 | for any answers of the kernel to its mallocs, pipes and forks: all 2 * fds workers are started exactly when all 1 + 4 * fds calls succeed, else it stops at the first that fails, whose place decides how many are and whether it barfs; the workers' contexts, tables and slots in order; the count reported is exact for none or all and one fewer otherwise; main keeps no descriptor of a complete group |
| `GroupSetup.Host.SignalWorkers` | hackbench/hackbench.c:205-212 | signals exactly the first n slots, in order |
| `GroupSetup.Host.ReapWorkers` | hackbench/hackbench.c:214-237 | n waits, reaping n children or all, and a count of those that did not exit |
| `GroupSetup.Host.StartGroups` | hackbench/hackbench.c:447-457 | all groups are started exactly when no call fails, else the first that fails decides how far it got; then every slot is filled once and in range, each group called with the same arguments; when a malloc or fork failed exactly a prefix of the started workers, as counted, is signalled, each once and by a positive pid, and waited for; a failed pipe leaves all unsignalled |
| `GroupSetup.Host.OwnSlots` | hackbench/hackbench.c:191-203 | each started worker has a slot of its own in the child table, holding a positive pid no other slot holds |
| `GroupSetup.LayoutNext` | hackbench/hackbench.c:276-292 | a complete group extends the layout of the child table, receivers and senders in their own ranges |
| `GroupSetup.SetupInLifecycle` | hackbench/hackbench.c:447-457 | each outcome `GroupSetup.Host.StartGroups` can report is a reachable state of the lifecycle with the same counts and workers, and the same number of workers to signal |
| `GroupSetup.TablesMatchMachine` | hackbench/hackbench.c:161-166 | the descriptor numbers and tables `group` builds reach exactly the ends the machine's workers hold, j-th out descriptor to pipe j |
| `Descriptors.ReceiverTable` | hackbench/hackbench.c:268-282 | the ends a receiver reaches as forked, and after its first close |
| `Descriptors.AllClosed` | hackbench/hackbench.c:298-301 | closing a group's write ends restores the table |
| `Hackbench.OffsetIs` | hackbench/hackbench.c:449-456 | where a group's slots start |
| `Lifecycle.KillsOnlyStarted` | hackbench/hackbench.c:205-212 | on every path with failures and signals, kill gets the pid of a started worker, and before any wait of one not reaped |
| `Lifecycle.KillsReapedIff` | hackbench/hackbench.c:482-489 | from a jump, a kill of a worker already reaped is reachable exactly when a counted worker had been reaped |
| `Lifecycle.InterruptedCount` | hackbench/hackbench.c:447-486 | wherever a signal jumps out, the counted slots hold started workers' pids and the count is a multiple of 2 * num_fds |
| `Lifecycle.InterruptedReap` | hackbench/hackbench.c:482-489 | an interrupted main that exits has signalled and waited exactly that many times |
| `Lifecycle.CaughtIff` | hackbench/hackbench.c:388-394 | until main has left, a signal can jump out of anything it does exactly when no step before made it ignored: catching it, the landing of a jump, or a reap that signals, for SIGTERM; the workers stay as they are |
| `Lifecycle.UndisturbedRun` | hackbench/hackbench.c:447-503 | without a signal, exit(0) comes after forking 2 * num_fds * num_groups workers, signalling none, waiting once for each and reaping exactly those; exit(1) after signalling and waiting for the workers counted, or none, and reaping exactly those |
| `Lifecycle.OrdinaryReap` | hackbench/hackbench.c:482-489 | from the collecting of ready bytes, an undisturbed main that exits with 0 has waited total_children times, signalled nobody, and reaped every worker |
| `Lifecycle.FailurePathCounts` | hackbench/hackbench.c:450-456 | from a short group on, an undisturbed main signals, waits and reaps exactly the workers it counted |
| `Lifecycle.CommFailureCounts` | hackbench/hackbench.c:466-481 | after a failed ready read or GO write it signals, waits for and reaps every worker started |
| `LifecycleRests.CalmRests` | hackbench/hackbench.c:447-503 | without a signal a run comes to rest only in an exit: exit(0) exactly when GO was written, exit(1) otherwise |
| `LifecycleRests.RestsIff` | hackbench/hackbench.c:205-237 | while main has not left, nothing but a signal can happen exactly when it waits, none of its children has ended, and the workers left were never signalled |
| `LifecycleRests.EveryRunEnds` | hackbench/hackbench.c:396-503 | with a released worker free to end at any time and data calls not counted, every run with failures and signals is finite, with an explicit bound, and where it cannot go on main has left or its reap is stuck; how main leaves is the subject of the rows above |
| `Lifecycle.ForkedReachable` | hackbench/hackbench.c:447-457 | each point of the setup loop at which nothing has failed is reachable, with every slot so far filled |
| `LifecycleRests.PathBound` | hackbench/hackbench.c:396-503 | a run is no longer than what it takes off the measure of main's steps, signals to come and workers to end |
| `LifecycleRests.FailurePathNeverStuck` | hackbench/hackbench.c:450-456 | in the failure path's reap something other than a signal can always happen next |
| `LifecycleRests.FailurePathExits` | hackbench/hackbench.c:450-456 | without a further signal the failure path, from any of its points, comes to rest only when main has left with exit(1) |
| `LifecycleRests.InterruptedReapCanHangIff` | hackbench/hackbench.c:388-394 | the exact condition, at the jump, under which a run can come to a state where main has not left and no process can ever move; otherwise every run comes to rest only in exit(0) |
| `LifecycleRests.HangsIff` | hackbench/hackbench.c:482-489 | on the path after a jump, that nothing at all can happen is the same as a stuck reap |
| `LifecycleRests.EarlySignalNeverHangs` | hackbench/hackbench.c:447-489 | a signal caught before the first wait never leads there; every run after it comes to rest only in exit(0) |
| `LifecycleRests.HangExample` | hackbench/hackbench.c:450-456 | a reachable jump from which the program comes to a state where nothing can ever happen |
| `SchedTracker.Tracker.RetrieveData` | time_tracker/sched_tracker.cpp:93-146 | one pass appends exactly the rendering of what it found |
| `SchedTracker.Tracker.AppendEntry` | time_tracker/sched_tracker.cpp:103-144 | one directory, with its reused line buffer: first, third, fourth and fifth line |
| `SchedTracker.Tracker.Track` | time_tracker/sched_tracker.cpp:172-194 | the loop ends; the log is its snapshots in order; passes begin within the time limit, do not overlap, and begin at least 10 ms apart; one warning for each that took longer; it reads the clock once before, twice in each pass and once at the end, past the limit, and sleeps once after each pass in time, for the rest of its 10 ms |
| `SchedTracker.PassCount` | time_tracker/sched_tracker.cpp:174-194 | so there is at most one pass more than the time limit has whole 10 ms |
| `SchedTracker.EscapedBack` | time_tracker/sched_tracker.cpp:110-110 | a path as printed can be read back, whatever it holds, and has no bare quote but the closing one |
| `Plotter.ParseSnapshot` | time_tracker/plotter.py:4-35 | the index loop computes the line-by-line parse, with the exception it ends in |
| `Plotter.ParsesIff` | time_tracker/plotter.py:14-32 | any text whatever parses exactly when each line that mentions hackbench, unless the next has no colon, and each other line that starts with gzip is followed by three lines with a number after a colon |
| `Plotter.FieldErrors` | time_tracker/plotter.py:24-26 | a line without a colon is an IndexError, one whose second field is not a number a ValueError |
| `Plotter.ReadLog` | time_tracker/plotter.py:38-47 | the snapshots that mention hackbench five times, parsed in order, none with more than five hackbench triples |
| `Plotter.TriplesFit` | time_tracker/plotter.py:46-47 | what passes the filter yields at most five hackbench triples, so the five lists they are appended to (lines 61, 71-74) are enough |
| `Text.CountSplit` | time_tracker/plotter.py:46-46 | occurrences of a pattern in a text are those in its lines |
| `Text.ContainsIff` | time_tracker/plotter.py:17-17 | `in` on strings: the pattern stands somewhere in the text |
| `Text.SplitIs` | time_tracker/plotter.py:6-6 | `split` at a character: pieces without it, which it joins to the text again |
| `Text.SplitOnIs` | time_tracker/plotter.py:40-40 | `split` at a longer mark: no piece holds it, and it joins them to the text again |
| `RoundTrip.LogPoints` | time_tracker/plotter.py:40-40 | splitting the written log at the marks gives back the snapshots |
| `RoundTrip.PointMentions` | time_tracker/plotter.py:46-46 | the filter counts the uptime's and the first lines' mentions, and no other |
| `RoundTrip.SnapshotRoundTrip` | time_tracker/plotter.py:4-35 | parsing a written snapshot gives its uptime, the numbers of its hackbench processes in order and those of its last process whose first line starts with the letters gzip, skipping processes whose file could not be opened or read empty |
| `RoundTrip.GzipReplaces` | time_tracker/plotter.py:28-32 | a written process whose first line is "gzip" and anything after it, without hackbench, replaces the gzip numbers by its own, whatever follows |
| `RoundTrip.OthersKeepGzip` | time_tracker/plotter.py:28-32 | written processes whose first lines do not start with those letters leave the gzip numbers as they were |
| `RoundTrip.LogRoundTrip` | time_tracker/sched_tracker.cpp:93-146 | reading any written log gives back every snapshot that passes the filter, in order, or the error of the first bad number |
| `RoundTrip.LogRoundTripAmong` | time_tracker/sched_tracker.cpp:103-106 | and the same is read back when /proc holds any other directories in between |
| `RoundTrip.OthersAddNothing` | time_tracker/sched_tracker.cpp:103-106 | directories whose name does not start with one of the ten digits add nothing to the log |
| `Launcher.Supervisor.RunTrial` | launcher/launcher.cpp:20-61 | one trial: what it starts, reaps, logs and kills; a time only if the first child reaped is its test program |
| `Launcher.Supervisor.Sweep` | launcher/launcher.cpp:228-235 | the trials are the plan; each finds as many children left as there were mismatches before it; the log is the matched trials' times |
| `Launcher.PlanCount` | launcher/launcher.cpp:228-235 | reps * (floor((upper - lower) / step) + 1) trials |
| `Launcher.PlanAt` | launcher/launcher.cpp:228-235 | trial i runs with lower + step * floor(i / reps) groups |
| `Launcher.NeverMismatched` | launcher/launcher.cpp:44-60 | if the test program ends before its hackbench in every trial that starts clean, every trial starts clean and none mismatches |
| `Launcher.QuietSweep` | launcher/launcher.cpp:228-235 | then no child is left at the end, and the log has exactly one time per trial in sweep order |
| `Launcher.TimesCount` | launcher/launcher.cpp:44-52 | times logged plus mismatches are the trials |
| `Launcher.StringToVecByDelim` | launcher/launcher.cpp:64-77 | the loop computes the pieces |
| `Launcher.SplitLosslessIff` | launcher/launcher.cpp:70-73 | joining the pieces gives the text back exactly when the delimiter is one character or absent |
| `Launcher.SplitLossExample` | launcher/launcher.cpp:70-73 | a two-character delimiter loses a text |
| `Launcher.PiecesClean` | launcher/launcher.cpp:70-74 | no piece holds a one-character delimiter |
| `HttpClient.Socket.SendGet` | apache/http_client/http_client.cpp:36-53 | for any answers of the kernel, it makes the writes they call for; the stream grows by exactly the request if none fails, and else by a proper prefix, the last write being the one that failed |
| `HttpClient.FateIs` | apache/http_client/http_client.cpp:42-52 | by those answers a request goes out whole exactly when no write fails, in at least one write and at most one for each byte |
| `HttpClient.Socket.SendAll` | apache/http_client/http_client.cpp:297-305 | likewise: the stream grows by exactly num_requests copies unless a write fails, and then by fewer and a proper prefix of one |
| `HttpClient.EncodeRoundTrip` | apache/http_client/http_client.cpp:121-124 | the eight bytes of a time stamp read back as that time stamp |
| `HttpClient.Handshake` | apache/http_client/http_client.cpp:279-322 | in every interleaving, with either process failing anywhere: the clock is read after the ready byte and before any byte of a request, the stream handed over is exactly the requests, the value reported is the receiver's own, and main gives up only if one of the two failed |
| `HttpClient.Measured` | apache/http_client/http_client.cpp:279-335 | in every history in which main has read the receiver's time, the total it reports is the time that passed between its own reading of the clock and the receiver's end of file |
| `HttpClient.StartIs` | apache/http_client/http_client.cpp:300-300 | main's start time is, ever after, the time at which it read its clock |
| `HttpClient.DoneIs` | apache/http_client/http_client.cpp:72-72 | the receiver's is the time at which it saw the end of file |
| `HttpClient.HandshakeOrder` | apache/http_client/http_client.cpp:101-303 | in every history the ready byte comes after the start byte, main's clock reading after the ready byte, and any byte of a request after that reading |
| `HttpClient.NoDeadlock` | apache/http_client/http_client.cpp:101-128 | with a connection of any capacity, until main has reported or left some process can go on, or it is the server's turn: to read a full connection, or to close |
| `HttpClient.StepsUseUp` | apache/http_client/http_client.cpp:302-326 | every step but a partial read of the receiver and the clock's uses up a bounded measure |
| `Histogram.FindBucket` | apache/handle_ping.py:23-26 | the first bucket holding the value, or none if none does |
| `Histogram.BinIsSlot` | apache/handle_ping.py:33-34 | a value is in bin k exactly when k is its floor index |
| `Histogram.BucketOnGrid` | apache/handle_ping.py:23-26 | on a grid a bucket is min + floor((v - min) / delta) * delta, and only uncovered values have none |
| `Histogram.EstimateDensityFunc` | apache/handle_ping.py:28-38 | each density is the share of samples in its bin; no samples is an error |
| `Histogram.ScanIsOnePass` | apache/handle_ping.py:31-37 | scanning once per bin gives the counts of one pass over the samples |
| `Histogram.BinsCount` | apache/handle_ping.py:31-37 | every covered sample is counted in exactly one bin |
| `Histogram.MassIsOneIff` | apache/handle_ping.py:28-38 | densities add up to 1 exactly when every sample is covered |
| `Histogram.GridAt` | apache/handle_ping.py:45-49 | the grid is an arithmetic progression |
| `Histogram.GridSize` | apache/handle_ping.py:45-49 | and has one point more than there are whole bins between its ends |
| `Histogram.GridCoversIff` | apache/handle_ping.py:42-43 | the grid covers all http samples, and all negated pings exactly when int() cut nothing onto a bin boundary |
| `Histogram.GridTight` | apache/handle_ping.py:42-43 | the ends of the grid are multiples of delta, the upper the first one not below the samples, the lower the last one not above them but for the fraction int() cuts off |
| `Histogram.Convolute` | apache/handle_ping.py:40-53 | the grid and the two densities handed to the convolution, or the error of an empty sample |
| `Histogram.ConvoluteMass` | apache/handle_ping.py:40-53 | the http density has mass 1; the ping density exactly when nothing was cut onto a bin boundary |
| `Histogram.FractionLostExample` | apache/handle_ping.py:40-53 | a single ping of 100000.5 ns with bins of 100000 has a ping density whose mass is not 1, whatever the http samples |

## Left out

- Signals to a freshly forked worker before it resets its handlers, and a signal
  to main before `setjmp` or between `free(child_tab)` and `exit`.
- errno beyond ECHILD: an interrupted or failing `read`, `write` or `wait` on a
  good descriptor is a worker's `barf` (`Workers.dfy`) and is not in the machine.
- Counts beyond a C int: `num_fds * 2 * num_groups` is taken to fit (`total_children`,
  the table size, the loop variable of `signal_workers`).
- Descriptor limits, and the descriptors 0 to 2, which every process shares.
- Clocks, CPU pinning, SCHED_FIFO, printing, option parsing with getopt and atoi.
  Their bounds (fds, loops, datasize, step at least 1; 32-bit fds and loops) are
  preconditions; `datasize` as a C int and as a stack array is not modelled.
- The contents of data messages: only their bytes are counted.
- `Lifecycle.dfy` does not follow the pipes: a worker let go may end at any time,
  a signalled one may die at any time.
- Thread mode and socketpairs of `toy/hackbench.c`.
- The directory name is taken as read: the source keeps a pointer into a destroyed
  temporary (`time_tracker/sched_tracker.cpp:105-106`), whose behaviour is undefined.
- Processes that vanish in the middle of reading their sched file: the writer's lines
  for a file cut short are modelled, the round trip is stated for files that are
  whole, empty or not opened.
- Python's `float` is a parameter of the reader; its syntax is not modelled.
- `time_tracker/periodic_plotter.py`, `toy/launcher.c`, `gzip/hackbench_interupt.cpp`
  and the other harnesses: near copies of modelled code.
- The launcher's `exec` failures, its sleep, removal of the unpacked file, and
  overflow of the `int` group count in the sweep.
- An empty delimiter in `string_to_vec_by_delim`; the only caller passes a comma.
- The total `recv_until_eof` prints, and the socket's own set-up in the measured sender.
  What the server does with its connection is free, but for what the rows name as its turn.
- `scipy.signal.fftconvolve`, numpy statistics and floating-point rounding: samples
  are exact reals and delta an integer, as in the file.
- Plotting, the PostgreSQL benchmarks, shell scripts, kernel configurations.
