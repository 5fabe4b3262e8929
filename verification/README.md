# SFTP download stress tester — Dafny model

The stress tester starts a number of worker threads. Each worker
repeatedly connects to an SFTP server, downloads one known file into a local
temporary file, measures the speed, records success or failure in shared
counters, disconnects, deletes the local file and sleeps for one second. It
stops once the shared stop flag is set or its own elapsed time reaches the
test duration. The orchestrator sleeps for the test duration, sets the stop
flag, joins every worker and reports the totals and the average, minimum and
maximum speed. Before any of this, the command-line entry point refuses the
placeholder configuration and tries one connection.

This project models the sequential bookkeeping under that machinery:

- `Connector` (`connector.dfy`): the contract of `connect_sftp` and
  `disconnect_sftp`. A connect call yields exactly one of a client or an
  error text, and that text is never empty.
- `Aggregate` (`aggregate.dfy`): the shared counters as an immutable `Tally`.
  Each record operation is one atomic critical section. An arbitrary
  interleaving of the workers' record operations is described by a lock
  schedule.
- `WorkerLoop` (`worker.dfy`): `_worker` as a loop over an environment. The
  environment fixes the connection and download outcomes, an abstract
  monotone clock and the stop flag as each worker sees it.
- `StressTester` (`tester.dfy`): the tester's state and `start_test`.
- `Stats` (`stats.dfy`): sum, minimum, maximum, average and the summary.
- `Settings` (`settings.dfy`) and `Runner` (`runner.dfy`): the configuration
  values and `run_sftp_stress_test`.

The model keeps three behaviours of the code that a reader might not expect:

- The temporary file is created once per worker, before the loop. The loop's
  `finally` block is the only place that deletes it. A worker that runs no
  iteration leaves the file on disk (`Completes`: `tempFileLeft` holds
  exactly when `iterations == 0`). This happens for every worker when the
  duration is zero or less. The code comment says the file is deleted when
  closed, but the file is created with `delete=False`.
- A configured file size of exactly 100 MB is refused. The validation compares
  the size with the shipped placeholder value (`Runner.HundredMegabytesRefused`).
- A test duration that `time.sleep` refuses makes `start_test` raise. A
  negative duration raises `ValueError`. A duration of 2^63 nanoseconds or
  more (about 292 years) raises `OverflowError`. Either happens after the
  workers have started, before the stop flag is set and before any report
  (`StressTester.SleepRefuses`, `StartOutcome.SleepRaised`,
  `RunOutcome.TestRaised`).

## Model

| member | source | states |
|---|---|---|
| Connector.ConnectSftp | sftp_connector.py:8-29 | exactly one of client and error is present; the client is present iff the handshake succeeded; the error is truthy iff it failed, and it starts with "SFTP connection failed: " |
| Connector.DisconnectSftp | sftp_connector.py:31-42 | `None` closes nothing; otherwise the channel is closed unless its close raises, the transport is closed only when both steps succeed, and the channel comes first; only the given client's parts are closed, and the call always returns |
| Aggregate.Fresh | sftp_tester.py:34-36 | the counters start at zero, and the success count equals the number of speeds |
| Aggregate.Apply | sftp_tester.py:95-97 | one record operation adds exactly one to the total; a success appends its speed and bumps only the success counter; a failure bumps only the failure counter; `successes == len(speeds)` is preserved |
| Aggregate.CountFailed | sftp_tester.py:104-109 | failed records plus speed-carrying records account for every record |
| Aggregate.ApplyAll | sftp_tester.py:94-109 | after k record operations the counters have grown by k in total; successes grew by the number of speeds appended, and the speeds appear in order; consistency is preserved |
| Aggregate.Interleave | sftp_tester.py:95-97 | any lock schedule loses and duplicates no record: the interleaving is a permutation of all the workers' records |
| Aggregate.PermutationKeepsTotals | sftp_tester.py:95-97 | reordering record operations changes neither the failure count nor the multiset of speeds |
| Aggregate.ScheduleIrrelevant | sftp_tester.py:137-153 | for every schedule, the final counters equal those of running the workers one after another, with the speeds equal up to order |
| WorkerLoop.Speed | sftp_tester.py:85-92 | with a positive duration, speed × duration = file size; otherwise the speed is exactly 0, so there is no division by zero |
| WorkerLoop.Outcome | sftp_tester.py:64-109 | an iteration fails iff the connection failed or the download raised; a success records the speed of the measured download duration |
| WorkerLoop.Iterate | sftp_tester.py:63-121 | whatever the outcome: the disconnect call gets `None` iff the connection failed and gets the client otherwise, and no local download file is left afterwards |
| WorkerLoop.Elapsed | sftp_tester.py:58-62 | the clock reading at the k-th loop test is at least k seconds, because every iteration sleeps one second |
| WorkerLoop.MaxIterations | sftp_tester.py:59-62 | the number is 0 when the duration is zero or less and ⌈duration⌉ otherwise: the least n with duration ≤ n |
| WorkerLoop.IterationBound | sftp_tester.py:58-62 | a worker that passed its loop test n times has n ≤ ⌈duration⌉, and n is 0 when the duration is zero or less |
| WorkerLoop.RunWorker | sftp_tester.py:39-126 | the loop runs exactly until the first failing test of the stop flag and the elapsed time; each iteration makes its outcome's record operation and disconnect call; the run is at most ⌈duration⌉ iterations; the temporary file is left iff there were no iterations |
| WorkerLoop.IdleElapsed | sftp_tester.py:122-124 | if iterations take no time beyond their pause, the k-th loop test reads exactly k seconds |
| WorkerLoop.IdleWorkerIterations | sftp_tester.py:58-62 | a worker that is never stopped and has instant connections and downloads runs exactly ⌈duration⌉ iterations |
| WorkerLoop.RefusedWorker | sftp_tester.py:66-71 | when every connection is refused there are 0 successes, failures equal the iterations, no speed is recorded, every disconnect gets `None`, and the temporary file is removed iff the worker ran at least once |
| WorkerLoop.AllFailed | sftp_tester.py:104-109 | records that are all failures carry no speed |
| StressTester.NewTester | sftp_tester.py:14-37 | a new tester's counters are zero with no speeds, so they are consistent |
| StressTester.RecordsPerIteration | sftp_tester.py:95-97 | the records of all workers together number exactly the iterations of all workers |
| StressTester.StartTest | sftp_tester.py:128-175 | exactly `num_threads` workers run (none when it is negative), each to its own loop exit; a duration that `time.sleep` refuses (negative, or 2^63 ns or more) raises before the report; otherwise the final counters sum the iterations of all workers, equal the sequential totals up to speed order, stay consistent, and the summary is computed from them; the settings are unchanged |
| StressTester.ReportIgnoresSchedule | sftp_tester.py:156-164 | any two lock schedules report the same success count, the same failure count, and the same average, minimum and maximum |
| Stats.Min | sftp_tester.py:163 | the minimum is a recorded speed and no recorded speed is below it |
| Stats.Max | sftp_tester.py:164 | the maximum is a recorded speed and no recorded speed is above it |
| Stats.Average | sftp_tester.py:162 | average × count = sum |
| Stats.Summarize | sftp_tester.py:161-175 | "no data" iff no speed was recorded; otherwise min ≤ avg ≤ max, both extremes are recorded speeds, and every speed lies between them |
| Stats.SumBounds | sftp_tester.py:162 | bounds on every sample bound the sum by count × bound |
| Stats.AverageWithin | sftp_tester.py:162 | any common bound on the samples bounds their average |
| Stats.AverageBetweenExtremes | sftp_tester.py:161-164 | min ≤ average ≤ max for a non-empty list |
| Stats.SumPermutation | sftp_tester.py:162 | the sum of the speeds does not depend on their order |
| Stats.SummaryPermutation | sftp_tester.py:161-164 | average, minimum and maximum depend only on the multiset of speeds |
| Runner.Validate | main.py:31-47 | the server settings are checked first, then the file settings; the run passes only when no placeholder is left |
| Runner.DefaultsNeverStart | main.py:31-47 | the shipped configuration trips both checks, so it never starts a test |
| Runner.HundredMegabytesRefused | main.py:40-47 | any configuration whose size is exactly 100 is refused, even a real one |
| Runner.OverallAverage | main.py:79-85 | the "no successful downloads" branch is taken iff no speed was recorded; otherwise average × count = sum, and it equals the summary's average |
| Runner.RunStressTest | main.py:26-90 | a placeholder returns before any step; a failed initial connection returns after it and builds no tester; a successful one is disconnected, whether or not closing raises, before the tester is built with the configuration unchanged and started; the test raises iff `time.sleep` refuses the duration; in both outcomes `num_threads` workers ran, each to its own loop exit in its environment; a finished run reports the tester built from the configuration, whose totals cover every iteration of every worker |

## Left out

- Threads, `threading.Event` and `threading.Lock`. Workers are modelled
  independently. Their record operations are merged by an arbitrary lock
  schedule (`Aggregate.Interleave`). The stop flag is modelled as an arbitrary
  value that each worker reads at each loop test. The model does not relate
  the flag to the orchestrator's clock, so it allows more behaviours than the
  code can show.
- Wall-clock time and `time.sleep`. The elapsed time is an abstract clock
  that never runs backwards and advances at least one second per iteration.
  `time.time()` can go backwards in the code, which the model does not cover.
  The download's start and end readings are free inputs, so a zero or
  negative duration is possible.
- The file system and `tempfile`. They are reduced to one boolean: whether
  the worker's local file exists. A failing `os.remove` inside `finally` is
  not modelled.
- The transport library and the inside of `connect_sftp`. A connection
  attempt is an input that either yields a client or raises. Closing the
  transport after a failed handshake is not modelled.
- Python floats near the `time.sleep` limit. The model compares
  the duration with 2^63 ns = 9223372036.854775808 s exactly. CPython rounds that product to a double
  first, so the exact cut-off can differ by a rounding step.
- The closing of each worker's connection in the `finally` block. The worker
  model records the argument passed to `disconnect_sftp`. It does not record
  what was closed, because that call never raises and the loop goes on
  either way.
- StressTester.NewTester: the default arguments `num_threads=1` and
  `test_duration_seconds=60` are not modelled. Every argument is explicit,
  and the only caller (main.py:66-75) passes all of them.
- Logging and message formatting, apart from the error text's fixed prefix.
- IEEE floating point. Speeds, sizes and durations are `real`, so rounding
  in `sum`, `/` and the formatted output is not modelled.
- `config.py` has no logic. Its values appear only as `Settings.Defaults`,
  which is used by `Runner.DefaultsNeverStart`.
- Exceptions that `except Exception` does not catch, such as
  `KeyboardInterrupt`, are not modelled.
