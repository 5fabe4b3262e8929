/** `SFTPStressTester`: the tester's configuration and shared counters, and
    `start_test`, which starts one worker per configured thread, sleeps for
    the test duration, sets the stop flag, joins every worker and reports the
    totals and the speed statistics.

    Threads are not modelled as such. Workers share nothing but the counters
    and the stop flag, and every counter update is one critical section, so
    a run is described by each worker's own behaviour plus the order in which
    their record operations took the lock (`schedule`). */
module StressTester {
  import opened Aggregate
  import opened WorkerLoop
  import opened Stats

  datatype Tester = Tester(
    hostname: string,
    port: int,
    username: string,
    password: string,
    remotePath: string,
    sizeMb: real,
    numThreads: int,
    duration: real,
    tally: Tally)

  /** The constructor: the settings are stored as given and the counters
      start at zero with no speeds. */
  function NewTester(hostname: string, port: int, username: string, password: string,
                     remotePath: string, sizeMb: real, numThreads: int, duration: real): (t: Tester)
    ensures t.tally == Tally(0, 0, [])
    ensures Consistent(t.tally)
  {
    Tester(hostname, port, username, password, remotePath, sizeMb, numThreads, duration, Fresh())
  }

  /** `len(range(numThreads))`. */
  function Spawned(numThreads: int): (n: nat)
    ensures numThreads >= 0 ==> n == numThreads
    ensures numThreads < 0 ==> n == 0
  {
    if numThreads < 0 then 0 else numThreads
  }

  /** Each worker's record operations, worker by worker. */
  function Parts(runs: seq<WorkerRun>): (parts: seq<seq<Record>>)
    ensures |parts| == |runs|
    ensures forall k :: 0 <= k < |runs| ==> parts[k] == runs[k].records
  {
    seq(|runs|, k requires 0 <= k < |runs| => runs[k].records)
  }

  function TotalIterations(runs: seq<WorkerRun>): nat
  {
    if |runs| == 0 then 0 else runs[0].iterations + TotalIterations(runs[1..])
  }

  /** Every iteration of every worker made exactly one record operation. */
  lemma {:induction false} RecordsPerIteration(runs: seq<WorkerRun>)
    requires forall k :: 0 <= k < |runs| ==> |runs[k].records| == runs[k].iterations
    ensures |Flatten(Parts(runs))| == TotalIterations(runs)
  {
    if |runs| > 0 {
      assert Parts(runs)[1..] == Parts(runs[1..]);
      RecordsPerIteration(runs[1..]);
    }
  }

  /** 2^63 nanoseconds in seconds: `time.sleep` converts its argument to a
      signed 64-bit count of nanoseconds and raises `OverflowError` when it
      does not fit. */
  const SleepLimitSeconds: real := 9223372036.854775808

  /** The durations `time.sleep` refuses: a negative one raises `ValueError`,
      one of 2^63 nanoseconds or more raises `OverflowError`. */
  predicate SleepRefuses(seconds: real)
  {
    seconds < 0.0 || seconds >= SleepLimitSeconds
  }

  datatype StartOutcome =
    | Completed(tester: Tester, runs: seq<WorkerRun>, summary: Summary)
      // `time.sleep` raised: the exception leaves `start_test` after the
      // workers were started, before the stop flag is set, the workers are
      // joined or anything is reported
    | SleepRaised(runs: seq<WorkerRun>)

  /** `start_test`. `envs(k)` is what worker k meets; `schedule` is the order
      in which the record operations took the lock. */
  method StartTest(t: Tester, envs: nat -> WorkerEnv, schedule: seq<nat>) returns (out: StartOutcome)
    ensures |out.runs| == Spawned(t.numThreads)
    ensures forall k :: 0 <= k < |out.runs| ==>
              Completes(t.sizeMb, t.duration, envs(k), out.runs[k])
              && out.runs[k].iterations <= MaxIterations(t.duration)
    ensures t.duration <= 0.0 ==>
              forall k :: 0 <= k < |out.runs| ==> out.runs[k].iterations == 0 && out.runs[k].tempFileLeft
    ensures out.Completed? <==> !SleepRefuses(t.duration)
    ensures out.Completed? ==> out.tester.(tally := t.tally) == t
    ensures out.Completed? ==>
              out.tester.tally.successes + out.tester.tally.failures
              == t.tally.successes + t.tally.failures + TotalIterations(out.runs)
    ensures out.Completed? ==>
              SameTotals(out.tester.tally, ApplyAll(t.tally, Flatten(Parts(out.runs))))
    ensures out.Completed? && Consistent(t.tally) ==> Consistent(out.tester.tally)
    ensures out.Completed? ==> out.summary == Summarize(out.tester.tally.speeds)
  {
    var n := Spawned(t.numThreads);
    var runs: seq<WorkerRun> := [];
    var i := 0;
    while i < n
      invariant i <= n && |runs| == i
      invariant forall k :: 0 <= k < i ==>
                  Completes(t.sizeMb, t.duration, envs(k), runs[k])
                  && runs[k].iterations <= MaxIterations(t.duration)
    {
      var run := RunWorker(t.sizeMb, t.duration, envs(i));
      runs := runs + [run];
      i := i + 1;
    }
    if SleepRefuses(t.duration) {
      return SleepRaised(runs);
    }
    // the stop flag is set here, then every worker is joined
    var merged := Interleave(Parts(runs), schedule);
    var tally := ApplyAll(t.tally, merged);
    ScheduleIrrelevant(t.tally, Parts(runs), schedule);
    RecordsPerIteration(runs);
    out := Completed(t.(tally := tally), runs, Summarize(tally.speeds));
  }

  /** Two runs that differ only in the order the workers took the lock
      report the same totals and the same average, minimum and maximum. */
  lemma ReportIgnoresSchedule(t: Tally, parts: seq<seq<Record>>, s1: seq<nat>, s2: seq<nat>)
    ensures ApplyAll(t, Interleave(parts, s1)).successes == ApplyAll(t, Interleave(parts, s2)).successes
    ensures ApplyAll(t, Interleave(parts, s1)).failures == ApplyAll(t, Interleave(parts, s2)).failures
    ensures Summarize(ApplyAll(t, Interleave(parts, s1)).speeds)
         == Summarize(ApplyAll(t, Interleave(parts, s2)).speeds)
  {
    ScheduleIrrelevant(t, parts, s1);
    ScheduleIrrelevant(t, parts, s2);
    SummaryPermutation(ApplyAll(t, Interleave(parts, s1)).speeds,
                       ApplyAll(t, Interleave(parts, s2)).speeds);
  }
}
