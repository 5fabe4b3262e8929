/** `run_sftp_stress_test`: refuse a configuration that still holds the
    shipped placeholders, try one connection before starting, then build the
    tester, run it and print the overall average speed and the totals. */
module Runner {
  import opened Connector
  import opened Aggregate
  import opened Stats
  import opened WorkerLoop
  import opened StressTester
  import opened Settings

  const HostPlaceholder: string := "your_sftp_host"
  const UserPlaceholder: string := "your_username"
  const PasswordPlaceholder: string := "your_password"
  const PathPlaceholder: string := "/path/to/your/large_file.bin"
  const SizePlaceholder: real := 100.0

  predicate ServerUnset(c: Config)
  {
    c.hostname == HostPlaceholder || c.username == UserPlaceholder || c.password == PasswordPlaceholder
  }

  /** The size test compares with the shipped value itself, so a remote file
      that really is 100 MB is refused as well. */
  predicate TargetUnset(c: Config)
  {
    c.remotePath == PathPlaceholder || c.sizeMb == SizePlaceholder
  }

  datatype Rejection = ServerNotSet | TargetNotSet

  /** The two validation tests, server settings first. */
  function Validate(c: Config): (r: Option<Rejection>)
    ensures r == Some(ServerNotSet) <==> ServerUnset(c)
    ensures r == Some(TargetNotSet) <==> !ServerUnset(c) && TargetUnset(c)
    ensures r == None <==> !ServerUnset(c) && !TargetUnset(c)
  {
    if ServerUnset(c) then Some(ServerNotSet)
    else if TargetUnset(c) then Some(TargetNotSet)
    else None
  }

  /** The configuration as shipped trips both tests, so it never starts a
      test. */
  lemma DefaultsNeverStart()
    ensures ServerUnset(Defaults) && TargetUnset(Defaults)
    ensures Validate(Defaults) == Some(ServerNotSet)
  {
  }

  /** Whatever the other settings, a file size of exactly 100 MB is refused. */
  lemma HundredMegabytesRefused(c: Config)
    requires c.sizeMb == 100.0
    ensures Validate(c).Some?
  {
  }

  /** The externally visible steps of a run, in order. */
  datatype Step =
    | PreflightConnect
    | PreflightDisconnect(client: Client, closed: seq<Closable>)
    | Build(tester: Tester)
    | Start

  /** The average printed by the summary; `None` stands for the "no
      successful downloads" message. */
  function OverallAverage(speeds: seq<real>): (avg: Option<real>)
    ensures avg.None? <==> |speeds| == 0
    ensures avg.Some? ==> avg.value * (|speeds| as real) == Sum(speeds)
    ensures avg.Some? ==> Summarize(speeds).Figures? && Summarize(speeds).average == avg.value
  {
    if |speeds| == 0 then None else Some(Average(speeds))
  }

  datatype RunOutcome =
    | Rejected(reason: Rejection)
    | PreflightFailed(message: string)
      // an exception from `time.sleep` in the test run is not caught here
    | TestRaised(runs: seq<WorkerRun>)
    | Finished(tester: Tester, runs: seq<WorkerRun>, average: Option<real>)

  /** `run_sftp_stress_test`. `preflight` is what the initial connection
      attempt does and `closing` what happens when it is closed; `envs` and
      `schedule` are handed to the test run. */
  method RunStressTest(c: Config, preflight: Handshake, closing: CloseFault,
                       envs: nat -> WorkerEnv, schedule: seq<nat>)
    returns (out: RunOutcome, steps: seq<Step>)
    // a placeholder stops the run before anything else happens
    ensures Validate(c).Some? ==> out == Rejected(Validate(c).value) && steps == []
    // a failed initial connection stops it before any tester exists
    ensures Validate(c).None? && preflight.Raised? ==>
              out.PreflightFailed? && FailurePrefix <= out.message && steps == [PreflightConnect]
    // otherwise the test connection is closed, as far as closing succeeds,
    // then the tester is built from the configuration unchanged, then started
    ensures Validate(c).None? && preflight.Established? ==>
              && |steps| == 4
              && steps[0] == PreflightConnect
              && steps[1].PreflightDisconnect?
              && steps[1].client == preflight.client
              && (Channel(preflight.client) in steps[1].closed <==> !closing.ChannelRaises?)
              && (Transport(preflight.client) in steps[1].closed <==> closing.ClosedCleanly?)
              && steps[2].Build?
              && steps[3] == Start
              && steps[2].tester.hostname == c.hostname
              && steps[2].tester.port == c.port
              && steps[2].tester.username == c.username
              && steps[2].tester.password == c.password
              && steps[2].tester.remotePath == c.remotePath
              && steps[2].tester.sizeMb == c.sizeMb
              && steps[2].tester.numThreads == c.numThreads
              && steps[2].tester.duration == c.duration
              && steps[2].tester.tally == Tally(0, 0, [])
    ensures out.TestRaised? || out.Finished? <==> Validate(c).None? && preflight.Established?
    ensures out.TestRaised? <==> Validate(c).None? && preflight.Established? && SleepRefuses(c.duration)
    // every started worker ran to its own loop exit in its environment,
    // whether or not `time.sleep` then raised
    ensures out.TestRaised? || out.Finished? ==>
              && |out.runs| == Spawned(c.numThreads)
              && forall k :: 0 <= k < |out.runs| ==> Completes(c.sizeMb, c.duration, envs(k), out.runs[k])
    // the reported tester is the one built from the configuration
    ensures out.Finished? ==> |steps| == 4 && steps[2].Build? && out.tester.(tally := Fresh()) == steps[2].tester
    ensures out.Finished? ==>
              && Consistent(out.tester.tally)
              && out.tester.tally.successes + out.tester.tally.failures == TotalIterations(out.runs)
              && SameTotals(out.tester.tally, ApplyAll(Fresh(), Flatten(Parts(out.runs))))
              && out.average == OverallAverage(out.tester.tally.speeds)
  {
    var gate := Validate(c);
    if gate.Some? {
      return Rejected(gate.value), [];
    }
    steps := [PreflightConnect];
    var reply := ConnectSftp(preflight);
    if Truthy(reply.error) {
      return PreflightFailed(reply.error.value), steps;
    }
    var closed := DisconnectSftp(reply.client, closing);
    steps := steps + [PreflightDisconnect(reply.client.value, closed)];
    var tester := NewTester(c.hostname, c.port, c.username, c.password,
                            c.remotePath, c.sizeMb, c.numThreads, c.duration);
    steps := steps + [Build(tester), Start];
    var result := StartTest(tester, envs, schedule);
    match result
    case SleepRaised(runs) =>
      out := TestRaised(runs);
    case Completed(done, runs, _) =>
      out := Finished(done, runs, OverallAverage(done.tally.speeds));
  }
}
