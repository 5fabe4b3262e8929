/** One worker of the stress tester: a loop that, while the shared stop flag
    is clear and its own elapsed time is below the test duration, connects,
    downloads the remote file into a local temporary file, measures the
    speed, records the outcome, disconnects, removes the local file and
    sleeps one second.

    The network, the wall clock and the file system are inputs: the
    `WorkerEnv` of a worker fixes what each connection attempt and download
    does, how long each iteration takes besides its one-second pause, and
    what the worker sees when it reads the stop flag. */
module WorkerLoop {
  import opened Connector
  import opened Aggregate

  /** What `sftp.get` did: it returned, with the clock read just before and
      just after it, or it raised. */
  datatype Fetch = Fetched(start: real, end: real) | FetchRaised

  /** Everything the outside world decides about one iteration. */
  datatype Attempt = Attempt(handshake: Handshake, fetch: Fetch)

  /** The effects of one iteration: its record operation, the argument passed
      to `disconnect_sftp` in the `finally` block, and whether the local
      download file still exists when the iteration ends. */
  datatype Iteration = Iteration(record: Record, disconnected: Option<Client>, fileLeft: bool)

  /** The measured speed in MB/s. A duration that is zero or negative (a
      coarse or adjusted clock) gives a speed of exactly zero, so the guard
      leaves no way to divide by zero. */
  function Speed(sizeMb: real, duration: real): (v: real)
    ensures duration > 0.0 ==> v * duration == sizeMb
    ensures duration <= 0.0 ==> v == 0.0
  {
    if duration > 0.0 then sizeMb / duration else 0.0
  }

  /** The record operation of one iteration. A connection error is raised as
      an exception and lands in the failure handler together with a failed
      download; only a completed download records a speed. */
  function Outcome(sizeMb: real, a: Attempt): (r: Record)
    ensures r.Failed? <==> a.handshake.Raised? || a.fetch.FetchRaised?
    ensures r.Succeeded? ==> r.speed == Speed(sizeMb, a.fetch.end - a.fetch.start)
  {
    var reply := ConnectSftp(a.handshake);
    if Truthy(reply.error) then Failed
    else
      match a.fetch
      case Fetched(start, end) => Succeeded(Speed(sizeMb, end - start))
      case FetchRaised => Failed
  }

  /** One pass of the loop body: `try`, `except` and `finally`. */
  function Iterate(sizeMb: real, a: Attempt): (it: Iteration)
    ensures it.record.Failed? <==> a.handshake.Raised? || a.fetch.FetchRaised?
    ensures it.disconnected.None? <==> a.handshake.Raised?
    ensures a.handshake.Established? ==> it.disconnected == Some(a.handshake.client)
    ensures !it.fileLeft
  {
    var reply := ConnectSftp(a.handshake);
    // the finally block removes the file whenever it exists, so whether the
    // download created or left it does not matter afterwards
    Iteration(Outcome(sizeMb, a), reply.client, false)
  }

  datatype WorkerEnv = WorkerEnv(
    firstCheck: real,          // elapsed seconds at the first loop test
    busy: nat -> real,         // seconds iteration k spends besides sleep(1)
    stopSeen: nat -> bool,     // the stop flag as read at the k-th loop test
    attempts: nat -> Attempt)  // what the network does in iteration k

  function NonNeg(x: real): real
  {
    if x < 0.0 then 0.0 else x
  }

  /** Elapsed time since the worker started, read at its k-th loop test. The
      clock never runs backwards, and every iteration ends with a pause of
      one second, so the k-th test happens at least k seconds in. */
  function Elapsed(env: WorkerEnv, k: nat): (e: real)
    ensures e >= k as real
  {
    if k == 0 then NonNeg(env.firstCheck)
    else Elapsed(env, k - 1) + NonNeg(env.busy(k - 1)) + 1.0
  }

  /** The loop test: the stop flag is clear and time is left. */
  predicate Continues(env: WorkerEnv, duration: real, k: nat)
  {
    !env.stopSeen(k) && Elapsed(env, k) < duration
  }

  /** The number of naturals below `duration`: zero when the duration is not
      positive, its ceiling otherwise. */
  function MaxIterations(duration: real): (n: nat)
    ensures duration <= n as real
    ensures n == 0 || (n - 1) as real < duration
  {
    if duration <= 0.0 then 0
    else if duration.Floor as real == duration then duration.Floor
    else duration.Floor + 1
  }

  /** A worker that passed its loop test n times ran at most
      `MaxIterations(duration)` iterations; with a duration of zero or less
      it ran none. */
  lemma IterationBound(env: WorkerEnv, duration: real, n: nat)
    requires forall k :: 0 <= k < n ==> Continues(env, duration, k)
    ensures n <= MaxIterations(duration)
    ensures duration <= 0.0 ==> n == 0
  {
    if n > 0 {
      assert Continues(env, duration, n - 1);
    }
  }

  /** What one worker did. `tempFileLeft` says whether its temporary file is
      still on disk after the loop. */
  datatype WorkerRun = WorkerRun(
    iterations: nat,
    records: seq<Record>,
    disconnects: seq<Option<Client>>,
    tempFileLeft: bool)

  /** The behaviour of one worker: it ran exactly until its loop test first
      failed, each iteration made the record operation and the disconnect
      call its attempt dictates, and the temporary file, created once before
      the loop, was removed only by an iteration. */
  predicate Completes(sizeMb: real, duration: real, env: WorkerEnv, run: WorkerRun)
  {
    && |run.records| == run.iterations
    && |run.disconnects| == run.iterations
    && (forall k :: 0 <= k < run.iterations ==> Continues(env, duration, k))
    && !Continues(env, duration, run.iterations)
    && (forall k :: 0 <= k < run.iterations ==> run.records[k] == Outcome(sizeMb, env.attempts(k)))
    && (forall k :: 0 <= k < run.iterations ==>
          run.disconnects[k] == ConnectSftp(env.attempts(k).handshake).client)
    && (run.tempFileLeft <==> run.iterations == 0)
  }

  /** `_worker`. */
  method RunWorker(sizeMb: real, duration: real, env: WorkerEnv) returns (run: WorkerRun)
    ensures Completes(sizeMb, duration, env, run)
    ensures run.iterations <= MaxIterations(duration)
  {
    // NamedTemporaryFile(delete=False) creates the file, and close() keeps it
    var fileExists := true;
    var i: nat := 0;
    var records: seq<Record> := [];
    var disconnects: seq<Option<Client>> := [];
    while !env.stopSeen(i) && Elapsed(env, i) < duration
      invariant |records| == i && |disconnects| == i
      invariant forall k :: 0 <= k < i ==> Continues(env, duration, k)
      invariant forall k :: 0 <= k < i ==> records[k] == Outcome(sizeMb, env.attempts(k))
      invariant forall k :: 0 <= k < i ==>
                  disconnects[k] == ConnectSftp(env.attempts(k).handshake).client
      invariant fileExists <==> i == 0
      decreases MaxIterations(duration) - i
    {
      IterationBound(env, duration, i + 1);
      var it := Iterate(sizeMb, env.attempts(i));
      records := records + [it.record];
      disconnects := disconnects + [it.disconnected];
      fileExists := it.fileLeft;
      i := i + 1;
    }
    IterationBound(env, duration, i);
    run := WorkerRun(i, records, disconnects, fileExists);
  }

  /** Elapsed time of a worker whose iterations take no time besides their
      pause. */
  lemma {:induction false} IdleElapsed(env: WorkerEnv, k: nat)
    requires env.firstCheck <= 0.0
    requires forall j: nat :: env.busy(j) <= 0.0
    ensures Elapsed(env, k) == k as real
  {
    if k > 0 {
      IdleElapsed(env, k - 1);
    }
  }

  /** A worker that is never stopped and whose connections and downloads take
      no time runs exactly ceiling(duration) iterations: the one-second pause
      alone paces it. */
  lemma IdleWorkerIterations(sizeMb: real, duration: real, env: WorkerEnv, run: WorkerRun)
    requires Completes(sizeMb, duration, env, run)
    requires env.firstCheck <= 0.0
    requires forall j: nat :: env.busy(j) <= 0.0
    requires forall j: nat :: !env.stopSeen(j)
    ensures run.iterations == MaxIterations(duration)
  {
    var n := run.iterations;
    IdleElapsed(env, n);
    if n > 0 {
      IdleElapsed(env, n - 1);
      assert Continues(env, duration, n - 1);
    }
  }

  /** A worker whose connections are all refused records only failures,
      never a speed, and passes `None` to every disconnect call; its
      temporary file is removed if and only if it ran at least once. */
  lemma RefusedWorker(sizeMb: real, duration: real, env: WorkerEnv, run: WorkerRun)
    requires Completes(sizeMb, duration, env, run)
    requires forall j: nat :: env.attempts(j).handshake.Raised?
    ensures ApplyAll(Fresh(), run.records) == Tally(0, run.iterations, [])
    ensures forall k :: 0 <= k < run.iterations ==> run.disconnects[k] == None
    ensures !run.tempFileLeft <==> run.iterations > 0
  {
    forall k | 0 <= k < run.iterations
      ensures run.records[k] == Failed
    {
      assert env.attempts(k).handshake.Raised?;
    }
    AllFailed(run.records);
  }

  lemma {:induction false} AllFailed(rs: seq<Record>)
    requires forall k :: 0 <= k < |rs| ==> rs[k] == Failed
    ensures SpeedsOf(rs) == []
  {
    if |rs| > 0 {
      AllFailed(rs[1..]);
    }
  }
}
