/** The shared counters of a stress test: successful operations, failed
    operations and the list of recorded download speeds. Every worker updates
    them inside one critical section per iteration, so a run is a sequence of
    atomic record operations, one per iteration, taken in the order the
    workers acquired the lock. */
module Aggregate {

  /** The one update an iteration makes to the shared counters. */
  datatype Record = Succeeded(speed: real) | Failed

  datatype Tally = Tally(successes: nat, failures: nat, speeds: seq<real>)

  /** The counter of successes and the speed list move together. */
  predicate Consistent(t: Tally)
  {
    t.successes == |t.speeds|
  }

  /** The counters of a freshly built tester. */
  function Fresh(): (t: Tally)
    ensures Consistent(t)
    ensures t.successes + t.failures == 0
  {
    Tally(0, 0, [])
  }

  /** One critical section: a success appends its speed and bumps the success
      counter, a failure bumps the failure counter only. */
  function Apply(t: Tally, r: Record): (u: Tally)
    ensures u.successes + u.failures == t.successes + t.failures + 1
    ensures r.Succeeded? ==> u.successes == t.successes + 1 && u.failures == t.failures
    ensures r.Failed? ==> u.failures == t.failures + 1 && u.successes == t.successes
    ensures r.Succeeded? ==> u.speeds == t.speeds + [r.speed]
    ensures r.Failed? ==> u.speeds == t.speeds
    ensures Consistent(t) ==> Consistent(u)
  {
    match r
    case Succeeded(v) => t.(speeds := t.speeds + [v], successes := t.successes + 1)
    case Failed => t.(failures := t.failures + 1)
  }

  /** The speeds carried by the successful records, in order. */
  function SpeedsOf(rs: seq<Record>): seq<real>
  {
    if |rs| == 0 then []
    else (if rs[0].Succeeded? then [rs[0].speed] else []) + SpeedsOf(rs[1..])
  }

  /** The number of failed records; the rest are successes. */
  function CountFailed(rs: seq<Record>): (n: nat)
    ensures n + |SpeedsOf(rs)| == |rs|
  {
    if |rs| == 0 then 0
    else (if rs[0].Failed? then 1 else 0) + CountFailed(rs[1..])
  }

  /** The counters after applying the records one after another. */
  function ApplyAll(t: Tally, rs: seq<Record>): (u: Tally)
    ensures u.successes == t.successes + |SpeedsOf(rs)|
    ensures u.failures == t.failures + CountFailed(rs)
    ensures u.successes + u.failures == t.successes + t.failures + |rs|
    ensures u.speeds == t.speeds + SpeedsOf(rs)
    ensures Consistent(t) ==> Consistent(u)
    decreases |rs|
  {
    if |rs| == 0 then t else ApplyAll(Apply(t, rs[0]), rs[1..])
  }

  /** Two tallies that agree on both counters and on the speeds up to order. */
  predicate SameTotals(a: Tally, b: Tally)
  {
    && a.successes == b.successes
    && a.failures == b.failures
    && multiset(a.speeds) == multiset(b.speeds)
  }

  /** The workers' records one worker after another. */
  function Flatten(parts: seq<seq<Record>>): seq<Record>
  {
    if |parts| == 0 then [] else parts[0] + Flatten(parts[1..])
  }

  /** An interleaving of the workers' record sequences. `schedule` lists,
      step by step, which worker takes the lock next; a step naming a worker
      with nothing left to record is skipped, and whatever the schedule does
      not cover is recorded afterwards, worker by worker. Every interleaving
      that keeps each worker's own order is of this form. */
  function Interleave(parts: seq<seq<Record>>, schedule: seq<nat>): (merged: seq<Record>)
    ensures multiset(merged) == multiset(Flatten(parts))
    decreases |schedule|
  {
    if |schedule| == 0 then Flatten(parts)
    else
      var w := schedule[0];
      if w < |parts| && |parts[w]| > 0 then
        TakeHead(parts, w);
        [parts[w][0]] + Interleave(parts[w := parts[w][1..]], schedule[1..])
      else
        Interleave(parts, schedule[1..])
  }

  /** Taking the first record of worker `w` leaves the rest of the records. */
  lemma {:induction false} TakeHead(parts: seq<seq<Record>>, w: nat)
    requires w < |parts| && |parts[w]| > 0
    ensures multiset(Flatten(parts))
         == multiset{parts[w][0]} + multiset(Flatten(parts[w := parts[w][1..]]))
  {
    var updated := parts[w := parts[w][1..]];
    if w == 0 {
      assert updated[1..] == parts[1..];
      assert parts[0] == [parts[0][0]] + parts[0][1..];
    } else {
      assert updated[1..] == parts[1..][w - 1 := parts[w][1..]];
      TakeHead(parts[1..], w - 1);
    }
  }

  lemma {:induction false} SpeedsOfConcat(a: seq<Record>, b: seq<Record>)
    ensures SpeedsOf(a + b) == SpeedsOf(a) + SpeedsOf(b)
    ensures CountFailed(a + b) == CountFailed(a) + CountFailed(b)
  {
    if |a| == 0 {
      assert a + b == b;
    } else {
      assert (a + b)[1..] == a[1..] + b;
      SpeedsOfConcat(a[1..], b);
    }
  }

  /** Taking one record out of the middle of a sequence takes its
      contribution out of the totals. */
  lemma RemoveMiddle(left: seq<Record>, x: Record, right: seq<Record>)
    ensures CountFailed(left + [x] + right) == CountFailed([x]) + CountFailed(left + right)
    ensures multiset(SpeedsOf(left + [x] + right))
         == multiset(SpeedsOf([x])) + multiset(SpeedsOf(left + right))
  {
    SpeedsOfConcat(left + [x], right);
    SpeedsOfConcat(left, [x]);
    SpeedsOfConcat(left, right);
    var sl, sx, sr := SpeedsOf(left), SpeedsOf([x]), SpeedsOf(right);
    assert multiset(sl + sx + sr) == multiset(sx) + multiset(sl + sr);
  }

  /** Reordering the records changes neither the number of failures nor the
      multiset of recorded speeds. */
  lemma {:induction false} PermutationKeepsTotals(a: seq<Record>, b: seq<Record>)
    requires multiset(a) == multiset(b)
    ensures CountFailed(a) == CountFailed(b)
    ensures multiset(SpeedsOf(a)) == multiset(SpeedsOf(b))
  {
    if |a| == 0 {
      assert |b| == |multiset(b)| == 0;
    } else {
      var x := a[0];
      assert x in multiset(b);
      var j :| 0 <= j < |b| && b[j] == x;
      var left, right := b[..j], b[j + 1..];
      assert b == left + [x] + right;
      assert multiset(left + right) == multiset(b) - multiset{x};
      RemoveMiddle(left, x, right);
      assert a == [x] + a[1..];
      assert multiset(a[1..]) == multiset(a) - multiset{x};
      PermutationKeepsTotals(a[1..], left + right);
      SpeedsOfConcat([x], a[1..]);
    }
  }

  /** Whatever order the workers took the lock in, the final counters equal
      those of running the workers one after another, up to the order of the
      speed samples. */
  lemma ScheduleIrrelevant(t: Tally, parts: seq<seq<Record>>, schedule: seq<nat>)
    ensures SameTotals(ApplyAll(t, Interleave(parts, schedule)), ApplyAll(t, Flatten(parts)))
  {
    var merged, serial := Interleave(parts, schedule), Flatten(parts);
    PermutationKeepsTotals(merged, serial);
    assert |SpeedsOf(merged)| == |multiset(SpeedsOf(merged))| == |SpeedsOf(serial)|;
  }
}
