/** GPU samples: which are kept, and what they integrate to. */
module Gpu {
  import opened Sequences

  type Pid = nat

  /** Timestamps are in microseconds, utilization in percent. */
  datatype Sample = Sample(ts: int, sm: int, mem: int)

  // ---------------------------------------------------------------- keeping samples of one process

  /** Samples of a batch that are newer than the last one accepted. */
  function Accept(cursor: int, batch: seq<Sample>): seq<Sample>
    decreases |batch|
  {
    if batch == [] then []
    else if batch[0].ts <= cursor then Accept(cursor, batch[1..])
    else [batch[0]] + Accept(batch[0].ts, batch[1..])
  }

  /** The largest timestamp seen. */
  function Cursor(cursor: int, batch: seq<Sample>): int
    decreases |batch|
  {
    if batch == [] then cursor else Cursor(Max(cursor, batch[0].ts), batch[1..])
  }

  function Retain(cursor: int, batches: seq<seq<Sample>>): seq<Sample>
    decreases |batches|
  {
    if batches == [] then []
    else Accept(cursor, batches[0]) + Retain(Cursor(cursor, batches[0]), batches[1..])
  }

  function CursorAfter(cursor: int, batches: seq<seq<Sample>>): int
    decreases |batches|
  {
    if batches == [] then cursor else CursorAfter(Cursor(cursor, batches[0]), batches[1..])
  }

  predicate Increasing(samples: seq<Sample>) { forall i, j :: 0 <= i < j < |samples| ==> samples[i].ts < samples[j].ts }

  predicate InOrder(samples: seq<Sample>) { forall i, j :: 0 <= i < j < |samples| ==> samples[i].ts <= samples[j].ts }

  function LastOr(samples: seq<Sample>, cursor: int): int {
    if samples == [] then cursor else samples[|samples| - 1].ts
  }

  /** Whatever a batch holds, the cursor moves to the last accepted sample. */
  lemma {:induction false} CursorIsLastAccepted(cursor: int, batch: seq<Sample>)
    ensures Cursor(cursor, batch) == LastOr(Accept(cursor, batch), cursor)
    decreases |batch|
  {
    if batch != [] { CursorIsLastAccepted(Max(cursor, batch[0].ts), batch[1..]); }
  }

  /** Accepted samples are strictly increasing and newer than the cursor. */
  lemma {:induction false} AcceptIncreases(cursor: int, batch: seq<Sample>)
    ensures Increasing(Accept(cursor, batch))
    ensures forall s :: s in Accept(cursor, batch) ==> s.ts > cursor
    decreases |batch|
  {
    if batch != [] {
      AcceptIncreases(cursor, batch[1..]);
      AcceptIncreases(batch[0].ts, batch[1..]);
      if batch[0].ts > cursor {
        var rest := Accept(batch[0].ts, batch[1..]);
        forall i | 0 <= i < |rest| ensures rest[i].ts > batch[0].ts { assert rest[i] in rest; }
      }
    }
  }

  lemma {:induction false} AcceptConcat(cursor: int, a: seq<Sample>, b: seq<Sample>)
    ensures Accept(cursor, a + b) == Accept(cursor, a) + Accept(Cursor(cursor, a), b)
    ensures Cursor(cursor, a + b) == Cursor(Cursor(cursor, a), b)
    decreases |a|
  {
    if a == [] {
      assert a + b == b;
    } else {
      assert (a + b)[1..] == a[1..] + b;
      AcceptConcat(Max(cursor, a[0].ts), a[1..], b);
    }
  }

  lemma {:induction false} AcceptOld(cursor: int, batch: seq<Sample>)
    requires forall i :: 0 <= i < |batch| ==> batch[i].ts <= cursor
    ensures Accept(cursor, batch) == [] && Cursor(cursor, batch) == cursor
    decreases |batch|
  {
    if batch != [] { AcceptOld(cursor, batch[1..]); }
  }

  /** Strictly increasing samples newer than the cursor are all accepted. */
  lemma {:induction false} AcceptNew(cursor: int, batch: seq<Sample>)
    requires Increasing(batch) && (batch != [] ==> batch[0].ts > cursor)
    ensures Accept(cursor, batch) == batch
    decreases |batch|
  {
    if batch != [] {
      var rest := batch[1..];
      forall i, j | 0 <= i < j < |rest| ensures rest[i].ts < rest[j].ts { assert batch[i + 1].ts < batch[j + 1].ts; }
      if rest != [] { assert batch[0].ts < batch[1].ts; }
      AcceptNew(batch[0].ts, rest);
    }
  }

  // ---------------------------------------------------------------- polling schedules

  /** A poll returned the samples a <= i < b of the process's stream. */
  datatype Poll = Poll(a: nat, b: nat)

  /** Polls leave no gap: each starts at or before the furthest point reached, p. */
  predicate GapFree(stream: seq<Sample>, p: nat, polls: seq<Poll>)
    decreases |polls|
  {
    p <= |stream| &&
    (polls == [] || (polls[0].a <= p && polls[0].a <= polls[0].b <= |stream|
                     && GapFree(stream, Max(p, polls[0].b), polls[1..])))
  }

  function Reached(p: nat, polls: seq<Poll>): nat
    decreases |polls|
  {
    if polls == [] then p else Reached(Max(p, polls[0].b), polls[1..])
  }

  predicate InRange(stream: seq<Sample>, polls: seq<Poll>) { forall q :: q in polls ==> q.a <= q.b <= |stream| }

  function Batches(stream: seq<Sample>, polls: seq<Poll>): seq<seq<Sample>>
    requires InRange(stream, polls)
  {
    seq(|polls|, i requires 0 <= i < |polls| => stream[polls[i].a..polls[i].b])
  }

  lemma {:induction false} ReachedFar(stream: seq<Sample>, p: nat, polls: seq<Poll>)
    requires GapFree(stream, p, polls)
    ensures p <= Reached(p, polls) <= |stream| && InRange(stream, polls)
    decreases |polls|
  {
    if polls != [] {
      ReachedFar(stream, Max(p, polls[0].b), polls[1..]);
      assert forall q :: q in polls ==> q == polls[0] || q in polls[1..];
    }
  }

  predicate SeenUpTo(stream: seq<Sample>, p: nat, cursor: int) { p <= |stream| && forall i :: 0 <= i < p ==> stream[i].ts <= cursor }

  /** One poll: what it repeats is refused, what it adds is treated as the next piece of the stream. */
  lemma OnePoll(stream: seq<Sample>, p: nat, cursor: int, q: Poll)
    requires InOrder(stream) && SeenUpTo(stream, p, cursor) && q.a <= p && q.a <= q.b <= |stream|
    ensures var p' := Max(p, q.b);
            && Accept(cursor, stream[q.a..q.b]) == Accept(cursor, stream[p..p'])
            && Cursor(cursor, stream[q.a..q.b]) == Cursor(cursor, stream[p..p'])
            && SeenUpTo(stream, p', Cursor(cursor, stream[p..p']))
  {
    if q.b <= p {
      AcceptOld(cursor, stream[q.a..q.b]);
      assert stream[p..p] == [];
    } else {
      var old_, new_ := stream[q.a..p], stream[p..q.b];
      assert stream[q.a..q.b] == old_ + new_;
      AcceptOld(cursor, old_);
      AcceptConcat(cursor, old_, new_);
      CursorCovers(cursor, new_);
      forall i | 0 <= i < q.b ensures stream[i].ts <= Cursor(cursor, new_) {
        if i >= p { assert new_[i - p] == stream[i]; }
      }
    }
  }

  lemma {:induction false} CursorCovers(cursor: int, batch: seq<Sample>)
    ensures cursor <= Cursor(cursor, batch)
    ensures forall i :: 0 <= i < |batch| ==> batch[i].ts <= Cursor(cursor, batch)
    decreases |batch|
  {
    if batch != [] {
      CursorCovers(Max(cursor, batch[0].ts), batch[1..]);
      forall i | 0 <= i < |batch| ensures batch[i].ts <= Cursor(cursor, batch) {
        if i > 0 { assert batch[i] == batch[1..][i - 1]; }
      }
    }
  }

  /** Any gap-free polling of an ordered stream keeps the same samples and leaves the same cursor. */
  lemma {:induction false} ScheduleIndependent(stream: seq<Sample>, p: nat, cursor: int, polls: seq<Poll>)
    requires InOrder(stream) && SeenUpTo(stream, p, cursor) && GapFree(stream, p, polls)
    ensures InRange(stream, polls) && p <= Reached(p, polls) <= |stream|
    ensures Retain(cursor, Batches(stream, polls)) == Accept(cursor, stream[p..Reached(p, polls)])
    ensures CursorAfter(cursor, Batches(stream, polls)) == Cursor(cursor, stream[p..Reached(p, polls)])
    decreases |polls|
  {
    ReachedFar(stream, p, polls);
    if polls == [] {
      assert stream[p..p] == [];
    } else {
      var p' := Max(p, polls[0].b);
      var end := Reached(p', polls[1..]);
      OnePoll(stream, p, cursor, polls[0]);
      var cursor' := Cursor(cursor, stream[p..p']);
      ScheduleIndependent(stream, p', cursor', polls[1..]);
      assert Batches(stream, polls)[1..] == Batches(stream, polls[1..]);
      assert stream[p..end] == stream[p..p'] + stream[p'..end];
      AcceptConcat(cursor, stream[p..p'], stream[p'..end]);
    }
  }

  /**
   After a baseline at position p, a stream of distinct timestamps is kept whole, each sample once,
   and the cursor is the last of them.
   */
  lemma WholeStreamKept(stream: seq<Sample>, p: nat, cursor: int, polls: seq<Poll>)
    requires Increasing(stream) && SeenUpTo(stream, p, cursor) && GapFree(stream, p, polls)
    requires p < |stream| ==> stream[p].ts > cursor
    ensures InRange(stream, polls) && p <= Reached(p, polls) <= |stream|
    ensures Retain(cursor, Batches(stream, polls)) == stream[p..Reached(p, polls)]
    ensures CursorAfter(cursor, Batches(stream, polls)) == LastOr(stream[p..Reached(p, polls)], cursor)
  {
    ScheduleIndependent(stream, p, cursor, polls);
    var kept := stream[p..Reached(p, polls)];
    forall i, j | 0 <= i < j < |kept| ensures kept[i].ts < kept[j].ts { assert stream[p + i].ts < stream[p + j].ts; }
    AcceptNew(cursor, kept);
    CursorIsLastAccepted(cursor, kept);
  }

  // ---------------------------------------------------------------- integration

  /** Intervals between consecutive samples, the first one from `prev`; never negative. */
  function Elapsed(prev: int, samples: seq<Sample>): int
    decreases |samples|
  {
    if samples == [] then 0 else Max(0, samples[0].ts - prev) + Elapsed(samples[0].ts, samples[1..])
  }

  /** Busy time in percent of a microsecond. */
  function Busy(prev: int, samples: seq<Sample>): int
    decreases |samples|
  {
    if samples == [] then 0 else samples[0].sm * Max(0, samples[0].ts - prev) + Busy(samples[0].ts, samples[1..])
  }

  /** The intervals telescope: last sample minus the earlier of baseline and first sample. */
  lemma {:induction false} ElapsedTelescopes(prev: int, samples: seq<Sample>)
    requires Increasing(samples) && samples != []
    ensures Elapsed(prev, samples) == samples[|samples| - 1].ts - Min(prev, samples[0].ts)
    decreases |samples|
  {
    var rest := samples[1..];
    if rest != [] {
      forall i, j | 0 <= i < j < |rest| ensures rest[i].ts < rest[j].ts { assert samples[i + 1].ts < samples[j + 1].ts; }
      assert samples[0].ts < samples[1].ts;
      ElapsedTelescopes(samples[0].ts, rest);
    } else {
      assert Elapsed(samples[0].ts, rest) == 0;
    }
  }

  /** The utilization reported for an instant: that of the first sample not before it. */
  function LoadAt(samples: seq<Sample>, t: int): int {
    if samples == [] then 0 else if t <= samples[0].ts then samples[0].sm else LoadAt(samples[1..], t)
  }

  /** The utilization of each of the n microseconds after `from`, summed. */
  function LoadOver(samples: seq<Sample>, from: int, n: nat): int {
    if n == 0 then 0 else LoadOver(samples, from, n - 1) + LoadAt(samples, from + n)
  }

  lemma {:induction false} LoadSplits(samples: seq<Sample>, from: int, m: nat, n: nat)
    ensures LoadOver(samples, from, m + n) == LoadOver(samples, from, m) + LoadOver(samples, from + m, n)
  {
    if n > 0 { LoadSplits(samples, from, m, n - 1); }
  }

  lemma {:induction false} LoadFirst(samples: seq<Sample>, from: int, n: nat)
    requires samples != [] && from + n <= samples[0].ts
    ensures LoadOver(samples, from, n) == samples[0].sm * n
  {
    if n > 0 { LoadFirst(samples, from, n - 1); }
  }

  lemma {:induction false} LoadRest(samples: seq<Sample>, from: int, n: nat)
    requires samples != [] && samples[0].ts <= from
    ensures LoadOver(samples, from, n) == LoadOver(samples[1..], from, n)
  {
    if n > 0 { LoadRest(samples, from, n - 1); }
  }

  /** Busy time is the integral of the reported utilization from the origin, or the first sample if that is earlier, to the last. */
  lemma {:induction false} BusyIsIntegral(prev: int, samples: seq<Sample>)
    requires Increasing(samples) && samples != []
    ensures var from, last := Min(prev, samples[0].ts), samples[|samples| - 1].ts;
            from <= last && Busy(prev, samples) == LoadOver(samples, from, last - from)
    decreases |samples|
  {
    var first, last, rest := samples[0].ts, samples[|samples| - 1].ts, samples[1..];
    var from := Min(prev, first);
    LoadFirst(samples, from, first - from);
    if rest != [] {
      forall i, j | 0 <= i < j < |rest| ensures rest[i].ts < rest[j].ts { assert samples[i + 1].ts < samples[j + 1].ts; }
      assert rest[0] == samples[1] && first < rest[0].ts && rest[|rest| - 1] == samples[|samples| - 1];
      BusyIsIntegral(first, rest);
      LoadSplits(samples, from, first - from, last - first);
      LoadRest(samples, first, last - first);
    } else {
      assert Busy(first, rest) == 0;
    }
  }

  predicate Percentages(samples: seq<Sample>) { forall i :: 0 <= i < |samples| ==> 0 <= samples[i].sm <= 100 }

  lemma ShareBound(sm: int, dt: int)
    requires 0 <= sm <= 100 && dt >= 0
    ensures 0 <= sm * dt <= 100 * dt
  {
  }

  /** With utilization at most 100, busy time never exceeds the interval. */
  lemma {:induction false} BusyWithinElapsed(prev: int, samples: seq<Sample>)
    requires Percentages(samples)
    ensures 0 <= Busy(prev, samples) <= 100 * Elapsed(prev, samples)
    decreases |samples|
  {
    if samples != [] {
      ShareBound(samples[0].sm, Max(0, samples[0].ts - prev));
      BusyWithinElapsed(samples[0].ts, samples[1..]);
    }
  }

  /** Where the first interval of a process starts. */
  function Origin(baseline: Option<int>, deviceHadBaseline: bool, first: int, taskStart: int): int {
    if baseline.Some? then baseline.value else if deviceHadBaseline then first else taskStart
  }

  function TaskStart(newest: int, durationMs: int): int { Max(0, newest - durationMs * 1000) }

  /** Per process: the integrated time is bounded by its own interval, whichever origin applies. */
  lemma ProcessTime(samples: seq<Sample>, baseline: Option<int>, deviceHadBaseline: bool, taskStart: int)
    requires Increasing(samples) && samples != [] && Percentages(samples)
    ensures var first, last := samples[0].ts, samples[|samples| - 1].ts;
            var origin := Origin(baseline, deviceHadBaseline, first, taskStart);
            && Elapsed(origin, samples) == last - Min(origin, first)
            && Busy(origin, samples) <= 100 * (last - Min(origin, first))
            && (baseline.Some? ==> Elapsed(origin, samples) == last - Min(baseline.value, first))
            && (baseline.None? && deviceHadBaseline ==> Elapsed(origin, samples) == last - first)
            && (baseline.None? && !deviceHadBaseline ==> Elapsed(origin, samples) == last - Min(taskStart, first))
  {
    var origin := Origin(baseline, deviceHadBaseline, samples[0].ts, taskStart);
    ElapsedTelescopes(origin, samples);
    BusyWithinElapsed(origin, samples);
  }

  /**
   With nothing running at the start, the process that holds the newest sample is integrated over at most
   the task's duration exactly when the derived start does not come after its first sample.
   */
  lemma WithinDurationIff(samples: seq<Sample>, durationMs: int)
    requires Increasing(samples) && samples != [] && samples[0].ts > 0 && durationMs >= 0
    ensures var newest := samples[|samples| - 1].ts;
            var start := TaskStart(newest, durationMs);
            Elapsed(start, samples) <= durationMs * 1000 <==> start <= samples[0].ts
  {
    ElapsedTelescopes(TaskStart(samples[|samples| - 1].ts, durationMs), samples);
  }

  /** Any other process on the device stays within the duration under the same condition. */
  lemma OthersWithinDuration(samples: seq<Sample>, newest: int, durationMs: int)
    requires Increasing(samples) && samples != [] && samples[0].ts > 0 && durationMs >= 0
    requires samples[|samples| - 1].ts <= newest && TaskStart(newest, durationMs) <= samples[0].ts
    ensures Elapsed(TaskStart(newest, durationMs), samples) <= durationMs * 1000
  {
    ElapsedTelescopes(TaskStart(newest, durationMs), samples);
  }

  /** A sample left in the driver's buffer from before a one-millisecond task is integrated past its duration. */
  lemma StaleSampleExceeds()
    ensures var samples := [Sample(10, 100, 0), Sample(5000, 100, 0)];
            var start := TaskStart(5000, 1);
            start > 10 && Elapsed(start, samples) == 4990 && Busy(start, samples) > 100 * 1 * 1000
  {
    var samples := [Sample(10, 100, 0), Sample(5000, 100, 0)];
    assert samples[1..] == [Sample(5000, 100, 0)] && samples[1..][1..] == [];
    assert Busy(10, samples[1..]) == 100 * 4990;
  }
}
