/** The GPU accountant of one device: cursors, retained samples, and the final integration. */
module GpuObject {
  import opened Sequences
  import opened Gpu

  type Batch = map<Pid, seq<Sample>>

  function CursorOf(cursors: map<Pid, int>, pid: Pid): int { if pid in cursors then cursors[pid] else 0 }

  function SamplesOf(m: map<Pid, seq<Sample>>, pid: Pid): seq<Sample> { if pid in m then m[pid] else [] }

  /** What one process reported, poll by poll. */
  function Reports(history: seq<Batch>, pid: Pid): seq<seq<Sample>> {
    seq(|history|, i requires 0 <= i < |history| => SamplesOf(history[i], pid))
  }

  lemma {:induction false} RetainSnoc(cursor: int, batches: seq<seq<Sample>>, batch: seq<Sample>)
    ensures Retain(cursor, batches + [batch]) == Retain(cursor, batches) + Accept(CursorAfter(cursor, batches), batch)
    ensures CursorAfter(cursor, batches + [batch]) == Cursor(CursorAfter(cursor, batches), batch)
    decreases |batches|
  {
    if batches == [] {
      assert [batch][1..] == [];
      assert Retain(cursor, [batch]) == Accept(cursor, batch) + Retain(Cursor(cursor, batch), []);
    } else {
      assert (batches + [batch])[1..] == batches[1..] + [batch];
      RetainSnoc(Cursor(cursor, batches[0]), batches[1..], batch);
    }
  }

  class GpuAccountant {
    var cursors: map<Pid, int>
    var baseline: map<Pid, int>
    var retained: map<Pid, seq<Sample>>
    var frozen: bool
    ghost var history: seq<Batch>

    /** Every process's samples and cursor are what the polls since the baseline yield. */
    ghost predicate Valid()
      reads this
    {
      forall pid: Pid ::
        && SamplesOf(retained, pid) == Retain(CursorOf(baseline, pid), Reports(history, pid))
        && CursorOf(cursors, pid) == CursorAfter(CursorOf(baseline, pid), Reports(history, pid))
    }

    /** The baseline poll only sets the cursors. */
    constructor (first: Batch)
      ensures Valid() && history == [] && !frozen && retained == map[]
      ensures forall pid: Pid :: CursorOf(baseline, pid) == Cursor(0, SamplesOf(first, pid))
    {
      cursors, baseline, retained, frozen, history := map[], map[], map[], false, [];
      new;
      GetNVMLProcessUtilization(first);
      baseline := cursors;
    }

    /** Records the largest timestamp of each process, in place. */
    method GetNVMLProcessUtilization(batch: Batch)
      modifies this`cursors
      ensures forall pid: Pid :: CursorOf(cursors, pid) == Cursor(CursorOf(old(cursors), pid), SamplesOf(batch, pid))
    {
      var pids := batch.Keys;
      ghost var before := cursors;
      while pids != {}
        invariant pids <= batch.Keys
        invariant forall pid: Pid :: CursorOf(cursors, pid)
                    == if pid in pids then CursorOf(before, pid) else Cursor(CursorOf(before, pid), SamplesOf(batch, pid))
        decreases |pids|
      {
        var pid :| pid in pids;
        var last := Newest(CursorOf(cursors, pid), batch[pid]);
        if last > CursorOf(cursors, pid) { cursors := cursors[pid := last]; }
        pids := pids - {pid};
      }
    }

    method Newest(cursor: int, samples: seq<Sample>) returns (last: int)
      ensures last == Cursor(cursor, samples) && last >= cursor
    {
      CursorCovers(cursor, samples);
      last := cursor;
      var i := 0;
      assert samples[0..] == samples;
      while i < |samples|
        invariant 0 <= i <= |samples| && Cursor(cursor, samples) == Cursor(last, samples[i..])
      {
        assert samples[i..][1..] == samples[i + 1..];
        if samples[i].ts > last { last := samples[i].ts; }
        i := i + 1;
      }
    }

    /** One poll: cursors move, and samples newer than the previous cursor are kept. */
    method CaptureSample(batch: Batch)
      requires Valid()
      modifies this`cursors, this`retained, this`history
      ensures Valid()
      ensures history == if frozen then old(history) else old(history) + [batch]
      ensures frozen ==> retained == old(retained)
    {
      hide Retain, CursorAfter, Accept, Cursor;
      if frozen { return; }
      var prior := cursors;
      GetNVMLProcessUtilization(batch);
      Keep(prior, batch);
      forall pid: Pid ensures Reports(history + [batch], pid) == Reports(history, pid) + [SamplesOf(batch, pid)] { }
      forall pid: Pid { RetainSnoc(CursorOf(baseline, pid), Reports(history, pid), SamplesOf(batch, pid)); }
      history := history + [batch];
    }

    method Keep(prior: map<Pid, int>, batch: Batch)
      modifies this`retained
      ensures forall pid: Pid :: SamplesOf(retained, pid)
                == SamplesOf(old(retained), pid) + Accept(CursorOf(prior, pid), SamplesOf(batch, pid))
    {
      ghost var before := retained;
      var pids := batch.Keys;
      assert forall pid: Pid :: pid !in batch ==> SamplesOf(before, pid) + [] == SamplesOf(before, pid);
      while pids != {}
        invariant pids <= batch.Keys
        invariant forall pid: Pid :: SamplesOf(retained, pid)
                    == if pid in pids then SamplesOf(before, pid)
                       else SamplesOf(before, pid) + Accept(CursorOf(prior, pid), SamplesOf(batch, pid))
        decreases |pids|
      {
        var pid :| pid in pids;
        var accepted := AcceptNewer(CursorOf(prior, pid), batch[pid]);
        retained := retained[pid := SamplesOf(retained, pid) + accepted];
        pids := pids - {pid};
      }
    }

    method AcceptNewer(cursor: int, samples: seq<Sample>) returns (accepted: seq<Sample>)
      ensures accepted == Accept(cursor, samples)
    {
      accepted := [];
      var last, i := cursor, 0;
      assert samples[0..] == samples;
      assert accepted + Accept(cursor, samples) == Accept(cursor, samples);
      while i < |samples|
        invariant 0 <= i <= |samples| && Accept(cursor, samples) == accepted + Accept(last, samples[i..])
      {
        assert samples[i..][1..] == samples[i + 1..];
        if samples[i].ts > last {
          Assoc(accepted, [samples[i]], Accept(samples[i].ts, samples[i + 1..]));
          accepted := accepted + [samples[i]];
          last := samples[i].ts;
        }
        i := i + 1;
      }
    }

    /** The final poll, once; afterwards nothing is kept any more. */
    method SnapshotEnd(batch: Batch) returns (built: bool)
      requires Valid()
      modifies this
      ensures Valid() && frozen && baseline == old(baseline)
      ensures built == !old(frozen)
      ensures history == if built then old(history) + [batch] else old(history)
      ensures !built ==> retained == old(retained)
    {
      if frozen { return false; }
      CaptureSample(batch);
      frozen := true;
      built := true;
    }

    /** Adds up one process's busy time, sample by sample. */
    method Integrate(pid: Pid, deviceHadBaseline: bool, taskStart: int) returns (elapsed: int, busy: int)
      requires pid in retained && retained[pid] != []
      ensures var origin := Origin(if pid in baseline then Some(baseline[pid]) else None, deviceHadBaseline, retained[pid][0].ts, taskStart);
              elapsed == Elapsed(origin, retained[pid]) && busy == Busy(origin, retained[pid])
    {
      var samples := retained[pid];
      var prev := taskStart;
      if pid in baseline { prev := baseline[pid]; } else if deviceHadBaseline { prev := samples[0].ts; }
      ghost var origin := prev;
      elapsed, busy := 0, 0;
      var i := 0;
      assert samples[0..] == samples;
      while i < |samples|
        invariant 0 <= i <= |samples|
        invariant Elapsed(origin, samples) == elapsed + Elapsed(prev, samples[i..])
        invariant Busy(origin, samples) == busy + Busy(prev, samples[i..])
      {
        assert samples[i..][1..] == samples[i + 1..];
        var dt := samples[i].ts - prev;
        if dt < 0 { dt := 0; }
        elapsed, busy := elapsed + dt, busy + samples[i].sm * dt;
        prev := samples[i].ts;
        i := i + 1;
      }
    }
  }
}
