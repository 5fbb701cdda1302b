/** Ending a task: first totals, then back-filled costs. */
module TaskEnd {
  import opened Sequences

  datatype Kind = LlmCall | External | Compute | Marker | Network | Gpu | Signal

  /** A byte count detail: its true value, and whether it is held as a 64-bit integer when read back. */
  datatype Count = Count(bytes: int, decodes: bool)

  /** `pending` is the cost_pending detail. */
  datatype Event = Event(id: nat, kind: Kind, cost: real, pending: bool, isRetry: bool,
                         request: Count, response: Count, isInternal: bool)

  datatype Task = Task(llm: real, external: real, compute: real, gpu: real, network: real, total: real,
                       retryCost: real, retryCount: int)

  /**
   The surroundings of one task: which storage calls succeed, the price engines, and what the
   registered accountants report. `egress` is the external bytes sent, when a network accountant is registered.
   */
  datatype Env = Env(storage: nat -> bool, computePrice: Event -> real, gpuPrice: Event -> real, rate: real,
                     egress: Option<int>, computeEvent: Option<Event>, gpuEvents: Option<(Option<Event>, seq<Event>)>)

  const BYTES_PER_GB := 1_000_000_000.0

  function EgressCost(env: Env, bytes: int): real { bytes as real / BYTES_PER_GB * env.rate }

  /** A count that does not decode is read as zero. */
  function Bytes(n: Count): int { if n.decodes then n.bytes else 0 }

  function Price(env: Env, e: Event): real {
    match e.kind
    case Compute => env.computePrice(e)
    case Gpu => env.gpuPrice(e)
    case Network => EgressCost(env, if e.isInternal then 0 else Bytes(e.response) + Bytes(e.request))
    case LlmCall | External | Marker | Signal => e.cost
  }

  function Priced(env: Env, e: Event): Event { e.(cost := Price(env, e), pending := false) }

  /** UPDATE by identifier. */
  function Updated(store: seq<Event>, e: Event): seq<Event> {
    seq(|store|, k requires 0 <= k < |store| => if store[k].id == e.id then e else store[k])
  }

  /** `done` events were updated; `delta` is how much their cost changed, `filled` what it became. */
  datatype Fill = Fill(store: seq<Event>, ops: nat, done: nat, delta: real, filled: real)

  predicate Wants(kind: Kind, e: Event) { e.kind == kind && e.pending }

  /** Walks a list of events read earlier and writes the price of each pending one of the kind. */
  function BackFill(env: Env, kind: Kind, walk: seq<Event>, store: seq<Event>, ops: nat): Fill
    decreases |walk|
  {
    if walk == [] then Fill(store, ops, 0, 0.0, 0.0)
    else if !Wants(kind, walk[0]) then BackFill(env, kind, walk[1..], store, ops)
    else if !env.storage(ops) then BackFill(env, kind, walk[1..], store, ops + 1)
    else
      var e := Priced(env, walk[0]);
      var r := BackFill(env, kind, walk[1..], Updated(store, e), ops + 1);
      r.(done := r.done + 1, delta := r.delta + (e.cost - walk[0].cost), filled := r.filled + e.cost)
  }

  function SumCost(store: seq<Event>, kind: Kind): real {
    if store == [] then 0.0 else (if store[0].kind == kind then store[0].cost else 0.0) + SumCost(store[1..], kind)
  }

  function RetrySum(store: seq<Event>): real {
    if store == [] then 0.0
    else (if store[0].kind.Marker? || store[0].isRetry then store[0].cost else 0.0) + RetrySum(store[1..])
  }

  function RetryCount(store: seq<Event>): int {
    if store == [] then 0 else (if store[0].kind.Marker? || store[0].isRetry then 1 else 0) + RetryCount(store[1..])
  }

  function Pending(store: seq<Event>, kind: Kind): int {
    if store == [] then 0 else (if Wants(kind, store[0]) then 1 else 0) + Pending(store[1..], kind)
  }

  /** First totals, before anything is back-filled. */
  function Aggregate(t: Task, events: seq<Event>): Task {
    var llm, external, compute := SumCost(events, LlmCall), SumCost(events, External), SumCost(events, Compute);
    t.(llm := llm, external := external, compute := compute, total := llm + external + compute,
       retryCost := RetrySum(events), retryCount := RetryCount(events))
  }

  datatype State = State(store: seq<Event>, task: Task, ops: nat, ended: bool)

  function FinalizeNetwork(env: Env, s: State, events: seq<Event>): State {
    if env.egress.None? then s
    else
      var network := EgressCost(env, env.egress.value);
      var r := BackFill(env, Network, events, s.store, s.ops);
      s.(store := r.store, ops := r.ops,
         task := s.task.(network := network, total := s.task.total + r.filled + network))
  }

  function FinalizeCompute(env: Env, s: State, events: seq<Event>): State {
    var stored := env.computeEvent.Some? && env.storage(s.ops);
    var added := if stored then [env.computeEvent.value] else [];
    var r := BackFill(env, Compute, events + added, s.store + added, if env.computeEvent.Some? then s.ops + 1 else s.ops);
    s.(store := r.store, ops := r.ops, task := s.task.(compute := s.task.compute + r.delta, total := s.task.total + r.delta))
  }

  /** Inserts events one by one, skipping those the store refuses. */
  function InsertAll(env: Env, events: seq<Event>, ops: nat): seq<Event> {
    if events == [] then [] else (if env.storage(ops) then [events[0]] else []) + InsertAll(env, events[1..], ops + 1)
  }

  predicate HasGpu(events: seq<Event>) { exists e :: e in events && e.kind.Gpu? }

  function FinalizeGpu(env: Env, s: State, events: seq<Event>): State {
    var (cost, signals) := if env.gpuEvents.Some? && !HasGpu(events) then env.gpuEvents.value else (None, []);
    var added := if cost.Some? && env.storage(s.ops) then [cost.value] else [];
    var ops := if cost.Some? then s.ops + 1 else s.ops;
    var r := BackFill(env, Gpu, events + added, s.store + added + InsertAll(env, signals, ops), ops + |signals|);
    s.(store := r.store, ops := r.ops, task := s.task.(gpu := s.task.gpu + r.delta, total := s.task.total + r.delta))
  }

  /** The whole call; `ok` is false when the task had ended, or its events or the task could not be stored or read. */
  function End(env: Env, s: State): (State, bool) {
    if s.ended then (s, false)
    else
      var s0 := s.(ended := true, ops := s.ops + 1);
      if !env.storage(s.ops) then (s0, false)
      else
        var events := s.store;
        var s1 := FinalizeNetwork(env, s0.(task := Aggregate(s0.task, events)), events);
        var s2 := FinalizeCompute(env, s1, events);
        var s3 := FinalizeGpu(env, s2, events);
        (s3.(ops := s3.ops + 1), env.storage(s3.ops))
  }

  // ---------------------------------------------------------------- one update

  predicate UniqueIds(store: seq<Event>) { forall i, j :: 0 <= i < j < |store| ==> store[i].id != store[j].id }

  /** The events still to be walked are stored as they were read. */
  predicate Linked(kind: Kind, walk: seq<Event>, store: seq<Event>) {
    && UniqueIds(store) && UniqueIds(walk)
    && forall e :: e in walk && Wants(kind, e) ==> e in store
  }

  lemma UpdateAt(store: seq<Event>, old_: Event, e: Event) returns (i: nat)
    requires UniqueIds(store) && old_ in store && old_.id == e.id
    ensures i < |store| && store[i] == old_ && Updated(store, e) == store[i := e]
    ensures UniqueIds(Updated(store, e))
    ensures forall x :: x in store && x.id != e.id ==> x in Updated(store, e)
  {
    i :| 0 <= i < |store| && store[i] == old_;
    forall x | x in store && x.id != e.id ensures x in Updated(store, e) {
      var k :| 0 <= k < |store| && store[k] == x;
      assert Updated(store, e)[k] == x;
    }
  }

  lemma {:induction false} SumAt(store: seq<Event>, i: nat, e: Event, kind: Kind)
    requires i < |store| && store[i].kind == e.kind
    ensures SumCost(store[i := e], kind) == SumCost(store, kind) + if e.kind == kind then e.cost - store[i].cost else 0.0
  {
    if i == 0 {
      assert store[0 := e][1..] == store[1..];
    } else {
      assert store[i := e][1..] == store[1..][i - 1 := e];
      SumAt(store[1..], i - 1, e, kind);
    }
  }

  lemma {:induction false} PendingAt(store: seq<Event>, i: nat, e: Event, kind: Kind)
    requires i < |store| && store[i].kind == e.kind
    ensures Pending(store[i := e], kind)
            == Pending(store, kind) + (if Wants(kind, e) then 1 else 0) - (if Wants(kind, store[i]) then 1 else 0)
  {
    if i == 0 {
      assert store[0 := e][1..] == store[1..];
    } else {
      assert store[i := e][1..] == store[1..][i - 1 := e];
      PendingAt(store[1..], i - 1, e, kind);
    }
  }

  // ---------------------------------------------------------------- one walk

  lemma LinkedTail(kind: Kind, walk: seq<Event>, store: seq<Event>)
    requires Linked(kind, walk, store) && walk != []
    ensures Linked(kind, walk[1..], store)
  {
  }

  lemma LinkedUpdate(env: Env, kind: Kind, walk: seq<Event>, store: seq<Event>)
    requires Linked(kind, walk, store) && walk != [] && Wants(kind, walk[0])
    ensures Linked(kind, walk[1..], Updated(store, Priced(env, walk[0])))
  {
    var i := UpdateAt(store, walk[0], Priced(env, walk[0]));
    forall e | e in walk[1..] && Wants(kind, e) ensures e in Updated(store, Priced(env, walk[0])) {
      var k :| 0 <= k < |walk[1..]| && walk[1..][k] == e;
      assert walk[k + 1] == e;
    }
  }

  /** The walked kind's stored costs move by exactly `delta`; every other kind's stay. */
  lemma {:induction false} FillSums(env: Env, kind: Kind, walk: seq<Event>, store: seq<Event>, ops: nat, other: Kind)
    requires Linked(kind, walk, store)
    ensures var r := BackFill(env, kind, walk, store, ops);
            SumCost(r.store, other) == SumCost(store, other) + if other == kind then r.delta else 0.0
    decreases |walk|
  {
    if walk != [] {
      LinkedTail(kind, walk, store);
      if Wants(kind, walk[0]) && env.storage(ops) {
        var e := Priced(env, walk[0]);
        var i := UpdateAt(store, walk[0], e);
        LinkedUpdate(env, kind, walk, store);
        SumAt(store, i, e, other);
        FillSums(env, kind, walk[1..], Updated(store, e), ops + 1, other);
      } else {
        FillSums(env, kind, walk[1..], store, if Wants(kind, walk[0]) then ops + 1 else ops, other);
      }
    }
  }

  /** Exactly the updated events stop being pending. */
  lemma {:induction false} FillPending(env: Env, kind: Kind, walk: seq<Event>, store: seq<Event>, ops: nat, other: Kind)
    requires Linked(kind, walk, store)
    ensures var r := BackFill(env, kind, walk, store, ops);
            Pending(r.store, other) == Pending(store, other) - if other == kind then r.done else 0
    decreases |walk|
  {
    if walk != [] {
      LinkedTail(kind, walk, store);
      if Wants(kind, walk[0]) && env.storage(ops) {
        var e := Priced(env, walk[0]);
        var i := UpdateAt(store, walk[0], e);
        LinkedUpdate(env, kind, walk, store);
        PendingAt(store, i, e, other);
        FillPending(env, kind, walk[1..], Updated(store, e), ops + 1, other);
      } else {
        FillPending(env, kind, walk[1..], store, if Wants(kind, walk[0]) then ops + 1 else ops, other);
      }
    }
  }

  /** Event by event: unchanged, or priced and no longer pending. */
  predicate Advanced(env: Env, kind: Kind, before: seq<Event>, after: seq<Event>) {
    |after| == |before| && forall k :: 0 <= k < |before| ==>
      after[k] == before[k] || (Wants(kind, before[k]) && after[k] == Priced(env, before[k]))
  }

  lemma {:induction false} FillAdvances(env: Env, kind: Kind, walk: seq<Event>, store: seq<Event>, ops: nat)
    requires Linked(kind, walk, store)
    ensures Advanced(env, kind, store, BackFill(env, kind, walk, store, ops).store)
    ensures UniqueIds(BackFill(env, kind, walk, store, ops).store)
    decreases |walk|
  {
    if walk != [] {
      LinkedTail(kind, walk, store);
      if Wants(kind, walk[0]) && env.storage(ops) {
        var e := Priced(env, walk[0]);
        var i := UpdateAt(store, walk[0], e);
        LinkedUpdate(env, kind, walk, store);
        FillAdvances(env, kind, walk[1..], Updated(store, e), ops + 1);
      } else {
        FillAdvances(env, kind, walk[1..], store, if Wants(kind, walk[0]) then ops + 1 else ops);
      }
    }
  }

  /** When every update succeeds, every pending event on the walk is updated. */
  lemma {:induction false} FillAll(env: Env, kind: Kind, walk: seq<Event>, store: seq<Event>, ops: nat)
    requires forall n :: env.storage(n)
    ensures BackFill(env, kind, walk, store, ops).done == Pending(walk, kind)
    decreases |walk|
  {
    if walk != [] {
      var e := Priced(env, walk[0]);
      if Wants(kind, walk[0]) {
        FillAll(env, kind, walk[1..], Updated(store, e), ops + 1);
      } else {
        FillAll(env, kind, walk[1..], store, ops);
      }
    }
  }

  /** Events recorded with a zero cost: what they became is what they gained. */
  lemma {:induction false} FilledIsDelta(env: Env, kind: Kind, walk: seq<Event>, store: seq<Event>, ops: nat)
    requires forall e :: e in walk && Wants(kind, e) ==> e.cost == 0.0
    ensures BackFill(env, kind, walk, store, ops).filled == BackFill(env, kind, walk, store, ops).delta
    decreases |walk|
  {
    if walk != [] {
      assert walk[0] in walk;
      var e := Priced(env, walk[0]);
      if !Wants(kind, walk[0]) {
        FilledIsDelta(env, kind, walk[1..], store, ops);
      } else if env.storage(ops) {
        FilledIsDelta(env, kind, walk[1..], Updated(store, e), ops + 1);
      } else {
        FilledIsDelta(env, kind, walk[1..], store, ops + 1);
      }
    }
  }

  // ---------------------------------------------------------------- the whole call

  function Snapshot(e: Option<Event>): seq<Event> { if e.Some? then [e.value] else [] }

  /** What the accountants may add: zero-cost events of their own kinds. */
  predicate NewEventsOk(env: Env) {
    && (env.computeEvent.Some? ==> env.computeEvent.value.kind.Compute? && env.computeEvent.value.cost == 0.0)
    && (env.gpuEvents.Some? ==>
          && (env.gpuEvents.value.0.Some? ==> env.gpuEvents.value.0.value.kind.Gpu? && env.gpuEvents.value.0.value.cost == 0.0)
          && forall e :: e in env.gpuEvents.value.1 ==> e.kind.Signal? && e.cost == 0.0 && !e.pending)
  }

  function GpuCost(env: Env): seq<Event> { if env.gpuEvents.Some? then Snapshot(env.gpuEvents.value.0) else [] }

  function GpuSignals(env: Env): seq<Event> { if env.gpuEvents.Some? then env.gpuEvents.value.1 else [] }

  function Ids(events: seq<Event>): set<nat> { set e | e in events :: e.id }

  /** New events carry identifiers nobody has yet. */
  predicate Fresh(env: Env, store: seq<Event>) {
    && UniqueIds(store) && UniqueIds(GpuSignals(env))
    && Ids(store) !! Ids(Snapshot(env.computeEvent)) !! Ids(GpuCost(env)) !! Ids(GpuSignals(env))
  }

  lemma {:induction false} SumConcat(a: seq<Event>, b: seq<Event>, kind: Kind)
    ensures SumCost(a + b, kind) == SumCost(a, kind) + SumCost(b, kind)
    ensures Pending(a + b, kind) == Pending(a, kind) + Pending(b, kind)
  {
    if a == [] {
      assert a + b == b;
    } else {
      assert (a + b)[1..] == a[1..] + b;
      SumConcat(a[1..], b, kind);
    }
  }

  lemma {:induction false} Worthless(events: seq<Event>, kind: Kind)
    requires forall e :: e in events ==> e.cost == 0.0
    ensures SumCost(events, kind) == 0.0
  {
    if events != [] { Worthless(events[1..], kind); }
  }

  lemma {:induction false} InsertedSome(env: Env, events: seq<Event>, ops: nat)
    requires UniqueIds(events)
    ensures UniqueIds(InsertAll(env, events, ops))
    ensures forall e :: e in InsertAll(env, events, ops) ==> e in events
  {
    if events != [] {
      InsertedSome(env, events[1..], ops + 1);
      forall e | e in InsertAll(env, events[1..], ops + 1) ensures e.id != events[0].id {
        var k :| 0 <= k < |events[1..]| && events[1..][k] == e;
        assert events[k + 1] == e;
      }
    }
  }

  lemma UniqueAppend(a: seq<Event>, b: seq<Event>)
    requires UniqueIds(a) && UniqueIds(b) && Ids(a) !! Ids(b)
    ensures UniqueIds(a + b) && Ids(a + b) == Ids(a) + Ids(b)
  {
    forall i, j | 0 <= i < |a| && 0 <= j < |b| ensures a[i].id != b[j].id {
      assert a[i].id in Ids(a) && b[j].id in Ids(b);
    }
  }

  /** `after` starts with the events of `before`; those of one kind are the same, all identifiers are. */
  predicate Keeps(kind: Kind, before: seq<Event>, after: seq<Event>) {
    |before| <= |after| && forall k :: 0 <= k < |before| ==>
      after[k].id == before[k].id && (before[k].kind == kind ==> after[k] == before[k])
  }

  lemma AdvancedIds(env: Env, kind: Kind, before: seq<Event>, after: seq<Event>)
    requires Advanced(env, kind, before, after)
    ensures Ids(after) == Ids(before)
  {
    forall id | id in Ids(before) ensures id in Ids(after) {
      var k :| 0 <= k < |before| && before[k].id == id;
      assert after[k] in after;
    }
    forall id | id in Ids(after) ensures id in Ids(before) {
      var k :| 0 <= k < |after| && after[k].id == id;
      assert before[k] in before;
    }
  }

  /** A walk over events read at the start still finds them, when their kind was not touched since. */
  lemma LinkedFrom(kind: Kind, events: seq<Event>, store: seq<Event>, added: seq<Event>, more: seq<Event>)
    requires Keeps(kind, events, store)
    requires UniqueIds(events) && UniqueIds(added) && Ids(events) !! Ids(added)
    requires UniqueIds(store + added + more)
    ensures Linked(kind, events + added, store + added + more)
  {
    UniqueAppend(events, added);
    forall e | e in events + added && Wants(kind, e) ensures e in store + added + more {
      if e in events {
        var k :| 0 <= k < |events| && events[k] == e;
        assert (store + added + more)[k] == e;
      }
    }
  }

  /** One finalizer's walk, from a store that grew by `added` (walked too) and `more` (not walked). */
  lemma PhaseSums(env: Env, kind: Kind, events: seq<Event>, store: seq<Event>, added: seq<Event>,
                  more: seq<Event>, ops: nat, other: Kind)
    requires Keeps(kind, events, store)
    requires UniqueIds(events) && UniqueIds(store) && UniqueIds(added) && UniqueIds(more)
    requires Ids(events) <= Ids(store) && Ids(store) !! Ids(added) !! Ids(more)
    requires (forall e :: e in added ==> e.cost == 0.0) && (forall e :: e in more ==> e.cost == 0.0 && !e.pending)
    ensures var r := BackFill(env, kind, events + added, store + added + more, ops);
            && SumCost(r.store, other) == SumCost(store, other) + (if other == kind then r.delta else 0.0)
            && Pending(r.store, other) == Pending(store, other) + Pending(added, other) - (if other == kind then r.done else 0)
            && Advanced(env, kind, store + added + more, r.store)
            && UniqueIds(r.store) && Ids(r.store) == Ids(store) + Ids(added) + Ids(more)
  {
    hide BackFill, SumCost, Pending;
    UniqueAppend(store, added);
    UniqueAppend(store + added, more);
    LinkedFrom(kind, events, store, added, more);
    FillSums(env, kind, events + added, store + added + more, ops, other);
    FillPending(env, kind, events + added, store + added + more, ops, other);
    FillAdvances(env, kind, events + added, store + added + more, ops);
    AdvancedIds(env, kind, store + added + more, BackFill(env, kind, events + added, store + added + more, ops).store);
    SumConcat(store, added, other);
    SumConcat(store + added, more, other);
    Worthless(added, other);
    Worthless(more, other);
    NonePending(more, other);
  }

  lemma {:induction false} NoneOfKind(events: seq<Event>, kind: Kind)
    requires forall e :: e in events ==> e.kind != kind
    ensures Pending(events, kind) == 0
  {
    if events != [] {
      assert events[0] in events;
      NoneOfKind(events[1..], kind);
    }
  }

  lemma {:induction false} NonePending(events: seq<Event>, kind: Kind)
    requires forall e :: e in events ==> !e.pending
    ensures Pending(events, kind) == 0
  {
    if events != [] {
      assert events[0] in events;
      NonePending(events[1..], kind);
    }
  }

  /** What the network walk wrote. */
  function NetworkFill(env: Env, s: State): Fill { BackFill(env, Network, s.store, s.store, s.ops + 1) }

  function AddedCompute(env: Env, ops: nat): seq<Event> {
    if env.computeEvent.Some? && env.storage(ops) then [env.computeEvent.value] else []
  }

  lemma NetworkPhase(env: Env, s: State, events: seq<Event>, other: Kind)
    requires s.store == events && UniqueIds(events)
    ensures var s' := FinalizeNetwork(env, s, events);
            && UniqueIds(s'.store) && Ids(s'.store) == Ids(events)
            && Keeps(Compute, events, s'.store) && Keeps(Gpu, events, s'.store) && |s'.store| == |events|
            && (!other.Network? ==>
                  SumCost(s'.store, other) == SumCost(events, other)
                  && Pending(s'.store, other) == Pending(events, other))
            && (env.egress.Some? ==>
                  var r := BackFill(env, Network, events, s.store, s.ops);
                  && SumCost(s'.store, Network) == SumCost(events, Network) + r.delta
                  && Pending(s'.store, Network) == Pending(events, Network) - r.done)
  {
    hide BackFill;
    if env.egress.Some? {
      FillSums(env, Network, events, events, s.ops, other);
      FillPending(env, Network, events, events, s.ops, other);
      FillSums(env, Network, events, events, s.ops, Network);
      FillPending(env, Network, events, events, s.ops, Network);
      FillAdvances(env, Network, events, events, s.ops);
      AdvancedIds(env, Network, events, BackFill(env, Network, events, events, s.ops).store);
    }
  }

  lemma ComputePhase(env: Env, s: State, events: seq<Event>, other: Kind)
    requires NewEventsOk(env) && Keeps(Compute, events, s.store) && Keeps(Gpu, events, s.store) && |s.store| == |events|
    requires UniqueIds(events) && UniqueIds(s.store) && Ids(s.store) == Ids(events)
    requires Ids(events) !! Ids(Snapshot(env.computeEvent))
    ensures var s' := FinalizeCompute(env, s, events);
            && UniqueIds(s'.store) && Ids(s'.store) <= Ids(events) + Ids(Snapshot(env.computeEvent)) && Ids(events) <= Ids(s'.store)
            && Keeps(Gpu, events, s'.store)
            && s'.task.compute - s.task.compute == SumCost(s'.store, Compute) - SumCost(s.store, Compute)
            && s'.task.total - s.task.total == s'.task.compute - s.task.compute
            && (!other.Compute? ==>
                  SumCost(s'.store, other) == SumCost(s.store, other)
                  && Pending(s'.store, other) == Pending(s.store, other))
  {
    hide BackFill;
    var added := AddedCompute(env, s.ops);
    var ops := if env.computeEvent.Some? then s.ops + 1 else s.ops;
    assert Ids(added) <= Ids(Snapshot(env.computeEvent));
    assert s.store + added + [] == s.store + added;
    PhaseSums(env, Compute, events, s.store, added, [], ops, other);
    PhaseSums(env, Compute, events, s.store, added, [], ops, Compute);
    if !other.Compute? { NoneOfKind(added, other); }
  }

  /** What the GPU accountant contributes when no GPU event was recorded earlier. */
  function GpuSnapshot(env: Env, events: seq<Event>): (Option<Event>, seq<Event>) {
    if env.gpuEvents.Some? && !HasGpu(events) then env.gpuEvents.value else (None, [])
  }

  function AddedGpu(env: Env, s: State, events: seq<Event>): seq<Event> {
    var cost := GpuSnapshot(env, events).0;
    if cost.Some? && env.storage(s.ops) then [cost.value] else []
  }

  function SignalOps(env: Env, s: State, events: seq<Event>): nat {
    if GpuSnapshot(env, events).0.Some? then s.ops + 1 else s.ops
  }

  function AddedSignals(env: Env, s: State, events: seq<Event>): seq<Event> {
    InsertAll(env, GpuSnapshot(env, events).1, SignalOps(env, s, events))
  }

  function GpuOps(env: Env, s: State, events: seq<Event>): nat { SignalOps(env, s, events) + |GpuSnapshot(env, events).1| }

  lemma GpuShape(env: Env, s: State, events: seq<Event>)
    requires NewEventsOk(env) && UniqueIds(GpuSignals(env))
    ensures var added, more := AddedGpu(env, s, events), AddedSignals(env, s, events);
            var r := BackFill(env, Gpu, events + added, s.store + added + more, GpuOps(env, s, events));
            var s' := FinalizeGpu(env, s, events);
            && s'.store == r.store && s'.task.gpu == s.task.gpu + r.delta && s'.task.total == s.task.total + r.delta
            && UniqueIds(added) && UniqueIds(more) && Ids(added) <= Ids(GpuCost(env)) && Ids(more) <= Ids(GpuSignals(env))
            && (forall e :: e in added ==> e.kind.Gpu? && e.cost == 0.0)
            && (forall e :: e in more ==> e.cost == 0.0 && !e.pending)
  {
    hide BackFill;
    InsertedSome(env, GpuSnapshot(env, events).1, SignalOps(env, s, events));
  }

  lemma GpuPhase(env: Env, s: State, events: seq<Event>, other: Kind)
    requires NewEventsOk(env) && Keeps(Gpu, events, s.store)
    requires UniqueIds(events) && UniqueIds(s.store) && Ids(events) <= Ids(s.store) && UniqueIds(GpuSignals(env))
    requires Ids(s.store) !! Ids(GpuCost(env)) !! Ids(GpuSignals(env))
    ensures var s' := FinalizeGpu(env, s, events);
            && s'.task.gpu - s.task.gpu == SumCost(s'.store, Gpu) - SumCost(s.store, Gpu)
            && s'.task.total - s.task.total == s'.task.gpu - s.task.gpu
            && (!other.Gpu? ==>
                  SumCost(s'.store, other) == SumCost(s.store, other)
                  && Pending(s'.store, other) == Pending(s.store, other))
  {
    hide BackFill, FinalizeGpu, AddedGpu, AddedSignals, GpuOps, UniqueIds, Keeps;
    var added, more, ops := AddedGpu(env, s, events), AddedSignals(env, s, events), GpuOps(env, s, events);
    GpuShape(env, s, events);
    PhaseSums(env, Gpu, events, s.store, added, more, ops, other);
    PhaseSums(env, Gpu, events, s.store, added, more, ops, Gpu);
    if !other.Gpu? { NoneOfKind(added, other); }
  }

  /** The network part of the total: what the accountant's bytes cost, plus what each back-filled event cost. */
  function NetworkTotal(env: Env, s: State): real {
    if env.egress.None? then 0.0 else EgressCost(env, env.egress.value) + NetworkFill(env, s).filled
  }

  predicate Endable(env: Env, s: State) {
    !s.ended && env.storage(s.ops) && NewEventsOk(env) && Fresh(env, s.store)
  }

  /** Totals after the call, whichever updates and inserts failed on the way. */
  lemma EndTotals(env: Env, s: State)
    requires Endable(env, s)
    ensures var s' := End(env, s).0;
            && s'.ended
            && s'.task.llm == SumCost(s'.store, LlmCall) && s'.task.external == SumCost(s'.store, External)
            && s'.task.compute == SumCost(s'.store, Compute)
            && s'.task.gpu - s.task.gpu == SumCost(s'.store, Gpu) - SumCost(s.store, Gpu)
            && s'.task.total == s'.task.llm + s'.task.external + s'.task.compute + (s'.task.gpu - s.task.gpu) + NetworkTotal(env, s)
            && (env.egress.Some? ==> s'.task.network == EgressCost(env, env.egress.value))
  {
    var s0 := s.(ended := true, ops := s.ops + 1, task := Aggregate(s.task, s.store));
    EndSteps(env, s);
    EndSums(env, s0, s.store, LlmCall);
    EndSums(env, s0, s.store, External);
    EndSums(env, s0, s.store, Compute);
  }

  /** Egress is billed by the decimal gigabyte. */
  lemma EgressByTheGigabyte(env: Env, bytes: int)
    ensures EgressCost(env, bytes) * 1_000_000_000.0 == bytes as real * env.rate
  {
    var gb := bytes as real / BYTES_PER_GB;
    assert (gb * env.rate) * BYTES_PER_GB == (gb * BYTES_PER_GB) * env.rate;
  }

  function Costs(events: seq<Event>): seq<real> {
    seq(|events|, i requires 0 <= i < |events| => events[i].cost)
  }

  function OfKind(kind: Kind): Event -> bool { (e: Event) => e.kind == kind }

  /** Markers, and events of any kind that were retries. */
  function Retried(): Event -> bool { (e: Event) => e.kind == Marker || e.isRetry }

  lemma CostsCons(e: Event, rest: seq<Event>)
    ensures Sum(Costs([e] + rest)) == e.cost + Sum(Costs(rest)) && Sum(Costs([])) == 0.0
  {
    assert Costs([e] + rest)[1..] == Costs(rest);
  }

  lemma {:induction false} SumIsFiltered(store: seq<Event>, kind: Kind)
    ensures SumCost(store, kind) == Sum(Costs(Filter(OfKind(kind), store)))
  {
    if store != [] {
      var e, rest := store[0], store[1..];
      SumIsFiltered(rest, kind);
      assert store == [e] + rest;
      FilterCons(OfKind(kind), e, rest);
      CostsCons(e, Filter(OfKind(kind), rest));
    }
  }

  lemma {:induction false} RetriesAreFiltered(store: seq<Event>)
    ensures RetrySum(store) == Sum(Costs(Filter(Retried(), store))) && RetryCount(store) == |Filter(Retried(), store)|
  {
    if store != [] {
      var e, rest := store[0], store[1..];
      RetriesAreFiltered(rest);
      assert store == [e] + rest;
      FilterCons(Retried(), e, rest);
      CostsCons(e, Filter(Retried(), rest));
    }
  }

  /** Retries of an ended task: how many of its events were retries or markers, and what these had cost when it ended. */
  lemma EndRetries(env: Env, s: State)
    requires Endable(env, s)
    ensures var retries, task := Filter(Retried(), s.store), End(env, s).0.task;
            task.retryCount == |retries| && task.retryCost == Sum(Costs(retries))
  {
    EndSteps(env, s);
    RetriesAreFiltered(s.store);
    hide BackFill, Filter;
  }

  /** The totals of an ended task, as sums over the events its store then holds. */
  lemma TotalsAreSums(env: Env, s: State)
    requires Endable(env, s)
    ensures var s' := End(env, s).0;
            && s'.task.llm == Sum(Costs(Filter(OfKind(LlmCall), s'.store)))
            && s'.task.external == Sum(Costs(Filter(OfKind(External), s'.store)))
            && s'.task.compute == Sum(Costs(Filter(OfKind(Compute), s'.store)))
            && s'.task.gpu - s.task.gpu
               == Sum(Costs(Filter(OfKind(Gpu), s'.store))) - Sum(Costs(Filter(OfKind(Gpu), s.store)))
  {
    var s' := End(env, s).0;
    EndTotals(env, s);
    SumIsFiltered(s'.store, LlmCall);
    SumIsFiltered(s'.store, External);
    SumIsFiltered(s'.store, Compute);
    SumIsFiltered(s'.store, Gpu);
    SumIsFiltered(s.store, Gpu);
  }

  lemma EndSteps(env: Env, s: State)
    requires Endable(env, s)
    ensures var s0 := s.(ended := true, ops := s.ops + 1, task := Aggregate(s.task, s.store));
            var s' := End(env, s).0;
            var s3 := FinalizeGpu(env, FinalizeCompute(env, FinalizeNetwork(env, s0, s.store), s.store), s.store);
            s'.store == s3.store && s'.task == s3.task && s'.ended == s3.ended
  {
  }

  /** The three phases in a row. */
  lemma EndSums(env: Env, s0: State, events: seq<Event>, other: Kind)
    requires NewEventsOk(env) && Fresh(env, events) && s0.store == events
    requires s0.task.compute == SumCost(events, Compute)
    ensures var s1 := FinalizeNetwork(env, s0, events);
            var s2 := FinalizeCompute(env, s1, events);
            var s3 := FinalizeGpu(env, s2, events);
            && (other.LlmCall? || other.External? ==> SumCost(s3.store, other) == SumCost(events, other))
            && s3.task.compute == SumCost(s3.store, Compute)
            && s3.task.gpu - s0.task.gpu == SumCost(s3.store, Gpu) - SumCost(events, Gpu)
            && s3.task.total == s1.task.total + (s3.task.compute - s0.task.compute) + (s3.task.gpu - s0.task.gpu)
  {
    hide FinalizeGpu, FinalizeCompute, SumCost, Pending;
    var s1 := FinalizeNetwork(env, s0, events);
    var s2 := FinalizeCompute(env, s1, events);
    NetworkPhase(env, s0, events, other);
    NetworkPhase(env, s0, events, Compute);
    NetworkPhase(env, s0, events, Gpu);
    ComputePhase(env, s1, events, other);
    ComputePhase(env, s1, events, Gpu);
    PhaseIds(env, events, s2);
    GpuPhase(env, s2, events, other);
    GpuPhase(env, s2, events, Compute);
    PhaseTasks(env, s0, s1, s2, events);
  }

  lemma PhaseIds(env: Env, events: seq<Event>, s: State)
    requires Fresh(env, events) && Ids(s.store) <= Ids(events) + Ids(Snapshot(env.computeEvent))
    ensures Ids(s.store) !! Ids(GpuCost(env)) !! Ids(GpuSignals(env))
  {
  }

  lemma PhaseTasks(env: Env, s0: State, s1: State, s2: State, events: seq<Event>)
    requires s1 == FinalizeNetwork(env, s0, events) && s2 == FinalizeCompute(env, s1, events)
    ensures s1.task.compute == s0.task.compute && s1.task.gpu == s0.task.gpu
    ensures s2.task.gpu == s1.task.gpu
    ensures FinalizeGpu(env, s2, events).task.compute == s2.task.compute
  {
  }

  /** Every event stored before the call is afterwards as it was, or carries its price and is no longer pending. */
  lemma EndAdvances(env: Env, s: State, k: nat)
    requires Endable(env, s) && k < |s.store|
    ensures var s' := End(env, s).0;
            && k < |s'.store|
            && (s'.store[k] == s.store[k]
                || (s.store[k].pending && (s.store[k].kind.Network? || s.store[k].kind.Compute? || s.store[k].kind.Gpu?)
                    && s'.store[k] == Priced(env, s.store[k])))
  {
    hide SumCost, Pending, BackFill;
    var s0 := s.(ended := true, ops := s.ops + 1, task := Aggregate(s.task, s.store));
    var s1 := FinalizeNetwork(env, s0, s.store);
    var s2 := FinalizeCompute(env, s1, s.store);
    EndSteps(env, s);
    NetworkPhase(env, s0, s.store, Network);
    ComputePhase(env, s1, s.store, Compute);
    PhaseIds(env, s.store, s2);
    NetworkAt(env, s0, s.store, k);
    ComputeAt(env, s1, s.store, k);
    GpuAt(env, s2, s.store, k);
  }

  /** A pending event leaves End as it was, or no longer pending and at the price of its own kind's engine. */
  lemma EndPrices(env: Env, s: State, k: nat)
    requires Endable(env, s) && k < |s.store|
    ensures var (before, end) := (s.store[k], End(env, s).0);
            && k < |end.store|
            && (end.store[k] == before
                || (before.pending && end.store[k] == before.(pending := false, cost := end.store[k].cost)
                    && ((before.kind.Compute? && end.store[k].cost == env.computePrice(before))
                        || (before.kind.Gpu? && end.store[k].cost == env.gpuPrice(before))
                        || (before.kind.Network? && NetworkPriced(env, before, end.store[k].cost)))))
  {
    EndAdvances(env, s, k);
    hide End, Endable;
  }

  /** Decoded bytes in both directions by the gigabyte, and nothing for internal calls. */
  predicate NetworkPriced(env: Env, e: Event, cost: real) {
    var request, response := if e.request.decodes then e.request.bytes else 0, if e.response.decodes then e.response.bytes else 0;
    cost == if e.isInternal then 0.0 else (request + response) as real / 1_000_000_000.0 * env.rate
  }

  predicate AdvancedAt(env: Env, kind: Kind, before: Event, after: Event) {
    after == before || (Wants(kind, before) && after == Priced(env, before))
  }

  lemma NetworkAt(env: Env, s: State, events: seq<Event>, k: nat)
    requires s.store == events && UniqueIds(events) && k < |events|
    ensures var after := FinalizeNetwork(env, s, events).store; k < |after| && AdvancedAt(env, Network, events[k], after[k])
  {
    if env.egress.Some? { FillAdvances(env, Network, events, events, s.ops); }
  }

  lemma ComputeAt(env: Env, s: State, events: seq<Event>, k: nat)
    requires NewEventsOk(env) && Keeps(Compute, events, s.store) && |s.store| == |events| && k < |events|
    requires UniqueIds(events) && UniqueIds(s.store) && Ids(s.store) == Ids(events)
    requires Ids(events) !! Ids(Snapshot(env.computeEvent))
    ensures var after := FinalizeCompute(env, s, events).store; k < |after| && AdvancedAt(env, Compute, s.store[k], after[k])
  {
    hide BackFill, SumCost, Pending, Keeps;
    var added := AddedCompute(env, s.ops);
    assert Ids(added) <= Ids(Snapshot(env.computeEvent));
    assert s.store + added + [] == s.store + added;
    PhaseSums(env, Compute, events, s.store, added, [], if env.computeEvent.Some? then s.ops + 1 else s.ops, Compute);
    assert (s.store + added)[k] == s.store[k];
  }

  lemma GpuAt(env: Env, s: State, events: seq<Event>, k: nat)
    requires NewEventsOk(env) && Keeps(Gpu, events, s.store) && k < |events|
    requires UniqueIds(events) && UniqueIds(s.store) && Ids(events) <= Ids(s.store) && UniqueIds(GpuSignals(env))
    requires Ids(s.store) !! Ids(GpuCost(env)) !! Ids(GpuSignals(env))
    ensures var after := FinalizeGpu(env, s, events).store; k < |after| && AdvancedAt(env, Gpu, s.store[k], after[k])
  {
    hide BackFill, SumCost, Pending, UniqueIds, FinalizeGpu, AddedGpu, AddedSignals, GpuOps;
    var added, more, ops := AddedGpu(env, s, events), AddedSignals(env, s, events), GpuOps(env, s, events);
    GpuShape(env, s, events);
    PhaseSums(env, Gpu, events, s.store, added, more, ops, Gpu);
    assert (s.store + added + more)[k] == s.store[k];
  }

  /** The back-filled network costs are what the stored network events gained, when they were recorded at zero. */
  lemma NetworkTotalAsStored(env: Env, s: State)
    requires Endable(env, s) && env.egress.Some?
    requires forall e :: e in s.store && Wants(Network, e) ==> e.cost == 0.0
    ensures NetworkFill(env, s).filled == SumCost(NetworkFill(env, s).store, Network) - SumCost(s.store, Network)
  {
    FilledIsDelta(env, Network, s.store, s.store, s.ops + 1);
    FillSums(env, Network, s.store, s.store, s.ops + 1, Network);
  }

  /** What a network event's bytes cost. */
  function TrueCost(env: Env, e: Event): real {
    EgressCost(env, if e.isInternal then 0 else e.response.bytes + e.request.bytes)
  }

  function TrueSum(env: Env, events: seq<Event>): real {
    if events == [] then 0.0 else TrueCost(env, events[0]) + TrueSum(env, events[1..])
  }

  /** The events of a walk whose update succeeds. */
  function UpdatedEvents(env: Env, kind: Kind, walk: seq<Event>, ops: nat): seq<Event>
    decreases |walk|
  {
    if walk == [] then []
    else if !Wants(kind, walk[0]) then UpdatedEvents(env, kind, walk[1..], ops)
    else (if env.storage(ops) then [walk[0]] else []) + UpdatedEvents(env, kind, walk[1..], ops + 1)
  }

  /** Nothing billable is lost in reading the counts. */
  predicate Lossless(env: Env, e: Event) {
    || e.isInternal || env.rate == 0.0
    || ((e.request.decodes || e.request.bytes == 0) && (e.response.decodes || e.response.bytes == 0))
  }

  predicate Counted(e: Event) { e.request.bytes >= 0 && e.response.bytes >= 0 }

  lemma EgressOrder(env: Env, a: int, b: int)
    requires env.rate >= 0.0 && a <= b
    ensures EgressCost(env, a) <= EgressCost(env, b)
    ensures EgressCost(env, a) == EgressCost(env, b) <==> a == b || env.rate == 0.0
  {
    var x, y := a as real / BYTES_PER_GB, b as real / BYTES_PER_GB;
    assert (y - x) * env.rate == y * env.rate - x * env.rate;
    if a < b && env.rate > 0.0 { assert (y - x) * env.rate > 0.0; }
  }

  lemma PricedTrulyIff(env: Env, e: Event)
    requires env.rate >= 0.0 && e.kind.Network? && Counted(e)
    ensures Price(env, e) <= TrueCost(env, e)
    ensures Price(env, e) == TrueCost(env, e) <==> Lossless(env, e)
  {
    if !e.isInternal { EgressOrder(env, Bytes(e.response) + Bytes(e.request), e.response.bytes + e.request.bytes); }
  }

  predicate AllLossless(env: Env, events: seq<Event>) { forall e :: e in events ==> Lossless(env, e) }

  /**
   The back-filled network cost never exceeds what the updated events' bytes cost, and equals it
   exactly when each of them is internal, free, or has counts that decode or are zero.
   */
  lemma {:induction false} FilledTrulyIff(env: Env, walk: seq<Event>, store: seq<Event>, ops: nat)
    requires env.rate >= 0.0 && forall e :: e in walk && e.kind.Network? ==> Counted(e)
    ensures var filled, updated := BackFill(env, Network, walk, store, ops).filled, UpdatedEvents(env, Network, walk, ops);
            filled <= TrueSum(env, updated) && (filled == TrueSum(env, updated) <==> AllLossless(env, updated))
    decreases |walk|
  {
    if walk != [] {
      var e, rest := walk[0], walk[1..];
      assert e in walk && forall x :: x in rest ==> x in walk;
      if !Wants(Network, e) {
        FilledTrulyIff(env, rest, store, ops);
      } else if env.storage(ops) {
        FilledTrulyIff(env, rest, Updated(store, Priced(env, e)), ops + 1);
        PricedTrulyIff(env, e);
        TrueSumCons(env, e, UpdatedEvents(env, Network, rest, ops + 1));
      } else {
        FilledTrulyIff(env, rest, store, ops + 1);
        assert [] + UpdatedEvents(env, Network, rest, ops + 1) == UpdatedEvents(env, Network, rest, ops + 1);
      }
    }
  }

  lemma TrueSumCons(env: Env, e: Event, rest: seq<Event>)
    ensures TrueSum(env, [e] + rest) == TrueCost(env, e) + TrueSum(env, rest)
    ensures AllLossless(env, [e] + rest) <==> Lossless(env, e) && AllLossless(env, rest)
  {
    assert ([e] + rest)[1..] == rest && e in [e] + rest;
  }

  /** An ended task whose only event sent bytes that do not decode: it is settled at zero, below its true cost. */
  lemma UndecodedBytesCostNothing(env: Env, s: State, e: Event)
    requires s.store == [e] && !s.ended && Wants(Network, e) && !e.isInternal && e.cost == 0.0
    requires !e.request.decodes && !e.response.decodes && Counted(e) && e.request.bytes + e.response.bytes > 0
    requires env.rate > 0.0 && env.egress.Some? && env.computeEvent.None? && env.gpuEvents.None?
    requires forall n :: env.storage(n)
    ensures End(env, s).0.store == [e.(pending := false)] && 0.0 < TrueCost(env, e)
  {
    EgressOrder(env, 0, e.response.bytes + e.request.bytes);
    assert EgressCost(env, 0) == 0.0;
    var settled := e.(pending := false);
    assert Priced(env, e) == settled && Updated([e], settled) == [settled];
    var s0 := s.(ended := true, ops := s.ops + 1, task := Aggregate(s.task, s.store));
    var s1 := FinalizeNetwork(env, s0, [e]);
    var s2 := FinalizeCompute(env, s1, [e]);
    FillOne(env, Network, e, [e], s0.ops);
    FillOne(env, Compute, e, [settled], s1.ops);
    FillOne(env, Gpu, e, [settled], s2.ops);
    assert [e] + [] == [e] && [settled] + [] == [settled] && InsertAll(env, [], s2.ops) == [];
    hide BackFill, Priced, Updated, EgressCost, Aggregate, SumCost;
  }

  lemma FillOne(env: Env, kind: Kind, e: Event, store: seq<Event>, ops: nat)
    requires env.storage(ops)
    ensures BackFill(env, kind, [e], store, ops).store == if Wants(kind, e) then Updated(store, Priced(env, e)) else store
  {
    assert [e][1..] == [];
  }

  /** One finalizer with every storage call succeeding leaves nothing of its kind pending. */
  lemma PhaseClears(env: Env, kind: Kind, events: seq<Event>, store: seq<Event>, added: seq<Event>,
                    more: seq<Event>, ops: nat)
    requires forall n :: env.storage(n)
    requires Keeps(kind, events, store) && Pending(store, kind) == Pending(events, kind)
    requires UniqueIds(events) && UniqueIds(store) && UniqueIds(added) && UniqueIds(more)
    requires Ids(events) <= Ids(store) && Ids(store) !! Ids(added) !! Ids(more)
    requires (forall e :: e in added ==> e.cost == 0.0) && (forall e :: e in more ==> e.cost == 0.0 && !e.pending)
    ensures Pending(BackFill(env, kind, events + added, store + added + more, ops).store, kind) == 0
  {
    PhaseSums(env, kind, events, store, added, more, ops, kind);
    FillAll(env, kind, events + added, store + added + more, ops);
    SumConcat(events, added, kind);
  }

  /** When every storage call succeeds, no compute event is pending after the compute walk. */
  lemma ComputeCleared(env: Env, s: State)
    requires Endable(env, s) && forall n :: env.storage(n)
    ensures var s0 := s.(ended := true, ops := s.ops + 1, task := Aggregate(s.task, s.store));
            Pending(FinalizeCompute(env, FinalizeNetwork(env, s0, s.store), s.store).store, Compute) == 0
  {
    hide BackFill, SumCost, Pending;
    var s0 := s.(ended := true, ops := s.ops + 1, task := Aggregate(s.task, s.store));
    var s1 := FinalizeNetwork(env, s0, s.store);
    NetworkPhase(env, s0, s.store, Compute);
    var added := AddedCompute(env, s1.ops);
    assert Ids(added) <= Ids(Snapshot(env.computeEvent));
    assert s1.store + added + [] == s1.store + added;
    PhaseClears(env, Compute, s.store, s1.store, added, [], if env.computeEvent.Some? then s1.ops + 1 else s1.ops);
  }

  lemma GpuCleared(env: Env, s: State, events: seq<Event>)
    requires NewEventsOk(env) && Keeps(Gpu, events, s.store) && Pending(s.store, Gpu) == Pending(events, Gpu)
    requires UniqueIds(events) && UniqueIds(s.store) && Ids(events) <= Ids(s.store) && UniqueIds(GpuSignals(env))
    requires Ids(s.store) !! Ids(GpuCost(env)) !! Ids(GpuSignals(env))
    requires forall n :: env.storage(n)
    ensures Pending(FinalizeGpu(env, s, events).store, Gpu) == 0
  {
    hide BackFill, SumCost, Pending, FinalizeGpu, AddedGpu, AddedSignals, GpuOps, UniqueIds, Keeps;
    var added, more, ops := AddedGpu(env, s, events), AddedSignals(env, s, events), GpuOps(env, s, events);
    GpuShape(env, s, events);
    PhaseClears(env, Gpu, events, s.store, added, more, ops);
  }

  /** When every storage call succeeds, nothing the finalizers handle is pending afterwards. */
  lemma NothingPending(env: Env, s: State)
    requires Endable(env, s) && forall n :: env.storage(n)
    ensures var s' := End(env, s).0;
            && Pending(s'.store, Compute) == 0 && Pending(s'.store, Gpu) == 0
            && (env.egress.Some? ==> Pending(s'.store, Network) == 0)
  {
    hide BackFill, SumCost, Pending;
    var s0 := s.(ended := true, ops := s.ops + 1, task := Aggregate(s.task, s.store));
    var s1 := FinalizeNetwork(env, s0, s.store);
    var s2 := FinalizeCompute(env, s1, s.store);
    EndSteps(env, s);
    NetworkPhase(env, s0, s.store, Gpu);
    ComputePhase(env, s1, s.store, Gpu);
    ComputePhase(env, s1, s.store, Network);
    PhaseIds(env, s.store, s2);
    ComputeCleared(env, s);
    GpuCleared(env, s2, s.store);
    GpuPhase(env, s2, s.store, Compute);
    GpuPhase(env, s2, s.store, Network);
    if env.egress.Some? { FillAll(env, Network, s.store, s.store, s0.ops); }
  }
}
