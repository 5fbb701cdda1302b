/** The task object: the totals it keeps while events are aggregated and back-filled. */
module TaskObject {
  import opened Sequences
  import opened TaskEnd

  /** What a walk adds to the totals: compute and GPU by delta, network by the new cost. */
  function Charged(t: Task, kind: Kind, delta: real, filled: real): Task {
    match kind
    case Compute => t.(compute := t.compute + delta, total := t.total + delta)
    case Gpu => t.(gpu := t.gpu + delta, total := t.total + delta)
    case Network => t.(total := t.total + filled)
    case LlmCall | External | Marker | Signal => t
  }

  class TrackedTask {
    var store: seq<Event>
    var task: Task
    var ops: nat
    var ended: bool
    const env: Env

    constructor (env: Env, store: seq<Event>, task: Task)
      ensures this.env == env && Contents() == State(store, task, 0, false)
    {
      this.env, this.store, this.task, ops, ended := env, store, task, 0, false;
    }

    ghost function Contents(): State
      reads this
    {
      State(store, task, ops, ended)
    }

    /** Ends the task once; totals are fixed up as costs come in. */
    method End() returns (ok: bool)
      modifies this
      ensures (Contents(), ok) == TaskEnd.End(env, old(Contents()))
    {
      hide TaskEnd.FinalizeNetwork, TaskEnd.FinalizeCompute, TaskEnd.FinalizeGpu, Aggregate;
      if ended { return false; }
      ended := true;
      ok := env.storage(ops);
      ops := ops + 1;
      if !ok { return; }
      var events := store;
      AggregateCosts(events);
      FinalizeNetwork(events);
      FinalizeCompute(events);
      FinalizeGpu(events);
      ok := env.storage(ops);
      ops := ops + 1;
    }

    method AggregateCosts(events: seq<Event>)
      modifies this`task
      ensures task == Aggregate(old(task), events)
    {
      var llm, external, compute, retry, count := 0.0, 0.0, 0.0, 0.0, 0;
      var i := 0;
      assert events[0..] == events;
      while i < |events|
        invariant 0 <= i <= |events|
        invariant SumCost(events, LlmCall) == llm + SumCost(events[i..], LlmCall)
        invariant SumCost(events, External) == external + SumCost(events[i..], External)
        invariant SumCost(events, Compute) == compute + SumCost(events[i..], Compute)
        invariant RetrySum(events) == retry + RetrySum(events[i..]) && RetryCount(events) == count + RetryCount(events[i..])
      {
        var e := events[i];
        assert events[i..][0] == e && events[i..][1..] == events[i + 1..];
        match e.kind {
          case LlmCall => llm := llm + e.cost;
          case External => external := external + e.cost;
          case Compute => compute := compute + e.cost;
          case Marker =>
            count := count + 1;
            retry := retry + e.cost;
          case Network | Gpu | Signal =>
        }
        if e.isRetry && !e.kind.Marker? {
          retry := retry + e.cost;
          count := count + 1;
        }
        i := i + 1;
      }
      task := task.(llm := llm, external := external, compute := compute, total := llm + external + compute,
                    retryCost := retry, retryCount := count);
    }

    /** Prices the pending events of one kind; an update that fails leaves its event and the totals alone. */
    method BackFillWalk(kind: Kind, walk: seq<Event>)
      modifies this`store, this`ops, this`task
      ensures var r := BackFill(env, kind, walk, old(store), old(ops));
              store == r.store && ops == r.ops && task == Charged(old(task), kind, r.delta, r.filled)
    {
      ghost var goal := BackFill(env, kind, walk, store, ops);
      ghost var delta, filled := 0.0, 0.0;
      ghost var start := task;
      var i := 0;
      assert walk[0..] == walk;
      while i < |walk|
        invariant 0 <= i <= |walk|
        invariant var r := BackFill(env, kind, walk[i..], store, ops);
                  goal.store == r.store && goal.ops == r.ops && goal.delta == delta + r.delta && goal.filled == filled + r.filled
        invariant task == Charged(start, kind, delta, filled)
      {
        var e := walk[i];
        assert walk[i..][0] == e && walk[i..][1..] == walk[i + 1..];
        if e.kind == kind && e.pending {
          var priced := Priced(env, e);
          if env.storage(ops) {
            store := Updated(store, priced);
            task := Charged(task, kind, priced.cost - e.cost, priced.cost);
            delta, filled := delta + (priced.cost - e.cost), filled + priced.cost;
          }
          ops := ops + 1;
        }
        i := i + 1;
      }
    }

    method FinalizeNetwork(events: seq<Event>)
      modifies this`store, this`ops, this`task
      ensures Contents() == TaskEnd.FinalizeNetwork(env, old(Contents()), events)
    {
      if env.egress.None? { return; }
      task := task.(network := EgressCost(env, env.egress.value));
      BackFillWalk(Network, events);
      task := task.(total := task.total + task.network);
    }

    method FinalizeCompute(events: seq<Event>)
      modifies this`store, this`ops, this`task
      ensures Contents() == TaskEnd.FinalizeCompute(env, old(Contents()), events)
    {
      var walk := events;
      assert events + [] == events && store + [] == store;
      if env.computeEvent.Some? {
        if env.storage(ops) {
          store := store + [env.computeEvent.value];
          walk := walk + [env.computeEvent.value];
        }
        ops := ops + 1;
      }
      BackFillWalk(Compute, walk);
    }

    method FinalizeGpu(events: seq<Event>)
      modifies this`store, this`ops, this`task
      ensures Contents() == TaskEnd.FinalizeGpu(env, old(Contents()), events)
    {
      var walk := events;
      assert events + [] == events && store + [] == store;
      var cost: Option<Event>, signals: seq<Event> := None, [];
      if env.gpuEvents.Some? && !HasGpu(events) { cost, signals := env.gpuEvents.value.0, env.gpuEvents.value.1; }
      if cost.Some? {
        if env.storage(ops) {
          store := store + [cost.value];
          walk := walk + [cost.value];
        }
        ops := ops + 1;
      }
      InsertSignals(signals);
      BackFillWalk(Gpu, walk);
    }

    method InsertSignals(signals: seq<Event>)
      modifies this`store, this`ops
      ensures store == old(store) + InsertAll(env, signals, old(ops)) && ops == old(ops) + |signals|
    {
      ghost var goal := store + InsertAll(env, signals, ops);
      var i := 0;
      assert signals[0..] == signals;
      while i < |signals|
        invariant 0 <= i <= |signals| && ops == old(ops) + i
        invariant goal == store + InsertAll(env, signals[i..], ops)
      {
        assert signals[i..][0] == signals[i] && signals[i..][1..] == signals[i + 1..];
        if env.storage(ops) { store := store + [signals[i]]; }
        ops := ops + 1;
        i := i + 1;
      }
    }
  }
}
