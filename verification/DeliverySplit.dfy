/** What a split push sends and marks, for every batch, server and storage behaviour. */
module DeliverySplit {
  import opened Sequences
  import opened Delivery

  function EntryEvents(e: Entry): seq<EventRow> {
    match e
    case Posted(es, _, _) => es
    case DroppedEvent(r) => [r]
    case _ => []
  }

  function EntryTasks(e: Entry): seq<TaskRow> {
    match e
    case Posted(_, ts, _) => ts
    case DroppedTask(t) => [t]
    case _ => []
  }

  /** The events a stretch of history disposed of, in order. */
  function EventsOf(log: seq<Entry>): seq<EventRow> {
    if log == [] then [] else EntryEvents(log[0]) + EventsOf(log[1..])
  }

  function TasksOf(log: seq<Entry>): seq<TaskRow> {
    if log == [] then [] else EntryTasks(log[0]) + TasksOf(log[1..])
  }

  /** A body within the limit that the server acknowledged, or a singleton above the limit. */
  predicate Completed(c: Config, e: Entry) {
    match e
    case Posted(es, ts, o) => c.size(es, ts) <= MAX_PAYLOAD_BYTES && Acked(o) && |es| + |ts| > 0
    case DroppedEvent(r) => c.size([r], []) > MAX_PAYLOAD_BYTES
    case DroppedTask(t) => c.size([], [t]) > MAX_PAYLOAD_BYTES
    case Unrepresentable(_) => false
  }

  predicate AllCompleted(c: Config, log: seq<Entry>) { forall e :: e in log ==> Completed(c, e) }

  predicate EventFree(log: seq<Entry>) { forall e :: e in log ==> EntryEvents(e) == [] }

  predicate TaskFree(log: seq<Entry>) { forall e :: e in log ==> EntryTasks(e) == [] }

  /** Once an event has been sent no later body carries a task. */
  predicate TasksFirst(log: seq<Entry>) {
    forall i, j :: 0 <= i < j < |log| && EntryEvents(log[i]) != [] ==> EntryTasks(log[j]) == []
  }

  /** The tables after every completed entry has marked its records. */
  function Replay(db: Db, log: seq<Entry>): Db
    decreases |log|
  {
    if log == [] then db else Replay(ReplayEntry(db, log[0]), log[1..])
  }

  function ReplayEntry(db: Db, e: Entry): Db {
    if e.Posted? && !Acked(e.outcome) then db
    else MarkTasksSynced(MarkSynced(db, EventIds(EntryEvents(e))), TaskIds(EntryTasks(e)))
  }

  /** How far a push got: everything on success, a prefix (tasks before events) on failure. */
  predicate Progress(c: Config, sent: seq<Entry>, events: seq<EventRow>, tasks: seq<TaskRow>, error: Option<Failure>) {
    && EventsOf(sent) <= events && TasksOf(sent) <= tasks
    && TasksFirst(sent)
    && (EventsOf(sent) != [] ==> TasksOf(sent) == tasks)
    && match error
       case None => AllCompleted(c, sent) && EventsOf(sent) == events && TasksOf(sent) == tasks
       case Some(StorageFailed) => AllCompleted(c, sent)
       case Some(PostFailed(o)) =>
         && sent != [] && AllCompleted(c, sent[..|sent| - 1])
         && var last := sent[|sent| - 1];
            last.Posted? && last.outcome == o && !Acked(o) && c.size(last.events, last.tasks) <= MAX_PAYLOAD_BYTES
       case Some(ConversionFailed(_)) => false
  }

  lemma EventsOfCons(x: Entry, log: seq<Entry>)
    ensures EventsOf([x] + log) == EntryEvents(x) + EventsOf(log)
    ensures TasksOf([x] + log) == EntryTasks(x) + TasksOf(log)
  {
    assert ([x] + log)[1..] == log;
  }

  lemma EventsOfOne(x: Entry)
    ensures EventsOf([x]) == EntryEvents(x) && TasksOf([x]) == EntryTasks(x)
  {
    assert [x] + [] == [x];
    EventsOfCons(x, []);
    assert EntryEvents(x) + [] == EntryEvents(x) && EntryTasks(x) + [] == EntryTasks(x);
  }

  lemma {:induction false} EventsOfConcat(a: seq<Entry>, b: seq<Entry>)
    ensures EventsOf(a + b) == EventsOf(a) + EventsOf(b)
    ensures TasksOf(a + b) == TasksOf(a) + TasksOf(b)
  {
    if a == [] {
      assert a + b == b;
    } else {
      var x, rest := a[0], a[1..];
      EventsOfConcat(rest, b);
      assert a == [x] + rest;
      Assoc([x], rest, b);
      EventsOfCons(x, rest);
      EventsOfCons(x, rest + b);
      Assoc(EntryEvents(x), EventsOf(rest), EventsOf(b));
      Assoc(EntryTasks(x), TasksOf(rest), TasksOf(b));
    }
  }

  lemma {:induction false} FreeIffEmpty(log: seq<Entry>)
    ensures EventFree(log) <==> EventsOf(log) == []
    ensures TaskFree(log) <==> TasksOf(log) == []
  {
    if log != [] {
      FreeIffEmpty(log[1..]);
      assert forall e :: e in log <==> e == log[0] || e in log[1..];
    }
  }

  lemma {:induction false} ReplayConcat(db: Db, a: seq<Entry>, b: seq<Entry>)
    ensures Replay(db, a + b) == Replay(Replay(db, a), b)
    decreases |a|
  {
    if a == [] {
      assert a + b == b;
    } else {
      assert (a + b)[1..] == a[1..] + b;
      ReplayConcat(ReplayEntry(db, a[0]), a[1..], b);
    }
  }

  lemma SyncNone(db: Db)
    ensures MarkSynced(db, {}) == db && MarkTasksSynced(db, {}) == db
  {
    assert SyncEvents(db.events, {}) == db.events;
    assert SyncTasks(db.tasks, {}) == db.tasks;
  }

  lemma TasksFirstConcat(s1: seq<Entry>, s2: seq<Entry>)
    requires TasksFirst(s1) && TasksFirst(s2)
    requires EventsOf(s1) == [] || TasksOf(s2) == []
    ensures TasksFirst(s1 + s2)
  {
    var sent := s1 + s2;
    FreeIffEmpty(s1); FreeIffEmpty(s2);
    forall i, j | 0 <= i < j < |sent| && EntryEvents(sent[i]) != []
      ensures EntryTasks(sent[j]) == []
    {
      if j >= |s1| {
        assert sent[j] in s2;
        if i < |s1| { assert sent[i] in s1; }
      }
    }
  }

  /** Two pushes in sequence, the second after the first succeeded. */
  lemma ProgressThen(c: Config, s1: seq<Entry>, s2: seq<Entry>, es1: seq<EventRow>, es2: seq<EventRow>,
                     ts1: seq<TaskRow>, ts2: seq<TaskRow>, error: Option<Failure>)
    requires Progress(c, s1, es1, ts1, None) && Progress(c, s2, es2, ts2, error)
    requires es1 == [] || ts2 == []
    requires ts2 == [] || es2 == []
    ensures Progress(c, s1 + s2, es1 + es2, ts1 + ts2, error)
  {
    EventsOfConcat(s1, s2);
    TasksFirstConcat(s1, s2);
    PrefixAfter(es1, EventsOf(s2), es2);
    PrefixAfter(ts1, TasksOf(s2), ts2);
    if error.Some? && error.value.PostFailed? { LastOfConcat(s1, s2); }
  }

  lemma LastOfConcat(s1: seq<Entry>, s2: seq<Entry>)
    requires s2 != []
    ensures (s1 + s2)[..|s1 + s2| - 1] == s1 + s2[..|s2| - 1]
    ensures (s1 + s2)[|s1 + s2| - 1] == s2[|s2| - 1]
  {
  }

  lemma ProgressStops(c: Config, s: seq<Entry>, es1: seq<EventRow>, es2: seq<EventRow>,
                      ts1: seq<TaskRow>, ts2: seq<TaskRow>, error: Option<Failure>)
    requires Progress(c, s, es1, ts1, error) && error.Some?
    requires es1 == [] || ts2 == []
    ensures Progress(c, s, es1 + es2, ts1 + ts2, error)
  {
  }

  lemma LeafProgress(c: Config, env: Env, w: World, events: seq<EventRow>, tasks: seq<TaskRow>)
    requires |events| + |tasks| > 0
    requires c.size(events, tasks) <= MAX_PAYLOAD_BYTES
    ensures var p := PushLeaf(env, w, events, tasks);
            w.log <= p.world.log && Progress(c, p.world.log[|w.log|..], events, tasks, p.error)
  {
    var p := PushLeaf(env, w, events, tasks);
    var e := Posted(events, tasks, env.server(w.posts));
    assert p.world.log == w.log + [e];
    assert p.world.log[|w.log|..] == [e];
    assert [e][..0] == [] && [e][1..] == [];
    EventsOfOne(e);
  }

  lemma DropProgress(c: Config, env: Env, w: World, events: seq<EventRow>, tasks: seq<TaskRow>)
    requires |events| + |tasks| == 1
    requires c.size(events, tasks) > MAX_PAYLOAD_BYTES
    ensures var p := if |events| == 1 then DropEvent(env, w, events[0]) else DropTask(env, w, tasks[0]);
            w.log <= p.world.log && Progress(c, p.world.log[|w.log|..], events, tasks, p.error)
  {
    if |events| == 1 {
      assert events == [events[0]] && tasks == [];
      DroppedProgress(c, w.log, DroppedEvent(events[0]));
    } else {
      assert tasks == [tasks[0]] && events == [];
      DroppedProgress(c, w.log, DroppedTask(tasks[0]));
    }
    assert w.log[|w.log|..] == [];
  }

  lemma DroppedProgress(c: Config, log: seq<Entry>, e: Entry)
    requires Completed(c, e)
    ensures (log + [e])[|log|..] == [e]
    ensures Progress(c, [e], EntryEvents(e), EntryTasks(e), None)
  {
    EventsOfOne(e);
  }

  /** `to` continues the history of `from`; Since is what it added. */
  predicate Extends(from: World, to: World) { from.log <= to.log }

  function Since(from: World, to: World): seq<Entry>
    requires Extends(from, to)
  {
    to.log[|from.log|..]
  }

  lemma SinceChain(w: World, w1: World, w2: World)
    requires Extends(w, w1) && Extends(w1, w2)
    ensures Extends(w, w2) && Since(w, w2) == Since(w, w1) + Since(w1, w2)
  {
  }

  predicate Achieved(c: Config, w: World, p: Push, events: seq<EventRow>, tasks: seq<TaskRow>) {
    Extends(w, p.world) && Progress(c, Since(w, p.world), events, tasks, p.error)
  }

  lemma AchievedThen(c: Config, w: World, first: Push, p: Push,
                     h: (seq<EventRow>, seq<TaskRow>, seq<EventRow>, seq<TaskRow>))
    requires (h.0 == [] || h.3 == []) && (h.3 == [] || h.2 == [])
    requires Achieved(c, w, first, h.0, h.1)
    requires if first.error.Some? then p == first else Achieved(c, first.world, p, h.2, h.3)
    ensures Achieved(c, w, p, h.0 + h.2, h.1 + h.3)
  {
    if first.error.Some? {
      ProgressStops(c, Since(w, first.world), h.0, h.2, h.1, h.3, first.error);
    } else {
      SinceChain(w, first.world, p.world);
      ProgressThen(c, Since(w, first.world), Since(first.world, p.world), h.0, h.2, h.1, h.3, p.error);
    }
  }

  /**
   The exact partition: on success the completed bodies and drops, read in order, are the
   input records, tasks first; on failure they are a prefix of them.
   */
  lemma {:induction false} SplitProgress(c: Config, env: Env, w: World, events: seq<EventRow>, tasks: seq<TaskRow>)
    ensures Achieved(c, w, PushWithSplit(c, env, w, events, tasks), events, tasks)
    decreases |events| + |tasks|
  {
    if events == [] && tasks == [] {
      assert Since(w, w) == [];
    } else if c.size(events, tasks) <= MAX_PAYLOAD_BYTES {
      LeafProgress(c, env, w, events, tasks);
    } else if |events| + |tasks| == 1 {
      DropProgress(c, env, w, events, tasks);
    } else {
      var h := Halves(events, tasks);
      var first := PushWithSplit(c, env, w, h.0, h.1);
      SplitProgress(c, env, w, h.0, h.1);
      var p := if first.error.Some? then first else PushWithSplit(c, env, first.world, h.2, h.3);
      if first.error.None? { SplitProgress(c, env, first.world, h.2, h.3); }
      AchievedThen(c, w, first, p, h);
      assert p == PushWithSplit(c, env, w, events, tasks);
    }
  }

  predicate Marked(w: World, p: Push) {
    && Extends(w, p.world)
    && p.world.db == Replay(w.db, Since(w, p.world))
    && p.error != Some(StorageFailed)
  }

  lemma MarkedThen(w: World, first: Push, p: Push)
    requires Marked(w, first)
    requires if first.error.Some? then p == first else Marked(first.world, p)
    ensures Marked(w, p)
  {
    if first.error.None? {
      SinceChain(w, first.world, p.world);
      ReplayConcat(w.db, Since(w, first.world), Since(first.world, p.world));
    }
  }

  lemma LeafMarks(env: Env, w: World, events: seq<EventRow>, tasks: seq<TaskRow>)
    requires forall n :: env.storage(n)
    ensures Marked(w, PushLeaf(env, w, events, tasks))
  {
    var p := PushLeaf(env, w, events, tasks);
    SyncNone(w.db); SyncNone(MarkSynced(w.db, EventIds(events)));
    assert Since(w, p.world) == [Posted(events, tasks, env.server(w.posts))];
    assert Since(w, p.world)[1..] == [];
  }

  lemma DropMarks(env: Env, w: World, events: seq<EventRow>, tasks: seq<TaskRow>)
    requires forall n :: env.storage(n)
    requires |events| + |tasks| == 1
    ensures Marked(w, if |events| == 1 then DropEvent(env, w, events[0]) else DropTask(env, w, tasks[0]))
  {
    var p := if |events| == 1 then DropEvent(env, w, events[0]) else DropTask(env, w, tasks[0]);
    SyncNone(w.db); SyncNone(MarkSynced(w.db, EventIds(events)));
    assert |Since(w, p.world)| == 1 && Since(w, p.world)[1..] == [];
    if |events| == 1 { assert events == [events[0]]; } else { assert tasks == [tasks[0]]; }
  }

  /** With working storage the tables end up as the replay of what was completed, and nothing else. */
  lemma {:induction false} SplitMarksExactly(c: Config, env: Env, w: World, events: seq<EventRow>, tasks: seq<TaskRow>)
    requires forall n :: env.storage(n)
    ensures Marked(w, PushWithSplit(c, env, w, events, tasks))
    decreases |events| + |tasks|
  {
    if events == [] && tasks == [] {
      assert Since(w, w) == [];
    } else if c.size(events, tasks) <= MAX_PAYLOAD_BYTES {
      LeafMarks(env, w, events, tasks);
    } else if |events| + |tasks| == 1 {
      DropMarks(env, w, events, tasks);
    } else {
      var h := Halves(events, tasks);
      var first := PushWithSplit(c, env, w, h.0, h.1);
      SplitMarksExactly(c, env, w, h.0, h.1);
      var p := if first.error.Some? then first else PushWithSplit(c, env, first.world, h.2, h.3);
      if first.error.None? { SplitMarksExactly(c, env, first.world, h.2, h.3); }
      MarkedThen(w, first, p);
      assert p == PushWithSplit(c, env, w, events, tasks);
    }
  }

  /** An accepting server and working storage leave nothing for an error. */
  lemma {:induction false} SplitSucceeds(c: Config, env: Env, w: World, events: seq<EventRow>, tasks: seq<TaskRow>)
    requires forall n :: env.storage(n)
    requires forall n :: Acked(env.server(n))
    ensures var p := PushWithSplit(c, env, w, events, tasks); p.error.None? && p.world.stopped == w.stopped
    decreases |events| + |tasks|
  {
    if |events| + |tasks| > 1 && c.size(events, tasks) > MAX_PAYLOAD_BYTES {
      var (es1, ts1, es2, ts2) := Halves(events, tasks);
      SplitSucceeds(c, env, w, es1, ts1);
      SplitSucceeds(c, env, PushWithSplit(c, env, w, es1, ts1).world, es2, ts2);
    }
  }

  lemma SyncTwice(db: Db, a: set<EventId>, b: set<EventId>, s: set<TaskId>, t: set<TaskId>)
    ensures SyncEvents(SyncEvents(db.events, a), b) == SyncEvents(db.events, a + b)
    ensures SyncTasks(SyncTasks(db.tasks, s), t) == SyncTasks(db.tasks, s + t)
  {
  }

  lemma IdsConcat(a: seq<EventRow>, b: seq<EventRow>)
    ensures EventIds(a + b) == EventIds(a) + EventIds(b)
    ensures Deps(a + b) == Deps(a) + Deps(b)
  {
  }

  lemma TaskIdsConcat(a: seq<TaskRow>, b: seq<TaskRow>)
    ensures TaskIds(a + b) == TaskIds(a) + TaskIds(b)
  {
  }

  /** Replaying completed entries marks every event and task they carry, and no other row. */
  lemma {:induction false} ReplaySyncs(c: Config, db: Db, log: seq<Entry>)
    requires AllCompleted(c, log)
    ensures Replay(db, log) == MarkTasksSynced(MarkSynced(db, EventIds(EventsOf(log))), TaskIds(TasksOf(log)))
    decreases |log|
  {
    if log == [] {
      SyncNone(db);
    } else {
      var e, rest := log[0], log[1..];
      assert Completed(c, e);
      ReplaySyncs(c, ReplayEntry(db, e), rest);
      IdsConcat(EntryEvents(e), EventsOf(rest));
      TaskIdsConcat(EntryTasks(e), TasksOf(rest));
      SyncTwice(db, EventIds(EntryEvents(e)), EventIds(EventsOf(rest)), TaskIds(EntryTasks(e)), TaskIds(TasksOf(rest)));
    }
  }
}
