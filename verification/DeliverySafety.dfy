/** What every step of the pusher keeps, whatever server and storage do. */
module DeliverySafety {
  // Why a row is synced or quarantined, and which tasks its event may rely on.

  import opened Sequences
  import opened Delivery
  import opened DeliverySplit
  import opened DeliveryScan

  // ---------------------------------------------------------------- history

  /** Events an entry settles: acknowledged without rejects, or given up as oversized singletons. */
  function SettledBy(e: Entry): set<EventId> {
    match e
    case Posted(es, _, o) => if Acked(o) then EventIds(es) else {}
    case DroppedEvent(r) => {r.id}
    case _ => {}
  }

  function TasksSettledBy(e: Entry): set<TaskId> {
    match e
    case Posted(_, ts, o) => if Acked(o) then TaskIds(ts) else {}
    case DroppedTask(t) => {t.id}
    case _ => {}
  }

  function FailedBy(e: Entry): set<EventId> {
    if e.Unrepresentable? then {e.event.id} else {}
  }

  function Settled(log: seq<Entry>): set<EventId> {
    if log == [] then {} else SettledBy(log[0]) + Settled(log[1..])
  }

  function TasksSettled(log: seq<Entry>): set<TaskId> {
    if log == [] then {} else TasksSettledBy(log[0]) + TasksSettled(log[1..])
  }

  function Failed(log: seq<Entry>): set<EventId> {
    if log == [] then {} else FailedBy(log[0]) + Failed(log[1..])
  }

  lemma {:induction false} HistoryConcat(a: seq<Entry>, b: seq<Entry>)
    ensures Settled(a + b) == Settled(a) + Settled(b)
    ensures TasksSettled(a + b) == TasksSettled(a) + TasksSettled(b)
    ensures Failed(a + b) == Failed(a) + Failed(b)
  {
    if a == [] {
      assert a + b == b;
    } else {
      assert (a + b)[1..] == a[1..] + b;
      HistoryConcat(a[1..], b);
    }
  }

  lemma HistoryOne(log: seq<Entry>, e: Entry)
    ensures Settled(log + [e]) == Settled(log) + SettledBy(e)
    ensures TasksSettled(log + [e]) == TasksSettled(log) + TasksSettledBy(e)
    ensures Failed(log + [e]) == Failed(log) + FailedBy(e)
  {
    HistoryConcat(log, [e]);
    assert [e][1..] == [];
  }

  /** Sizes and conversions behind each entry. */
  predicate EntryOk(c: Config, e: Entry) {
    match e
    case Posted(es, ts, _) => c.size(es, ts) <= MAX_PAYLOAD_BYTES
    case DroppedEvent(r) => c.size([r], []) > MAX_PAYLOAD_BYTES
    case DroppedTask(t) => c.size([], [t]) > MAX_PAYLOAD_BYTES
    case Unrepresentable(r) => !c.converts(r)
  }

  /** Every task an entry's events belong to was settled before, or travels in the same body. */
  predicate DepsMet(log: seq<Entry>, i: nat)
    requires i < |log|
  {
    log[i].Posted? ==> Deps(log[i].events) <= TaskIds(log[i].tasks) + TasksSettled(log[..i])
  }

  predicate LogOk(c: Config, log: seq<Entry>) {
    && (forall e :: e in log ==> EntryOk(c, e))
    && (forall i :: 0 <= i < |log| ==> DepsMet(log, i))
  }

  lemma LogOkOne(c: Config, log: seq<Entry>, e: Entry)
    requires LogOk(c, log) && EntryOk(c, e)
    requires e.Posted? ==> Deps(e.events) <= TaskIds(e.tasks) + TasksSettled(log)
    ensures LogOk(c, log + [e])
  {
    var all := log + [e];
    assert all[..|log|] == log;
    forall i | 0 <= i < |all| ensures DepsMet(all, i) {
      if i < |log| {
        assert DepsMet(log, i);
        assert all[..i] == log[..i];
      }
    }
  }

  // ---------------------------------------------------------------- tables

  predicate UniqueTasks(rows: seq<TaskRow>) {
    forall i, j :: 0 <= i < j < |rows| ==> rows[i].id != rows[j].id
  }

  predicate SortedEvents(rows: seq<EventRow>) {
    forall i, j :: 0 <= i < j < |rows| ==> rows[i].occurredAt <= rows[j].occurredAt
  }

  predicate Justified(r: EventRow, log: seq<Entry>) {
    && (r.status.Synced? ==> r.id in Settled(log))
    && (r.status.Quarantined? ==> r.id in Failed(log))
  }

  predicate TablesOk(db: Db, log: seq<Entry>) {
    && UniqueIds(db.events) && UniqueTasks(db.tasks) && SortedEvents(db.events)
    && Deps(db.events) <= TaskIds(db.tasks)
    && (forall r :: r in db.events ==> Justified(r, log))
    && (forall t :: t in db.tasks && t.synced ==> t.id in TasksSettled(log))
  }

  /** The delivery invariant. */
  predicate Inv(c: Config, w: World) {
    && LogOk(c, w.log)
    && TablesOk(w.db, w.log)
    && 0 <= w.backoff <= MAX_BACKOFF
  }

  lemma TablesLater(db: Db, log: seq<Entry>, more: seq<Entry>)
    requires TablesOk(db, log)
    ensures TablesOk(db, log + more)
  {
    HistoryConcat(log, more);
  }

  lemma SyncedTables(db: Db, log: seq<Entry>, ids: set<EventId>)
    requires TablesOk(db, log) && ids <= Settled(log)
    ensures TablesOk(MarkSynced(db, ids), log)
  {
    var db' := MarkSynced(db, ids);
    forall r | r in db'.events ensures Justified(r, log) && r.task in TaskIds(db.tasks) {
      var i :| 0 <= i < |db'.events| && db'.events[i] == r;
      assert db.events[i] in db.events && db.events[i].task in Deps(db.events);
      assert Justified(db.events[i], log);
    }
  }

  lemma QuarantinedTables(db: Db, log: seq<Entry>, ids: set<EventId>)
    requires TablesOk(db, log) && ids <= Failed(log)
    ensures TablesOk(MarkQuarantined(db, ids), log)
  {
    var db' := MarkQuarantined(db, ids);
    forall r | r in db'.events ensures Justified(r, log) && r.task in TaskIds(db.tasks) {
      var i :| 0 <= i < |db'.events| && db'.events[i] == r;
      assert db.events[i] in db.events && db.events[i].task in Deps(db.events);
      assert Justified(db.events[i], log);
    }
  }

  lemma SyncedTaskTables(db: Db, log: seq<Entry>, ids: set<TaskId>)
    requires TablesOk(db, log) && ids <= TasksSettled(log)
    ensures TablesOk(MarkTasksSynced(db, ids), log)
  {
    var db' := MarkTasksSynced(db, ids);
    TaskIdsKept(db.tasks, db'.tasks);
    forall t | t in db'.tasks && t.synced ensures t.id in TasksSettled(log) {
      var i :| 0 <= i < |db'.tasks| && db'.tasks[i] == t;
      assert db.tasks[i] in db.tasks;
    }
  }

  lemma TaskIdsKept(rows: seq<TaskRow>, rows': seq<TaskRow>)
    requires |rows| == |rows'| && forall i :: 0 <= i < |rows| ==> rows[i].id == rows'[i].id
    ensures TaskIds(rows) == TaskIds(rows')
  {
    forall i | 0 <= i < |rows| ensures rows[i].id in TaskIds(rows') && rows'[i].id in TaskIds(rows) {
      assert rows'[i] in rows' && rows[i] in rows;
    }
  }

  lemma {:induction false} FilteredTables(db: Db, log: seq<Entry>, keep: EventRow -> bool)
    requires TablesOk(db, log)
    ensures TablesOk(db.(events := Filter(keep, db.events)), log)
  {
    UniqueFilter(keep, db.events);
    SortedFilter(keep, db.events);
    FilterMembers(keep, db.events);
  }

  lemma {:induction false} SortedFilter(keep: EventRow -> bool, rows: seq<EventRow>)
    requires SortedEvents(rows)
    ensures SortedEvents(Filter(keep, rows))
  {
    if rows != [] {
      SortedFilter(keep, rows[1..]);
      FilterMembers(keep, rows[1..]);
      var rest := Filter(keep, rows[1..]);
      forall r | r in rest ensures rows[0].occurredAt <= r.occurredAt {
        var i :| 0 <= i < |rows[1..]| && rows[1..][i] == r;
        assert rows[i + 1] == r;
      }
    }
  }

  lemma {:induction false} PlaceMembers(rows: seq<EventRow>, r: EventRow)
    ensures forall x :: x in Place(rows, r) <==> x == r || x in rows
  {
    if rows != [] && r.occurredAt >= rows[0].occurredAt {
      PlaceMembers(rows[1..], r);
      assert rows == [rows[0]] + rows[1..];
    }
  }

  /** A row in front of sorted, distinct rows. */
  lemma ConsKeeps(x: EventRow, rest: seq<EventRow>)
    requires UniqueIds(rest) && SortedEvents(rest)
    requires forall y :: y in rest ==> y.id != x.id && x.occurredAt <= y.occurredAt
    ensures UniqueIds([x] + rest) && SortedEvents([x] + rest)
  {
    forall i | 0 <= i < |rest| ensures rest[i].id != x.id && x.occurredAt <= rest[i].occurredAt { assert rest[i] in rest; }
  }

  lemma TailRows(rows: seq<EventRow>)
    requires UniqueIds(rows) && SortedEvents(rows) && rows != []
    ensures UniqueIds(rows[1..]) && SortedEvents(rows[1..])
    ensures forall x :: x in rows[1..] ==> x.id in EventIds(rows) && x.id != rows[0].id && rows[0].occurredAt <= x.occurredAt
    ensures rows[0].id in EventIds(rows)
  {
    assert rows[0] in rows;
    forall x | x in rows[1..] ensures x.id in EventIds(rows) && x.id != rows[0].id && rows[0].occurredAt <= x.occurredAt {
      var i :| 0 <= i < |rows[1..]| && rows[1..][i] == x;
      assert rows[i + 1] == x;
    }
  }

  lemma {:induction false} PlaceKeeps(rows: seq<EventRow>, r: EventRow)
    requires UniqueIds(rows) && SortedEvents(rows) && r.id !in EventIds(rows)
    ensures UniqueIds(Place(rows, r)) && SortedEvents(Place(rows, r))
  {
    if rows != [] {
      TailRows(rows);
      if r.occurredAt >= rows[0].occurredAt {
        PlaceKeeps(rows[1..], r);
        PlaceMembers(rows[1..], r);
        ConsKeeps(rows[0], Place(rows[1..], r));
      } else {
        forall x | x in rows ensures x.id != r.id && r.occurredAt <= x.occurredAt {
          assert x.id in EventIds(rows);
          assert x == rows[0] || x in rows[1..];
        }
        ConsKeeps(r, rows);
      }
    }
  }

  lemma InsertedTables(db: Db, log: seq<Entry>, r: EventRow)
    requires TablesOk(db, log)
    requires r.id !in EventIds(db.events) && r.task in TaskIds(db.tasks) && Justified(r, log)
    ensures TablesOk(db.(events := Place(db.events, r)), log)
  {
    PlaceKeeps(db.events, r);
    PlaceMembers(db.events, r);
  }

  lemma {:induction false} StatusOfFound(rows: seq<EventRow>, id: EventId)
    requires id in EventIds(rows)
    ensures exists r :: r in rows && r.id == id && r.status == StatusOf(rows, id)
  {
    if rows[0].id == id {
      assert rows[0] in rows;
    } else {
      var r :| r in rows && r.id == id;
      assert r in rows[1..];
      StatusOfFound(rows[1..], id);
      var q :| q in rows[1..] && q.id == id && q.status == StatusOf(rows[1..], id);
      assert q in rows;
    }
  }

  lemma UpdatedTables(db: Db, log: seq<Entry>, r: EventRow)
    requires TablesOk(db, log)
    ensures TablesOk(UpdateEvent(db, r), log)
  {
    if r.id in EventIds(db.events) && r.task in TaskIds(db.tasks) {
      StatusOfFound(db.events, r.id);
      var found :| found in db.events && found.id == r.id && found.status == StatusOf(db.events, r.id);
      assert Justified(found, log);
      var keep := (x: EventRow) => x.id != r.id;
      FilteredTables(db, log, keep);
      FilterMembers(keep, db.events);
      InsertedTables(db.(events := Without(db.events, r.id)), log, r.(status := StatusOf(db.events, r.id)));
    }
  }

  lemma {:induction false} PlaceTaskMembers(rows: seq<TaskRow>, t: TaskRow)
    requires UniqueTasks(rows) && t.id !in TaskIds(rows)
    ensures forall x :: x in PlaceTask(rows, t) <==> x == t || x in rows
    ensures UniqueTasks(PlaceTask(rows, t))
  {
    if rows != [] && t.startedAt >= rows[0].startedAt {
      forall x | x in rows[1..] ensures x.id in TaskIds(rows) && x.id != rows[0].id {
        var i :| 0 <= i < |rows[1..]| && rows[1..][i] == x;
        assert rows[i + 1] == x;
      }
      assert rows[0].id in TaskIds(rows);
      PlaceTaskMembers(rows[1..], t);
      assert rows == [rows[0]] + rows[1..];
    } else {
      forall x | x in rows ensures x.id in TaskIds(rows) { }
    }
  }

  lemma InsertedTaskTables(db: Db, log: seq<Entry>, t: TaskRow)
    requires TablesOk(db, log)
    ensures TablesOk(InsertTask(db, t), log)
  {
    if t.id !in TaskIds(db.tasks) {
      PlaceTaskMembers(db.tasks, t.(synced := false));
    }
  }

  lemma UpdatedTaskTables(db: Db, log: seq<Entry>, id: TaskId, content: nat)
    requires TablesOk(db, log)
    ensures TablesOk(UpdateTask(db, id, content), log)
  {
    var db' := UpdateTask(db, id, content);
    TaskIdsKept(db.tasks, db'.tasks);
    forall t | t in db'.tasks && t.synced ensures t.id in TasksSettled(log) {
      var i :| 0 <= i < |db'.tasks| && db'.tasks[i] == t;
      assert db.tasks[i] in db.tasks;
    }
  }

  // ---------------------------------------------------------------- one push

  lemma PostSafe(c: Config, env: Env, w: World, events: seq<EventRow>, tasks: seq<TaskRow>)
    requires Inv(c, w) && c.size(events, tasks) <= MAX_PAYLOAD_BYTES
    requires Deps(events) <= TaskIds(tasks) + TasksSettled(w.log)
    ensures var w' := PostRaw(env, w, events, tasks);
            && Inv(c, w')
            && TasksSettled(w.log) <= TasksSettled(w'.log)
            && (Acked(env.server(w.posts)) ==>
                  EventIds(events) <= Settled(w'.log) && TaskIds(tasks) <= TasksSettled(w'.log))
  {
    var e := Posted(events, tasks, env.server(w.posts));
    LogOkOne(c, w.log, e);
    HistoryOne(w.log, e);
    TablesLater(w.db, w.log, [e]);
  }

  lemma LeafSafe(c: Config, env: Env, w: World, events: seq<EventRow>, tasks: seq<TaskRow>)
    requires Inv(c, w) && c.size(events, tasks) <= MAX_PAYLOAD_BYTES
    requires Deps(events) <= TaskIds(tasks) + TasksSettled(w.log)
    ensures Inv(c, PushLeaf(env, w, events, tasks).world)
  {
    PostSafe(c, env, w, events, tasks);
    if Acked(env.server(w.posts)) {
      var w1 := PostRaw(env, w, events, tasks);
      SyncedTables(w1.db, w1.log, EventIds(events));
      var w2 := WriteSynced(env, w1, events).world;
      SyncedTaskTables(w2.db, w2.log, TaskIds(tasks));
    }
  }

  lemma DropSafe(c: Config, env: Env, w: World, events: seq<EventRow>, tasks: seq<TaskRow>)
    requires Inv(c, w) && |events| + |tasks| == 1 && c.size(events, tasks) > MAX_PAYLOAD_BYTES
    ensures Inv(c, (if |events| == 1 then DropEvent(env, w, events[0]) else DropTask(env, w, tasks[0])).world)
  {
    var e := if |events| == 1 then DroppedEvent(events[0]) else DroppedTask(tasks[0]);
    if |events| == 1 { assert events == [events[0]] && tasks == []; } else { assert tasks == [tasks[0]] && events == []; }
    LogOkOne(c, w.log, e);
    HistoryOne(w.log, e);
    TablesLater(w.db, w.log, [e]);
    SyncedTables(w.db, w.log + [e], EventIds(events));
    SyncedTaskTables(w.db, w.log + [e], TaskIds(tasks));
    if |events| == 1 {
      SyncedUnlogged(w, env, events[0]);
    } else {
      assert forall r :: r in w.db.events ==> Justified(r, w.log);
    }
  }

  lemma SyncedUnlogged(w: World, env: Env, r: EventRow)
    ensures DropEvent(env, w, r).error.Some? ==> DropEvent(env, w, r).world.db == w.db
  {
  }

  /** Completed entries settle what they carry. */
  lemma {:induction false} CompletedSettles(c: Config, log: seq<Entry>)
    requires AllCompleted(c, log)
    ensures Settled(log) == EventIds(EventsOf(log)) && TasksSettled(log) == TaskIds(TasksOf(log))
  {
    if log != [] {
      assert log[0] in log;
      assert Completed(c, log[0]);
      CompletedSettles(c, log[1..]);
    }
  }

  lemma SplitSettles(c: Config, env: Env, w: World, events: seq<EventRow>, tasks: seq<TaskRow>)
    requires PushWithSplit(c, env, w, events, tasks).error.None?
    ensures var log := PushWithSplit(c, env, w, events, tasks).world.log;
            TasksSettled(log) == TasksSettled(w.log) + TaskIds(tasks) && Settled(log) == Settled(w.log) + EventIds(events)
  {
    var p := PushWithSplit(c, env, w, events, tasks);
    SplitProgress(c, env, w, events, tasks);
    SettlesMore(c, w.log, Since(w, p.world));
    assert p.world.log == w.log + Since(w, p.world);
  }

  lemma SettlesMore(c: Config, log: seq<Entry>, since: seq<Entry>)
    requires AllCompleted(c, since)
    ensures TasksSettled(log + since) == TasksSettled(log) + TaskIds(TasksOf(since))
    ensures Settled(log + since) == Settled(log) + EventIds(EventsOf(since))
  {
    CompletedSettles(c, since);
    HistoryConcat(log, since);
  }

  lemma {:induction false} SplitSafe(c: Config, env: Env, w: World, events: seq<EventRow>, tasks: seq<TaskRow>)
    requires Inv(c, w)
    requires Deps(events) <= TaskIds(tasks) + TasksSettled(w.log)
    ensures Inv(c, PushWithSplit(c, env, w, events, tasks).world)
    decreases |events| + |tasks|
  {
    if events == [] && tasks == [] {
    } else if c.size(events, tasks) <= MAX_PAYLOAD_BYTES {
      LeafSafe(c, env, w, events, tasks);
    } else if |events| + |tasks| == 1 {
      DropSafe(c, env, w, events, tasks);
    } else {
      var h := Halves(events, tasks);
      IdsConcat(h.0, h.2);
      SplitSafe(c, env, w, h.0, h.1);
      var first := PushWithSplit(c, env, w, h.0, h.1);
      if first.error.None? {
        SplitSettles(c, env, w, h.0, h.1);
        assert Deps(h.2) <= TaskIds(h.3) + TasksSettled(first.world.log);
        SplitSafe(c, env, first.world, h.2, h.3);
      }
    }
  }
}
