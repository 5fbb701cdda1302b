/** Whole runs: the invariant, dependency order, retention and draining. */
module DeliveryRuns {
  import opened Sequences
  import opened Delivery
  import opened DeliverySplit
  import opened DeliveryScan
  import opened DeliverySafety

  // ---------------------------------------------------------------- safety of a push

  lemma {:induction false} FailureLog(c: Config, log: seq<Entry>, bad: seq<EventRow>)
    requires LogOk(c, log) && forall r :: r in bad ==> !c.converts(r)
    ensures var log' := log + FailureEntries(bad);
            && LogOk(c, log') && Failed(log') == Failed(log) + EventIds(bad)
            && TasksSettled(log') == TasksSettled(log)
    decreases |bad|
  {
    if bad == [] {
      assert log + FailureEntries(bad) == log;
    } else {
      var e := Unrepresentable(bad[0]);
      LogOkOne(c, log, e);
      HistoryOne(log, e);
      FailureLog(c, log + [e], bad[1..]);
      assert log + FailureEntries(bad) == (log + [e]) + FailureEntries(bad[1..]);
      assert EventIds(bad) == {bad[0].id} + EventIds(bad[1..]);
    }
  }

  lemma QuarantineSafe(c: Config, env: Env, w: World, bad: seq<EventRow>)
    requires Inv(c, w) && forall r :: r in bad ==> !c.converts(r)
    ensures var w' := WriteQuarantined(env, w, bad).world;
            && Inv(c, w') && w'.db.tasks == w.db.tasks && TasksSettled(w'.log) == TasksSettled(w.log)
  {
    FailureLog(c, w.log, bad);
    TablesLater(w.db, w.log, FailureEntries(bad));
    QuarantinedTables(w.db, w.log + FailureEntries(bad), EventIds(bad));
  }

  predicate ScanSafe(c: Config, w: World, s: Scan) {
    && Inv(c, s.world)
    && s.world.db.tasks == w.db.tasks
    && TasksSettled(s.world.log) == TasksSettled(w.log)
    && Deps(s.batch) <= TaskIds(w.db.tasks)
  }

  lemma PageSafe(c: Config, env: Env, w: World, s: Scan)
    requires ScanSafe(c, w, s) && PageLimit(c, s) > 0
    ensures ScanSafe(c, w, ScanPage(c, env, s).0)
  {
    var w1 := Read(s.world);
    var page := Take(PendingEvents(w1.db), PageLimit(c, s));
    var unread := Unseen(page, s.seen);
    FilterMembers(IsPending, w1.db.events);
    FilterMembers(NotIn(s.seen), page);
    FilterMembers(c.converts, unread);
    FilterMembers(Not(c.converts), unread);
    QuarantineSafe(c, env, w1, Bad(c, unread));
    forall r | r in Good(c, unread) ensures r.task in TaskIds(w.db.tasks) {
      assert r in w1.db.events && r.task in Deps(w1.db.events);
    }
  }

  lemma {:induction false} ScanLoopSafe(c: Config, env: Env, w: World, s: Scan)
    requires ScanSafe(c, w, s)
    ensures ScanSafe(c, w, ScanLoop(c, env, s))
    decreases c.ScanLimit() - s.scanned
  {
    if PageLimit(c, s) > 0 {
      PageSafe(c, env, w, s);
      var (s', more) := ScanPage(c, env, s);
      if more { ScanLoopSafe(c, env, w, s'); }
    }
  }

  lemma {:induction false} ArrangeMembers(tasks: seq<TaskRow>, order: seq<TaskId>)
    ensures forall t :: t in Arrange(tasks, order) <==> t in tasks
    decreases |order|
  {
    if order != [] {
      var now, later := (t: TaskRow) => t.id == order[0], (t: TaskRow) => t.id != order[0];
      FilterMembers(now, tasks);
      FilterMembers(later, tasks);
      ArrangeMembers(Filter(later, tasks), order[1..]);
    }
  }

  /** A pending dependency of the batch is among the tasks sent; any other one is settled. */
  lemma DependenciesSelected(c: Config, db: Db, log: seq<Entry>, batch: seq<EventRow>, order: seq<TaskId>)
    requires TablesOk(db, log) && Deps(batch) <= TaskIds(db.tasks)
    ensures Deps(batch) <= TaskIds(Arrange(SelectedTasks(c, db, batch), order)) + TasksSettled(log)
  {
    var selected := SelectedTasks(c, db, batch);
    var window := Take(PendingTasks(db), c.batchSize);
    ArrangeMembers(selected, order);
    FilterMembers(IsPendingTask, db.tasks);
    FilterMembers(TaskIn(Deps(batch)), PendingTasks(db));
    FilterMembers(Not(TaskIn(TaskIds(window))), QueryTasksByIDs(db, Deps(batch)));
    forall id | id in Deps(batch)
      ensures id in TaskIds(Arrange(selected, order)) + TasksSettled(log)
    {
      var t :| t in db.tasks && t.id == id;
      if !t.synced {
        assert t in QueryTasksByIDs(db, Deps(batch));
        if id in TaskIds(window) {
          var t' :| t' in window && t'.id == id;
          assert t' in selected;
        } else {
          assert t in selected;
        }
      }
    }
  }

  lemma MaintainSafe(c: Config, env: Env, w: World, now: int)
    requires Inv(c, w)
    ensures Inv(c, MaintainBuffer(env, w, now)) && MaintainBuffer(env, w, now).log == w.log
  {
    var before := now - RETENTION;
    FilteredTables(w.db, w.log, (r: EventRow) => KeptSynced(r, before));
    FilteredTables(w.db, w.log, (r: EventRow) => KeptUnsent(r, before));
    var mid := PurgeSynced(w.db, before);
    FilteredTables(mid, w.log, (r: EventRow) => KeptUnsent(r, before));
  }

  lemma PushBatchSafe(c: Config, env: Env, w: World, now: int, order: seq<TaskId>, surface: bool)
    requires Inv(c, w)
    ensures Inv(c, PushBatch(c, env, w, now, order, surface).world)
  {
    if !w.stopped {
      assert Deps([]) == {};
      ScanLoopSafe(c, env, w, StartScan(w));
      var s := ScanLoop(c, env, StartScan(w));
      var q := QueryTasks(env, s.world, s.batch);
      if s.error.None? && q.error.None? {
        DependenciesSelected(c, q.world.db, q.world.log, s.batch, order);
        var tasks := Arrange(SelectedTasks(c, q.world.db, s.batch), order);
        SplitSafe(c, env, q.world, s.batch, tasks);
        MaintainSafe(c, env, PushWithSplit(c, env, q.world, s.batch, tasks).world, now);
      }
    }
  }

  lemma StepSafe(c: Config, env: Env, w: World, a: Action)
    requires Inv(c, w)
    ensures Inv(c, Step(c, env, w, a))
  {
    match a
    case DoInsertTask(t) => InsertedTaskTables(w.db, w.log, t);
    case DoUpdateTask(id, content) => UpdatedTaskTables(w.db, w.log, id, content);
    case DoInsertEvent(e) =>
      if e.id !in EventIds(w.db.events) && e.task in TaskIds(w.db.tasks) {
        InsertedTables(w.db, w.log, e.(status := Pending));
      }
    case DoUpdateEvent(e) => UpdatedTables(w.db, w.log, e);
    case DoPush(now, order, surface) => PushBatchSafe(c, env, w, now, order, surface);
    case _ =>
  }

  lemma {:induction false} RunSafe(c: Config, env: Env, w: World, actions: seq<Action>)
    requires Inv(c, w)
    ensures Inv(c, Run(c, env, w, actions))
    decreases |actions|
  {
    if actions != [] {
      StepSafe(c, env, w, actions[0]);
      RunSafe(c, env, Step(c, env, w, actions[0]), actions[1..]);
    }
  }

  // ---------------------------------------------------------------- what the invariant says

  lemma {:induction false} SettledWitness(log: seq<Entry>, id: EventId)
    requires id in Settled(log)
    ensures exists i :: 0 <= i < |log| && id in SettledBy(log[i])
  {
    if id !in SettledBy(log[0]) {
      SettledWitness(log[1..], id);
      var i :| 0 <= i < |log[1..]| && id in SettledBy(log[1..][i]);
      assert log[i + 1] == log[1..][i];
    }
  }

  lemma {:induction false} FailedWitness(log: seq<Entry>, id: EventId)
    requires id in Failed(log)
    ensures exists i :: 0 <= i < |log| && id in FailedBy(log[i])
  {
    if id !in FailedBy(log[0]) {
      FailedWitness(log[1..], id);
      var i :| 0 <= i < |log[1..]| && id in FailedBy(log[1..][i]);
      assert log[i + 1] == log[1..][i];
    }
  }

  lemma {:induction false} TaskSettledWitness(log: seq<Entry>, id: TaskId)
    requires id in TasksSettled(log)
    ensures exists i :: 0 <= i < |log| && id in TasksSettledBy(log[i])
  {
    if id !in TasksSettledBy(log[0]) {
      TaskSettledWitness(log[1..], id);
      var i :| 0 <= i < |log[1..]| && id in TasksSettledBy(log[1..][i]);
      assert log[i + 1] == log[1..][i];
    }
  }

  /** An acknowledged body within the limit that carries the event, or its own oversized singleton. */
  predicate DeliveredOrOversized(c: Config, e: Entry, id: EventId) {
    match e
    case Posted(es, ts, o) =>
      && o.Response? && 200 <= o.code < 300 && o.rejected <= 0
      && id in EventIds(es) && c.size(es, ts) <= MAX_PAYLOAD_BYTES
    case DroppedEvent(r) => r.id == id && c.size([r], []) > MAX_PAYLOAD_BYTES
    case _ => false
  }

  /** Delivery safety over every run, every server and every storage failure. */
  lemma DeliverySafe(c: Config, env: Env, actions: seq<Action>, r: EventRow)
    requires r in Run(c, env, Start, actions).db.events
    ensures var log := Run(c, env, Start, actions).log;
            && (r.status.Synced? ==> exists i :: 0 <= i < |log| && DeliveredOrOversized(c, log[i], r.id))
            && (r.status.Quarantined? ==>
                  exists i :: 0 <= i < |log| && log[i].Unrepresentable? && log[i].event.id == r.id && !c.converts(log[i].event))
  {
    var w := Run(c, env, Start, actions);
    RunSafe(c, env, Start, actions);
    assert Justified(r, w.log);
    if r.status.Synced? {
      SettledWitness(w.log, r.id);
      var i :| 0 <= i < |w.log| && r.id in SettledBy(w.log[i]);
      assert EntryOk(c, w.log[i]);
      assert DeliveredOrOversized(c, w.log[i], r.id);
    }
    if r.status.Quarantined? {
      FailedWitness(w.log, r.id);
      var i :| 0 <= i < |w.log| && r.id in FailedBy(w.log[i]);
      assert EntryOk(c, w.log[i]);
    }
  }

  /** Dependency order across all batches, splits and failures of a run. */
  lemma DependencyOrder(c: Config, env: Env, actions: seq<Action>, i: nat, e: EventRow)
    requires i < |Run(c, env, Start, actions).log|
    requires Run(c, env, Start, actions).log[i].Posted?
    requires e in Run(c, env, Start, actions).log[i].events
    ensures var log := Run(c, env, Start, actions).log;
            || e.task in TaskIds(log[i].tasks)
            || exists j :: 0 <= j < i && e.task in TasksSettledBy(log[j])
  {
    RunSafe(c, env, Start, actions);
    var log := Run(c, env, Start, actions).log;
    assert DepsMet(log, i);
    assert e.task in Deps(log[i].events);
    if e.task !in TaskIds(log[i].tasks) {
      TaskSettledWitness(log[..i], e.task);
      var j :| 0 <= j < |log[..i]| && e.task in TasksSettledBy(log[..i][j]);
      assert log[..i][j] == log[j];
    }
  }

  // ---------------------------------------------------------------- retention

  lemma IdsOf(rows: seq<EventRow>, rows': seq<EventRow>)
    requires |rows| == |rows'| && forall i :: 0 <= i < |rows| ==> rows[i].id == rows'[i].id
    ensures EventIds(rows) == EventIds(rows')
  {
    forall i | 0 <= i < |rows| ensures rows[i].id in EventIds(rows') && rows'[i].id in EventIds(rows) {
      assert rows'[i] in rows' && rows[i] in rows;
    }
  }

  /** Position by position the same rows apart from their status. */
  predicate SameRows(a: seq<EventRow>, b: seq<EventRow>) {
    |a| == |b| && forall i :: 0 <= i < |a| ==> a[i].(status := Pending) == b[i].(status := Pending)
  }

  lemma {:induction false} ScanKeepsRows(c: Config, env: Env, s: Scan)
    ensures SameRows(s.world.db.events, ScanLoop(c, env, s).world.db.events)
    decreases c.ScanLimit() - s.scanned
  {
    if PageLimit(c, s) > 0 {
      var (s', more) := ScanPage(c, env, s);
      assert SameRows(s.world.db.events, s'.world.db.events);
      if more { ScanKeepsRows(c, env, s'); }
    }
  }

  lemma LeafKeepsRows(env: Env, w: World, events: seq<EventRow>, tasks: seq<TaskRow>)
    ensures SameRows(w.db.events, PushLeaf(env, w, events, tasks).world.db.events)
  {
  }

  lemma DropKeepsRows(env: Env, w: World, events: seq<EventRow>, tasks: seq<TaskRow>)
    ensures |events| > 0 ==> SameRows(w.db.events, DropEvent(env, w, events[0]).world.db.events)
    ensures |tasks| > 0 ==> SameRows(w.db.events, DropTask(env, w, tasks[0]).world.db.events)
  {
  }

  lemma {:induction false} SplitKeepsRows(c: Config, env: Env, w: World, events: seq<EventRow>, tasks: seq<TaskRow>)
    ensures SameRows(w.db.events, PushWithSplit(c, env, w, events, tasks).world.db.events)
    decreases |events| + |tasks|
  {
    hide PushLeaf, DropEvent, DropTask, Halves;
    if events == [] && tasks == [] {
    } else if c.size(events, tasks) <= MAX_PAYLOAD_BYTES {
      LeafKeepsRows(env, w, events, tasks);
    } else if |events| + |tasks| <= 1 {
      DropKeepsRows(env, w, events, tasks);
    } else {
      var h := Halves(events, tasks);
      SplitKeepsRows(c, env, w, h.0, h.1);
      SplitKeepsRows(c, env, PushWithSplit(c, env, w, h.0, h.1).world, h.2, h.3);
    }
  }

  /** The world a push sends from, and the events and tasks it selected. */
  datatype Offer = Offer(world: World, events: seq<EventRow>, tasks: seq<TaskRow>)

  function Offered(c: Config, env: Env, w: World, order: seq<TaskId>): Offer {
    var s := ScanLoop(c, env, StartScan(w));
    var q := QueryTasks(env, s.world, s.batch);
    Offer(q.world, s.batch, Arrange(SelectedTasks(c, q.world.db, s.batch), order))
  }

  /** The push offered a non-empty batch and every record of it was completed. */
  predicate Accepted(c: Config, env: Env, w: World, order: seq<TaskId>) {
    var s := ScanLoop(c, env, StartScan(w));
    var o := Offered(c, env, w, order);
    && !w.stopped && s.error.None? && QueryTasks(env, s.world, s.batch).error.None?
    && (o.events != [] || o.tasks != [])
    && PushWithSplit(c, env, o.world, o.events, o.tasks).error.None?
  }

  /**
   A row leaves the table only by retention: in a push whose whole non-empty batch was completed,
   at least an hour after the previous purge, and only when older than seven days.
   */
  lemma OnlyRetentionDeletes(c: Config, env: Env, w: World, a: Action, r: EventRow)
    requires Inv(c, w) && r in w.db.events
    requires r.id !in EventIds(Step(c, env, w, a).db.events)
    ensures a.DoPush?
    ensures r.occurredAt < a.now - RETENTION
    ensures w.lastPurge.None? || a.now - w.lastPurge.value >= PURGE_INTERVAL
    ensures Accepted(c, env, w, a.order)
  {
    assert r.id in EventIds(w.db.events);
    match a
    case DoInsertEvent(e) => PlaceMembers(w.db.events, e.(status := Pending));
    case DoUpdateEvent(e) => UpdateKeepsIds(w.db, e);
    case DoPush(now, order, surface) => PushDeletesOld(c, env, w, now, order, surface, r);
    case _ =>
  }

  lemma UpdateKeepsIds(db: Db, e: EventRow)
    ensures EventIds(db.events) <= EventIds(UpdateEvent(db, e).events)
  {
    if e.id in EventIds(db.events) && e.task in TaskIds(db.tasks) {
      var e' := e.(status := StatusOf(db.events, e.id));
      FilterMembers((x: EventRow) => x.id != e.id, db.events);
      PlaceMembers(Without(db.events, e.id), e');
      assert e' in Place(Without(db.events, e.id), e');
    }
  }

  lemma PurgeDeletesOld(env: Env, w: World, now: int, r: EventRow)
    requires r in w.db.events
    requires r.id !in EventIds(MaintainBuffer(env, w, now).db.events)
    ensures r.occurredAt < now - RETENTION
    ensures w.lastPurge.None? || now - w.lastPurge.value >= PURGE_INTERVAL
  {
    var before := now - RETENTION;
    var mid := PurgeSynced(w.db, before);
    FilterMembers((x: EventRow) => KeptSynced(x, before), w.db.events);
    FilterMembers((x: EventRow) => KeptUnsent(x, before), w.db.events);
    FilterMembers((x: EventRow) => KeptUnsent(x, before), mid.events);
  }

  lemma SameRowsTrans(a: seq<EventRow>, b: seq<EventRow>, d: seq<EventRow>, r: EventRow)
    requires SameRows(a, b) && SameRows(b, d) && r in a
    ensures SameRows(a, d) && EventIds(a) == EventIds(d)
    ensures exists r' :: r' in d && r'.id == r.id && r'.occurredAt == r.occurredAt
  {
    assert forall i :: 0 <= i < |a| ==> a[i].(status := Pending) == d[i].(status := Pending);
    assert forall i :: 0 <= i < |a| ==> a[i].(status := Pending).id == d[i].(status := Pending).id;
    IdsOf(a, d);
    var i :| 0 <= i < |a| && a[i] == r;
    assert d[i].(status := Pending) == r.(status := Pending);
    assert d[i] in d && d[i].id == r.id && d[i].occurredAt == r.occurredAt;
  }

  lemma SelectedDeletesOld(c: Config, env: Env, w: World, batch: seq<EventRow>, tasks: seq<TaskRow>,
                           failed: seq<EventRow>, now: int, surface: bool, r: EventRow)
    requires r in w.db.events
    requires r.id !in EventIds(PushSelected(c, env, w, batch, tasks, failed, now, surface).world.db.events)
    ensures r.occurredAt < now - RETENTION
    ensures w.lastPurge.None? || now - w.lastPurge.value >= PURGE_INTERVAL
    ensures (batch != [] || tasks != []) && PushWithSplit(c, env, w, batch, tasks).error.None?
  {
    assert r.id in EventIds(w.db.events);
    SplitKeepsRows(c, env, w, batch, tasks);
    SplitKeepsPurge(c, env, w, batch, tasks);
    var p := PushWithSplit(c, env, w, batch, tasks);
    SameRowsTrans(w.db.events, w.db.events, p.world.db.events, r);
    var r' :| r' in p.world.db.events && r'.id == r.id && r'.occurredAt == r.occurredAt;
    assert batch != [] || tasks != [];
    assert p.error.None?;
    PurgeDeletesOld(env, p.world, now, r');
  }

  lemma PushDeletesOld(c: Config, env: Env, w: World, now: int, order: seq<TaskId>, surface: bool, r: EventRow)
    requires r in w.db.events
    requires r.id !in EventIds(PushBatch(c, env, w, now, order, surface).world.db.events)
    ensures r.occurredAt < now - RETENTION
    ensures w.lastPurge.None? || now - w.lastPurge.value >= PURGE_INTERVAL
    ensures Accepted(c, env, w, order)
  {
    assert r.id in EventIds(w.db.events);
    var s := ScanLoop(c, env, StartScan(w));
    ScanKeepsRows(c, env, StartScan(w));
    ScanKeepsPurge(c, env, StartScan(w));
    SameRowsTrans(w.db.events, w.db.events, s.world.db.events, r);
    var r' :| r' in s.world.db.events && r'.id == r.id && r'.occurredAt == r.occurredAt;
    var q := QueryTasks(env, s.world, s.batch);
    var tasks := Arrange(SelectedTasks(c, q.world.db, s.batch), order);
    assert s.error.None? && q.error.None?;
    SelectedDeletesOld(c, env, q.world, s.batch, tasks, s.failed, now, surface, r');
  }

  lemma {:induction false} ScanKeepsPurge(c: Config, env: Env, s: Scan)
    ensures ScanLoop(c, env, s).world.lastPurge == s.world.lastPurge
    decreases c.ScanLimit() - s.scanned
  {
    if PageLimit(c, s) > 0 {
      var (s', more) := ScanPage(c, env, s);
      if more { ScanKeepsPurge(c, env, s'); }
    }
  }

  lemma {:induction false} SplitKeepsPurge(c: Config, env: Env, w: World, events: seq<EventRow>, tasks: seq<TaskRow>)
    ensures PushWithSplit(c, env, w, events, tasks).world.lastPurge == w.lastPurge
    decreases |events| + |tasks|
  {
    if |events| + |tasks| > 1 && c.size(events, tasks) > MAX_PAYLOAD_BYTES {
      var h := Halves(events, tasks);
      SplitKeepsPurge(c, env, w, h.0, h.1);
      SplitKeepsPurge(c, env, PushWithSplit(c, env, w, h.0, h.1).world, h.2, h.3);
    }
  }
}
