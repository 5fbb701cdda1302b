/** Liveness of the pusher, and what an accepted batch does and does not imply. */
module DeliveryDrain {
  import opened Sequences
  import opened Delivery
  import opened DeliverySplit
  import opened DeliveryScan
  import opened DeliverySafety
  import opened DeliveryRuns

  // ---------------------------------------------------------------- exact marks

  /** The tables with the named events and tasks marked, and every other row as it was. */
  function Marking(db: Db, events: seq<EventRow>, tasks: seq<TaskRow>): Db {
    MarkTasksSynced(MarkSynced(db, EventIds(events)), TaskIds(tasks))
  }

  /** A successful push marks exactly the events and tasks it was given. */
  lemma MarksInput(c: Config, env: Env, w: World, events: seq<EventRow>, tasks: seq<TaskRow>)
    requires forall n :: env.storage(n)
    requires PushWithSplit(c, env, w, events, tasks).error.None?
    ensures PushWithSplit(c, env, w, events, tasks).world.db == Marking(w.db, events, tasks)
  {
    var p := PushWithSplit(c, env, w, events, tasks);
    SplitProgress(c, env, w, events, tasks);
    SplitMarksExactly(c, env, w, events, tasks);
    ReplaySyncs(c, w.db, Since(w, p.world));
  }

  lemma BeforeRefusal(c: Config, db: Db, sent: seq<Entry>, events: seq<EventRow>, tasks: seq<TaskRow>, o: Outcome)
    requires Progress(c, sent, events, tasks, Some(PostFailed(o)))
    ensures var done := sent[..|sent| - 1];
            && AllCompleted(c, done) && EventsOf(done) <= events && TasksOf(done) <= tasks
            && (EventsOf(done) != [] ==> TasksOf(done) == tasks)
            && Replay(db, sent) == Marking(db, EventsOf(done), TasksOf(done))
  {
    hide MarkSynced, MarkTasksSynced, EventsOf, TasksOf;
    var done, last := sent[..|sent| - 1], sent[|sent| - 1];
    assert sent == done + [last];
    EventsOfConcat(done, [last]);
    ReplayConcat(db, done, [last]);
    assert [last][1..] == [];
    ReplaySyncs(c, db, done);
    if EventsOf(done) != [] { TasksAfterEvents(done, last); }
  }

  /** Once an event went out the refused body carried no task. */
  lemma TasksAfterEvents(done: seq<Entry>, last: Entry)
    requires TasksFirst(done + [last]) && EventsOf(done) != []
    ensures TasksOf(done + [last]) == TasksOf(done)
  {
    FreeIffEmpty(done);
    var e :| e in done && EntryEvents(e) != [];
    var i :| 0 <= i < |done| && done[i] == e;
    assert (done + [last])[i] == e && (done + [last])[|done|] == last;
    EventsOfConcat(done, [last]);
    assert [last][1..] == [];
  }

  /** After a refused body exactly the records of the bodies completed before it are marked. */
  lemma MarksCompletedPrefix(c: Config, env: Env, w: World, events: seq<EventRow>, tasks: seq<TaskRow>)
    requires forall n :: env.storage(n)
    requires PushWithSplit(c, env, w, events, tasks).error.Some?
    ensures var p := PushWithSplit(c, env, w, events, tasks);
            && Extends(w, p.world) && Since(w, p.world) != []
            && var done := Since(w, p.world)[..|Since(w, p.world)| - 1];
               && AllCompleted(c, done) && EventsOf(done) <= events && TasksOf(done) <= tasks
               && (EventsOf(done) != [] ==> TasksOf(done) == tasks)
               && p.world.db == Marking(w.db, EventsOf(done), TasksOf(done))
  {
    var p := PushWithSplit(c, env, w, events, tasks);
    SplitProgress(c, env, w, events, tasks);
    SplitMarksExactly(c, env, w, events, tasks);
    BeforeRefusal(c, w.db, Since(w, p.world), events, tasks, p.error.value.outcome);
  }

  predicate CarriesEvent(log: seq<Entry>, i: int, id: EventId) {
    0 <= i < |log| && id in EventIds(EntryEvents(log[i]))
  }

  predicate CarriesTask(log: seq<Entry>, i: int, id: TaskId) {
    0 <= i < |log| && id in TaskIds(EntryTasks(log[i]))
  }

  /** With distinct ids no event is carried by two entries. */
  lemma {:induction false} EventOnce(log: seq<Entry>, id: EventId, i: int, j: int)
    requires UniqueIds(EventsOf(log)) && CarriesEvent(log, i, id) && CarriesEvent(log, j, id)
    ensures i == j
  {
    var head, rest := EntryEvents(log[0]), EventsOf(log[1..]);
    assert EventsOf(log) == head + rest && EventsOf(log)[..|head|] == head && EventsOf(log)[|head|..] == rest;
    UniqueSlices(EventsOf(log), |head|);
    if i > 0 { EventWithin(log[1..], id, i - 1); }
    if j > 0 { EventWithin(log[1..], id, j - 1); }
    if i > 0 && j > 0 {
      forall a, b | 0 <= a < b < |rest| ensures rest[a].id != rest[b].id {
        assert EventsOf(log)[|head| + a] == rest[a] && EventsOf(log)[|head| + b] == rest[b];
      }
      EventOnce(log[1..], id, i - 1, j - 1);
    }
  }

  lemma {:induction false} EventWithin(log: seq<Entry>, id: EventId, j: int)
    requires CarriesEvent(log, j, id)
    ensures id in EventIds(EventsOf(log))
  {
    IdsConcat(EntryEvents(log[0]), EventsOf(log[1..]));
    if j > 0 { EventWithin(log[1..], id, j - 1); }
  }

  lemma UniqueTaskSlices(rows: seq<TaskRow>, k: nat)
    requires UniqueTasks(rows) && k <= |rows|
    ensures TaskIds(rows[..k]) !! TaskIds(rows[k..]) && UniqueTasks(rows[k..])
  {
    forall a, b | a in rows[..k] && b in rows[k..] ensures a.id != b.id {
      var i :| 0 <= i < k && rows[i] == a;
      var j :| 0 <= j < |rows| - k && rows[k..][j] == b;
      assert rows[k + j] == b;
    }
  }

  lemma {:induction false} TaskOnce(log: seq<Entry>, id: TaskId, i: int, j: int)
    requires UniqueTasks(TasksOf(log)) && CarriesTask(log, i, id) && CarriesTask(log, j, id)
    ensures i == j
  {
    var head, rest := EntryTasks(log[0]), TasksOf(log[1..]);
    assert TasksOf(log) == head + rest && TasksOf(log)[..|head|] == head && TasksOf(log)[|head|..] == rest;
    UniqueTaskSlices(TasksOf(log), |head|);
    if i > 0 { TaskWithin(log[1..], id, i - 1); }
    if j > 0 { TaskWithin(log[1..], id, j - 1); }
    if i > 0 && j > 0 {
      TaskOnce(log[1..], id, i - 1, j - 1);
    }
  }

  lemma {:induction false} TaskWithin(log: seq<Entry>, id: TaskId, j: int)
    requires CarriesTask(log, j, id)
    ensures id in TaskIds(TasksOf(log))
  {
    TaskIdsConcat(EntryTasks(log[0]), TasksOf(log[1..]));
    if j > 0 { TaskWithin(log[1..], id, j - 1); }
  }

  /** A successful push settles every input record by exactly one entry. */
  lemma SettledOnce(c: Config, env: Env, w: World, events: seq<EventRow>, tasks: seq<TaskRow>)
    requires UniqueIds(events) && UniqueTasks(tasks)
    requires PushWithSplit(c, env, w, events, tasks).error.None?
    ensures var w' := PushWithSplit(c, env, w, events, tasks).world;
            && Extends(w, w')
            && var sent := Since(w, w');
               && AllCompleted(c, sent)
               && (forall r :: r in events ==> exists i :: CarriesEvent(sent, i, r.id))
               && (forall id, i, j :: CarriesEvent(sent, i, id) && CarriesEvent(sent, j, id) ==> i == j)
               && (forall t :: t in tasks ==> exists i :: CarriesTask(sent, i, t.id))
               && (forall id, i, j :: CarriesTask(sent, i, id) && CarriesTask(sent, j, id) ==> i == j)
  {
    SplitProgress(c, env, w, events, tasks);
    var sent := Since(w, PushWithSplit(c, env, w, events, tasks).world);
    EntryRecords(sent);
    forall r | r in events ensures exists i :: CarriesEvent(sent, i, r.id) {
      var e :| e in sent && r in EntryEvents(e);
      var i :| 0 <= i < |sent| && sent[i] == e;
      assert CarriesEvent(sent, i, r.id);
    }
    forall t | t in tasks ensures exists i :: CarriesTask(sent, i, t.id) {
      var e :| e in sent && t in EntryTasks(e);
      var i :| 0 <= i < |sent| && sent[i] == e;
      assert CarriesTask(sent, i, t.id);
    }
    forall id, i, j | CarriesEvent(sent, i, id) && CarriesEvent(sent, j, id) ensures i == j {
      EventOnce(sent, id, i, j);
    }
    forall id, i, j | CarriesTask(sent, i, id) && CarriesTask(sent, j, id) ensures i == j {
      TaskOnce(sent, id, i, j);
    }
  }

  // ---------------------------------------------------------------- draining

  /** The pending window after a completed batch: what the scan did not reach. */
  lemma WindowAfterPush(c: Config, env: Env, db0: Db, s: Scan, w: World, tasks: seq<TaskRow>)
    requires forall n :: env.storage(n)
    requires UniqueIds(PendingEvents(db0)) && ScanInv(c, db0, s) && w.db == s.world.db
    requires PushWithSplit(c, env, w, s.batch, tasks).error.None?
    ensures PendingEvents(PushWithSplit(c, env, w, s.batch, tasks).world.db) == PendingEvents(db0)[s.scanned..]
  {
    var p0 := PendingEvents(db0);
    MarksInput(c, env, w, s.batch, tasks);
    PendingAfterSync(w.db.events, EventIds(s.batch));
    var ids := EventIds(s.batch);
    UniqueSlices(p0, s.scanned);
    GoodIds(c, p0[..s.scanned]);
    UnseenConcat(s.batch, p0[s.scanned..], ids);
    BatchKept(p0[s.scanned..], ids);
    forall r | r in s.batch ensures r.id in ids { }
    UnseenNone(s.batch, ids);
  }

  lemma {:induction false} FilterCommutes(p: EventRow -> bool, q: EventRow -> bool, rows: seq<EventRow>)
    ensures |Filter(p, Filter(q, rows))| <= |Filter(p, rows)|
  {
    if rows != [] {
      FilterCommutes(p, q, rows[1..]);
      assert rows == [rows[0]] + rows[1..];
      FilterCons(p, rows[0], rows[1..]);
      FilterCons(q, rows[0], rows[1..]);
      if q(rows[0]) { FilterCons(p, rows[0], Filter(q, rows[1..])); }
    }
  }

  lemma MaintainShrinks(env: Env, w: World, now: int)
    ensures |PendingEvents(MaintainBuffer(env, w, now).db)| <= |PendingEvents(w.db)|
    ensures MaintainBuffer(env, w, now).stopped == w.stopped
    ensures UniqueIds(w.db.events) ==> UniqueIds(MaintainBuffer(env, w, now).db.events)
  {
    var before := now - RETENTION;
    var synced, unsent := (r: EventRow) => KeptSynced(r, before), (r: EventRow) => KeptUnsent(r, before);
    var mid := PurgeSynced(w.db, before);
    FilterCommutes(IsPending, synced, w.db.events);
    FilterCommutes(IsPending, unsent, w.db.events);
    FilterCommutes(IsPending, unsent, mid.events);
    if UniqueIds(w.db.events) {
      UniqueFilter(synced, w.db.events);
      UniqueFilter(unsent, w.db.events);
      UniqueFilter(unsent, mid.events);
    }
  }

  lemma SameRowsUnique(a: seq<EventRow>, b: seq<EventRow>)
    requires SameRows(a, b) && UniqueIds(a)
    ensures UniqueIds(b)
  {
    forall i, j | 0 <= i < j < |b| ensures b[i].id != b[j].id {
      assert a[i].(status := Pending) == b[i].(status := Pending);
      assert a[j].(status := Pending) == b[j].(status := Pending);
    }
  }

  lemma PushKeepsUnique(c: Config, env: Env, w: World, now: int, order: seq<TaskId>, surface: bool)
    requires UniqueIds(w.db.events)
    ensures UniqueIds(PushBatch(c, env, w, now, order, surface).world.db.events)
  {
    hide Filter, ScanLoop, PushWithSplit, MaintainBuffer, Arrange, SelectedTasks;
    var s := ScanLoop(c, env, StartScan(w));
    ScanKeepsRows(c, env, StartScan(w));
    SameRowsUnique(w.db.events, s.world.db.events);
    var q := QueryTasks(env, s.world, s.batch).world;
    var tasks := Arrange(SelectedTasks(c, q.db, s.batch), order);
    var p := PushWithSplit(c, env, q, s.batch, tasks);
    SplitKeepsRows(c, env, q, s.batch, tasks);
    SameRowsUnique(q.db.events, p.world.db.events);
    MaintainShrinks(env, p.world, now);
  }

  /** Half a batch, rounded up: what a push is sure to take off the pending window. */
  function Throughput(c: Config): nat { (c.batchSize + 1) / 2 }

  lemma PushSends(c: Config, env: Env, w: World, now: int, order: seq<TaskId>, surface: bool)
    requires !w.stopped
    requires forall n :: env.storage(n)
    requires forall n :: Acked(env.server(n))
    ensures var s, o := ScanLoop(c, env, StartScan(w)), Offered(c, env, w, order);
            var p := PushWithSplit(c, env, o.world, o.events, o.tasks);
            && s.error.None? && p.error.None? && !p.world.stopped
            && o.events == s.batch && o.world.db == s.world.db
            && PushBatch(c, env, w, now, order, surface).world
               == if o.events == [] && o.tasks == [] then p.world else MaintainBuffer(env, p.world, now)
  {
    ScanSucceeds(c, env, StartScan(w));
    var o := Offered(c, env, w, order);
    SplitSucceeds(c, env, o.world, o.events, o.tasks);
  }

  /** With an accepting server every push takes at least half a batch off the pending window. */
  lemma PushDrains(c: Config, env: Env, w: World, now: int, order: seq<TaskId>, surface: bool)
    requires c.Valid() && UniqueIds(w.db.events) && !w.stopped
    requires forall n :: env.storage(n)
    requires forall n :: Acked(env.server(n))
    ensures var w' := PushBatch(c, env, w, now, order, surface).world;
            && !w'.stopped
            && |PendingEvents(w'.db)| <= Max(0, |PendingEvents(w.db)| - Throughput(c))
  {
    UniqueFilter(IsPending, w.db.events);
    hide Filter, ScanLoop, PushWithSplit, PushBatch, Offered, MaintainBuffer;
    var s, o := ScanLoop(c, env, StartScan(w)), Offered(c, env, w, order);
    PushSends(c, env, w, now, order, surface);
    ScanIsPrefix(c, env, w);
    WindowAfterPush(c, env, w.db, s, o.world, o.tasks);
    MaintainShrinks(env, PushWithSplit(c, env, o.world, o.events, o.tasks).world, now);
  }

  lemma StepDrains(c: Config, env: Env, w: World, a: Action)
    requires c.Valid() && UniqueIds(w.db.events) && !w.stopped && a.DoPush?
    requires forall n :: env.storage(n)
    requires forall n :: Acked(env.server(n))
    ensures var w' := Step(c, env, w, a);
            && !w'.stopped && UniqueIds(w'.db.events)
            && |PendingEvents(w'.db)| <= Max(0, |PendingEvents(w.db)| - Throughput(c))
  {
    PushDrains(c, env, w, a.now, a.order, a.surface);
    PushKeepsUnique(c, env, w, a.now, a.order, a.surface);
  }

  predicate OnlyPushes(actions: seq<Action>) { forall a :: a in actions ==> a.DoPush? }

  /** Without inserts an accepting server empties the pending window, half a batch or more a push. */
  lemma {:induction false} RunDrains(c: Config, env: Env, w: World, pushes: seq<Action>)
    requires c.Valid() && UniqueIds(w.db.events) && !w.stopped && OnlyPushes(pushes)
    requires forall n :: env.storage(n)
    requires forall n :: Acked(env.server(n))
    ensures |PendingEvents(Run(c, env, w, pushes).db)| <= Max(0, |PendingEvents(w.db)| - |pushes| * Throughput(c))
    decreases |pushes|
  {
    if pushes != [] {
      assert pushes[0] in pushes;
      var w' := Step(c, env, w, pushes[0]);
      StepDrains(c, env, w, pushes[0]);
      assert Run(c, env, w, pushes) == Run(c, env, w', pushes[1..]);
      RunDrains(c, env, w', pushes[1..]);
      LeftAfter(|PendingEvents(w.db)|, |PendingEvents(w'.db)|, |pushes|, Throughput(c));
    }
  }

  lemma LeftAfter(before: int, after: int, n: int, half: int)
    requires n > 0 && 0 <= half && after <= Max(0, before - half)
    ensures Max(0, after - (n - 1) * half) <= Max(0, before - n * half)
  {
    assert (n - 1) * half == n * half - half;
  }

  predicate IsPush(a: Action) { a.DoPush? }

  /** After an auth refusal, until a new key is set, nothing is sent and every push leaves the world as it is. */
  lemma {:induction false} StoppedSendsNothing(c: Config, env: Env, w: World, actions: seq<Action>)
    requires w.stopped
    requires forall a :: a in actions ==> !a.DoSetApiKey? && !a.DoRestart?
    ensures Run(c, env, w, actions).log == w.log && Run(c, env, w, actions).stopped
    ensures Run(c, env, w, actions) == Run(c, env, w, Filter(Not(IsPush), actions))
    decreases |actions|
  {
    if actions != [] {
      var a, rest := actions[0], actions[1..];
      var w' := Step(c, env, w, a);
      assert a in actions && actions == [a] + rest;
      StoppedSendsNothing(c, env, w', rest);
      FilterCons(Not(IsPush), a, rest);
      assert ([a] + Filter(Not(IsPush), rest))[1..] == Filter(Not(IsPush), rest);
      if a.DoPush? { assert w' == w; }
    }
  }

  // ---------------------------------------------------------------- acceptance without an acknowledgement

  predicate HasAck(log: seq<Entry>) { exists e :: e in log && e.Posted? && Acked(e.outcome) }

  predicate FitsAlone(c: Config, events: seq<EventRow>, tasks: seq<TaskRow>) {
    || (exists r :: r in events && c.size([r], []) <= MAX_PAYLOAD_BYTES)
    || (exists t :: t in tasks && c.size([], [t]) <= MAX_PAYLOAD_BYTES)
  }

  /** A payload is at least as long as each of its records alone. */
  ghost predicate SizeGrows(c: Config) {
    && (forall es, ts, r {:trigger c.size(es, ts), c.size([r], [])} :: r in es ==> c.size([r], []) <= c.size(es, ts))
    && (forall es, ts, t {:trigger c.size(es, ts), c.size([], [t])} :: t in ts ==> c.size([], [t]) <= c.size(es, ts))
  }

  lemma {:induction false} EntryRecords(log: seq<Entry>)
    ensures forall r :: r in EventsOf(log) ==> exists e :: e in log && r in EntryEvents(e)
    ensures forall t :: t in TasksOf(log) ==> exists e :: e in log && t in EntryTasks(e)
    ensures forall e, r :: e in log && r in EntryEvents(e) ==> r in EventsOf(log)
    ensures forall e, t :: e in log && t in EntryTasks(e) ==> t in TasksOf(log)
  {
    if log != [] {
      EntryRecords(log[1..]);
      assert forall e :: e in log <==> e == log[0] || e in log[1..];
    }
  }

  lemma AckFits(c: Config, sent: seq<Entry>)
    requires SizeGrows(c) && AllCompleted(c, sent) && HasAck(sent)
    ensures FitsAlone(c, EventsOf(sent), TasksOf(sent))
  {
    EntryRecords(sent);
    var e :| e in sent && e.Posted? && Acked(e.outcome);
    assert Completed(c, e);
    if e.events != [] {
      var r := e.events[0];
      assert r in EntryEvents(e) && c.size([r], []) <= c.size(e.events, e.tasks);
    } else {
      var t := e.tasks[0];
      assert t in EntryTasks(e) && c.size([], [t]) <= c.size(e.events, e.tasks);
    }
  }

  lemma FitsAcked(c: Config, sent: seq<Entry>)
    requires AllCompleted(c, sent) && FitsAlone(c, EventsOf(sent), TasksOf(sent))
    ensures HasAck(sent)
  {
    EntryRecords(sent);
    if r :| r in EventsOf(sent) && c.size([r], []) <= MAX_PAYLOAD_BYTES {
      var e :| e in sent && r in EntryEvents(e);
      assert Completed(c, e);
    } else {
      var t :| t in TasksOf(sent) && c.size([], [t]) <= MAX_PAYLOAD_BYTES;
      var e :| e in sent && t in EntryTasks(e);
      assert Completed(c, e);
    }
  }

  /**
   A push that reports success contains an acknowledged body exactly when some record fits the
   limit alone. A batch of oversized singletons succeeds, and lets retention run, without one.
   */
  lemma AckIffSomethingFits(c: Config, env: Env, w: World, events: seq<EventRow>, tasks: seq<TaskRow>)
    requires SizeGrows(c)
    requires PushWithSplit(c, env, w, events, tasks).error.None?
    ensures var p := PushWithSplit(c, env, w, events, tasks);
            Extends(w, p.world) && (HasAck(Since(w, p.world)) <==> FitsAlone(c, events, tasks))
  {
    var p := PushWithSplit(c, env, w, events, tasks);
    SplitProgress(c, env, w, events, tasks);
    var sent := Since(w, p.world);
    if HasAck(sent) { AckFits(c, sent); }
    if FitsAlone(c, events, tasks) { FitsAcked(c, sent); }
  }

  predicate NothingPosted(log: seq<Entry>) { forall e :: e in log ==> !e.Posted? }

  lemma {:induction false} ScanPostsNothing(c: Config, env: Env, s: Scan)
    ensures Extends(s.world, ScanLoop(c, env, s).world) && NothingPosted(Since(s.world, ScanLoop(c, env, s).world))
    decreases c.ScanLimit() - s.scanned
  {
    if PageLimit(c, s) > 0 {
      var (s', more) := ScanPage(c, env, s);
      assert Extends(s.world, s'.world) && NothingPosted(Since(s.world, s'.world));
      if more {
        ScanPostsNothing(c, env, s');
        SinceChain(s.world, s'.world, ScanLoop(c, env, s').world);
      }
    }
  }

  /** Retention last ran an hour ago or longer. */
  predicate PurgeDue(w: World, now: int) { w.lastPurge.None? || now - w.lastPurge.value >= PURGE_INTERVAL }

  /**
   Where retention happens: it runs exactly in a due push whose whole non-empty batch was completed,
   and such a push holds an acknowledged body exactly when some offered record fits the limit alone.
   */
  lemma RetentionAckIff(c: Config, env: Env, w: World, now: int, order: seq<TaskId>, surface: bool)
    requires SizeGrows(c)
    ensures var w' := PushBatch(c, env, w, now, order, surface).world;
            var o := Offered(c, env, w, order);
            && w'.lastPurge == (if Accepted(c, env, w, order) && PurgeDue(w, now) then Some(now) else w.lastPurge)
            && (Accepted(c, env, w, order) ==>
                  Extends(w, w') && (HasAck(Since(w, w')) <==> FitsAlone(c, o.events, o.tasks)))
  {
    ScanKeepsPurge(c, env, StartScan(w));
    var s, o := ScanLoop(c, env, StartScan(w)), Offered(c, env, w, order);
    SplitKeepsPurge(c, env, o.world, o.events, o.tasks);
    if Accepted(c, env, w, order) {
      ScanPostsNothing(c, env, StartScan(w));
      var p := PushWithSplit(c, env, o.world, o.events, o.tasks);
      AckIffSomethingFits(c, env, o.world, o.events, o.tasks);
      SinceChain(w, o.world, p.world);
      AckBehind(Since(w, o.world), Since(o.world, p.world));
      assert PushBatch(c, env, w, now, order, surface).world.log == p.world.log;
    }
  }

  lemma AckBehind(a: seq<Entry>, b: seq<Entry>)
    requires NothingPosted(a)
    ensures HasAck(a + b) <==> HasAck(b)
  {
    if HasAck(b) {
      var e :| e in b && e.Posted? && Acked(e.outcome);
      assert e in a + b;
    }
  }

  /** Everything is over the limit, and the server answers nothing. */
  const OVERSIZED := Config(1, (x: EventRow) => true, (es, ts) => MAX_PAYLOAD_BYTES + 1)
  const DEAD_SERVER := Env(n => NetworkError, n => true)

  function OutageRun(t: TaskRow, r: EventRow, bystander: EventRow): seq<Action> {
    [DoInsertTask(t), DoInsertEvent(r), DoInsertEvent(bystander), DoPush(0, [], true)]
  }

  lemma Inserted(c: Config, env: Env, t: TaskRow, r: EventRow, bystander: EventRow)
    requires forall n :: env.storage(n)
    requires r.task == t.id && bystander.task == t.id && r.id != bystander.id && r.occurredAt <= bystander.occurredAt
    ensures var db := Db([r.(status := Pending), bystander.(status := Pending)], [t.(synced := false)]);
            Run(c, env, Start, OutageRun(t, r, bystander)) == PushBatch(c, env, Start.(db := db, ops := 3), 0, [], true).world
  {
    var t0, r0, b0 := t.(synced := false), r.(status := Pending), bystander.(status := Pending);
    RowsInserted(t, r, bystander);
    var w1 := Step(c, env, Start, DoInsertTask(t));
    var w2 := Step(c, env, w1, DoInsertEvent(r));
    var w3 := Step(c, env, w2, DoInsertEvent(bystander));
    hide InsertEvent, InsertTask, PushBatch, Run;
    assert w3 == Start.(db := Db([r0, b0], [t0]), ops := 3);
    RunOfFour(c, env, Start, OutageRun(t, r, bystander));
  }

  lemma RowsInserted(t: TaskRow, r: EventRow, bystander: EventRow)
    requires r.task == t.id && bystander.task == t.id && r.id != bystander.id && r.occurredAt <= bystander.occurredAt
    ensures var t0, r0, b0 := t.(synced := false), r.(status := Pending), bystander.(status := Pending);
            && InsertTask(Db([], []), t) == Db([], [t0]) && InsertEvent(Db([], [t0]), r) == Db([r0], [t0])
            && InsertEvent(Db([r0], [t0]), bystander) == Db([r0, b0], [t0])
  {
    var t0, r0, b0 := t.(synced := false), r.(status := Pending), bystander.(status := Pending);
    assert TaskIds([t0]) == {t.id} && EventIds([r0]) == {r.id};
    assert Place([r0], b0) == [r0] + Place([r0][1..], b0) && [r0][1..] == [];
  }

  lemma RunOfFour(c: Config, env: Env, w: World, run: seq<Action>)
    requires |run| == 4
    ensures Run(c, env, w, run) == Step(c, env, Step(c, env, Step(c, env, Step(c, env, w, run[0]), run[1]), run[2]), run[3])
  {
    hide Step;
    var w1 := Step(c, env, w, run[0]);
    var w2 := Step(c, env, w1, run[1]);
    var w3, last := Step(c, env, w2, run[2]), run[1..][1..][1..];
    assert last == [run[3]] && last[1..] == [];
    assert Run(c, env, w3, last) == Run(c, env, Step(c, env, w3, run[3]), []);
    assert Run(c, env, w2, run[1..][1..]) == Run(c, env, w3, last);
    assert Run(c, env, w1, run[1..]) == Run(c, env, w2, run[1..][1..]);
  }

  /** The oversized task and event are dropped, and the window behind them is not read. */
  lemma OversizedScan(t: TaskRow, r: EventRow, bystander: EventRow)
    requires !t.synced && IsPending(r) && IsPending(bystander) && r.task == t.id
    ensures var w := Start.(db := Db([r, bystander], [t]), ops := 3);
            var s := ScanLoop(OVERSIZED, DEAD_SERVER, StartScan(w));
            s.batch == [r] && s.failed == [] && s.error == None && s.world == w.(ops := 4)
  {
    var c, env := OVERSIZED, DEAD_SERVER;
    var w := Start.(db := Db([r, bystander], [t]), ops := 3);
    FilterAll(IsPending, [r, bystander]);
    assert Take(PendingEvents(w.db), 1) == [r];
    assert [r][1..] == [];
    assert Unseen([r], {}) == [r] && Good(c, [r]) == [r] && Bad(c, [r]) == [];
    var (s1, more) := ScanPage(c, env, StartScan(w));
    assert s1.batch == [] + [r] == [r] && s1.failed == [] + [] == [] && s1.world == w.(ops := 4);
  }

  /**
   A run in which the server answers nothing at all: an oversized event is given up, retention
   runs, and a second event, old but never offered to the server, is deleted with it.
   */
  lemma RetentionWithoutAck(t: TaskRow, r: EventRow, bystander: EventRow)
    requires r.task == t.id && bystander.task == t.id && r.id != bystander.id
    requires r.occurredAt <= bystander.occurredAt < -RETENTION
    ensures var w := Run(OVERSIZED, DEAD_SERVER, Start, OutageRun(t, r, bystander));
            && w.db.events == []
            && w.log == [DroppedTask(t.(synced := false)), DroppedEvent(r.(status := Pending))]
  {
    var c, env := OVERSIZED, DEAD_SERVER;
    var t0, r0, b0 := t.(synced := false), r.(status := Pending), bystander.(status := Pending);
    var w := Start.(db := Db([r0, b0], [t0]), ops := 3);
    Inserted(c, env, t, r, bystander);
    OversizedScan(t0, r0, b0);
    var q := QueryTasks(env, w.(ops := 4), [r0]).world;
    OfferedTask(t0, q.db, [r0]);
    var p := PushWithSplit(c, env, q, [r0], [t0]);
    OversizedDropped(env, q, r0, b0, t0);
    assert p.error.None? && p.world.log == [DroppedTask(t0), DroppedEvent(r0)];
    OldPurged(env, p.world, r0.(status := Synced), b0);
  }

  lemma OfferedTask(t: TaskRow, db: Db, batch: seq<EventRow>)
    requires db.tasks == [t] && !t.synced
    ensures Arrange(SelectedTasks(OVERSIZED, db, batch), []) == [t]
  {
    FilterAll(IsPendingTask, [t]);
    assert Take([t], 1) == [t];
    FilterMembers(TaskIn(Deps(batch)), [t]);
    FilterNone(Not(TaskIn(TaskIds([t]))), QueryTasksByIDs(db, Deps(batch)));
    assert [t] + [] == [t];
  }

  lemma OversizedDropped(env: Env, w: World, r: EventRow, b: EventRow, t: TaskRow)
    requires forall n :: env.storage(n)
    requires w.db == Db([r, b], [t]) && w.log == [] && r.id != b.id && !t.synced && IsPending(r)
    ensures var p := PushWithSplit(OVERSIZED, env, w, [r], [t]);
            && p.error.None? && p.world.log == [DroppedTask(t), DroppedEvent(r)]
            && p.world.db.events == [r.(status := Synced), b] && p.world.lastPurge == w.lastPurge
  {
    var c := OVERSIZED;
    var first := PushWithSplit(c, env, w, [], [t]);
    assert TaskIds([t]) == {t.id} && EventIds([r]) == {r.id};
    assert first.world.log == [] + [DroppedTask(t)] == [DroppedTask(t)] && first.world.db.events == [r, b];
    var second := PushWithSplit(c, env, first.world, [r], []);
    assert second.world.db.events == [r.(status := Synced), b];
    assert second.world.log == [DroppedTask(t)] + [DroppedEvent(r)];
  }

  lemma OldPurged(env: Env, w: World, r: EventRow, b: EventRow)
    requires forall n :: env.storage(n)
    requires w.db.events == [r, b] && r.status.Synced? && IsPending(b) && w.lastPurge.None?
    requires r.occurredAt <= b.occurredAt < -RETENTION
    ensures MaintainBuffer(env, w, 0).db.events == []
  {
    var mid := PurgeSynced(w.db, -RETENTION);
    FilterMembers((x: EventRow) => KeptSynced(x, -RETENTION), w.db.events);
    FilterNone((x: EventRow) => KeptUnsent(x, -RETENTION), mid.events);
  }
}
