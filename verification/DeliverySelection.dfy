/** Which tasks a push sends, and which failures it reports. */
module DeliverySelection {
  import opened Sequences
  import opened Delivery
  import opened DeliveryScan
  import opened DeliverySafety
  import opened DeliveryRuns

  lemma {:induction false} UniqueFiltered(p: TaskRow -> bool, rows: seq<TaskRow>)
    requires UniqueTasks(rows)
    ensures UniqueTasks(Filter(p, rows))
  {
    if rows != [] {
      UniqueFiltered(p, rows[1..]);
      FilterMembers(p, rows[1..]);
      forall t | t in Filter(p, rows[1..]) ensures t.id != rows[0].id {
        var i :| 0 <= i < |rows[1..]| && rows[1..][i] == t;
        assert rows[i + 1] == t;
      }
    }
  }

  lemma UniqueJoined(a: seq<TaskRow>, b: seq<TaskRow>)
    requires UniqueTasks(a) && UniqueTasks(b) && forall x, y :: x in a && y in b ==> x.id != y.id
    ensures UniqueTasks(a + b)
  {
  }

  lemma {:induction false} ArrangeUnique(tasks: seq<TaskRow>, order: seq<TaskId>)
    requires UniqueTasks(tasks)
    ensures UniqueTasks(Arrange(tasks, order))
    decreases |order|
  {
    if order != [] {
      var now, later := (t: TaskRow) => t.id == order[0], (t: TaskRow) => t.id != order[0];
      UniqueFiltered(now, tasks);
      UniqueFiltered(later, tasks);
      FilterMembers(now, tasks);
      FilterMembers(later, tasks);
      ArrangeUnique(Filter(later, tasks), order[1..]);
      ArrangeMembers(Filter(later, tasks), order[1..]);
      UniqueJoined(Filter(now, tasks), Arrange(Filter(later, tasks), order[1..]));
    }
  }

  /** The first pending tasks of the table, at most a batch of them. */
  function FirstPending(c: Config, db: Db): seq<TaskRow> { Take(PendingTasks(db), c.batchSize) }

  /** A push offers, once each and in any order, the pending tasks that come first or that its events belong to. */
  lemma OfferedIff(c: Config, db: Db, batch: seq<EventRow>, order: seq<TaskId>, t: TaskRow)
    requires UniqueTasks(db.tasks)
    ensures var offered := Arrange(SelectedTasks(c, db, batch), order);
            && (t in offered <==> t in db.tasks && !t.synced && (t in FirstPending(c, db) || t.id in Deps(batch)))
            && UniqueTasks(offered)
  {
    var window, needed := FirstPending(c, db), QueryTasksByIDs(db, Deps(batch));
    ArrangeMembers(SelectedTasks(c, db, batch), order);
    FilterMembers(IsPendingTask, db.tasks);
    FilterMembers(TaskIn(Deps(batch)), PendingTasks(db));
    UniqueFiltered(IsPendingTask, db.tasks);
    UniqueFiltered(TaskIn(Deps(batch)), PendingTasks(db));
    assert window <= PendingTasks(db);
    MergeMembers(PendingTasks(db), window, needed);
    ArrangeUnique(SelectedTasks(c, db, batch), order);
    hide Filter, Arrange, Deps, Merge;
  }

  /** Merging two selections of one table by id keeps every task once. */
  lemma MergeMembers(rows: seq<TaskRow>, first: seq<TaskRow>, second: seq<TaskRow>)
    requires UniqueTasks(rows) && UniqueTasks(first) && UniqueTasks(second)
    requires (forall x :: x in first ==> x in rows) && (forall x :: x in second ==> x in rows)
    ensures UniqueTasks(Merge(first, second)) && forall x :: x in Merge(first, second) <==> x in first || x in second
  {
    var p := Not(TaskIn(TaskIds(first)));
    FilterMembers(p, second);
    UniqueFiltered(p, second);
    SameTask(rows);
    hide Filter;
    forall x | x in second && !p(x) ensures x in first { var y :| y in first && y.id == x.id; }
    UniqueJoined(first, Filter(p, second));
  }

  lemma SameTask(rows: seq<TaskRow>)
    requires UniqueTasks(rows)
    ensures forall x, y :: x in rows && y in rows && x.id == y.id ==> x == y
  {
  }

  /** With surfacing on, a push that gets through reports exactly the scanned rows that could not be converted. */
  lemma SurfacedIff(c: Config, env: Env, w: World, now: int, order: seq<TaskId>, surface: bool)
    ensures var s, error := ScanLoop(c, env, StartScan(w)), PushBatch(c, env, w, now, order, surface).error;
            && (error.None? && surface && !w.stopped ==> s.failed == [])
            && (error.Some? && error.value.ConversionFailed? ==>
                  && surface && s.failed != [] && |error.value.ids| == |s.failed|
                  && forall i :: 0 <= i < |s.failed| ==> error.value.ids[i] == s.failed[i].id)
  {
    hide ScanLoop, PushWithSplit, Arrange, SelectedTasks, MaintainBuffer;
    var s := ScanLoop(c, env, StartScan(w));
    ScanError(c, env, StartScan(w));
    var o := Offered(c, env, w, order);
    SplitError(c, env, o.world, o.events, o.tasks);
  }

  lemma {:induction false} ScanError(c: Config, env: Env, s: Scan)
    requires s.error.None?
    ensures var e := ScanLoop(c, env, s).error; e.None? || e == Some(StorageFailed)
    decreases c.ScanLimit() - s.scanned
  {
    if PageLimit(c, s) > 0 {
      var (s', more) := ScanPage(c, env, s);
      if more { ScanError(c, env, s'); }
    }
  }

  lemma {:induction false} SplitError(c: Config, env: Env, w: World, events: seq<EventRow>, tasks: seq<TaskRow>)
    ensures var e := PushWithSplit(c, env, w, events, tasks).error; e.None? || !e.value.ConversionFailed?
    decreases |events| + |tasks|
  {
    if |events| + |tasks| > 1 && c.size(events, tasks) > MAX_PAYLOAD_BYTES {
      var h := Halves(events, tasks);
      SplitError(c, env, w, h.0, h.1);
      SplitError(c, env, PushWithSplit(c, env, w, h.0, h.1).world, h.2, h.3);
    }
  }
}
