/**
 The buffer and the pusher as the objects the SDK runs: their methods update the tables, the stop flag
 and the back-off in place and compute the functions of Delivery.
 */
module Pusher {
  import opened Sequences
  import opened Delivery
  import opened DeliveryScan
  import opened DeliverySafety
  import DeliveryAnswers

  /** The SQLite buffer: two tables. `outcomes` says which storage calls succeed. */
  class SQLiteBuffer {
    var events: seq<EventRow>
    var tasks: seq<TaskRow>
    var ops: nat
    const outcomes: nat -> bool

    constructor (outcomes: nat -> bool)
      ensures events == [] && tasks == [] && ops == 0 && this.outcomes == outcomes
    {
      events, tasks, ops := [], [], 0;
      this.outcomes := outcomes;
    }

    ghost function Contents(): Db
      reads this
    {
      Db(events, tasks)
    }

    method InsertEvent(r: EventRow) returns (ok: bool)
      modifies this
      ensures ok <==> outcomes(old(ops)) && r.id !in EventIds(old(events)) && r.task in TaskIds(old(tasks))
      ensures ops == old(ops) + 1
      ensures Contents() == if outcomes(old(ops)) then Delivery.InsertEvent(old(Contents()), r) else old(Contents())
    {
      ok := outcomes(ops) && r.id !in EventIds(events) && r.task in TaskIds(tasks);
      if ok { events := Place(events, r.(status := Pending)); }
      ops := ops + 1;
    }

    method InsertTask(t: TaskRow) returns (ok: bool)
      modifies this
      ensures ok <==> outcomes(old(ops)) && t.id !in TaskIds(old(tasks))
      ensures ops == old(ops) + 1
      ensures Contents() == if outcomes(old(ops)) then Delivery.InsertTask(old(Contents()), t) else old(Contents())
    {
      ok := outcomes(ops) && t.id !in TaskIds(tasks);
      if ok { tasks := PlaceTask(tasks, t.(synced := false)); }
      ops := ops + 1;
    }

    /**
     Every column but the sync status is replaced, in index order; the new task must exist. The row is
     neither queued again nor withdrawn, and an unknown id changes nothing.
     */
    method UpdateEvent(r: EventRow) returns (ok: bool)
      requires UniqueIds(events) && SortedEvents(events)
      modifies this
      ensures UniqueIds(events) && SortedEvents(events)
      ensures ok <==> outcomes(old(ops)) && (r.id in EventIds(old(events)) ==> r.task in TaskIds(old(tasks)))
      ensures ops == old(ops) + 1 && tasks == old(tasks)
      ensures !ok || r.id !in EventIds(old(events)) ==> events == old(events)
      ensures Without(events, r.id) == Without(old(events), r.id)
      ensures ok && r.id in EventIds(old(events)) ==>
                && r.(status := StatusOf(old(events), r.id)) in events
                && EventIds(PendingEvents(Contents())) == EventIds(old(PendingEvents(Contents())))
      ensures Contents() == if ok then Delivery.UpdateEvent(old(Contents()), r) else old(Contents())
    {
      ok := outcomes(ops) && (r.id in EventIds(events) ==> r.task in TaskIds(tasks));
      if ok && r.id in EventIds(events) {
        UpdateInPlace(Contents(), r);
        events := Place(Without(events, r.id), r.(status := StatusOf(events, r.id)));
      }
      ops := ops + 1;
    }

    /** The task takes the new content and is pending again; every other row is as it was. */
    method UpdateTask(id: TaskId, content: nat) returns (ok: bool)
      modifies this
      ensures ok == outcomes(old(ops)) && ops == old(ops) + 1 && events == old(events)
      ensures |tasks| == |old(tasks)|
      ensures forall i :: 0 <= i < |tasks| ==>
                tasks[i] == (if ok && old(tasks)[i].id == id then TaskRow(id, old(tasks)[i].startedAt, content, false)
                             else old(tasks)[i])
      ensures ok ==> forall t :: t in tasks && t.id == id ==> t in PendingTasks(Contents())
    {
      ok := outcomes(ops);
      if ok { tasks := Delivery.UpdateTask(Db(events, tasks), id, content).tasks; }
      FilterMembers(IsPendingTask, tasks);
      ops := ops + 1;
    }

    method QueryPendingEvents(limit: nat) returns (ok: bool, page: seq<EventRow>)
      modifies this`ops
      ensures ok == outcomes(old(ops)) && ops == old(ops) + 1
      ensures ok ==> page == Take(PendingEvents(Contents()), limit)
    {
      ok, page := outcomes(ops), [];
      ops := ops + 1;
      if ok {
        var i := 0;
        while i < |events| && |page| < limit
          invariant i <= |events| && |page| <= limit && ops == old(ops) + 1
          invariant page == Filter(IsPending, events[..i])
        {
          FilterStep(IsPending, events, i);
          if events[i].status.Pending? { page := page + [events[i]]; }
          i := i + 1;
        }
        TakeFiltered(IsPending, events, i, limit);
      }
    }

    method QueryPendingTasks(limit: nat) returns (ok: bool, page: seq<TaskRow>)
      modifies this`ops
      ensures ok == outcomes(old(ops)) && ops == old(ops) + 1
      ensures ok ==> page == Take(PendingTasks(Contents()), limit)
    {
      ok, page := outcomes(ops), [];
      ops := ops + 1;
      if ok {
        var i := 0;
        while i < |tasks| && |page| < limit
          invariant i <= |tasks| && |page| <= limit && ops == old(ops) + 1
          invariant page == Filter(IsPendingTask, tasks[..i])
        {
          FilterStep(IsPendingTask, tasks, i);
          if !tasks[i].synced { page := page + [tasks[i]]; }
          i := i + 1;
        }
        TakeFiltered(IsPendingTask, tasks, i, limit);
      }
    }

    /** Exactly the pending tasks among the ids; a synced task is not sent again for a later event. */
    method QueryTasksByIDs(ids: set<TaskId>) returns (ok: bool, page: seq<TaskRow>)
      modifies this`ops
      ensures ops == old(ops) + (if ids == {} then 0 else 1)
      ensures ok <==> ids == {} || outcomes(old(ops))
      ensures ok ==> page == Delivery.QueryTasksByIDs(Contents(), ids)
      ensures ok ==> forall t :: t in page <==> t in tasks && !t.synced && t.id in ids
    {
      ok, page := true, [];
      FilterMembers(TaskIn(ids), PendingTasks(Contents()));
      FilterMembers(IsPendingTask, tasks);
      if ids == {} {
        FilterNone(TaskIn(ids), PendingTasks(Contents()));
        return;
      }
      ok := outcomes(ops);
      ops := ops + 1;
      if ok {
        var i := 0;
        while i < |tasks|
          invariant i <= |tasks| && ops == old(ops) + 1
          invariant page == Filter(TaskIn(ids), Filter(IsPendingTask, tasks[..i]))
        {
          FilterStep(IsPendingTask, tasks, i);
          if !tasks[i].synced {
            FilterSnoc(TaskIn(ids), Filter(IsPendingTask, tasks[..i]), tasks[i]);
            if tasks[i].id in ids { page := page + [tasks[i]]; }
          }
          i := i + 1;
        }
        assert tasks[..i] == tasks;
      }
    }

    /** The named events become synced and leave the pending window, which keeps its order; nothing else changes. */
    method MarkSynced(ids: set<EventId>) returns (ok: bool)
      modifies this
      ensures ops == old(ops) + (if ids == {} then 0 else 1) && tasks == old(tasks)
      ensures ok <==> ids == {} || outcomes(old(ops))
      ensures |events| == |old(events)|
      ensures forall i :: 0 <= i < |events| ==>
                events[i] == (if ok && old(events)[i].id in ids then old(events)[i].(status := Synced) else old(events)[i])
      ensures ok ==> PendingEvents(Contents()) == Unseen(old(PendingEvents(Contents())), ids)
    {
      ok := ids == {} || outcomes(ops);
      if ids == {} {
        UnseenAll(PendingEvents(Contents()), ids);
        return;
      }
      if ok {
        PendingAfterSync(events, ids);
        events := SyncEvents(events, ids);
      }
      ops := ops + 1;
    }

    /** Of the named events the pending ones are set aside; a synced one stays synced, and nothing else changes. */
    method MarkQuarantined(ids: set<EventId>) returns (ok: bool)
      modifies this
      ensures ops == old(ops) + (if ids == {} then 0 else 1) && tasks == old(tasks)
      ensures ok <==> ids == {} || outcomes(old(ops))
      ensures |events| == |old(events)|
      ensures forall i :: 0 <= i < |events| ==>
                events[i] == (if ok && old(events)[i].id in ids && old(events)[i].status.Pending?
                              then old(events)[i].(status := Quarantined) else old(events)[i])
      ensures ok ==> PendingEvents(Contents()) == Unseen(old(PendingEvents(Contents())), ids)
    {
      ok := ids == {} || outcomes(ops);
      if ids == {} {
        UnseenAll(PendingEvents(Contents()), ids);
        return;
      }
      if ok {
        PendingAfterQuarantine(events, ids);
        events := QuarantineEvents(events, ids);
      }
      ops := ops + 1;
    }

    /** The named tasks become synced and leave the pending window, which keeps its order; nothing else changes. */
    method MarkTasksSynced(ids: set<TaskId>) returns (ok: bool)
      modifies this
      ensures ops == old(ops) + (if ids == {} then 0 else 1) && events == old(events)
      ensures ok <==> ids == {} || outcomes(old(ops))
      ensures |tasks| == |old(tasks)|
      ensures forall i :: 0 <= i < |tasks| ==>
                tasks[i] == (if ok && old(tasks)[i].id in ids then old(tasks)[i].(synced := true) else old(tasks)[i])
      ensures ok ==> PendingTasks(Contents()) == Filter(Not(TaskIn(ids)), old(PendingTasks(Contents())))
    {
      ok := ids == {} || outcomes(ops);
      if ids == {} {
        FilterAll(Not(TaskIn(ids)), PendingTasks(Contents()));
        return;
      }
      if ok {
        PendingTasksAfterSync(tasks, ids);
        tasks := SyncTasks(tasks, ids);
      }
      ops := ops + 1;
    }

    /** Deletes the old synced events; the pending window is untouched. */
    method PurgeSyncedEvents(before: int)
      modifies this
      ensures ops == old(ops) + 1 && tasks == old(tasks)
      ensures forall r :: r in events
                          <==> r in old(events) && !(outcomes(old(ops)) && r.status.Synced? && r.occurredAt < before)
      ensures PendingEvents(Contents()) == old(PendingEvents(Contents()))
      ensures Contents() == if outcomes(old(ops)) then PurgeSynced(old(Contents()), before) else old(Contents())
    {
      if outcomes(ops) {
        var kept := (r: EventRow) => KeptSynced(r, before);
        FilterMembers(kept, events);
        FilterTwice(IsPending, kept, IsPending, events);
        events := Filter(kept, events);
      }
      ops := ops + 1;
    }

    /** Deletes the old unsent events, pending or quarantined; the synced ones stay, in order. */
    method PurgeOldPendingEvents(before: int)
      modifies this
      ensures ops == old(ops) + 1 && tasks == old(tasks)
      ensures forall r :: r in events
                          <==> r in old(events) && !(outcomes(old(ops)) && !r.status.Synced? && r.occurredAt < before)
      ensures Filter(IsSynced, events) == Filter(IsSynced, old(events))
      ensures outcomes(old(ops)) ==> PendingEvents(Contents()) == Filter(Since(before), old(PendingEvents(Contents())))
      ensures Contents() == if outcomes(old(ops)) then PurgeUnsent(old(Contents()), before) else old(Contents())
    {
      if outcomes(ops) {
        var kept := (r: EventRow) => KeptUnsent(r, before);
        FilterMembers(kept, events);
        FilterTwice(IsSynced, kept, IsSynced, events);
        FilterTwice(IsPending, kept, Both(IsPending, Since(before)), events);
        FilterFilter(Since(before), IsPending, events);
        events := Filter(kept, events);
      }
      ops := ops + 1;
    }
  }

  predicate IsSynced(r: EventRow) { r.status.Synced? }

  function Since(before: int): EventRow -> bool { (r: EventRow) => r.occurredAt >= before }

  /** Filtering twice by predicates that together say what a third one says. */
  lemma FilterTwice(p: EventRow -> bool, q: EventRow -> bool, both: EventRow -> bool, rows: seq<EventRow>)
    requires forall r :: r in rows ==> (p(r) && q(r) <==> both(r))
    ensures Filter(p, Filter(q, rows)) == Filter(both, rows)
  {
    FilterFilter(p, q, rows);
    FilterAgree(Both(q, p), both, rows);
  }

  lemma {:induction false} PendingTasksAfterSync(rows: seq<TaskRow>, ids: set<TaskId>)
    ensures Filter(IsPendingTask, SyncTasks(rows, ids)) == Filter(Not(TaskIn(ids)), Filter(IsPendingTask, rows))
  {
    if rows != [] {
      hide Filter;
      var t, rest := rows[0], rows[1..];
      PendingTasksAfterSync(rest, ids);
      assert rows == [t] + rest && SyncTasks(rows, ids) == [SyncTask(t, ids)] + SyncTasks(rest, ids);
      FilterCons(IsPendingTask, t, rest);
      FilterCons(IsPendingTask, SyncTask(t, ids), SyncTasks(rest, ids));
      if !t.synced { FilterCons(Not(TaskIn(ids)), t, Filter(IsPendingTask, rest)); }
    }
  }

  lemma {:induction false} PlaceApart(rows: seq<EventRow>, r: EventRow)
    requires forall x :: x in rows ==> x.id != r.id
    ensures Without(Place(rows, r), r.id) == rows
  {
    var other := (x: EventRow) => x.id != r.id;
    if rows == [] || r.occurredAt < rows[0].occurredAt {
      FilterCons(other, r, rows);
      FilterAll(other, rows);
    } else {
      PlaceApart(rows[1..], r);
      FilterCons(other, rows[0], Place(rows[1..], r));
    }
  }

  lemma UpdateKeepsWindow(db: Db, e: EventRow)
    requires UniqueIds(db.events) && e.id in EventIds(db.events) && e.task in TaskIds(db.tasks)
    ensures EventIds(PendingEvents(Delivery.UpdateEvent(db, e))) == EventIds(PendingEvents(db))
  {
    var db', e', others := Delivery.UpdateEvent(db, e), e.(status := StatusOf(db.events, e.id)), Without(db.events, e.id);
    StatusOfFound(db.events, e.id);
    var found :| found in db.events && found.id == e.id && found.status == e'.status;
    FilterMembers((x: EventRow) => x.id != e.id, db.events);
    FilterMembers(IsPending, db.events);
    FilterMembers(IsPending, db'.events);
    PlaceMembers(others, e');
    forall x | x in db.events && x.id == e.id ensures x == found { }
    hide Filter, StatusOf;
    forall x | x in Filter(IsPending, db'.events) ensures x.id in EventIds(Filter(IsPending, db.events)) {
      if x == e' { assert found in Filter(IsPending, db.events); } else { assert x in Filter(IsPending, db.events); }
    }
    forall x | x in Filter(IsPending, db.events) ensures x.id in EventIds(Filter(IsPending, db'.events)) {
      if x.id == e.id { assert e' in Filter(IsPending, db'.events); } else { assert x in Filter(IsPending, db'.events); }
    }
  }

  /** What an update of a stored event keeps: the other rows, the order, and who is pending. */
  lemma UpdateInPlace(db: Db, e: EventRow)
    requires UniqueIds(db.events) && SortedEvents(db.events)
    requires e.id in EventIds(db.events) && e.task in TaskIds(db.tasks)
    ensures var db' := Delivery.UpdateEvent(db, e);
            && e.(status := StatusOf(db.events, e.id)) in db'.events
            && Without(db'.events, e.id) == Without(db.events, e.id)
            && UniqueIds(db'.events) && SortedEvents(db'.events)
            && EventIds(PendingEvents(db')) == EventIds(PendingEvents(db))
  {
    var e', others := e.(status := StatusOf(db.events, e.id)), Without(db.events, e.id);
    FilterMembers((x: EventRow) => x.id != e.id, db.events);
    UniqueFilter((x: EventRow) => x.id != e.id, db.events);
    SortedFilter((x: EventRow) => x.id != e.id, db.events);
    PlaceKeeps(others, e');
    UpdateKeepsWindow(db, e);
    PlaceApart(others, e');
    PlaceMembers(others, e');
  }
  lemma FilterStep<T(!new)>(p: T -> bool, s: seq<T>, i: nat)
    requires i < |s|
    ensures Filter(p, s[..i + 1]) == if p(s[i]) then Filter(p, s[..i]) + [s[i]] else Filter(p, s[..i])
  {
    assert s[..i + 1] == s[..i] + [s[i]];
    FilterSnoc(p, s[..i], s[i]);
  }

  lemma TakeFiltered<T(!new)>(p: T -> bool, s: seq<T>, i: nat, limit: nat)
    requires i <= |s| && |Filter(p, s[..i])| <= limit
    requires i == |s| || |Filter(p, s[..i])| == limit
    ensures Filter(p, s[..i]) == Take(Filter(p, s), limit)
  {
    assert s == s[..i] + s[i..];
    FilterConcat(p, s[..i], s[i..]);
    if i == |s| { assert s[..i] == s; }
  }

  class EventPusher {
    const buffer: SQLiteBuffer
    const config: Config
    const server: nat -> Outcome
    var backoff: int
    var stopped: bool
    var lastPurge: Option<int>
    var posts: nat
    ghost var log: seq<Entry>

    constructor (buffer: SQLiteBuffer, config: Config, server: nat -> Outcome)
      ensures this.buffer == buffer && this.server == server
      ensures this.config == if config.batchSize == 0 then config.(batchSize := 100) else config
      ensures this.config.Valid()
      ensures backoff == 0 && !stopped && lastPurge == None && posts == 0 && log == []
    {
      this.buffer, this.server := buffer, server;
      this.config := if config.batchSize == 0 then config.(batchSize := 100) else config;
      backoff, stopped, lastPurge, posts, log := 0, false, None, 0, [];
    }

    ghost function State(): World
      reads this, buffer
    {
      World(buffer.Contents(), log, posts, buffer.ops, backoff, stopped, lastPurge)
    }

    ghost function Surroundings(): Env { Env(server, buffer.outcomes) }

    method SetAPIKey()
      modifies this`stopped
      ensures State() == old(State()).(stopped := false)
    {
      stopped := false;
    }

    method IncreaseBackoff()
      modifies this`backoff
      ensures backoff == Delivery.IncreaseBackoff(old(backoff))
    {
      if backoff == 0 {
        backoff := INITIAL_BACKOFF;
      } else {
        backoff := backoff * 2;
        if backoff > MAX_BACKOFF { backoff := MAX_BACKOFF; }
      }
    }

    method SetRateLimitBackoff(wait: int)
      modifies this`backoff
      ensures backoff == Clamp(wait)
    {
      var d := wait;
      if d < 0 { d := 0; }
      if d > MAX_BACKOFF { d := MAX_BACKOFF; }
      backoff := d;
    }

    /** Sends one body and interprets the answer. */
    method PostRaw(events: seq<EventRow>, tasks: seq<TaskRow>) returns (error: Option<Failure>)
      modifies this
      ensures State() == Delivery.PostRaw(Surroundings(), old(State()), events, tasks)
      ensures error == if Acked(server(old(posts))) then None else Some(PostFailed(server(old(posts))))
      ensures var o := server(old(posts));
              && (error.None? <==> o.Response? && 200 <= o.code < 300 && o.rejected <= 0)
              && (stopped <==> old(stopped) || (o.Response? && (o.code == 401 || o.code == 403)))
              && DeliveryAnswers.Follows(old(backoff), o, backoff)
    {
      var o := server(posts);
      log := log + [Posted(events, tasks, o)];
      posts := posts + 1;
      error := Some(PostFailed(o));
      match o
      case NotSent =>
      case NetworkError => IncreaseBackoff();
      case Response(code, rejected, retryAfter) =>
        if code == 413 {
        } else if code == 401 || code == 403 {
          stopped := true;
        } else if 200 <= code < 300 {
          if rejected > 0 { IncreaseBackoff(); } else { backoff := 0; error := None; }
        } else if code == 429 && retryAfter.Some? {
          SetRateLimitBackoff(retryAfter.value);
        } else {
          IncreaseBackoff();
        }
    }

    method PushWithSplit(events: seq<EventRow>, tasks: seq<TaskRow>) returns (error: Option<Failure>)
      modifies this, buffer
      ensures Push(State(), error) == Delivery.PushWithSplit(config, Surroundings(), old(State()), events, tasks)
      decreases |events| + |tasks|
    {
      if events == [] && tasks == [] { return None; }
      if config.size(events, tasks) <= MAX_PAYLOAD_BYTES {
        error := PushLeaf(events, tasks);
        return;
      }
      if tasks != [] && events != [] {
        error := PushWithSplit([], tasks);
        if error.Some? { return; }
        error := PushWithSplit(events, []);
        return;
      }
      if |events| > 1 {
        var mid := |events| / 2;
        error := PushWithSplit(events[..mid], []);
        if error.Some? { return; }
        error := PushWithSplit(events[mid..], []);
        return;
      }
      if |tasks| > 1 {
        var mid := |tasks| / 2;
        error := PushWithSplit([], tasks[..mid]);
        if error.Some? { return; }
        error := PushWithSplit([], tasks[mid..]);
        return;
      }
      error := DropSingleton(events, tasks);
    }

    method PushLeaf(events: seq<EventRow>, tasks: seq<TaskRow>) returns (error: Option<Failure>)
      modifies this, buffer
      ensures Push(State(), error) == Delivery.PushLeaf(Surroundings(), old(State()), events, tasks)
    {
      hide Filter;
      error := PostRaw(events, tasks);
      if error.Some? { return; }
      IdsEmpty(events); TaskIdsEmpty(tasks);
      var ok := buffer.MarkSynced(EventIds(events));
      if !ok { return Some(StorageFailed); }
      var _ := buffer.MarkTasksSynced(TaskIds(tasks));
    }

    method DropSingleton(events: seq<EventRow>, tasks: seq<TaskRow>) returns (error: Option<Failure>)
      requires |events| + |tasks| == 1
      modifies this, buffer
      ensures Push(State(), error) == if |events| == 1 then DropEvent(Surroundings(), old(State()), events[0])
                                      else DropTask(Surroundings(), old(State()), tasks[0])
    {
      var ok;
      if |events| == 1 {
        assert events == [events[0]];
        IdsEmpty(events);
        ok := buffer.MarkSynced(EventIds(events));
        if ok { log := log + [DroppedEvent(events[0])]; }
      } else {
        assert tasks == [tasks[0]];
        TaskIdsEmpty(tasks);
        ok := buffer.MarkTasksSynced(TaskIds(tasks));
        if ok { log := log + [DroppedTask(tasks[0])]; }
      }
      error := if ok then None else Some(StorageFailed);
    }

    /** Retention, at most once an hour. */
    method MaintainBuffer(now: int)
      modifies this, buffer
      ensures State() == Delivery.MaintainBuffer(Surroundings(), old(State()), now)
    {
      if lastPurge.Some? && now - lastPurge.value < PURGE_INTERVAL { return; }
      lastPurge := Some(now);
      var before := now - RETENTION;
      buffer.PurgeSyncedEvents(before);
      buffer.PurgeOldPendingEvents(before);
    }

    /** Reads pages of the pending window, quarantining what cannot be converted. */
    method ScanPending() returns (batch: seq<EventRow>, failed: seq<EventRow>, error: Option<Failure>)
      requires UniqueIds(buffer.events)
      modifies this, buffer
      ensures var s := ScanLoop(config, Surroundings(), StartScan(old(State())));
              State() == s.world && batch == s.batch && failed == s.failed && error == s.error
    {
      batch, failed, error := [], [], None;
      var seen: set<EventId>, scanned: nat := {}, 0;
      ghost var goal := ScanLoop(config, Surroundings(), StartScan(State()));
      while |batch| < config.batchSize && scanned < config.ScanLimit()
        invariant error.None? && UniqueIds(buffer.events)
        invariant goal == ScanLoop(config, Surroundings(), Scan(State(), batch, failed, seen, scanned, None))
        decreases config.ScanLimit() - scanned
      {
        var more;
        batch, failed, seen, scanned, error, more := ScanOnePage(batch, failed, seen, scanned);
        if !more { return; }
      }
    }

    method ScanOnePage(batch: seq<EventRow>, failed: seq<EventRow>, seen: set<EventId>, scanned: nat)
      returns (batch': seq<EventRow>, failed': seq<EventRow>, seen': set<EventId>, scanned': nat,
               error: Option<Failure>, more: bool)
      requires UniqueIds(buffer.events)
      requires |batch| < config.batchSize && scanned < config.ScanLimit()
      modifies this, buffer
      ensures UniqueIds(buffer.events)
      ensures (Scan(State(), batch', failed', seen', scanned', error), more)
              == ScanPage(config, Surroundings(), Scan(old(State()), batch, failed, seen, scanned, None))
    {
      batch', failed', seen', scanned', error, more := batch, failed, seen, scanned, None, false;
      ghost var w := State();
      var pageLimit := Min(config.batchSize - |batch|, config.ScanLimit() - scanned);
      var ok, page := buffer.QueryPendingEvents(pageLimit);
      assert State() == Read(w);
      if !ok {
        error := Some(StorageFailed);
        return;
      }
      UniqueFilter(IsPending, buffer.events);
      var good, bad, newlyScanned, met := ReadPage(page, seen);
      PageSplit(Surroundings(), Scan(w, batch, failed, seen, scanned, None), page, good, bad);
      batch', seen', scanned' := batch + good, met, scanned + newlyScanned;
      error := QuarantinePage(bad);
      if error.Some? { return; }
      failed' := failed + bad;
      more := newlyScanned != 0 && |page| == pageLimit;
    }

    lemma PageSplit(env: Env, s: Scan, page: seq<EventRow>, good: seq<EventRow>, bad: seq<EventRow>)
      requires PageLimit(config, s) > 0 && s.error.None? && env.storage(s.world.ops)
      requires page == Take(PendingEvents(s.world.db), PageLimit(config, s))
      requires good == Good(config, Unseen(page, s.seen)) && bad == Bad(config, Unseen(page, s.seen))
      ensures var marked := WriteQuarantined(env, Read(s.world), bad);
              var unread := Unseen(page, s.seen);
              ScanPage(config, env, s)
                == (Scan(marked.world, s.batch + good, if marked.error.Some? then s.failed else s.failed + bad,
                         s.seen + EventIds(unread), s.scanned + |unread|, marked.error),
                    marked.error.None? && |unread| != 0 && |page| == PageLimit(config, s))
    {
    }

    method QuarantinePage(bad: seq<EventRow>) returns (error: Option<Failure>)
      requires UniqueIds(buffer.events)
      modifies this, buffer
      ensures UniqueIds(buffer.events)
      ensures Push(State(), error) == WriteQuarantined(Surroundings(), old(State()), bad)
    {
      IdsEmpty(bad);
      QuarantineUnique(buffer.events, EventIds(bad));
      var ok := buffer.MarkQuarantined(EventIds(bad));
      if !ok { return Some(StorageFailed); }
      if bad != [] { log := log + FailureEntries(bad); }
      return None;
    }

    /** The rows of one page that were not read before, split by whether they convert. */
    method ReadPage(page: seq<EventRow>, seen: set<EventId>)
      returns (good: seq<EventRow>, bad: seq<EventRow>, count: nat, seen': set<EventId>)
      requires UniqueIds(page)
      ensures good == Good(config, Unseen(page, seen)) && bad == Bad(config, Unseen(page, seen))
      ensures count == |Unseen(page, seen)| && seen' == seen + EventIds(Unseen(page, seen))
    {
      good, bad, count, seen' := [], [], 0, seen;
      ghost var unread: seq<EventRow> := [];
      var i := 0;
      while i < |page|
        invariant i <= |page| && unread == Unseen(page[..i], seen)
        invariant good == Good(config, unread) && bad == Bad(config, unread)
        invariant count == |unread| && seen' == seen + EventIds(unread)
      {
        var e := page[i];
        UnreadStep(page, i, seen);
        if e.id !in seen' {
          SplitMore(config, unread, e);
          unread := unread + [e];
          seen' := seen' + {e.id};
          count := count + 1;
          if config.converts(e) { good := good + [e]; } else { bad := bad + [e]; }
        }
        i := i + 1;
      }
      assert page[..i] == page;
    }

    /** One push of the background loop; `order` is the order in which the task map is walked. */
    method PushBatch(now: int, order: seq<TaskId>, surface: bool) returns (error: Option<Failure>)
      requires UniqueIds(buffer.events)
      modifies this, buffer
      ensures Push(State(), error)
              == Delivery.PushBatch(config, Surroundings(), old(State()), now, order, surface)
    {
      if stopped { return None; }
      var batch, failed, scanError := ScanPending();
      if scanError.Some? { return scanError; }
      var tasks;
      tasks, error := SelectTasks(batch, order);
      if error.Some? { return; }
      error := PushSelected(batch, tasks, failed, now, surface);
    }

    /** The pending tasks of the first page and those the batch depends on. */
    method SelectTasks(batch: seq<EventRow>, order: seq<TaskId>) returns (tasks: seq<TaskRow>, error: Option<Failure>)
      modifies buffer`ops
      ensures Push(State(), error) == QueryTasks(Surroundings(), old(State()), batch)
      ensures error.None? ==> tasks == Arrange(SelectedTasks(config, buffer.Contents(), batch), order)
    {
      tasks := [];
      var ok, window := buffer.QueryPendingTasks(config.batchSize);
      if !ok { return tasks, Some(StorageFailed); }
      DepsEmpty(batch);
      var found, needed := buffer.QueryTasksByIDs(Deps(batch));
      if !found { return tasks, Some(StorageFailed); }
      tasks := Arrange(Merge(window, needed), order);
      error := None;
    }

    method PushSelected(batch: seq<EventRow>, tasks: seq<TaskRow>, failed: seq<EventRow>, now: int, surface: bool)
      returns (error: Option<Failure>)
      modifies this, buffer
      ensures Push(State(), error)
              == Delivery.PushSelected(config, Surroundings(), old(State()), batch, tasks, failed, now, surface)
    {
      if batch == [] && tasks == [] { return Surfaced(failed, surface); }
      error := PushWithSplit(batch, tasks);
      if error.Some? { return; }
      MaintainBuffer(now);
      return Surfaced(failed, surface);
    }
  }

  lemma DepsEmpty(rows: seq<EventRow>)
    ensures Deps(rows) == {} <==> rows == []
  {
    if rows != [] { assert rows[0].task in Deps(rows); }
  }

  lemma IdsEmpty(rows: seq<EventRow>)
    ensures EventIds(rows) == {} <==> rows == []
  {
    if rows != [] { assert rows[0].id in EventIds(rows); }
  }

  lemma TaskIdsEmpty(rows: seq<TaskRow>)
    ensures TaskIds(rows) == {} <==> rows == []
  {
    if rows != [] { assert rows[0].id in TaskIds(rows); }
  }

  lemma QuarantineUnique(rows: seq<EventRow>, ids: set<EventId>)
    requires UniqueIds(rows)
    ensures UniqueIds(QuarantineEvents(rows, ids))
  {
  }

  /** On a page of distinct rows, the ids met so far do not include the next row's. */
  lemma SplitMore(c: Config, rows: seq<EventRow>, e: EventRow)
    ensures Good(c, rows + [e]) == if c.converts(e) then Good(c, rows) + [e] else Good(c, rows)
    ensures Bad(c, rows + [e]) == if c.converts(e) then Bad(c, rows) else Bad(c, rows) + [e]
    ensures EventIds(rows + [e]) == EventIds(rows) + {e.id}
  {
    FilterSnoc(c.converts, rows, e);
    FilterSnoc(Not(c.converts), rows, e);
  }

  /** A row of the page is new exactly when neither the earlier pages nor this one had its id. */
  lemma UnreadStep(page: seq<EventRow>, i: nat, seen: set<EventId>)
    requires UniqueIds(page) && i < |page|
    ensures var unread := Unseen(page[..i], seen);
            Unseen(page[..i + 1], seen)
              == if page[i].id !in seen + EventIds(unread) then unread + [page[i]] else unread
  {
    FilterStep(NotIn(seen), page, i);
    FilterMembers(NotIn(seen), page[..i]);
  }
}
