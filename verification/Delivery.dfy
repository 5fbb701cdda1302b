/** The delivery protocol, as functions on a world that records every body sent. */
module Delivery {
  import opened Sequences

  type EventId = nat
  type TaskId = nat

  datatype Status = Pending | Synced | Quarantined

  /** `content` stands for every column that delivery itself does not look at. */
  datatype EventRow = EventRow(id: EventId, task: TaskId, occurredAt: int, content: nat, status: Status)

  datatype TaskRow = TaskRow(id: TaskId, startedAt: int, content: nat, synced: bool)

  /** Both tables are listed in index order: by time, ties by insertion. */
  datatype Db = Db(events: seq<EventRow>, tasks: seq<TaskRow>)

  const MAX_PAYLOAD_BYTES := 120_000
  const SCAN_MAX := 1_000
  const SCAN_FACTOR := 10
  const INITIAL_BACKOFF := 1_000   // milliseconds
  const MAX_BACKOFF := 300_000
  const RETENTION := 7 * 24 * 3600 // seconds
  const PURGE_INTERVAL := 3600

  /**
   What one request brings back. `rejected` is the count left in the decoded summary,
   zero when the summary is unreadable; `retryAfter` is a wait parsed from header or body.
   */
  datatype Outcome =
    | NotSent
    | NetworkError
    | Response(code: int, rejected: int, retryAfter: Option<int>)

  predicate Acked(o: Outcome) {
    o.Response? && 200 <= o.code < 300 && o.rejected <= 0
  }

  predicate AuthFailed(o: Outcome) { o.Response? && (o.code == 401 || o.code == 403) }

  /** History: each body sent, each singleton given up, each conversion failure. */
  datatype Entry =
    | Posted(events: seq<EventRow>, tasks: seq<TaskRow>, outcome: Outcome)
    | DroppedEvent(event: EventRow)
    | DroppedTask(task: TaskRow)
    | Unrepresentable(event: EventRow)

  datatype World = World(db: Db, log: seq<Entry>, posts: nat, ops: nat,
                         backoff: int, stopped: bool, lastPurge: Option<int>)

  /** The adversary: the n-th request's outcome, and whether the n-th storage call succeeds. */
  datatype Env = Env(server: nat -> Outcome, storage: nat -> bool)

  /** `size` is the length of the JSON payload, `converts` whether attribution v3 can hold the event. */
  datatype Config = Config(batchSize: nat, converts: EventRow -> bool,
                           size: (seq<EventRow>, seq<TaskRow>) -> nat)
  {
    predicate Valid() { batchSize > 0 }

    function ScanLimit(): (n: nat)
      ensures n >= batchSize
    {
      Max(batchSize, Min(SCAN_MAX, batchSize * SCAN_FACTOR))
    }
  }

  datatype Failure = StorageFailed | PostFailed(outcome: Outcome) | ConversionFailed(ids: seq<EventId>)

  datatype Push = Push(world: World, error: Option<Failure>)

  // ---------------------------------------------------------------- the buffer

  predicate IsPending(r: EventRow) { r.status.Pending? }

  predicate IsPendingTask(t: TaskRow) { !t.synced }

  function PendingEvents(db: Db): seq<EventRow> { Filter(IsPending, db.events) }

  function PendingTasks(db: Db): seq<TaskRow> { Filter(IsPendingTask, db.tasks) }

  function EventIds(rows: seq<EventRow>): set<EventId> { set r | r in rows :: r.id }

  function TaskIds(rows: seq<TaskRow>): set<TaskId> { set t | t in rows :: t.id }

  function Deps(rows: seq<EventRow>): set<TaskId> { set r | r in rows :: r.task }

  function SyncRow(r: EventRow, ids: set<EventId>): EventRow {
    if r.id in ids then r.(status := Synced) else r
  }

  function QuarantineRow(r: EventRow, ids: set<EventId>): EventRow {
    if r.id in ids && r.status.Pending? then r.(status := Quarantined) else r
  }

  function SyncTask(t: TaskRow, ids: set<TaskId>): TaskRow {
    if t.id in ids then t.(synced := true) else t
  }

  function SyncEvents(rows: seq<EventRow>, ids: set<EventId>): (r: seq<EventRow>) {
    seq(|rows|, i requires 0 <= i < |rows| => SyncRow(rows[i], ids))
  }

  function QuarantineEvents(rows: seq<EventRow>, ids: set<EventId>): (r: seq<EventRow>) {
    seq(|rows|, i requires 0 <= i < |rows| => QuarantineRow(rows[i], ids))
  }

  function SyncTasks(rows: seq<TaskRow>, ids: set<TaskId>): (r: seq<TaskRow>) {
    seq(|rows|, i requires 0 <= i < |rows| => SyncTask(rows[i], ids))
  }

  function MarkSynced(db: Db, ids: set<EventId>): Db { db.(events := SyncEvents(db.events, ids)) }

  function MarkQuarantined(db: Db, ids: set<EventId>): Db { db.(events := QuarantineEvents(db.events, ids)) }

  function MarkTasksSynced(db: Db, ids: set<TaskId>): Db { db.(tasks := SyncTasks(db.tasks, ids)) }

  predicate KeptSynced(r: EventRow, before: int) { !(r.status.Synced? && r.occurredAt < before) }

  predicate KeptUnsent(r: EventRow, before: int) { !(!r.status.Synced? && r.occurredAt < before) }

  function PurgeSynced(db: Db, before: int): Db {
    db.(events := Filter((r: EventRow) => KeptSynced(r, before), db.events))
  }

  function PurgeUnsent(db: Db, before: int): Db {
    db.(events := Filter((r: EventRow) => KeptUnsent(r, before), db.events))
  }

  /** Index position of a new row: after every row that is not later. */
  function Place(rows: seq<EventRow>, r: EventRow): (s: seq<EventRow>) {
    if rows == [] || r.occurredAt < rows[0].occurredAt then [r] + rows
    else [rows[0]] + Place(rows[1..], r)
  }

  function PlaceTask(rows: seq<TaskRow>, t: TaskRow): (s: seq<TaskRow>) {
    if rows == [] || t.startedAt < rows[0].startedAt then [t] + rows
    else [rows[0]] + PlaceTask(rows[1..], t)
  }

  /** INSERT fails on a repeated primary key. */
  function InsertTask(db: Db, t: TaskRow): Db {
    if t.id in TaskIds(db.tasks) then db
    else db.(tasks := PlaceTask(db.tasks, t.(synced := false)))
  }

  /** INSERT fails on a repeated primary key and on an unknown task (foreign key). */
  function InsertEvent(db: Db, r: EventRow): Db {
    if r.id in EventIds(db.events) || r.task !in TaskIds(db.tasks) then db
    else db.(events := Place(db.events, r.(status := Pending)))
  }

  /** UPDATE of a task puts it back into the pending window. */
  function UpdateTask(db: Db, id: TaskId, content: nat): Db {
    db.(tasks := seq(|db.tasks|, i requires 0 <= i < |db.tasks| =>
      if db.tasks[i].id == id then db.tasks[i].(content := content, synced := false) else db.tasks[i]))
  }

  function Without(rows: seq<EventRow>, id: EventId): seq<EventRow> {
    Filter((r: EventRow) => r.id != id, rows)
  }

  function StatusOf(rows: seq<EventRow>, id: EventId): Status
    requires id in EventIds(rows)
  {
    if rows[0].id == id then rows[0].status else StatusOf(rows[1..], id)
  }

  /** UPDATE of an event keeps its sync status; it does not re-queue the row. */
  function UpdateEvent(db: Db, r: EventRow): Db {
    if r.id !in EventIds(db.events) || r.task !in TaskIds(db.tasks) then db
    else db.(events := Place(Without(db.events, r.id), r.(status := StatusOf(db.events, r.id))))
  }

  // ---------------------------------------------------------------- one request

  function IncreaseBackoff(b: int): int {
    if b == 0 then INITIAL_BACKOFF else Min(b * 2, MAX_BACKOFF)
  }

  function Clamp(d: int): int { Min(Max(d, 0), MAX_BACKOFF) }

  function BackoffAfter(b: int, o: Outcome): int {
    match o
    case NotSent => b
    case NetworkError => IncreaseBackoff(b)
    case Response(code, rejected, retryAfter) =>
      if code == 413 || code == 401 || code == 403 then b
      else if 200 <= code < 300 then (if rejected > 0 then IncreaseBackoff(b) else 0)
      else if code == 429 && retryAfter.Some? then Clamp(retryAfter.value)
      else IncreaseBackoff(b)
  }

  function PostRaw(env: Env, w: World, events: seq<EventRow>, tasks: seq<TaskRow>): World {
    var o := env.server(w.posts);
    w.(log := w.log + [Posted(events, tasks, o)], posts := w.posts + 1,
       backoff := BackoffAfter(w.backoff, o), stopped := w.stopped || AuthFailed(o))
  }

  /** One storage write: applied when the call succeeds, without effect otherwise. */
  function Write(env: Env, w: World, db: Db): World {
    w.(ops := w.ops + 1, db := if env.storage(w.ops) then db else w.db)
  }

  function Read(w: World): World { w.(ops := w.ops + 1) }

  /** Marking no ids is a no-op that touches no storage. */
  function WriteSynced(env: Env, w: World, events: seq<EventRow>): Push {
    if events == [] then Push(w, None)
    else Push(Write(env, w, MarkSynced(w.db, EventIds(events))),
              if env.storage(w.ops) then None else Some(StorageFailed))
  }

  function WriteTasksSynced(env: Env, w: World, tasks: seq<TaskRow>): Push {
    if tasks == [] then Push(w, None)
    else Push(Write(env, w, MarkTasksSynced(w.db, TaskIds(tasks))),
              if env.storage(w.ops) then None else Some(StorageFailed))
  }

  function PushLeaf(env: Env, w: World, events: seq<EventRow>, tasks: seq<TaskRow>): Push {
    var o := env.server(w.posts);
    var sent := PostRaw(env, w, events, tasks);
    if !Acked(o) then Push(sent, Some(PostFailed(o)))
    else
      var marked := WriteSynced(env, sent, events);
      if marked.error.Some? then marked
      else Push(WriteTasksSynced(env, marked.world, tasks).world, None)  // a failed task mark is only logged
  }

  /** A record too large on its own is acknowledged locally. */
  function DropEvent(env: Env, w: World, e: EventRow): Push {
    var p := WriteSynced(env, w, [e]);
    if p.error.Some? then p else Push(p.world.(log := p.world.log + [DroppedEvent(e)]), None)
  }

  function DropTask(env: Env, w: World, t: TaskRow): Push {
    var p := WriteTasksSynced(env, w, [t]);
    if p.error.Some? then p else Push(p.world.(log := p.world.log + [DroppedTask(t)]), None)
  }

  /** The two parts of an oversized payload: tasks before events, otherwise halves of one list. */
  function Halves(events: seq<EventRow>, tasks: seq<TaskRow>)
    : (r: (seq<EventRow>, seq<TaskRow>, seq<EventRow>, seq<TaskRow>))
    requires |events| + |tasks| > 1
    ensures r.0 + r.2 == events && r.1 + r.3 == tasks
    ensures |r.0| + |r.1| < |events| + |tasks| && |r.2| + |r.3| < |events| + |tasks|
    ensures (r.0 == [] || r.3 == []) && (r.3 == [] || r.2 == [])
  {
    if tasks != [] && events != [] then ([], tasks, events, [])
    else if |events| > 1 then (events[..|events| / 2], [], events[|events| / 2..], [])
    else ([], tasks[..|tasks| / 2], [], tasks[|tasks| / 2..])
  }

  function PushWithSplit(c: Config, env: Env, w: World, events: seq<EventRow>, tasks: seq<TaskRow>): Push
    decreases |events| + |tasks|
  {
    if events == [] && tasks == [] then Push(w, None)
    else if c.size(events, tasks) <= MAX_PAYLOAD_BYTES then PushLeaf(env, w, events, tasks)
    else if |events| + |tasks| > 1 then
      var (es1, ts1, es2, ts2) := Halves(events, tasks);
      var first := PushWithSplit(c, env, w, es1, ts1);
      if first.error.Some? then first else PushWithSplit(c, env, first.world, es2, ts2)
    else if |events| == 1 then DropEvent(env, w, events[0])
    else DropTask(env, w, tasks[0])
  }

  // ---------------------------------------------------------------- one push

  datatype Scan = Scan(world: World, batch: seq<EventRow>, failed: seq<EventRow>,
                       seen: set<EventId>, scanned: nat, error: Option<Failure>)

  function NotIn(seen: set<EventId>): EventRow -> bool { (r: EventRow) => r.id !in seen }

  function Unseen(rows: seq<EventRow>, seen: set<EventId>): seq<EventRow> { Filter(NotIn(seen), rows) }

  function Good(c: Config, rows: seq<EventRow>): seq<EventRow> { Filter(c.converts, rows) }

  function Bad(c: Config, rows: seq<EventRow>): seq<EventRow> { Filter(Not(c.converts), rows) }

  function FailureEntries(rows: seq<EventRow>): seq<Entry> {
    seq(|rows|, i requires 0 <= i < |rows| => Unrepresentable(rows[i]))
  }

  function WriteQuarantined(env: Env, w: World, bad: seq<EventRow>): Push {
    if bad == [] then Push(w, None)
    else
      var written := Write(env, w, MarkQuarantined(w.db, EventIds(bad)));
      if env.storage(w.ops) then Push(written.(log := w.log + FailureEntries(bad)), None)
      else Push(written, Some(StorageFailed))
  }

  function PageLimit(c: Config, s: Scan): int {
    Min(c.batchSize - |s.batch|, c.ScanLimit() - s.scanned)
  }

  function Advance(c: Config, s: Scan, unread: seq<EventRow>, marked: Push): Scan {
    Scan(marked.world, s.batch + Good(c, unread),
         if marked.error.Some? then s.failed else s.failed + Bad(c, unread),
         s.seen + EventIds(unread), s.scanned + |unread|, marked.error)
  }

  /** One page of the scan; the Boolean says whether the loop goes on. */
  function ScanPage(c: Config, env: Env, s: Scan): (Scan, bool)
    requires PageLimit(c, s) > 0
  {
    var w := Read(s.world);
    if !env.storage(s.world.ops) then (s.(world := w, error := Some(StorageFailed)), false)
    else
      var page := Take(PendingEvents(w.db), PageLimit(c, s));
      var unread := Unseen(page, s.seen);
      var marked := WriteQuarantined(env, w, Bad(c, unread));
      (Advance(c, s, unread, marked), marked.error.None? && unread != [] && |page| == PageLimit(c, s))
  }

  function ScanLoop(c: Config, env: Env, s: Scan): Scan
    decreases c.ScanLimit() - s.scanned
  {
    if PageLimit(c, s) <= 0 then s
    else
      var (s', more) := ScanPage(c, env, s);
      if more then ScanLoop(c, env, s') else s'
  }

  function StartScan(w: World): Scan { Scan(w, [], [], {}, 0, None) }

  function TaskIn(ids: set<TaskId>): TaskRow -> bool { (t: TaskRow) => t.id in ids }

  /** Only pending tasks are sent again for a later event. */
  function QueryTasksByIDs(db: Db, ids: set<TaskId>): seq<TaskRow> { Filter(TaskIn(ids), PendingTasks(db)) }

  /** Two query results merged by task id. */
  function Merge(first: seq<TaskRow>, second: seq<TaskRow>): seq<TaskRow> {
    first + Filter(Not(TaskIn(TaskIds(first))), second)
  }

  /** Pending tasks of the first page, and the pending tasks the batch depends on. */
  function SelectedTasks(c: Config, db: Db, batch: seq<EventRow>): seq<TaskRow> {
    Merge(Take(PendingTasks(db), c.batchSize), QueryTasksByIDs(db, Deps(batch)))
  }

  /** The tasks are collected in a map, so they are sent in any order: `order` picks which. */
  function Arrange(tasks: seq<TaskRow>, order: seq<TaskId>): seq<TaskRow>
    decreases |order|
  {
    if order == [] then tasks
    else Filter((t: TaskRow) => t.id == order[0], tasks)
         + Arrange(Filter((t: TaskRow) => t.id != order[0], tasks), order[1..])
  }

  /** Retention, at most once an hour; a failed delete is only logged. */
  function MaintainBuffer(env: Env, w: World, now: int): World {
    if w.lastPurge.Some? && now - w.lastPurge.value < PURGE_INTERVAL then w
    else
      var before := now - RETENTION;
      var w1 := Write(env, w.(lastPurge := Some(now)), PurgeSynced(w.db, before));
      Write(env, w1, PurgeUnsent(w1.db, before))
  }

  function Surfaced(failed: seq<EventRow>, surface: bool): Option<Failure> {
    if failed == [] || !surface then None
    else Some(ConversionFailed(seq(|failed|, i requires 0 <= i < |failed| => failed[i].id)))
  }

  /** The two task queries; the dependency query is skipped when the batch is empty. */
  function QueryTasks(env: Env, w: World, batch: seq<EventRow>): Push {
    if !env.storage(w.ops) then Push(Read(w), Some(StorageFailed))
    else if batch == [] then Push(Read(w), None)
    else Push(Read(Read(w)), if env.storage(w.ops + 1) then None else Some(StorageFailed))
  }

  /** The second half of a push: send what was selected, then let retention run. */
  function PushSelected(c: Config, env: Env, w: World, batch: seq<EventRow>, tasks: seq<TaskRow>,
                        failed: seq<EventRow>, now: int, surface: bool): Push
  {
    if batch == [] && tasks == [] then Push(w, Surfaced(failed, surface))
    else
      var p := PushWithSplit(c, env, w, batch, tasks);
      if p.error.Some? then p
      else Push(MaintainBuffer(env, p.world, now), Surfaced(failed, surface))
  }

  function PushBatch(c: Config, env: Env, w: World, now: int, order: seq<TaskId>, surface: bool): Push {
    if w.stopped then Push(w, None)
    else
      var s := ScanLoop(c, env, StartScan(w));
      if s.error.Some? then Push(s.world, s.error)
      else
        var q := QueryTasks(env, s.world, s.batch);
        if q.error.Some? then q
        else
          var tasks := Arrange(SelectedTasks(c, q.world.db, s.batch), order);
          PushSelected(c, env, q.world, s.batch, tasks, s.failed, now, surface)
  }

  // ---------------------------------------------------------------- runs

  datatype Action =
    | DoInsertTask(task: TaskRow)
    | DoUpdateTask(id: TaskId, content: nat)
    | DoInsertEvent(event: EventRow)
    | DoUpdateEvent(event: EventRow)
    | DoSetApiKey
    | DoRestart
    | DoPush(now: int, order: seq<TaskId>, surface: bool)

  function Step(c: Config, env: Env, w: World, a: Action): World {
    match a
    case DoInsertTask(t) => Write(env, w, InsertTask(w.db, t))
    case DoUpdateTask(id, content) => Write(env, w, UpdateTask(w.db, id, content))
    case DoInsertEvent(e) => Write(env, w, InsertEvent(w.db, e))
    case DoUpdateEvent(e) => Write(env, w, UpdateEvent(w.db, e))
    case DoSetApiKey => w.(stopped := false)
    case DoRestart => w.(backoff := 0, stopped := false, lastPurge := None)
    case DoPush(now, order, surface) => PushBatch(c, env, w, now, order, surface).world
  }

  function Run(c: Config, env: Env, w: World, actions: seq<Action>): World
    decreases |actions|
  {
    if actions == [] then w else Run(c, env, Step(c, env, w, actions[0]), actions[1..])
  }

  const Start := World(Db([], []), [], 0, 0, 0, false, None)
}
