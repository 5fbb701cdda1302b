/** The paged scan selects a prefix of the pending window, whatever the paging. */
module DeliveryScan {
  import opened Sequences
  import opened Delivery

  predicate UniqueIds(rows: seq<EventRow>) {
    forall i, j :: 0 <= i < j < |rows| ==> rows[i].id != rows[j].id
  }

  lemma {:induction false} UniqueFilter(p: EventRow -> bool, rows: seq<EventRow>)
    requires UniqueIds(rows)
    ensures UniqueIds(Filter(p, rows))
  {
    if rows != [] {
      UniqueFilter(p, rows[1..]);
      FilterMembers(p, rows[1..]);
      forall r | r in Filter(p, rows[1..]) ensures r.id != rows[0].id {
        var i :| 0 <= i < |rows[1..]| && rows[1..][i] == r;
        assert rows[i + 1] == r;
      }
    }
  }

  lemma UnseenCons(r: EventRow, rows: seq<EventRow>, ids: set<EventId>)
    ensures Unseen([r] + rows, ids) == (if r.id in ids then Unseen(rows, ids) else [r] + Unseen(rows, ids))
  {
    FilterCons(NotIn(ids), r, rows);
  }

  /** Quarantining takes exactly the named rows out of the pending window. */
  lemma {:induction false} PendingAfterQuarantine(rows: seq<EventRow>, ids: set<EventId>)
    ensures Filter(IsPending, QuarantineEvents(rows, ids)) == Unseen(Filter(IsPending, rows), ids)
  {
    if rows != [] {
      hide Filter;
      var r, rest := rows[0], rows[1..];
      PendingAfterQuarantine(rest, ids);
      assert rows == [r] + rest;
      FilterCons(IsPending, r, rest);
      assert QuarantineEvents(rows, ids) == [QuarantineRow(r, ids)] + QuarantineEvents(rest, ids);
      FilterCons(IsPending, QuarantineRow(r, ids), QuarantineEvents(rest, ids));
      if IsPending(r) {
        UnseenCons(r, Filter(IsPending, rest), ids);
      }
    }
  }

  /** So does marking synced. */
  lemma {:induction false} PendingAfterSync(rows: seq<EventRow>, ids: set<EventId>)
    ensures Filter(IsPending, SyncEvents(rows, ids)) == Unseen(Filter(IsPending, rows), ids)
  {
    if rows != [] {
      hide Filter;
      var r, rest := rows[0], rows[1..];
      PendingAfterSync(rest, ids);
      assert rows == [r] + rest;
      FilterCons(IsPending, r, rest);
      assert SyncEvents(rows, ids) == [SyncRow(r, ids)] + SyncEvents(rest, ids);
      FilterCons(IsPending, SyncRow(r, ids), SyncEvents(rest, ids));
      if IsPending(r) {
        UnseenCons(r, Filter(IsPending, rest), ids);
      }
    }
  }

  lemma UnseenConcat(a: seq<EventRow>, b: seq<EventRow>, ids: set<EventId>)
    ensures Unseen(a + b, ids) == Unseen(a, ids) + Unseen(b, ids)
  {
    FilterConcat(NotIn(ids), a, b);
  }

  lemma UnseenNone(rows: seq<EventRow>, ids: set<EventId>)
    requires forall r :: r in rows ==> r.id in ids
    ensures Unseen(rows, ids) == []
  {
    FilterNone(NotIn(ids), rows);
  }

  lemma UnseenAll(rows: seq<EventRow>, ids: set<EventId>)
    requires forall r :: r in rows ==> r.id !in ids
    ensures Unseen(rows, ids) == rows
  {
    FilterAll(NotIn(ids), rows);
  }

  /**
   The state of the scan after `s.scanned` events: they are the first ones of the window p0 found
   at the start; the convertible ones are the batch, the others are quarantined, and the pending
   window is now the batch followed by the unread rest.
   */
  predicate ScanInv(c: Config, db0: Db, s: Scan) {
    var p0 := PendingEvents(db0);
    && s.error.None?
    && s.scanned <= |p0|
    && s.seen == EventIds(p0[..s.scanned])
    && s.batch == Good(c, p0[..s.scanned])
    && s.failed == Bad(c, p0[..s.scanned])
    && PendingEvents(s.world.db) == s.batch + p0[s.scanned..]
  }

  lemma UniqueSlices(rows: seq<EventRow>, k: nat)
    requires UniqueIds(rows) && k <= |rows|
    ensures EventIds(rows[..k]) !! EventIds(rows[k..])
  {
    forall a, b | a in rows[..k] && b in rows[k..] ensures a.id != b.id {
      var i :| 0 <= i < k && rows[i] == a;
      var j :| 0 <= j < |rows| - k && rows[k..][j] == b;
      assert rows[k + j] == b;
    }
  }

  /** What one page reads: the already scanned batch first, then `fresh` new rows. */
  lemma PageUnread(c: Config, db0: Db, s: Scan, limit: nat) returns (m: nat)
    requires UniqueIds(PendingEvents(db0)) && ScanInv(c, db0, s)
    ensures var p0 := PendingEvents(db0);
            var page := Take(PendingEvents(s.world.db), limit);
            && s.scanned + m <= |p0|
            && m == Max(0, Min(limit - |s.batch|, |p0| - s.scanned))
            && Unseen(page, s.seen) == p0[s.scanned..s.scanned + m]
            && (s.batch == [] ==> page == p0[s.scanned..s.scanned + m])
  {
    hide Filter;
    var p0 := PendingEvents(db0);
    var k := s.scanned;
    var rest := p0[k..];
    m := Max(0, Min(limit - |s.batch|, |rest|));
    var page := Take(s.batch + rest, limit);
    UniqueSlices(p0, k);
    var reread := Take(s.batch, limit);
    assert page == reread + rest[..m];
    assert rest[..m] == p0[k..k + m];
    UnseenConcat(reread, rest[..m], s.seen);
    GoodIds(c, p0[..k]);
    forall r | r in reread ensures r.id in s.seen { assert r in s.batch; assert r.id in EventIds(s.batch); }
    UnseenNone(reread, s.seen);
    forall r | r in rest[..m] ensures r.id !in s.seen { assert r in rest; }
    UnseenAll(rest[..m], s.seen);
  }

  lemma GoodBadExtend(c: Config, p0: seq<EventRow>, k: nat, m: nat)
    requires k + m <= |p0|
    ensures Good(c, p0[..k + m]) == Good(c, p0[..k]) + Good(c, p0[k..k + m])
    ensures Bad(c, p0[..k + m]) == Bad(c, p0[..k]) + Bad(c, p0[k..k + m])
  {
    assert p0[..k + m] == p0[..k] + p0[k..k + m];
    FilterConcat(c.converts, p0[..k], p0[k..k + m]);
    FilterConcat(Not(c.converts), p0[..k], p0[k..k + m]);
  }

  /** Removing the unconvertible ones of a stretch leaves its convertible ones. */
  lemma {:induction false} UnseenBad(c: Config, rows: seq<EventRow>, ids: set<EventId>)
    requires UniqueIds(rows)
    requires forall r :: r in rows ==> (r.id in ids <==> !c.converts(r))
    ensures Unseen(rows, ids) == Good(c, rows)
  {
    FilterAgree(NotIn(ids), c.converts, rows);
  }

  lemma BadIds(c: Config, rows: seq<EventRow>)
    requires UniqueIds(rows)
    ensures forall r :: r in rows ==> (r.id in EventIds(Bad(c, rows)) <==> !c.converts(r))
  {
    FilterMembers(Not(c.converts), rows);
    forall r, q | r in rows && q in rows && r.id == q.id ensures r == q {
      var i :| 0 <= i < |rows| && rows[i] == r;
      var j :| 0 <= j < |rows| && rows[j] == q;
      assert i == j;
    }
  }

  lemma GoodIds(c: Config, rows: seq<EventRow>)
    ensures EventIds(Good(c, rows)) <= EventIds(rows) && EventIds(Bad(c, rows)) <= EventIds(rows)
  {
    FilterMembers(c.converts, rows);
    FilterMembers(Not(c.converts), rows);
  }

  /** Taking the unconvertible rows of the page out of the window. */
  lemma WindowAfterPage(c: Config, p0: seq<EventRow>, k: nat, m: nat)
    requires UniqueIds(p0) && k + m <= |p0|
    ensures Unseen(Good(c, p0[..k]) + p0[k..], EventIds(Bad(c, p0[k..k + m])))
            == Good(c, p0[..k + m]) + p0[k + m..]
  {
    var batch, mid, tail := Good(c, p0[..k]), p0[k..k + m], p0[k + m..];
    var ids := EventIds(Bad(c, mid));
    PageIds(c, p0, k, m);
    assert p0[k..] == mid + tail;
    BatchKept(batch, ids);
    BatchKept(tail, ids);
    assert Unseen(mid, ids) == Good(c, mid) by { BadIds(c, mid); UnseenBad(c, mid, ids); }
    UnseenThree(batch, mid, tail, ids);
    GoodBadExtend(c, p0, k, m);
  }

  lemma UnseenThree(a: seq<EventRow>, b: seq<EventRow>, d: seq<EventRow>, ids: set<EventId>)
    ensures Unseen(a + (b + d), ids) == (Unseen(a, ids) + Unseen(b, ids)) + Unseen(d, ids)
  {
    UnseenConcat(a, b + d, ids);
    UnseenConcat(b, d, ids);
    Assoc(Unseen(a, ids), Unseen(b, ids), Unseen(d, ids));
  }

  /** The page's unconvertible ids are neither in the batch before it nor in the rest after it. */
  lemma PageIds(c: Config, p0: seq<EventRow>, k: nat, m: nat)
    requires UniqueIds(p0) && k + m <= |p0|
    ensures EventIds(Good(c, p0[..k])) !! EventIds(Bad(c, p0[k..k + m]))
    ensures EventIds(p0[k + m..]) !! EventIds(Bad(c, p0[k..k + m]))
    ensures UniqueIds(p0[k..k + m])
  {
    var mid := p0[k..k + m];
    GoodIds(c, mid); GoodIds(c, p0[..k]);
    UniqueSlices(p0, k);
    UniqueSlices(p0, k + m);
    SliceIds(p0, k, m);
  }

  lemma SliceIds(rows: seq<EventRow>, k: nat, m: nat)
    requires k + m <= |rows|
    ensures EventIds(rows[k..k + m]) <= EventIds(rows[k..])
    ensures EventIds(rows[k..k + m]) <= EventIds(rows[..k + m])
  {
    assert rows[k..] == rows[k..k + m] + rows[k + m..];
    assert rows[..k + m] == rows[..k] + rows[k..k + m];
  }

  lemma BatchKept(rows: seq<EventRow>, ids: set<EventId>)
    requires EventIds(rows) !! ids
    ensures Unseen(rows, ids) == rows
  {
    forall r | r in rows ensures r.id !in ids { assert r.id in EventIds(rows); }
    UnseenAll(rows, ids);
  }

  lemma WindowAfterWrite(env: Env, w: World, bad: seq<EventRow>)
    requires WriteQuarantined(env, w, bad).error.None?
    ensures PendingEvents(WriteQuarantined(env, w, bad).world.db) == Unseen(PendingEvents(w.db), EventIds(bad))
  {
    if bad == [] {
      UnseenAll(PendingEvents(w.db), EventIds(bad));
    } else {
      PendingAfterQuarantine(w.db.events, EventIds(bad));
    }
  }

  lemma AdvanceInv(c: Config, env: Env, db0: Db, s: Scan, m: nat)
    requires UniqueIds(PendingEvents(db0)) && ScanInv(c, db0, s)
    requires s.scanned + m <= |PendingEvents(db0)|
    ensures var unread := PendingEvents(db0)[s.scanned..s.scanned + m];
            var marked := WriteQuarantined(env, Read(s.world), Bad(c, unread));
            marked.error.None? ==> ScanInv(c, db0, Advance(c, s, unread, marked))
  {
    hide Filter;
    var p0 := PendingEvents(db0);
    var k := s.scanned;
    if WriteQuarantined(env, Read(s.world), Bad(c, p0[k..k + m])).error.None? {
      GoodBadExtend(c, p0, k, m);
      IdsExtend(p0, k, m);
      WindowAfterAdvance(c, env, s.world, p0, k, m);
    }
  }

  lemma IdsExtend(rows: seq<EventRow>, k: nat, m: nat)
    requires k + m <= |rows|
    ensures EventIds(rows[..k + m]) == EventIds(rows[..k]) + EventIds(rows[k..k + m])
  {
    assert rows[..k + m] == rows[..k] + rows[k..k + m];
  }

  lemma WindowAfterAdvance(c: Config, env: Env, w: World, p0: seq<EventRow>, k: nat, m: nat)
    requires UniqueIds(p0) && k + m <= |p0|
    requires PendingEvents(w.db) == Good(c, p0[..k]) + p0[k..]
    requires WriteQuarantined(env, Read(w), Bad(c, p0[k..k + m])).error.None?
    ensures PendingEvents(WriteQuarantined(env, Read(w), Bad(c, p0[k..k + m])).world.db)
            == Good(c, p0[..k + m]) + p0[k + m..]
  {
    WindowAfterWrite(env, Read(w), Bad(c, p0[k..k + m]));
    WindowAfterPage(c, p0, k, m);
  }

  lemma ScanPageInv(c: Config, env: Env, db0: Db, s: Scan) returns (m: nat)
    requires UniqueIds(PendingEvents(db0)) && ScanInv(c, db0, s)
    requires PageLimit(c, s) > 0
    requires ScanPage(c, env, s).0.error.None?
    ensures var (s', more) := ScanPage(c, env, s);
            && ScanInv(c, db0, s')
            && s'.scanned == s.scanned + m <= |PendingEvents(db0)|
            && s'.batch == s.batch + Good(c, PendingEvents(db0)[s.scanned..s.scanned + m])
            && m == Max(0, Min(PageLimit(c, s) - |s.batch|, |PendingEvents(db0)| - s.scanned))
            && (more <==> m > 0 && m == PageLimit(c, s) - |s.batch|)
  {
    var p0 := PendingEvents(db0);
    var limit := PageLimit(c, s);
    m := PageUnread(c, db0, s, limit);
    AdvanceInv(c, env, db0, s, m);
  }

  /**
   The loop never overruns its limits, and stops only at the end of the window or when the rows
   already taken would fill the next page.
   */
  lemma {:induction false} ScanLoopInv(c: Config, env: Env, db0: Db, s: Scan)
    requires c.Valid() && UniqueIds(PendingEvents(db0)) && ScanInv(c, db0, s)
    requires s.scanned <= c.ScanLimit() && |s.batch| <= c.batchSize
    ensures var r := ScanLoop(c, env, s);
            r.error.None? ==>
              && ScanInv(c, db0, r)
              && s.scanned <= r.scanned <= c.ScanLimit() && |r.batch| <= c.batchSize
              && (r.scanned == |PendingEvents(db0)| || PageLimit(c, r) <= |r.batch|)
    decreases c.ScanLimit() - s.scanned
  {
    if PageLimit(c, s) > 0 {
      var (s', more) := ScanPage(c, env, s);
      if s'.error.None? {
        var m := ScanPageInv(c, env, db0, s);
        if more { ScanLoopInv(c, env, db0, s'); }
      }
    }
  }

  /** The whole scan from a fresh start: at least half a batch of rows is read unless the window is shorter. */
  lemma ScanIsPrefix(c: Config, env: Env, w: World)
    requires c.Valid() && UniqueIds(w.db.events)
    ensures var r := ScanLoop(c, env, StartScan(w));
            var p0 := PendingEvents(w.db);
            r.error.None? ==>
              && ScanInv(c, w.db, r)
              && r.scanned <= c.ScanLimit() && |r.batch| <= c.batchSize
              && (r.scanned == |p0| || PageLimit(c, r) <= |r.batch|)
              && (r.scanned == |p0| || 2 * |r.batch| >= c.batchSize || r.scanned + |r.batch| >= c.ScanLimit())
              && (r.scanned == |p0| || 2 * r.scanned >= c.batchSize)
  {
    UniqueFilter(IsPending, w.db.events);
    var p0 := PendingEvents(w.db);
    assert p0[..0] == [] && p0[0..] == p0;
    assert ScanInv(c, w.db, StartScan(w));
    ScanLoopInv(c, env, w.db, StartScan(w));
  }

  /**
   No starvation: a convertible pending event behind fewer than the scan limit of unconvertible
   ones is in the batch, however the window is paged.
   */
  lemma NoStarvation(c: Config, env: Env, w: World, i: nat)
    requires c.Valid() && UniqueIds(w.db.events)
    requires i < |PendingEvents(w.db)| && i < c.ScanLimit()
    requires c.converts(PendingEvents(w.db)[i])
    requires forall j :: 0 <= j < i ==> !c.converts(PendingEvents(w.db)[j])
    ensures var r := ScanLoop(c, env, StartScan(w));
            r.error.None? ==> PendingEvents(w.db)[i] in r.batch
  {
    var r := ScanLoop(c, env, StartScan(w));
    var p0 := PendingEvents(w.db);
    ScanIsPrefix(c, env, w);
    if r.error.None? {
      if r.scanned <= i {
        FilterNone(c.converts, p0[..r.scanned]);
        assert false;
      }
      assert p0[i] in p0[..r.scanned];
      FilterMembers(c.converts, p0[..r.scanned]);
    }
  }

  lemma {:induction false} ScanGrows(c: Config, env: Env, s: Scan)
    ensures ScanLoop(c, env, s).scanned >= s.scanned
    decreases c.ScanLimit() - s.scanned
  {
    if PageLimit(c, s) > 0 {
      var (s', more) := ScanPage(c, env, s);
      if more { ScanGrows(c, env, s'); }
    }
  }

  /**
   The rows already taken are still pending and come back at the head of every page: the scan reads
   on exactly when rows are left and the next page is longer than the batch.
   */
  lemma RefillIff(c: Config, env: Env, db0: Db, s: Scan)
    requires UniqueIds(PendingEvents(db0)) && ScanInv(c, db0, s)
    requires env.storage(s.world.ops)
    ensures ScanLoop(c, env, s).scanned > s.scanned
            <==> s.scanned < |PendingEvents(db0)| && PageLimit(c, s) > |s.batch|
  {
    if PageLimit(c, s) > 0 {
      var m := PageUnread(c, db0, s, PageLimit(c, s));
      var (s', more) := ScanPage(c, env, s);
      assert s'.scanned == s.scanned + m;
      if more { ScanGrows(c, env, s'); }
    }
  }

  function PageStart(c: Config, k: nat): nat { k * c.batchSize }

  /** A page of the window, aligned to the batch size, that converts whole behind pages that all fail. */
  predicate FullPage(c: Config, p0: seq<EventRow>, k: nat) {
    var n := PageStart(c, k);
    && n + c.batchSize <= |p0| && n + c.batchSize <= c.ScanLimit()
    && Good(c, p0[..n]) == [] && Good(c, p0[n..n + c.batchSize]) == p0[n..n + c.batchSize]
  }

  lemma {:induction false} GoodWhole(c: Config, rows: seq<EventRow>)
    ensures |Good(c, rows)| == |rows| <==> Good(c, rows) == rows
  {
    if rows != [] { GoodWhole(c, rows[1..]); }
  }

  /** A batch that is neither empty nor full stays so: a page brings less than what is missing. */
  lemma {:induction false} NeverFills(c: Config, env: Env, db0: Db, s: Scan)
    requires UniqueIds(PendingEvents(db0)) && ScanInv(c, db0, s)
    requires 0 < |s.batch| < c.batchSize
    requires forall n :: env.storage(n)
    ensures 0 < |ScanLoop(c, env, s).batch| < c.batchSize
    decreases c.ScanLimit() - s.scanned
  {
    if PageLimit(c, s) > 0 {
      var m := ScanPageInv(c, env, db0, s);
      var (s', more) := ScanPage(c, env, s);
      if more { NeverFills(c, env, db0, s'); }
    }
  }

  lemma LaterPage(c: Config, k: nat, j: nat)
    requires k < j
    ensures PageStart(c, k) + c.batchSize <= PageStart(c, j)
    ensures PageStart(c, k + 1) == PageStart(c, k) + c.batchSize
  {
    assert j * c.batchSize == (k + 1) * c.batchSize + (j - k - 1) * c.batchSize;
  }

  ghost predicate FullPageFrom(c: Config, p0: seq<EventRow>, k: nat) { exists j: nat :: k <= j && FullPage(c, p0, j) }

  /** What a page read with an empty batch takes. */
  function FirstRows(c: Config, p0: seq<EventRow>, n: int): int {
    Min(Min(c.batchSize, c.ScanLimit() - n), |p0| - n)
  }

  /** A later page is full only if this one is full length and fails whole. */
  lemma FullLater(c: Config, p0: seq<EventRow>, k: nat, j: nat)
    requires c.Valid() && k < j && FullPage(c, p0, j)
    ensures FirstRows(c, p0, PageStart(c, k)) == c.batchSize
    ensures Good(c, p0[PageStart(c, k)..PageStart(c, k) + c.batchSize]) == []
  {
    hide Filter;
    LaterPage(c, k, j);
    var n, m, later := PageStart(c, k), c.batchSize, PageStart(c, j);
    GoodBadExtend(c, p0, n, m);
    GoodBadExtend(c, p0, n + m, later - n - m);
  }

  /** What the rows of page k, cut at the limits, say about full pages from there on. */
  lemma PageVerdict(c: Config, p0: seq<EventRow>, k: nat)
    requires c.Valid() && PageStart(c, k) <= |p0| && PageStart(c, k) <= c.ScanLimit()
    requires Good(c, p0[..PageStart(c, k)]) == []
    ensures var n, m := PageStart(c, k), FirstRows(c, p0, PageStart(c, k));
            var taken := |Good(c, p0[n..n + m])|;
            && taken <= m
            && (FullPageFrom(c, p0, k)
                <==> taken == c.batchSize || (taken == 0 && m == c.batchSize && FullPageFrom(c, p0, k + 1)))
  {
    hide Filter;
    var n, m := PageStart(c, k), FirstRows(c, p0, PageStart(c, k));
    GoodWhole(c, p0[n..n + m]);
    if |Good(c, p0[n..n + m])| == c.batchSize {
      assert FullPage(c, p0, k);
    } else {
      forall j | k < j && FullPage(c, p0, j) ensures m == c.batchSize && Good(c, p0[n..n + m]) == [] {
        FullLater(c, p0, k, j);
      }
    }
  }

  lemma PageWorks(c: Config, env: Env, s: Scan)
    requires s.error.None? && PageLimit(c, s) > 0
    requires forall n :: env.storage(n)
    ensures var (s', more) := ScanPage(c, env, s);
            s'.error.None? && ScanLoop(c, env, s) == if more then ScanLoop(c, env, s') else s'
  {
  }

  lemma PageFromStart(c: Config, env: Env, db0: Db, s: Scan) returns (s': Scan, more: bool)
    requires c.Valid() && UniqueIds(PendingEvents(db0)) && ScanInv(c, db0, s)
    requires s.batch == [] && s.scanned < c.ScanLimit()
    requires forall n :: env.storage(n)
    ensures ScanLoop(c, env, s) == if more then ScanLoop(c, env, s') else s'
    ensures var p0, m := PendingEvents(db0), FirstRows(c, PendingEvents(db0), s.scanned);
            && 0 <= m && ScanInv(c, db0, s') && s'.scanned == s.scanned + m <= |p0|
            && s'.batch == Good(c, p0[s.scanned..s.scanned + m])
            && (more <==> m > 0 && m == PageLimit(c, s))
  {
    hide Filter;
    PageWorks(c, env, s);
    s', more := ScanPage(c, env, s).0, ScanPage(c, env, s).1;
    var m := ScanPageInv(c, env, db0, s);
    hide ScanInv, ScanPage, ScanLoop, Good, PendingEvents;
    assert [] + Good(c, PendingEvents(db0)[s.scanned..s.scanned + m]) == s'.batch;
  }

  /** After a page the loop goes on only with a full page of failures or at its limits. */
  lemma PageBounds(c: Config, p0: seq<EventRow>, s: Scan, s': Scan, more: bool)
    requires c.Valid() && s.batch == [] && s.scanned < c.ScanLimit() && s.scanned <= |p0|
    requires var m := FirstRows(c, p0, s.scanned);
             s'.scanned == s.scanned + m && |s'.batch| <= m && (more <==> m > 0 && m == PageLimit(c, s))
    ensures var m := FirstRows(c, p0, s.scanned);
            && m <= c.batchSize && s'.scanned <= c.ScanLimit()
            && (more ==> m > 0)
            && (m == c.batchSize ==> more)
            && (more && m < c.batchSize ==> PageLimit(c, s') <= 0)
  {
  }

  lemma SettlesWhetherFull(c: Config, env: Env, db0: Db, s: Scan)
    requires UniqueIds(PendingEvents(db0)) && ScanInv(c, db0, s)
    requires 0 < |s.batch| || PageLimit(c, s) <= 0
    requires forall n :: env.storage(n)
    ensures |s.batch| <= c.batchSize ==> (|ScanLoop(c, env, s).batch| == c.batchSize <==> |s.batch| == c.batchSize)
  {
    if 0 < |s.batch| < c.batchSize { NeverFills(c, env, db0, s); } else if |s.batch| <= c.batchSize { LoopEnds(c, env, s); }
  }

  /** The scan stands at the start of page k with nothing taken so far. */
  predicate AtPage(c: Config, db0: Db, s: Scan, k: nat) {
    ScanInv(c, db0, s) && s.batch == [] && s.scanned == PageStart(c, k) <= c.ScanLimit()
  }

  /** One page from a page start: where the scan stands, and what that says about full pages. */
  lemma OnePage(c: Config, env: Env, db0: Db, s: Scan, k: nat) returns (s': Scan, more: bool)
    requires c.Valid() && UniqueIds(PendingEvents(db0)) && AtPage(c, db0, s, k)
    requires s.scanned < c.ScanLimit()
    requires forall n :: env.storage(n)
    ensures ScanLoop(c, env, s) == if more then ScanLoop(c, env, s') else s'
    ensures ScanInv(c, db0, s') && |s'.batch| <= s'.scanned - s.scanned <= c.batchSize && s'.scanned <= c.ScanLimit()
    ensures s'.scanned - s.scanned == c.batchSize ==> more
    ensures more && s'.scanned - s.scanned < c.batchSize ==> PageLimit(c, s') <= 0
    ensures FullPageFrom(c, PendingEvents(db0), k)
            <==> |s'.batch| == c.batchSize
                 || (s'.batch == [] && s'.scanned - s.scanned == c.batchSize && FullPageFrom(c, PendingEvents(db0), k + 1))
  {
    assert s.batch == [] && ScanInv(c, db0, s) && c.batchSize > 0 && s.scanned == PageStart(c, k);
    hide ScanInv, ScanLoop, ScanPage, PendingEvents, Good, PageLimit, FullPage, FullPageFrom, FirstRows, PageStart;
    PageVerdict(c, PendingEvents(db0), k);
    s', more := PageFromStart(c, env, db0, s);
    PageBounds(c, PendingEvents(db0), s, s', more);
  }

  lemma {:induction false} FullFrom(c: Config, env: Env, db0: Db, s: Scan, k: nat)
    requires c.Valid() && UniqueIds(PendingEvents(db0)) && AtPage(c, db0, s, k)
    requires forall n :: env.storage(n)
    ensures |ScanLoop(c, env, s).batch| == c.batchSize <==> FullPageFrom(c, PendingEvents(db0), k)
    decreases c.ScanLimit() - s.scanned
  {
    if s.scanned == c.ScanLimit() {
      LoopEnds(c, env, s);
      hide Good;
      forall j | k < j ensures !FullPage(c, PendingEvents(db0), j) { LaterPage(c, k, j); }
    } else {
      var s', more := OnePage(c, env, db0, s, k);
      LaterPage(c, k, k + 1);
      hide FullPageFrom, ScanLoop, PendingEvents, Good, PageStart, ScanInv, PageLimit;
      if s'.batch == [] && s'.scanned - s.scanned == c.batchSize {
        FullFrom(c, env, db0, s', k + 1);
      } else if more {
        SettlesWhetherFull(c, env, db0, s');
      }
    }
  }

  lemma LoopEnds(c: Config, env: Env, s: Scan)
    requires |s.batch| >= c.batchSize || PageLimit(c, s) <= 0
    ensures ScanLoop(c, env, s) == s
  {
  }

  /** A batch is full exactly when one aligned page converts whole behind pages that all fail. */
  lemma FullBatchIff(c: Config, env: Env, w: World)
    requires c.Valid() && UniqueIds(w.db.events)
    requires forall n :: env.storage(n)
    ensures |ScanLoop(c, env, StartScan(w)).batch| == c.batchSize
            <==> exists k: nat :: FullPage(c, PendingEvents(w.db), k)
  {
    UniqueFilter(IsPending, w.db.events);
    var p0 := PendingEvents(w.db);
    assert p0[..0] == [] && p0[0..] == p0;
    FullFrom(c, env, w.db, StartScan(w), 0);
  }

  const PAIRS := Config(2, (r: EventRow) => r.id != 0, (es, ts) => 0)
  const WORKING_STORAGE := Env(n => NetworkError, n => true)

  /** One failing row ahead of two good ones: a batch of two takes one, and leaves the other unread. */
  lemma GapNotRefilled(bad: EventRow, a: EventRow, b: EventRow, w: World)
    requires w.db.events == [bad, a, b] && IsPending(bad) && IsPending(a) && IsPending(b)
    requires bad.id == 0 && 0 < a.id < b.id
    ensures var r := ScanLoop(PAIRS, WORKING_STORAGE, StartScan(w));
            r.batch == [a] && r.error.None? && PendingEvents(r.world.db) == [a, b]
  {
    var c, env, p0 := PAIRS, WORKING_STORAGE, [bad, a, b];
    FilterAll(IsPending, p0);
    assert c.Valid() && UniqueIds(w.db.events) && forall n :: env.storage(n);
    hide *;
    ScanSucceeds(c, env, StartScan(w));
    ScanIsPrefix(c, env, w);
    FullBatchIff(c, env, w);
    NoFullPair(bad, a, b);
    StartClean(w);
    GapAtEnd(bad, a, b, w.db, ScanLoop(c, env, StartScan(w)));
  }

  lemma StartClean(w: World)
    ensures StartScan(w).error.None? && StartScan(w).world == w
  {
  }

  lemma NoFullPair(bad: EventRow, a: EventRow, b: EventRow)
    requires bad.id == 0
    ensures PAIRS.batchSize == 2 && forall k: nat :: !FullPage(PAIRS, [bad, a, b], k)
  {
    assert [bad, a, b][0] == bad && !PAIRS.converts(bad);
  }

  lemma GapAtEnd(bad: EventRow, a: EventRow, b: EventRow, db0: Db, r: Scan)
    requires bad.id == 0 && 0 < a.id < b.id
    requires PendingEvents(db0) == [bad, a, b] && ScanInv(PAIRS, db0, r) && |r.batch| != 2
    requires r.scanned == 3 || PageLimit(PAIRS, r) <= |r.batch|
    ensures r.batch == [a] && PendingEvents(r.world.db) == [a, b]
  {
    PairsWindow(bad, a, b);
    assert PAIRS.ScanLimit() == 20;
    hide Good;
    assert r.scanned == 0 || r.scanned == 1 || r.scanned == 2 || r.scanned == 3;
  }

  lemma PairsWindow(bad: EventRow, a: EventRow, b: EventRow)
    requires bad.id == 0 && 0 < a.id < b.id
    ensures var p0 := [bad, a, b];
            && Good(PAIRS, p0[..0]) == [] && Good(PAIRS, p0[..1]) == []
            && Good(PAIRS, p0[..2]) == [a] && Good(PAIRS, p0[..3]) == [a, b]
            && p0[2..] == [b]
  {
    var c, p0 := PAIRS, [bad, a, b];
    assert p0[..0] == [] && p0[..1] == [bad] && p0[..2] == [bad] + [a] && p0[..3] == ([bad] + [a]) + [b];
    FilterSnoc(c.converts, [], bad);
    FilterSnoc(c.converts, [bad], a);
    FilterSnoc(c.converts, [bad] + [a], b);
    assert [] + [bad] == [bad];
  }

  lemma {:induction false} ScanSucceeds(c: Config, env: Env, s: Scan)
    requires forall n :: env.storage(n)
    requires s.error.None?
    ensures ScanLoop(c, env, s).error.None? && ScanLoop(c, env, s).world.stopped == s.world.stopped
    decreases c.ScanLimit() - s.scanned
  {
    if PageLimit(c, s) > 0 {
      var (s', more) := ScanPage(c, env, s);
      if more { ScanSucceeds(c, env, s'); }
    }
  }
}
