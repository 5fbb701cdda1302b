/** What the server's answers do to the pusher, read off the history. */
module DeliveryAnswers {
  import opened Sequences
  import opened Delivery
  import opened DeliverySplit

  // ---------------------------------------------------------------- when the pusher is stopped

  /** The key was refused: 401 or 403. */
  predicate RefusedAt(log: seq<Entry>, i: int) {
    0 <= i < |log| && log[i].Posted? && log[i].outcome.Response? && (log[i].outcome.code == 401 || log[i].outcome.code == 403)
  }

  predicate QuietAfter(log: seq<Entry>, i: int) { forall j :: i < j < |log| && 0 <= j ==> !log[j].Posted? }

  ghost predicate StopLaw(w: World) {
    && (w.stopped <==> exists i :: RefusedAt(w.log, i))
    && forall i :: RefusedAt(w.log, i) ==> QuietAfter(w.log, i)
  }

  /** The history grew by entries that are no requests; nothing else about the answers changed. */
  predicate Silent(w: World, w': World) {
    && Extends(w, w') && w'.stopped == w.stopped && w'.backoff == w.backoff
    && forall e :: e in Since(w, w') ==> !e.Posted?
  }

  lemma SilentTrans(w: World, w1: World, w2: World)
    requires Silent(w, w1) && Silent(w1, w2)
    ensures Silent(w, w2)
  {
    SinceChain(w, w1, w2);
  }

  lemma SilentStop(w: World, w': World)
    requires Silent(w, w') && StopLaw(w)
    ensures StopLaw(w')
  {
    assert w'.log == w.log + Since(w, w');
    forall j | |w.log| <= j < |w'.log| ensures !w'.log[j].Posted? { assert w'.log[j] in Since(w, w'); }
    assert forall i :: RefusedAt(w'.log, i) <==> RefusedAt(w.log, i);
  }

  lemma PostStop(env: Env, w: World, events: seq<EventRow>, tasks: seq<TaskRow>)
    requires StopLaw(w) && !w.stopped
    ensures StopLaw(PostRaw(env, w, events, tasks))
  {
    var w' := PostRaw(env, w, events, tasks);
    assert forall i :: RefusedAt(w'.log, i) && i < |w.log| ==> RefusedAt(w.log, i);
    assert RefusedAt(w'.log, |w.log|) <==> w'.stopped;
  }

  lemma LeafStop(env: Env, w: World, events: seq<EventRow>, tasks: seq<TaskRow>)
    requires StopLaw(w) && !w.stopped
    ensures var p := PushLeaf(env, w, events, tasks); StopLaw(p.world) && (p.error.None? ==> !p.world.stopped)
  {
    PostStop(env, w, events, tasks);
    SilentStop(PostRaw(env, w, events, tasks), PushLeaf(env, w, events, tasks).world);
  }

  lemma {:induction false} SplitStop(c: Config, env: Env, w: World, events: seq<EventRow>, tasks: seq<TaskRow>)
    requires StopLaw(w) && !w.stopped
    ensures var p := PushWithSplit(c, env, w, events, tasks); StopLaw(p.world) && (p.error.None? ==> !p.world.stopped)
    decreases |events| + |tasks|
  {
    if events == [] && tasks == [] {
    } else if c.size(events, tasks) <= MAX_PAYLOAD_BYTES {
      LeafStop(env, w, events, tasks);
    } else if |events| + |tasks| > 1 {
      var h := Halves(events, tasks);
      SplitStop(c, env, w, h.0, h.1);
      var first := PushWithSplit(c, env, w, h.0, h.1);
      hide StopLaw;
      if first.error.None? { SplitStop(c, env, first.world, h.2, h.3); }
    } else {
      SilentStop(w, PushWithSplit(c, env, w, events, tasks).world);
    }
  }

  lemma {:induction false} ScanSilent(c: Config, env: Env, s: Scan)
    ensures Silent(s.world, ScanLoop(c, env, s).world)
    decreases c.ScanLimit() - s.scanned
  {
    if PageLimit(c, s) > 0 {
      var (s', more) := ScanPage(c, env, s);
      assert Silent(s.world, s'.world);
      if more {
        ScanSilent(c, env, s');
        SilentTrans(s.world, s'.world, ScanLoop(c, env, s').world);
      }
    }
  }

  lemma PushStop(c: Config, env: Env, w: World, now: int, order: seq<TaskId>, surface: bool)
    requires StopLaw(w)
    ensures StopLaw(PushBatch(c, env, w, now, order, surface).world)
  {
    if !w.stopped {
      var s := ScanLoop(c, env, StartScan(w));
      ScanSilent(c, env, StartScan(w));
      SilentStop(w, s.world);
      var q := QueryTasks(env, s.world, s.batch).world;
      SilentStop(s.world, q);
      var tasks := Arrange(SelectedTasks(c, q.db, s.batch), order);
      hide StopLaw;
      SplitStop(c, env, q, s.batch, tasks);
      var p := PushWithSplit(c, env, q, s.batch, tasks).world;
      SilentStop(p, MaintainBuffer(env, p, now));
    }
  }

  /** No new key and no restart. */
  predicate Undisturbed(actions: seq<Action>) { forall a :: a in actions ==> !a.DoSetApiKey? && !a.DoRestart? }

  lemma {:induction false} RunStop(c: Config, env: Env, w: World, actions: seq<Action>)
    requires StopLaw(w) && Undisturbed(actions)
    ensures StopLaw(Run(c, env, w, actions))
    decreases |actions|
  {
    if actions != [] {
      var a := actions[0];
      assert a in actions;
      if a.DoPush? { PushStop(c, env, w, a.now, a.order, a.surface); } else { SilentStop(w, Step(c, env, w, a)); }
      RunStop(c, env, Step(c, env, w, a), actions[1..]);
    }
  }

  /**
   In every run without a new key or a restart the pusher is stopped exactly when a request was
   answered 401 or 403, and no request follows that one.
   */
  lemma StoppedIffRefused(c: Config, env: Env, actions: seq<Action>)
    requires Undisturbed(actions)
    ensures var w := Run(c, env, Start, actions);
            && (w.stopped <==> exists i :: RefusedAt(w.log, i))
            && forall i :: RefusedAt(w.log, i) ==> QuietAfter(w.log, i)
  {
    RunStop(c, env, Start, actions);
  }

  // ---------------------------------------------------------------- how long it waits

  /** The answers to the requests of a history, in order. */
  function Answers(log: seq<Entry>): seq<Outcome> {
    if log == [] then []
    else Answers(log[..|log| - 1]) + if log[|log| - 1].Posted? then [log[|log| - 1].outcome] else []
  }

  predicate Doubled(before: int, after: int) {
    && (before == 0 ==> after == 1_000)
    && (before != 0 && 2 * before <= 300_000 ==> after == 2 * before)
    && (before != 0 && 2 * before > 300_000 ==> after == 300_000)
  }

  /** The back-off in milliseconds before and after one answer. */
  predicate Follows(before: int, o: Outcome, after: int) {
    match o
    case NotSent => after == before
    case NetworkError => Doubled(before, after)
    case Response(code, rejected, wait) =>
      if code == 401 || code == 403 || code == 413 then after == before
      else if 200 <= code < 300 && rejected <= 0 then after == 0
      else if code == 429 && wait.Some? then
        && (wait.value <= 0 ==> after == 0) && (0 <= wait.value <= 300_000 ==> after == wait.value)
        && (wait.value >= 300_000 ==> after == 300_000)
      else Doubled(before, after)
  }

  /** The back-offs of a fresh pusher: before the first answer and after each one. */
  predicate Waits(answers: seq<Outcome>, waits: seq<int>) {
    && |waits| == |answers| + 1 && waits[0] == 0
    && forall i :: 0 <= i < |answers| ==> Follows(waits[i], answers[i], waits[i + 1])
  }

  lemma {:induction false} WaitsOnce(answers: seq<Outcome>, a: seq<int>, b: seq<int>, n: nat)
    requires Waits(answers, a) && Waits(answers, b) && n <= |answers|
    ensures a[n] == b[n]
  {
    if n > 0 {
      WaitsOnce(answers, a, b, n - 1);
      assert Follows(a[n - 1], answers[n - 1], a[n]) && Follows(b[n - 1], answers[n - 1], b[n]);
    }
  }

  lemma {:induction false} SilentAnswers(log: seq<Entry>, more: seq<Entry>)
    requires forall e :: e in more ==> !e.Posted?
    ensures Answers(log + more) == Answers(log)
    decreases |more|
  {
    if more == [] {
      assert log + more == log;
    } else {
      var all, init := log + more, more[..|more| - 1];
      assert all[..|all| - 1] == log + init && all[|all| - 1] == more[|more| - 1];
      SilentAnswers(log, init);
      assert Answers(log) + [] == Answers(log);
    }
  }

  predicate EndsAt(waits: seq<int>, backoff: int) { waits != [] && waits[|waits| - 1] == backoff }

  ghost predicate WaitLaw(w: World) { exists waits :: Waits(Answers(w.log), waits) && EndsAt(waits, w.backoff) }

  lemma SilentWaits(w: World, w': World)
    requires Silent(w, w') && WaitLaw(w)
    ensures WaitLaw(w')
  {
    SilentAnswers(w.log, Since(w, w'));
    assert w'.log == w.log + Since(w, w');
  }

  lemma PostWaits(env: Env, w: World, events: seq<EventRow>, tasks: seq<TaskRow>)
    requires WaitLaw(w)
    ensures WaitLaw(PostRaw(env, w, events, tasks))
  {
    var w', o := PostRaw(env, w, events, tasks), env.server(w.posts);
    assert w'.log[..|w'.log| - 1] == w.log;
    var answers := Answers(w.log);
    assert Answers(w'.log) == answers + [o];
    var waits :| Waits(answers, waits) && EndsAt(waits, w.backoff);
    assert Follows(w.backoff, o, w'.backoff);
    assert Waits(answers + [o], waits + [w'.backoff]) && EndsAt(waits + [w'.backoff], w'.backoff);
  }

  lemma {:induction false} SplitWaits(c: Config, env: Env, w: World, events: seq<EventRow>, tasks: seq<TaskRow>)
    requires WaitLaw(w)
    ensures WaitLaw(PushWithSplit(c, env, w, events, tasks).world)
    decreases |events| + |tasks|
  {
    if events == [] && tasks == [] {
    } else if c.size(events, tasks) <= MAX_PAYLOAD_BYTES {
      hide WaitLaw;
      PostWaits(env, w, events, tasks);
      SilentWaits(PostRaw(env, w, events, tasks), PushLeaf(env, w, events, tasks).world);
    } else if |events| + |tasks| > 1 {
      var h := Halves(events, tasks);
      hide WaitLaw;
      SplitWaits(c, env, w, h.0, h.1);
      SplitWaits(c, env, PushWithSplit(c, env, w, h.0, h.1).world, h.2, h.3);
    } else {
      SilentWaits(w, PushWithSplit(c, env, w, events, tasks).world);
    }
  }

  lemma PushWaits(c: Config, env: Env, w: World, now: int, order: seq<TaskId>, surface: bool)
    requires WaitLaw(w)
    ensures WaitLaw(PushBatch(c, env, w, now, order, surface).world)
  {
    hide WaitLaw;
    var s := ScanLoop(c, env, StartScan(w));
    ScanSilent(c, env, StartScan(w));
    SilentWaits(w, s.world);
    var q := QueryTasks(env, s.world, s.batch).world;
    SilentWaits(s.world, q);
    var tasks := Arrange(SelectedTasks(c, q.db, s.batch), order);
    SplitWaits(c, env, q, s.batch, tasks);
    var p := PushWithSplit(c, env, q, s.batch, tasks).world;
    SilentWaits(p, MaintainBuffer(env, p, now));
  }

  lemma {:induction false} RunWaits(c: Config, env: Env, w: World, actions: seq<Action>)
    requires WaitLaw(w) && forall a :: a in actions ==> !a.DoRestart?
    ensures WaitLaw(Run(c, env, w, actions))
    decreases |actions|
  {
    if actions != [] {
      var a := actions[0];
      assert a in actions;
      var w' := Step(c, env, w, a);
      if a.DoPush? {
        PushWaits(c, env, w, a.now, a.order, a.surface);
      } else {
        assert w'.log == w.log && w'.backoff == w.backoff;
      }
      RunWaits(c, env, w', actions[1..]);
    }
  }

  /** The answers so far lead to this back-off, and to no other. */
  ghost predicate BackoffLaw(w: World) {
    && (exists waits :: Waits(Answers(w.log), waits))
    && forall waits :: Waits(Answers(w.log), waits) ==> EndsAt(waits, w.backoff)
  }

  lemma WaitsDetermine(w: World)
    requires WaitLaw(w)
    ensures BackoffLaw(w)
  {
    var known :| Waits(Answers(w.log), known) && EndsAt(known, w.backoff);
    forall waits | Waits(Answers(w.log), waits) ensures EndsAt(waits, w.backoff) {
      WaitsOnce(Answers(w.log), waits, known, |Answers(w.log)|);
    }
  }

  /** In every run without a restart the back-off is what the answers so far, in order, lead to. */
  lemma BackoffFollowsAnswers(c: Config, env: Env, actions: seq<Action>)
    requires forall a :: a in actions ==> !a.DoRestart?
    ensures BackoffLaw(Run(c, env, Start, actions))
  {
    assert Answers([]) == [] && Waits([], [0]) && EndsAt([0], 0);
    RunWaits(c, env, Start, actions);
    WaitsDetermine(Run(c, env, Start, actions));
  }
}
