/** Retry detection over a pruned window, compared with detection over the whole history. */
module Heuristics {
  import opened Sequences

  /** `at` is in seconds; `error` is the event's error_type when it is a string. */
  datatype Event = Event(id: nat, task: nat, isLlmCall: bool, model: string, at: real, error: Option<string>)

  datatype Match = NoMatch | Retry(confidence: real, of: nat, reason: string)

  datatype Settings = Settings(window: real, threshold: real)
  {
    /** What the constructor accepts. */
    predicate Valid() { window > 0.0 && 0.0 < threshold <= 1.0 }
  }

  /** Likelihood that the next identical call retries an error; zero for errors that are not transient. */
  function Likelihood(error: string): (p: real)
    ensures 0.0 <= p <= 1.0
  {
    if error == "rate_limit" then 1.0
    else if error == "timeout" then 0.9
    else if error == "5xx" || error == "server_error" then 0.85
    else if error == "connection_error" then 0.8
    else 0.0
  }

  predicate Transient(error: string) { Likelihood(error) > 0.0 }

  predicate Candidate(c: Event, e: Event) { c.id != e.id && c.isLlmCall && c.model == e.model }

  predicate InWindow(s: Settings, c: Event, now: real) { 0.0 <= now - c.at <= s.window }

  /** The verdict on the first candidate found walking backwards. */
  function Judge(s: Settings, c: Event, e: Event): Match
    requires s.Valid()
  {
    if c.error.None? || !Transient(c.error.value) || !InWindow(s, c, e.at) then NoMatch
    else
      var confidence := Likelihood(c.error.value) * (1.0 - (e.at - c.at) / s.window);
      if confidence >= s.threshold then Retry(confidence, c.id, c.error.value) else NoMatch
  }

  /** The most recent earlier call of the same model. */
  function LastCandidate(events: seq<Event>, e: Event): Option<Event> {
    if events == [] then None
    else if Candidate(events[|events| - 1], e) then Some(events[|events| - 1])
    else LastCandidate(events[..|events| - 1], e)
  }

  function Detect(s: Settings, events: seq<Event>, e: Event): Match
    requires s.Valid()
  {
    var c := LastCandidate(events, e);
    if c.None? then NoMatch else Judge(s, c.value, e)
  }

  // ---------------------------------------------------------------- the verdict

  /** How likely an error is to be retried. */
  predicate Weighs(error: string, p: real) {
    || (error == "rate_limit" && p == 1.0) || (error == "timeout" && p == 0.9)
    || (error in {"5xx", "server_error"} && p == 0.85) || (error == "connection_error" && p == 0.8)
  }

  /** Event i is the last other model call of the same model. */
  ghost predicate LastCall(events: seq<Event>, e: Event, i: int) {
    && 0 <= i < |events| && events[i].isLlmCall && events[i].model == e.model && events[i].id != e.id
    && forall j :: i < j < |events| ==> !(events[j].isLlmCall && events[j].model == e.model && events[j].id != e.id)
  }

  /** It failed with an error that is retried, not too long ago: the likelier and the sooner, the surer. */
  ghost predicate Retried(s: Settings, c: Event, e: Event, confidence: real)
    requires s.Valid()
  {
    && c.error.Some? && 0.0 <= e.at - c.at <= s.window && confidence >= s.threshold
    && exists p :: Weighs(c.error.value, p) && confidence == p * (1.0 - (e.at - c.at) / s.window)
  }

  lemma JudgeSays(s: Settings, c: Event, e: Event)
    requires s.Valid()
    ensures match Judge(s, c, e)
      case NoMatch => forall confidence :: !Retried(s, c, e, confidence)
      case Retry(confidence, of, reason) => Retried(s, c, e, confidence) && of == c.id && c.error == Some(reason)
  {
    if c.error.Some? {
      var p := Likelihood(c.error.value);
      assert p > 0.0 <==> Weighs(c.error.value, p);
      forall q | Weighs(c.error.value, q) ensures q == p { }
    }
  }

  /** A call retries the last earlier one of its model exactly when that one qualifies, with that confidence and reason. */
  lemma VerdictSays(s: Settings, events: seq<Event>, e: Event)
    requires s.Valid()
    ensures match Detect(s, events, e)
      case NoMatch => forall i, confidence :: LastCall(events, e, i) ==> !Retried(s, events[i], e, confidence)
      case Retry(confidence, of, reason) =>
        exists i :: LastCall(events, e, i) && Retried(s, events[i], e, confidence) && of == events[i].id && events[i].error == Some(reason)
  {
    hide Judge, Retried;
    LastFound(events, e);
    var c := LastCandidate(events, e);
    if c.Some? { JudgeSays(s, c.value, e); }
  }

  lemma {:induction false} LastFound(events: seq<Event>, e: Event)
    ensures match LastCandidate(events, e)
      case None => forall i :: !LastCall(events, e, i)
      case Some(c) => (exists i :: LastCall(events, e, i) && events[i] == c) && forall i :: LastCall(events, e, i) ==> events[i] == c
  {
    if events != [] {
      var init, last := events[..|events| - 1], |events| - 1;
      LastFound(init, e);
      if LastCall(events, e, last) {
        assert Candidate(events[last], e);
      } else {
        assert forall i :: LastCall(events, e, i) <==> LastCall(init, e, i);
      }
    }
  }

  function Near(s: Settings, now: real): Event -> bool { (c: Event) => InWindow(s, c, now) }

  /** Recording prunes relative to the new event's time. */
  function Recorded(s: Settings, events: seq<Event>, e: Event): seq<Event> {
    Filter(Near(s, e.at), events) + [e]
  }

  function RecordAll(s: Settings, h: seq<Event>): seq<Event> {
    if h == [] then [] else Recorded(s, RecordAll(s, h[..|h| - 1]), h[|h| - 1])
  }

  predicate InOrder(h: seq<Event>) { forall i, j :: 0 <= i < j < |h| ==> h[i].at <= h[j].at }

  predicate SuffixFrom(s: Settings, h: seq<Event>, k: nat, now: real) {
    && k <= |h|
    && (forall i :: 0 <= i < k ==> now - h[i].at > s.window)
    && (forall i :: k <= i < |h| ==> InWindow(s, h[i], now))
  }

  /** In an ordered list the events too old for `now` come first. */
  lemma Cut(s: Settings, h: seq<Event>, now: real) returns (k: nat)
    requires InOrder(h) && forall i :: 0 <= i < |h| ==> h[i].at <= now
    ensures SuffixFrom(s, h, k, now)
  {
    k := 0;
    while k < |h| && now - h[k].at > s.window
      invariant k <= |h|
      invariant forall i :: 0 <= i < k ==> now - h[i].at > s.window
    {
      k := k + 1;
    }
  }

  /** A filter that refuses a prefix and accepts the rest keeps that suffix. */
  lemma FilterSuffix(p: Event -> bool, front: seq<Event>, back: seq<Event>)
    requires forall i :: 0 <= i < |front| ==> !p(front[i])
    requires forall i :: 0 <= i < |back| ==> p(back[i])
    ensures Filter(p, front + back) == back
  {
    forall c | c in front ensures !p(c) { var i :| 0 <= i < |front| && front[i] == c; }
    forall c | c in back ensures p(c) { var i :| 0 <= i < |back| && back[i] == c; }
    FilterNone(p, front);
    FilterAll(p, back);
    FilterConcat(p, front, back);
  }

  /** Pruning the kept suffix again, for a later time, keeps a shorter suffix of the same history. */
  lemma PruneKept(s: Settings, h: seq<Event>, k1: nat, before: real, now: real) returns (k: nat)
    requires InOrder(h) && SuffixFrom(s, h, k1, before) && before <= now
    requires forall i :: 0 <= i < |h| ==> h[i].at <= now
    ensures k1 <= k && SuffixFrom(s, h, k, now)
    ensures Filter(Near(s, now), h[k1..]) == h[k..]
  {
    k := Cut(s, h, now);
    assert k < |h| ==> InWindow(s, h[k], now);
    var front, back := h[k1..k], h[k..];
    forall i | 0 <= i < |front| ensures !Near(s, now)(front[i]) { assert front[i] == h[k1 + i]; }
    forall i | 0 <= i < |back| ensures Near(s, now)(back[i]) { assert back[i] == h[k + i]; }
    FilterSuffix(Near(s, now), front, back);
    assert h[k1..] == front + back;
  }

  lemma SuffixExtends(s: Settings, init: seq<Event>, k: nat, last: Event)
    requires s.Valid() && SuffixFrom(s, init, k, last.at)
    ensures SuffixFrom(s, init + [last], k, last.at)
  {
  }

  /** The retained list is the part of the history inside the window of its last event. */
  lemma {:induction false} RetainedIsSuffix(s: Settings, h: seq<Event>) returns (k: nat)
    requires s.Valid() && InOrder(h) && h != []
    ensures SuffixFrom(s, h, k, h[|h| - 1].at) && RecordAll(s, h) == h[k..]
  {
    var init, last := h[..|h| - 1], h[|h| - 1];
    assert h == init + [last];
    InOrderInit(init, last);
    if init == [] {
      k := 0;
    } else {
      var k1 := RetainedIsSuffix(s, init);
      k := RetainedStep(s, init, last, k1, init[|init| - 1].at);
    }
  }

  lemma RetainedStep(s: Settings, init: seq<Event>, last: Event, k1: nat, before: real) returns (k: nat)
    requires s.Valid() && InOrder(init) && SuffixFrom(s, init, k1, before) && before <= last.at
    requires init != [] && init[|init| - 1].at == before
    ensures SuffixFrom(s, init + [last], k, last.at)
    ensures Recorded(s, init[k1..], last) == (init + [last])[k..]
  {
    k := PruneKept(s, init, k1, before, last.at);
    SuffixExtends(s, init, k, last);
  }

  /** An event that fell out of the window can only ever answer "no match". */
  lemma StaleNeverMatch(s: Settings, c: Event, e: Event)
    requires s.Valid() && e.at - c.at > s.window
    ensures Judge(s, c, e) == NoMatch
  {
  }

  lemma {:induction false} CandidateFound(events: seq<Event>, e: Event)
    ensures LastCandidate(events, e).Some? ==> LastCandidate(events, e).value in events
  {
    if events != [] { CandidateFound(events[..|events| - 1], e); }
  }

  lemma {:induction false} CandidateInSuffix(front: seq<Event>, back: seq<Event>, e: Event)
    ensures LastCandidate(front + back, e)
            == if LastCandidate(back, e).Some? then LastCandidate(back, e) else LastCandidate(front, e)
  {
    if back == [] {
      assert front + back == front;
    } else {
      var all, init := front + back, back[..|back| - 1];
      assert all[..|all| - 1] == front + init;
      CandidateInSuffix(front, init, e);
    }
  }

  lemma DetectPrefix(s: Settings, stale: seq<Event>, kept: seq<Event>, e: Event)
    requires s.Valid() && forall c :: c in stale ==> e.at - c.at > s.window
    ensures Detect(s, stale + kept, e) == Detect(s, kept, e)
  {
    CandidateInSuffix(stale, kept, e);
    CandidateFound(stale, e);
    if LastCandidate(stale, e).Some? { StaleNeverMatch(s, LastCandidate(stale, e).value, e); }
  }

  lemma StalePrefix(s: Settings, h: seq<Event>, k: nat, now: real, e: Event)
    requires SuffixFrom(s, h, k, now) && now <= e.at
    ensures forall c :: c in h[..k] ==> e.at - c.at > s.window
  {
    forall c | c in h[..k] ensures e.at - c.at > s.window {
      var i :| 0 <= i < k && h[i] == c;
    }
  }

  lemma InOrderInit(h: seq<Event>, e: Event)
    requires InOrder(h + [e])
    ensures InOrder(h) && (h != [] ==> h[|h| - 1].at <= e.at)
  {
    var all := h + [e];
    forall i, j | 0 <= i < j < |h| ensures h[i].at <= h[j].at { assert all[i] == h[i] && all[j] == h[j]; }
    if h != [] { assert all[|h|] == e && all[|h| - 1] == h[|h| - 1]; }
  }

  /** Window refinement: for events in time order the pruned list answers as the whole history does. */
  lemma WindowRefines(s: Settings, h: seq<Event>, e: Event)
    requires s.Valid() && InOrder(h + [e])
    ensures Detect(s, RecordAll(s, h), e) == Detect(s, h, e)
  {
    if h != [] {
      InOrderInit(h, e);
      var k := RetainedIsSuffix(s, h);
      StalePrefix(s, h, k, h[|h| - 1].at, e);
      DetectPrefix(s, h[..k], h[k..], e);
      assert h[..k] + h[k..] == h;
    }
  }

  // ---------------------------------------------------------------- any order

  /** No later event is before this one, or further than the window behind it. */
  predicate Retained(s: Settings, h: seq<Event>, i: nat)
    requires i < |h|
  {
    forall j :: i < j < |h| ==> InWindow(s, h[i], h[j].at)
  }

  function Survivors(s: Settings, h: seq<Event>, n: nat): seq<Event>
    requires n <= |h|
  {
    if n == 0 then [] else Survivors(s, h, n - 1) + if Retained(s, h, n - 1) then [h[n - 1]] else []
  }

  lemma RetainedOneMore(s: Settings, h: seq<Event>, last: Event, i: nat)
    requires i < |h|
    ensures Retained(s, h + [last], i) <==> Retained(s, h, i) && InWindow(s, h[i], last.at)
  {
    var all := h + [last];
    if Retained(s, all, i) {
      assert InWindow(s, all[i], all[|h|].at);
      forall j | i < j < |h| ensures InWindow(s, h[i], h[j].at) { assert InWindow(s, all[i], all[j].at); }
    }
  }

  lemma {:induction false} FilterSurvivors(s: Settings, h: seq<Event>, last: Event, n: nat)
    requires n <= |h|
    ensures Filter(Near(s, last.at), Survivors(s, h, n)) == Survivors(s, h + [last], n)
  {
    if n > 0 {
      hide Filter;
      FilterSurvivors(s, h, last, n - 1);
      RetainedOneMore(s, h, last, n - 1);
      hide Retained;
      var kept, all := Survivors(s, h, n - 1), Survivors(s, h + [last], n - 1);
      assert kept + [] == kept && all + [] == all && (h + [last])[n - 1] == h[n - 1];
      if Retained(s, h, n - 1) { FilterSnoc(Near(s, last.at), kept, h[n - 1]); }
    } else {
      assert Filter(Near(s, last.at), []) == [];
    }
  }

  /** For any history, in any order: an event is still there exactly when it is in the window of every later one. */
  lemma {:induction false} RetainedIff(s: Settings, h: seq<Event>)
    ensures RecordAll(s, h) == Survivors(s, h, |h|)
  {
    if h != [] {
      var init, last := h[..|h| - 1], h[|h| - 1];
      assert h == init + [last];
      RetainedIff(s, init);
      FilterSurvivors(s, init, last, |init|);
    }
  }

  /** The last call of the same model in the history, or -1. */
  function LastIndex(h: seq<Event>, e: Event): (i: int)
    ensures -1 <= i < |h| && (i >= 0 ==> Candidate(h[i], e))
    ensures forall j :: i < j < |h| ==> !Candidate(h[j], e)
  {
    if h == [] then -1
    else if Candidate(h[|h| - 1], e) then |h| - 1
    else
      var init := h[..|h| - 1];
      assert forall j :: 0 <= j < |init| ==> init[j] == h[j];
      LastIndex(init, e)
  }

  /** The last one that is still there among the first n events, or -1. */
  function LastKept(s: Settings, h: seq<Event>, e: Event, n: nat): (k: int)
    requires n <= |h|
    ensures -1 <= k < n && (k >= 0 ==> Candidate(h[k], e) && Retained(s, h, k))
    ensures forall j :: k < j < n ==> !(Candidate(h[j], e) && Retained(s, h, j))
  {
    if n == 0 then -1
    else if Candidate(h[n - 1], e) && Retained(s, h, n - 1) then n - 1
    else LastKept(s, h, e, n - 1)
  }

  function At(h: seq<Event>, i: int): Option<Event>
    requires -1 <= i < |h|
  {
    if i < 0 then None else Some(h[i])
  }

  lemma {:induction false} CandidateAt(h: seq<Event>, e: Event)
    ensures LastCandidate(h, e) == At(h, LastIndex(h, e))
  {
    if h != [] && !Candidate(h[|h| - 1], e) { CandidateAt(h[..|h| - 1], e); }
  }

  lemma {:induction false} KeptCandidateAt(s: Settings, h: seq<Event>, e: Event, n: nat)
    requires n <= |h|
    ensures LastCandidate(Survivors(s, h, n), e) == At(h, LastKept(s, h, e, n))
  {
    if n == 0 {
      assert LastCandidate([], e) == None;
    } else {
      var kept := Survivors(s, h, n - 1);
      KeptCandidateAt(s, h, e, n - 1);
      hide Retained, Candidate, LastCandidate;
      CandidateSnoc(kept, h[n - 1], e);
      assert kept + [] == kept;
    }
  }

  lemma CandidateSnoc(events: seq<Event>, c: Event, e: Event)
    ensures LastCandidate(events + [c], e) == if Candidate(c, e) then Some(c) else LastCandidate(events, e)
    ensures LastCandidate([], e) == None
  {
    assert (events + [c])[..|events|] == events;
  }

  /** The call `e` would be taken for a retry of `c`. */
  predicate Matches(s: Settings, c: Event, e: Event)
    requires s.Valid()
  {
    c.error.Some? && Transient(c.error.value) && InWindow(s, c, e.at)
    && Likelihood(c.error.value) * (1.0 - (e.at - c.at) / s.window) >= s.threshold
  }

  lemma JudgeIff(s: Settings, c: Event, e: Event)
    requires s.Valid()
    ensures Judge(s, c, e).Retry? <==> Matches(s, c, e)
    ensures Judge(s, c, e).Retry? ==> Judge(s, c, e).of == c.id
  {
  }

  predicate DistinctIds(h: seq<Event>) { forall i, j :: 0 <= i < j < |h| ==> h[i].id != h[j].id }

  /** The last call matched, but a later event pruned it. */
  predicate MatchLost(s: Settings, h: seq<Event>, e: Event)
    requires s.Valid()
  {
    var i := LastIndex(h, e);
    i >= 0 && !Retained(s, h, i) && Matches(s, h[i], e)
  }

  /** The last call did not match, but it was pruned and an earlier one that is still there does. */
  predicate MatchCreated(s: Settings, h: seq<Event>, e: Event)
    requires s.Valid()
  {
    var i, k := LastIndex(h, e), LastKept(s, h, e, |h|);
    i >= 0 && !Retained(s, h, i) && !Matches(s, h[i], e) && k >= 0 && Matches(s, h[k], e)
  }

  /** The pruned list answers as the whole history does, exactly when no match was lost and none created. */
  lemma PrunedAgreesIff(s: Settings, h: seq<Event>, e: Event)
    requires s.Valid() && DistinctIds(h)
    ensures Detect(s, RecordAll(s, h), e) == Detect(s, h, e) <==> !MatchLost(s, h, e) && !MatchCreated(s, h, e)
  {
    var i, k := LastIndex(h, e), LastKept(s, h, e, |h|);
    RetainedIff(s, h);
    CandidateAt(h, e);
    KeptCandidateAt(s, h, e, |h|);
    assert i >= 0 && Retained(s, h, i) ==> k == i;
    assert k <= i;
    if i >= 0 { JudgeIff(s, h[i], e); }
    if k >= 0 { JudgeIff(s, h[k], e); }
    hide Judge, Matches, Retained, LastCandidate, Survivors, LastIndex, LastKept, RecordAll;
  }

  /** An event from the past prunes a newer failed call, and its retry is not seen. */
  lemma OutOfOrderLosesMatch(failed: Event, late: Event, retry: Event, s: Settings)
    requires s == Settings(30.0, 0.8)
    requires failed == Event(1, 0, true, "m", 10.0, Some("rate_limit"))
    requires late == Event(2, 0, true, "n", 5.0, None)
    requires retry == Event(3, 0, true, "m", 11.0, None)
    ensures Detect(s, [failed, late], retry).Retry?
    ensures Detect(s, RecordAll(s, [failed, late]), retry) == NoMatch
  {
    var h := [failed, late];
    assert (11.0 - 10.0) / 30.0 <= 0.2;
    assert LastIndex([failed], retry) == 0 && h[..1] == [failed];
    assert !InWindow(s, h[0], h[1].at) && !Retained(s, h, 0);
    assert LastKept(s, h, retry, 1) == LastKept(s, h, retry, 0) == -1;
    RetainedIff(s, h);
    CandidateAt(h, retry);
    KeptCandidateAt(s, h, retry, 2);
  }

  /** An event from the past prunes a successful call, and the failure before it looks like it is retried. */
  lemma OutOfOrderCreatesMatch(failed: Event, succeeded: Event, late: Event, next: Event, s: Settings)
    requires s == Settings(30.0, 0.7)
    requires failed == Event(1, 0, true, "m", 4.0, Some("rate_limit"))
    requires succeeded == Event(2, 0, true, "m", 10.0, None)
    requires late == Event(3, 0, true, "n", 5.0, None)
    requires next == Event(4, 0, true, "m", 11.0, None)
    ensures Detect(s, [failed, succeeded, late], next) == NoMatch
    ensures Detect(s, RecordAll(s, [failed, succeeded, late]), next).Retry?
  {
    var h := [failed, succeeded, late];
    assert (11.0 - 4.0) / 30.0 <= 0.3;
    assert h[..2] == [failed, succeeded] && LastIndex([failed, succeeded], next) == 1;
    assert !InWindow(s, h[1], h[2].at) && !Retained(s, h, 1);
    assert InWindow(s, h[0], h[1].at) && InWindow(s, h[0], h[2].at) && Retained(s, h, 0);
    assert LastKept(s, h, next, 2) == LastKept(s, h, next, 1) == 0;
    RetainedIff(s, h);
    CandidateAt(h, next);
    KeptCandidateAt(s, h, next, 3);
    JudgeIff(s, failed, next);
  }

  class RetryHeuristicEngine {
    const settings: Settings
    var recentEvents: map<nat, seq<Event>>
    ghost var history: map<nat, seq<Event>>

    ghost predicate Valid()
      reads this
    {
      && settings.Valid()
      && recentEvents.Keys == history.Keys
      && forall t :: t in history ==> recentEvents[t] == RecordAll(settings, history[t])
    }

    ghost function Seen(task: nat): seq<Event>
      reads this
    {
      if task in history then history[task] else []
    }

    constructor (settings: Settings)
      requires settings.Valid()
      ensures Valid() && this.settings == settings && history == map[]
    {
      this.settings := settings;
      recentEvents, history := map[], map[];
    }

    /** Stores an event, dropping what its time puts outside the window. */
    method Record(e: Event)
      requires Valid()
      modifies this
      ensures Valid() && history == old(history)[e.task := old(Seen(e.task)) + [e]]
    {
      ghost var seen := Seen(e.task);
      var existing := if e.task in recentEvents then recentEvents[e.task] else [];
      var pruned := Prune(existing, e);
      recentEvents := recentEvents[e.task := if pruned == [] then [e] else pruned + [e]];
      history := history[e.task := seen + [e]];
      assert (seen + [e])[..|seen|] == seen;
    }

    method Prune(existing: seq<Event>, e: Event) returns (pruned: seq<Event>)
      ensures pruned == Filter(Near(settings, e.at), existing)
    {
      pruned := [];
      for i := 0 to |existing|
        invariant pruned == Filter(Near(settings, e.at), existing[..i])
      {
        var candidate := existing[i];
        assert existing[..i + 1] == existing[..i] + [candidate];
        FilterConcat(Near(settings, e.at), existing[..i], [candidate]);
        assert [candidate][1..] == [];
        var gap := e.at - candidate.at;
        if gap >= 0.0 && gap <= settings.window { pruned := pruned + [candidate]; }
      }
      assert existing[..|existing|] == existing;
    }

    /** Walks the retained events backwards to the first comparable call. */
    method Check(e: Event) returns (m: Match)
      requires Valid()
      ensures m == Detect(settings, RecordAll(settings, Seen(e.task)), e)
      ensures InOrder(Seen(e.task) + [e]) ==> m == Detect(settings, Seen(e.task), e)
    {
      hide Judge, RecordAll;
      ghost var seen := Seen(e.task);
      if InOrder(seen + [e]) { WindowRefines(settings, seen, e); }
      if e.task !in recentEvents || recentEvents[e.task] == [] { return NoMatch; }
      var events := recentEvents[e.task];
      var i := |events|;
      assert events[..i] == events;
      while i > 0
        invariant 0 <= i <= |events|
        invariant LastCandidate(events, e) == LastCandidate(events[..i], e)
      {
        var candidate := events[i - 1];
        assert events[..i][..i - 1] == events[..i - 1];
        if candidate.id != e.id && candidate.isLlmCall && candidate.model == e.model {
          return Judge(settings, candidate, e);
        }
        i := i - 1;
      }
      return NoMatch;
    }
  }
}
