/** Session tasks: one per identity, evicted when idle or when there are too many. */
module Sessions {
  import opened Sequences

  /** `identity` is empty for sessions found by their context only. */
  datatype Entry = Entry(task: nat, lastActivity: int, identity: string)

  const CAP := 10_000
  const NUL := 0 as char

  function Identity(customer: string, project: string, agent: string): (id: string)
    ensures |id| >= 2
  {
    customer + [NUL] + project + [NUL] + agent
  }

  datatype State = State(sessions: map<nat, Entry>, nextID: nat)

  /** `victim` is the session to evict should there be too many; `explicit` a task already active in the context. */
  datatype Action =
    | ForIdentity(explicit: Option<nat>, identity: string, task: nat, now: int, victim: nat)
    | ForContext(explicit: Option<nat>, sid: Option<nat>, task: nat, now: int)
    | FinalizeIdle(now: int)
    | Clear

  predicate Holds(sessions: map<nat, Entry>, sid: nat, identity: string) { sid in sessions && sessions[sid].identity == identity }

  ghost function Find(sessions: map<nat, Entry>, identity: string): (r: Option<nat>)
    ensures r.Some? ==> Holds(sessions, r.value, identity)
    ensures r.None? ==> forall sid :: !Holds(sessions, sid, identity)
  {
    if exists sid :: Holds(sessions, sid, identity) then
      var sid :| Holds(sessions, sid, identity); Some(sid)
    else None
  }

  predicate LeastActive(sessions: map<nat, Entry>, sid: nat) {
    sid in sessions && forall other :: other in sessions ==> sessions[sid].lastActivity <= sessions[other].lastActivity
  }

  function Touch(sessions: map<nat, Entry>, sid: nat, now: int): map<nat, Entry>
    requires sid in sessions
  {
    sessions[sid := sessions[sid].(lastActivity := now)]
  }

  function Evicted(sessions: map<nat, Entry>, victim: nat): map<nat, Entry> {
    if |sessions| >= CAP then sessions - {victim} else sessions
  }

  function Created(s: State, sessions: map<nat, Entry>, e: Entry): State { State(sessions[s.nextID + 1 := e], s.nextID + 1) }

  function Active(sessions: map<nat, Entry>, idle: int, now: int): map<nat, Entry> {
    map sid | sid in sessions && now - sessions[sid].lastActivity < idle :: sessions[sid]
  }

  /** The next state and the task handed out, if any. */
  ghost function Step(idle: int, s: State, a: Action): (State, Option<nat>) {
    match a
    case ForIdentity(explicit, identity, task, now, victim) =>
      var found := Find(s.sessions, identity);
      if explicit.Some? then (s, explicit)
      else if found.Some? then (s.(sessions := Touch(s.sessions, found.value, now)), Some(s.sessions[found.value].task))
      else (Created(s, Evicted(s.sessions, victim), Entry(task, now, identity)), Some(task))
    case ForContext(explicit, sid, task, now) =>
      var known := sid.Some? && sid.value in s.sessions;
      if explicit.Some? then (if known then s.(sessions := Touch(s.sessions, sid.value, now)) else s, explicit)
      else if known then (s.(sessions := Touch(s.sessions, sid.value, now)), Some(s.sessions[sid.value].task))
      else (Created(s, s.sessions, Entry(task, now, "")), Some(task))
    case FinalizeIdle(now) => (s.(sessions := Active(s.sessions, idle, now)), None)
    case Clear => (s.(sessions := map[]), None)
  }

  /** Identities are never empty, and an eviction takes a least recently active session. */
  ghost predicate Allowed(s: State, a: Action) {
    a.ForIdentity? ==>
      && a.identity != ""
      && (a.explicit.None? && Find(s.sessions, a.identity).None? && |s.sessions| >= CAP ==> LeastActive(s.sessions, a.victim))
  }

  ghost predicate Legal(idle: int, s: State, actions: seq<Action>)
    decreases |actions|
  {
    actions == [] || (Allowed(s, actions[0]) && Legal(idle, Step(idle, s, actions[0]).0, actions[1..]))
  }

  ghost function Run(idle: int, s: State, actions: seq<Action>): State
    decreases |actions|
  {
    if actions == [] then s else Run(idle, Step(idle, s, actions[0]).0, actions[1..])
  }

  const START := State(map[], 0)

  // ---------------------------------------------------------------- what a step does

  /** The sessions are the same but for one, which is as given. */
  ghost predicate Only(before: map<nat, Entry>, after: map<nat, Entry>, sid: nat, e: Entry) {
    sid in after && after[sid] == e && forall other :: other != sid ==> SameAt(before, after, other)
  }

  ghost predicate SameAt(before: map<nat, Entry>, after: map<nat, Entry>, sid: nat) {
    (sid in after <==> sid in before) && (sid in after ==> after[sid] == before[sid])
  }

  /** A call that finds its session hands out its task and notes the time, whatever else is tracked. */
  lemma FoundSays(idle: int, s: State, a: Action, sid: nat)
    requires sid in s.sessions
    requires || (a.ForIdentity? && a.explicit.None? && Find(s.sessions, a.identity) == Some(sid))
             || (a.ForContext? && a.explicit.None? && a.sid == Some(sid))
    ensures var (after, task) := Step(idle, s, a);
            && task == Some(s.sessions[sid].task) && after.nextID == s.nextID
            && Only(s.sessions, after.sessions, sid, Entry(s.sessions[sid].task, a.now, s.sessions[sid].identity))
  {
  }

  /** A call that finds none creates one for its own task, under a new number, and only a full table loses its victim. */
  lemma NewSays(idle: int, s: State, a: Action)
    requires Inv(s) && Allowed(s, a)
    requires || (a.ForIdentity? && a.explicit.None? && forall sid :: !Holds(s.sessions, sid, a.identity))
             || (a.ForContext? && a.explicit.None? && (a.sid.None? || a.sid.value !in s.sessions))
    ensures var (after, task) := Step(idle, s, a);
            var e := Entry(a.task, a.now, if a.ForIdentity? then a.identity else "");
            && task == Some(a.task) && s.nextID + 1 !in s.sessions
            && (if a.ForIdentity? && |s.sessions| >= 10_000
                then a.victim in s.sessions && Only(s.sessions - {a.victim}, after.sessions, s.nextID + 1, e)
                else Only(s.sessions, after.sessions, s.nextID + 1, e))
  {
  }

  /** Closing idle sessions keeps exactly those heard of within the idle time, as they were. */
  lemma IdleSays(idle: int, s: State, now: int, sid: nat)
    ensures var after := Step(idle, s, FinalizeIdle(now)).0.sessions;
            && (sid in after <==> sid in s.sessions && now < s.sessions[sid].lastActivity + idle)
            && (sid in after ==> after[sid] == s.sessions[sid])
  {
  }

  // ---------------------------------------------------------------- invariants

  predicate DistinctIdentities(sessions: map<nat, Entry>) {
    forall a, b :: a in sessions && b in sessions && sessions[a].identity == sessions[b].identity != "" ==> a == b
  }

  predicate Inv(s: State) {
    DistinctIdentities(s.sessions) && forall sid :: sid in s.sessions ==> 1 <= sid <= s.nextID
  }

  lemma StepKeeps(idle: int, s: State, a: Action)
    requires Inv(s) && Allowed(s, a)
    ensures Inv(Step(idle, s, a).0) && s.nextID <= Step(idle, s, a).0.nextID
  {
    if a.ForIdentity? && a.explicit.None? && Find(s.sessions, a.identity).None? {
      forall sid | sid in s.sessions ensures s.sessions[sid].identity != a.identity {
        assert !Holds(s.sessions, sid, a.identity);
      }
    }
  }

  lemma {:induction false} RunKeeps(idle: int, s: State, actions: seq<Action>)
    requires Inv(s) && Legal(idle, s, actions)
    ensures Inv(Run(idle, s, actions)) && s.nextID <= Run(idle, s, actions).nextID
    decreases |actions|
  {
    if actions != [] {
      StepKeeps(idle, s, actions[0]);
      RunKeeps(idle, Step(idle, s, actions[0]).0, actions[1..]);
    }
  }

  /** In every reachable state at most one session has a given identity, so a lookup has one answer. */
  lemma UniqueLookup(idle: int, actions: seq<Action>, identity: string, sid: nat)
    requires Legal(idle, START, actions) && identity != ""
    ensures var sessions := Run(idle, START, actions).sessions;
            Holds(sessions, sid, identity) <==> Find(sessions, identity) == Some(sid)
  {
    RunKeeps(idle, START, actions);
  }

  /** A session that is still there keeps its task and identity; removed identifiers never come back. */
  lemma StepKeepsEntry(idle: int, s: State, a: Action, sid: nat)
    requires Inv(s) && Allowed(s, a) && sid <= s.nextID
    requires sid in Step(idle, s, a).0.sessions
    ensures sid in s.sessions
    ensures Step(idle, s, a).0.sessions[sid].task == s.sessions[sid].task
    ensures Step(idle, s, a).0.sessions[sid].identity == s.sessions[sid].identity
  {
  }

  lemma {:induction false} RunKeepsEntry(idle: int, s: State, actions: seq<Action>, sid: nat)
    requires Inv(s) && Legal(idle, s, actions) && sid <= s.nextID && sid in Run(idle, s, actions).sessions
    ensures sid in s.sessions
    ensures Run(idle, s, actions).sessions[sid].task == s.sessions[sid].task
    ensures Run(idle, s, actions).sessions[sid].identity == s.sessions[sid].identity
    decreases |actions|
  {
    if actions != [] {
      var s' := Step(idle, s, actions[0]).0;
      StepKeeps(idle, s, actions[0]);
      RunKeepsEntry(idle, s', actions[1..], sid);
      StepKeepsEntry(idle, s, actions[0], sid);
    }
  }

  /** Whatever happened in between, an identity gets the same task as long as its session is still tracked. */
  lemma SameTask(idle: int, s: State, actions: seq<Action>, sid: nat, again: Action)
    requires Inv(s) && sid in s.sessions && s.sessions[sid].identity != ""
    requires Legal(idle, s, actions) && sid in Run(idle, s, actions).sessions
    requires again.ForIdentity? && again.explicit.None? && again.identity == s.sessions[sid].identity
    ensures Step(idle, Run(idle, s, actions), again).1 == Some(s.sessions[sid].task)
  {
    RunKeeps(idle, s, actions);
    RunKeepsEntry(idle, s, actions, sid);
    assert Holds(Run(idle, s, actions).sessions, sid, again.identity);
  }

  /** When an identity call removes a session, that session was least recently active and the table was full. */
  lemma EvictsOldest(idle: int, s: State, a: Action, sid: nat)
    requires Inv(s) && Allowed(s, a) && a.ForIdentity?
    requires sid in s.sessions && sid !in Step(idle, s, a).0.sessions
    ensures LeastActive(s.sessions, sid) && |s.sessions| >= CAP
    ensures Find(s.sessions, a.identity).None?
  {
  }

  /** How many calls of a run look a session up by its context. */
  function Contexts(actions: seq<Action>): nat {
    if actions == [] then 0 else (if actions[0].ForContext? then 1 else 0) + Contexts(actions[1..])
  }

  lemma Inserted(sessions: map<nat, Entry>, sid: nat, e: Entry)
    ensures |sessions[sid := e]| == if sid in sessions then |sessions| else |sessions| + 1
  {
    assert sessions[sid := e].Keys == sessions.Keys + {sid};
  }

  lemma AfterEviction(s: State, victim: nat)
    requires |s.sessions| >= CAP ==> victim in s.sessions
    ensures |Evicted(s.sessions, victim)| == if |s.sessions| >= CAP then |s.sessions| - 1 else |s.sessions|
    ensures s.nextID + 1 !in s.sessions ==> s.nextID + 1 !in Evicted(s.sessions, victim)
  {
    if |s.sessions| >= CAP { assert Evicted(s.sessions, victim).Keys == s.sessions.Keys - {victim}; }
  }

  /** Only context calls can take the table over the cap, one session each. */
  lemma StepBounded(idle: int, s: State, a: Action)
    requires Inv(s) && Allowed(s, a)
    ensures |Step(idle, s, a).0.sessions| <= Max(CAP, |s.sessions| + if a.ForContext? then 1 else 0)
  {
    match a {
      case ForIdentity(explicit, identity, task, now, victim) =>
        if explicit.None? {
          var found := Find(s.sessions, identity);
          if found.Some? {
            Inserted(s.sessions, found.value, s.sessions[found.value].(lastActivity := now));
          } else {
            AfterEviction(s, victim);
            Inserted(Evicted(s.sessions, victim), s.nextID + 1, Entry(task, now, identity));
          }
        }
      case ForContext(explicit, sid, task, now) =>
        if sid.Some? && sid.value in s.sessions {
          Inserted(s.sessions, sid.value, s.sessions[sid.value].(lastActivity := now));
        } else {
          Inserted(s.sessions, s.nextID + 1, Entry(task, now, ""));
        }
      case FinalizeIdle(now) => Fewer(Active(s.sessions, idle, now).Keys, s.sessions.Keys);
      case Clear =>
    }
  }

  lemma Fewer(a: set<nat>, b: set<nat>)
    requires a <= b
    ensures |a| <= |b|
  {
    assert b == a + (b - a);
  }

  lemma {:induction false} RunBoundedFrom(idle: int, s: State, actions: seq<Action>, over: nat)
    requires Inv(s) && Legal(idle, s, actions) && |s.sessions| <= CAP + over
    ensures |Run(idle, s, actions).sessions| <= CAP + over + Contexts(actions)
    decreases |actions|
  {
    if actions != [] {
      StepKeeps(idle, s, actions[0]);
      StepBounded(idle, s, actions[0]);
      RunBoundedFrom(idle, Step(idle, s, actions[0]).0, actions[1..], over + if actions[0].ForContext? then 1 else 0);
    }
  }

  /** A run never holds more sessions than the cap and its context calls together; without those, 10,000. */
  lemma RunsBounded(idle: int, actions: seq<Action>)
    requires Legal(idle, START, actions)
    ensures |Run(idle, START, actions).sessions| <= CAP + Contexts(actions)
  {
    RunBoundedFrom(idle, START, actions, 0);
  }

  function ContextCalls(n: nat, now: int): seq<Action> { seq(n, i => ForContext(None, None, 0, now)) }

  lemma {:induction false} ContextCallsGrow(idle: int, s: State, n: nat, now: int)
    requires Inv(s)
    ensures Legal(idle, s, ContextCalls(n, now)) && |Run(idle, s, ContextCalls(n, now)).sessions| == |s.sessions| + n
    decreases n
  {
    if n > 0 {
      var calls := ContextCalls(n, now);
      assert calls[0] == ForContext(None, None, 0, now) && calls[1..] == ContextCalls(n - 1, now);
      StepKeeps(idle, s, calls[0]);
      assert s.sessions[s.nextID + 1 := Entry(0, now, "")].Keys == s.sessions.Keys + {s.nextID + 1};
      ContextCallsGrow(idle, Step(idle, s, calls[0]).0, n - 1, now);
    }
  }

  /** Context calls are not capped: n of them in a row hold n sessions, 10,001 the first too many. */
  lemma ContextExceedsCap(idle: int, n: nat, now: int)
    ensures Legal(idle, START, ContextCalls(n, now)) && |Run(idle, START, ContextCalls(n, now)).sessions| == n
  {
    ContextCallsGrow(idle, START, n, now);
  }

  // ---------------------------------------------------------------- identities

  predicate NulFree(s: string) { NUL !in s }

  /** No other customer, project and agent have this identity. */
  ghost predicate Determined(c: string, p: string, a: string) {
    forall c2, p2, a2 :: Identity(c2, p2, a2) == Identity(c, p, a) ==> c2 == c && p2 == p && a2 == a
  }

  lemma NulPlaces(c: string, p: string, a: string)
    ensures var id := Identity(c, p, a);
            && |id| == |c| + |p| + |a| + 2 && id[|c|] == NUL && id[|c| + 1 + |p|] == NUL
            && id[..|c|] == c && id[|c| + 1..|c| + 1 + |p|] == p && id[|c| + |p| + 2..] == a
            && (NulFree(c) && NulFree(p) && NulFree(a) ==>
                  forall i :: 0 <= i < |id| && i != |c| && i != |c| + 1 + |p| ==> id[i] != NUL)
  {
    var id := Identity(c, p, a);
    if NulFree(c) && NulFree(p) && NulFree(a) {
      forall i | 0 <= i < |id| && i != |c| && i != |c| + 1 + |p| ensures id[i] != NUL {
        if i < |c| { assert c[i] in c; }
        else if i < |c| + 1 + |p| { assert p[i - |c| - 1] in p; }
        else { assert a[i - |c| - |p| - 2] in a; }
      }
    }
  }

  /** An identity with two NULs only can be cut in one way. */
  lemma NulFreeDetermined(c: string, p: string, a: string)
    requires NulFree(c) && NulFree(p) && NulFree(a)
    ensures Determined(c, p, a)
  {
    NulPlaces(c, p, a);
    forall c2, p2, a2 | Identity(c2, p2, a2) == Identity(c, p, a) ensures c2 == c && p2 == p && a2 == a {
      NulPlaces(c2, p2, a2);
    }
  }

  lemma NulSplits(s: string) returns (left: string, right: string)
    requires !NulFree(s)
    ensures s == left + [NUL] + right && |left| < |s| && |right| < |s|
  {
    var i :| 0 <= i < |s| && s[i] == NUL;
    left, right := s[..i], s[i + 1..];
  }

  /** A NUL in any part lets the identity be cut in another way. */
  lemma NulShifts(c: string, p: string, a: string)
    requires !(NulFree(c) && NulFree(p) && NulFree(a))
    ensures !Determined(c, p, a)
  {
    if !NulFree(c) {
      var x, y := NulSplits(c);
      assert Identity(x, y, p + [NUL] + a) == Identity(c, p, a);
    } else if !NulFree(p) {
      var x, y := NulSplits(p);
      assert Identity(c, x, y + [NUL] + a) == Identity(c, p, a);
    } else {
      var x, y := NulSplits(a);
      assert Identity(c + [NUL] + p, x, y) == Identity(c, p, a);
    }
  }

  /** Callers are told apart exactly when none of customer, project and agent contains a NUL. */
  lemma IdentityDeterminedIff(c: string, p: string, a: string)
    ensures Determined(c, p, a) <==> NulFree(c) && NulFree(p) && NulFree(a)
  {
    if NulFree(c) && NulFree(p) && NulFree(a) { NulFreeDetermined(c, p, a); } else { NulShifts(c, p, a); }
  }

  /** A NUL in an agent makes it share its session with a caller of another customer. */
  lemma NulCollides()
    ensures Identity("x", "y", ['z', NUL, 'w']) == Identity(['x', NUL, 'y'], "z", "w")
  {
    var all := ['x', NUL, 'y', NUL, 'z', NUL, 'w'];
    assert Identity("x", "y", ['z', NUL, 'w']) == all;
    assert Identity(['x', NUL, 'y'], "z", "w") == all;
  }

  // ---------------------------------------------------------------- the manager

  class SessionManager {
    var sessions: map<nat, Entry>
    var nextID: nat
    const idleTimeout: int

    constructor (idleTimeout: int)
      ensures Contents() == START && this.idleTimeout == idleTimeout
    {
      sessions, nextID := map[], 0;
      this.idleTimeout := idleTimeout;
    }

    ghost function Contents(): State
      reads this
    {
      State(sessions, nextID)
    }

    /** Finds or creates the session of an identity; `task` is the task that would be created. */
    method GetOrCreateSessionForIdentity(explicit: Option<nat>, identity: string, task: nat, now: int)
      returns (r: nat, ghost victim: nat)
      requires Inv(Contents()) && identity != ""
      modifies this
      ensures var a := ForIdentity(explicit, identity, task, now, victim);
              Allowed(old(Contents()), a) && (Contents(), Some(r)) == Step(idleTimeout, old(Contents()), a)
    {
      victim := 0;
      if explicit.Some? { return explicit.value, 0; }
      var found := FindByIdentity(identity);
      if found.Some? {
        sessions := sessions[found.value := sessions[found.value].(lastActivity := now)];
        return sessions[found.value].task, 0;
      }
      if |sessions| >= CAP {
        var oldest := FindOldest();
        victim := oldest;
        sessions := sessions - {oldest};
      }
      nextID := nextID + 1;
      sessions := sessions[nextID := Entry(task, now, identity)];
      r := task;
    }

    /** Any entry with that identity; there is at most one. */
    method FindByIdentity(identity: string) returns (found: Option<nat>)
      requires Inv(Contents()) && identity != ""
      ensures found == Find(sessions, identity)
    {
      var left := sessions.Keys;
      while left != {}
        invariant left <= sessions.Keys
        invariant forall sid :: sid in sessions && sid !in left ==> !Holds(sessions, sid, identity)
        decreases |left|
      {
        var sid :| sid in left;
        if sessions[sid].identity == identity {
          assert Holds(sessions, sid, identity);
          return Some(sid);
        }
        left := left - {sid};
      }
      assert forall sid :: !Holds(sessions, sid, identity);
      found := None;
    }

    /** A least recently active session; ties may fall either way. */
    method FindOldest() returns (oldest: nat)
      requires |sessions| >= CAP
      ensures LeastActive(sessions, oldest)
    {
      assert sessions.Keys != {};
      var first :| first in sessions;
      oldest := first;
      var left := sessions.Keys - {first};
      while left != {}
        invariant left <= sessions.Keys && oldest in sessions
        invariant forall sid :: sid in sessions && sid !in left ==> sessions[oldest].lastActivity <= sessions[sid].lastActivity
        decreases |left|
      {
        var sid :| sid in left;
        if sessions[sid].lastActivity < sessions[oldest].lastActivity { oldest := sid; }
        left := left - {sid};
      }
    }

    method GetOrCreateSession(explicit: Option<nat>, sid: Option<nat>, task: nat, now: int) returns (r: nat)
      requires Inv(Contents())
      modifies this
      ensures (Contents(), Some(r)) == Step(idleTimeout, old(Contents()), ForContext(explicit, sid, task, now))
    {
      if explicit.Some? {
        if sid.Some? && sid.value in sessions {
          sessions := sessions[sid.value := sessions[sid.value].(lastActivity := now)];
        }
        return explicit.value;
      }
      if sid.Some? && sid.value in sessions {
        sessions := sessions[sid.value := sessions[sid.value].(lastActivity := now)];
        return sessions[sid.value].task;
      }
      nextID := nextID + 1;
      sessions := sessions[nextID := Entry(task, now, "")];
      r := task;
    }

    /** Closes every session idle for at least the timeout and reports its task. */
    method FinalizeIdleSessions(now: int) returns (finalized: seq<nat>)
      modifies this
      ensures Contents() == Step(idleTimeout, old(Contents()), FinalizeIdle(now)).0
      ensures forall t :: t in finalized <==>
                exists sid :: sid in old(sessions) && sid !in sessions && old(sessions)[sid].task == t
    {
      finalized := [];
      ghost var before := sessions;
      var left := sessions.Keys;
      while left != {}
        invariant left <= sessions.Keys && nextID == old(nextID)
        invariant forall sid :: sid in sessions ==> sid in before && sessions[sid] == before[sid]
        invariant forall sid :: sid in before && sid !in left ==> (sid in sessions <==> now - before[sid].lastActivity < idleTimeout)
        invariant forall t :: t in finalized <==> exists sid :: sid in before && sid !in sessions && before[sid].task == t
        decreases |left|
      {
        var sid :| sid in left;
        if now - sessions[sid].lastActivity >= idleTimeout {
          ghost var seen := finalized;
          finalized := finalized + [sessions[sid].task];
          ghost var kept := sessions;
          sessions := sessions - {sid};
          forall t ensures t in finalized <==> exists k :: k in before && k !in sessions && before[k].task == t {
            if t in seen { var k :| k in before && k !in kept && before[k].task == t; assert k !in sessions; }
          }
        }
        left := left - {sid};
      }
      assert sessions == Active(before, idleTimeout, now);
    }

    method Clear()
      modifies this
      ensures Contents() == Step(idleTimeout, old(Contents()), Action.Clear).0
    {
      sessions := map[];
    }
  }
}
