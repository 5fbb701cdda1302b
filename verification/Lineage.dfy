/** Retry lineage: what is stamped, and what the v3 contract asks of it. */
module Lineage {
  import opened Sequences

  /** Identifiers; `wellFormed` says whether the text matches the v3 contract's UUID pattern. */
  datatype Id = Id(text: string, wellFormed: bool)

  /** `operation` and `attempt` are the lineage details, when present. */
  datatype Event = Event(id: Id, isRetry: bool, retryOf: Option<Id>, operation: Option<Id>, attempt: Option<int>)

  const MAX_ATTEMPT := 2147483647

  predicate IsAttempt(n: Option<int>) { n.Some? && 1 <= n.value <= MAX_ATTEMPT }

  function Find(events: seq<Event>, id: Id): Option<Event> {
    if events == [] then None
    else if events[|events| - 1].id == id then Some(events[|events| - 1])
    else Find(events[..|events| - 1], id)
  }

  lemma {:induction false} FindMember(events: seq<Event>, id: Id)
    ensures Find(events, id).Some? ==> Find(events, id).value in events && Find(events, id).value.id == id
    ensures Find(events, id).None? ==> forall e :: e in events ==> e.id != id
  {
    if events != [] { FindMember(events[..|events| - 1], id); }
  }

  function Ids(events: seq<Event>): set<Id> { set e | e in events :: e.id }

  datatype Stamp = Stamp(operation: Id, attempt: int)

  /** Follows the retry links backwards until an attempt number, a root, a gap or a cycle. */
  function Walk(events: seq<Event>, prior: Option<Event>, visited: set<Id>, s: Stamp): Stamp
    requires prior.Some? ==> prior.value in events
    decreases |Ids(events) - visited|
  {
    if prior.None? || prior.value.id in visited then s
    else
      var p := prior.value;
      var named := if p.operation.Some? then p.operation.value else s.operation;
      if IsAttempt(p.attempt) then Stamp(named, p.attempt.value + 1)
      else if p.retryOf.None? then Stamp(if p.operation.Some? then named else p.id, s.attempt)
      else
        FindMember(events, p.retryOf.value);
        assert Ids(events) - visited - {p.id} == Ids(events) - (visited + {p.id});
        Walk(events, Find(events, p.retryOf.value), visited + {p.id},
             Stamp(if p.operation.Some? then named else p.retryOf.value, s.attempt + 1))
  }

  /** The stamp of a new event that retries `of`; a failed query leaves no history to follow. */
  function StampFor(history: seq<Event>, id: Id, of: Id): Stamp {
    FindMember(history, of);
    Walk(history, Find(history, of), {id}, Stamp(of, 2))
  }

  function Stamped(history: seq<Event>, e: Event): Event {
    if !e.isRetry || e.retryOf.None? then e
    else
      var s := StampFor(history, e.id, e.retryOf.value);
      e.(operation := if e.operation.Some? then e.operation else Some(s.operation),
         attempt := if IsAttempt(e.attempt) then e.attempt else Some(s.attempt))
  }

  // ---------------------------------------------------------------- what v3 asks

  datatype Operation = Operation(id: Id, attemptId: Id, number: int, retryOf: Option<Id>)

  /** The operation identity of an event, unless its retry lineage is incomplete. */
  function OperationFor(e: Event): Option<Operation> {
    var named := e.operation.Some? && e.operation.value.wellFormed;
    var number := if IsAttempt(e.attempt) then e.attempt.value else 1;
    if e.retryOf.Some? && (!e.retryOf.value.wellFormed || !named || !IsAttempt(e.attempt) || number <= 1) then None
    else Some(Operation(if named then e.operation.value else e.id, e.id, number, e.retryOf))
  }

  /** The contract's rules about attempts. */
  predicate AttemptRules(o: Operation) {
    && (o.number == 1 ==> o.retryOf.None?)
    && (o.number > 1 ==> o.retryOf.Some?)
    && o.retryOf != Some(o.attemptId)
  }

  predicate AcceptedByV3(e: Event) { OperationFor(e).Some? && AttemptRules(OperationFor(e).value) }

  // ---------------------------------------------------------------- runs

  /** `used` holds every identifier generated or mentioned so far. */
  datatype State = State(events: seq<Event>, used: set<Id>)

  /** Position `at` is the new event's place in query order. */
  datatype Action =
    | Insert(event: Event, at: nat, queried: bool, stored: bool)
    | MarkNotRetry(target: Option<Id>, queried: bool, stored: bool)

  function Place(events: seq<Event>, e: Event, at: nat): seq<Event> {
    var k := Min(at, |events|);
    events[..k] + [e] + events[k..]
  }

  /** First retry event with that identifier, from position i on. */
  function Named(events: seq<Event>, id: Id, i: nat): (r: Option<nat>)
    requires i <= |events|
    ensures r.Some? ==> r.value < |events| && events[r.value].isRetry
    decreases |events| - i
  {
    if i == |events| then None
    else if events[i].id == id && events[i].isRetry then Some(i)
    else Named(events, id, i + 1)
  }

  /** Last retry event before position i. */
  function Latest(events: seq<Event>, i: nat): (r: Option<nat>)
    requires i <= |events|
    ensures r.Some? ==> r.value < |events| && events[r.value].isRetry
  {
    if i == 0 then None else if events[i - 1].isRetry then Some(i - 1) else Latest(events, i - 1)
  }

  /** The retry event that gets cleared: the named one, or else the last one. */
  function Target(events: seq<Event>, target: Option<Id>): (r: Option<nat>)
    ensures r.Some? ==> r.value < |events| && events[r.value].isRetry
  {
    if target.Some? then Named(events, target.value, 0) else Latest(events, |events|)
  }

  /** The first retry event of that name; without a name, the last retry event. */
  lemma TargetSays(events: seq<Event>, target: Option<Id>)
    ensures match Target(events, target)
      case None => forall e :: e in events && e.isRetry ==> target.Some? && e.id != target.value
      case Some(i) =>
        && i < |events| && events[i].isRetry && (target.Some? ==> events[i].id == target.value)
        && forall j :: 0 <= j < |events| && events[j].isRetry && (target.Some? ==> events[j].id == target.value) ==>
             if target.Some? then i <= j else j <= i
  {
    if target.Some? { NamedSays(events, target.value, 0); } else { LatestSays(events, |events|); }
  }

  lemma {:induction false} NamedSays(events: seq<Event>, id: Id, i: nat)
    requires i <= |events|
    ensures match Named(events, id, i)
      case None => forall j :: i <= j < |events| ==> !(events[j].id == id && events[j].isRetry)
      case Some(k) => i <= k < |events| && events[k].id == id && forall j :: i <= j < k ==> !(events[j].id == id && events[j].isRetry)
    decreases |events| - i
  {
    if i < |events| { NamedSays(events, id, i + 1); }
  }

  lemma {:induction false} LatestSays(events: seq<Event>, i: nat)
    requires i <= |events|
    ensures match Latest(events, i)
      case None => forall j :: 0 <= j < i ==> !events[j].isRetry
      case Some(k) => k < i && forall j :: k < j < i ==> !events[j].isRetry
  {
    if i > 0 { LatestSays(events, i - 1); }
  }

  function Cleared(e: Event): Event { e.(isRetry := false, retryOf := None, operation := Some(e.id), attempt := Some(1)) }

  function Mentioned(e: Event): set<Id> { {e.id} + if e.retryOf.Some? then {e.retryOf.value} else {} }

  function Step(s: State, a: Action): State {
    match a
    case Insert(e, at, queried, stored) =>
      var event := Stamped(if queried then s.events else [], e);
      State(if stored then Place(s.events, event, at) else s.events, s.used + Mentioned(e))
    case MarkNotRetry(target, queried, stored) =>
      var i := Target(s.events, target);
      if queried && stored && i.Some? then s.(events := s.events[i.value := Cleared(s.events[i.value])]) else s
  }

  /** New identifiers are generated fresh and well formed; a retry names a well-formed identifier that is not its own. */
  predicate Allowed(s: State, a: Action) {
    a.Insert? ==>
      && a.event.id !in s.used && a.event.id.wellFormed
      && (a.event.retryOf.Some? ==> a.event.isRetry && a.event.retryOf.value.wellFormed && a.event.retryOf.value != a.event.id)
  }

  /** The caller supplies no lineage details of its own. */
  predicate Plain(a: Action) { a.Insert? ==> a.event.operation.None? && a.event.attempt.None? }

  predicate Legal(s: State, actions: seq<Action>)
    decreases |actions|
  {
    actions == [] || (Allowed(s, actions[0]) && Plain(actions[0]) && Legal(Step(s, actions[0]), actions[1..]))
  }

  function Run(s: State, actions: seq<Action>): State
    decreases |actions|
  {
    if actions == [] then s else Run(Step(s, actions[0]), actions[1..])
  }

  const START := State([], {})

  // ---------------------------------------------------------------- what every step keeps

  predicate GoodEvent(e: Event, bound: int) {
    && e.id.wellFormed
    && (e.operation.Some? ==> e.operation.value.wellFormed)
    && match e.retryOf
       case Some(of) => of.wellFormed && of != e.id && e.operation.Some? && e.attempt.Some? && 2 <= e.attempt.value <= bound
       case None => (e.attempt == None || e.attempt == Some(1)) && (e.operation == None || e.operation == Some(e.id))
  }

  predicate GoodEvents(events: seq<Event>, bound: int) { forall e :: e in events ==> GoodEvent(e, bound) }

  predicate Inv(s: State) {
    && GoodEvents(s.events, |s.events| + 1)
    && forall e :: e in s.events ==> Mentioned(e) <= s.used
  }

  /** However the stored links run, the walk ends with a well-formed operation and an attempt of at least two. */
  lemma {:induction false} WalkBounds(events: seq<Event>, prior: Option<Event>, visited: set<Id>, s: Stamp, bound: int)
    requires prior.Some? ==> prior.value in events
    requires GoodEvents(events, bound) && s.operation.wellFormed && s.attempt >= 2
    ensures var r := Walk(events, prior, visited, s);
            r.operation.wellFormed && 2 <= r.attempt <= Max(bound + 1, s.attempt + |Ids(events) - visited|)
    decreases |Ids(events) - visited|
  {
    if prior.Some? && prior.value.id !in visited {
      var p := prior.value;
      assert GoodEvent(p, bound);
      if !IsAttempt(p.attempt) && p.retryOf.Some? {
        FindMember(events, p.retryOf.value);
        assert Ids(events) - visited - {p.id} == Ids(events) - (visited + {p.id});
        WalkBounds(events, Find(events, p.retryOf.value), visited + {p.id},
                   Stamp(p.operation.value, s.attempt + 1), bound);
      }
    }
  }

  lemma {:induction false} FewIds(events: seq<Event>)
    ensures |Ids(events)| <= |events|
  {
    if events == [] {
      assert Ids(events) == {};
    } else {
      var last, init := events[|events| - 1], events[..|events| - 1];
      FewIds(init);
      assert events == init + [last];
      assert Ids(events) == Ids(init) + {last.id};
    }
  }

  lemma StampBounds(history: seq<Event>, id: Id, of: Id, bound: int)
    requires GoodEvents(history, bound) && of.wellFormed && bound >= |history| + 1
    ensures var r := StampFor(history, id, of); r.operation.wellFormed && 2 <= r.attempt <= bound + 1
  {
    FindMember(history, of);
    WalkBounds(history, Find(history, of), {id}, Stamp(of, 2), bound);
    FewIds(history);
    SmallerDifference(Ids(history), {id});
  }

  lemma SmallerDifference(a: set<Id>, b: set<Id>)
    ensures |a - b| <= |a|
  {
    assert a == (a - b) + (a * b);
  }

  lemma StampedGood(history: seq<Event>, e: Event, bound: int)
    requires GoodEvents(history, bound) && bound >= |history| + 1
    requires e.id.wellFormed && e.operation.None? && e.attempt.None?
    requires e.retryOf.Some? ==> e.isRetry && e.retryOf.value.wellFormed && e.retryOf.value != e.id
    ensures GoodEvent(Stamped(history, e), bound + 1)
    ensures Stamped(history, e).id == e.id && Stamped(history, e).retryOf == e.retryOf
  {
    if e.retryOf.Some? { StampBounds(history, e.id, e.retryOf.value, bound); }
  }

  lemma PlacedMembers(events: seq<Event>, e: Event, at: nat)
    ensures |Place(events, e, at)| == |events| + 1
    ensures forall x :: x in Place(events, e, at) <==> x == e || x in events
  {
    var k := Min(at, |events|);
    assert events == events[..k] + events[k..];
  }

  /** Whatever a step does, fails or clears, the stored lineage stays in order. */
  lemma StepKeeps(s: State, a: Action)
    requires Inv(s) && Allowed(s, a) && Plain(a)
    ensures Inv(Step(s, a)) && s.used <= Step(s, a).used
    ensures |s.events| <= |Step(s, a).events|
  {
    match a {
      case Insert(e, at, queried, stored) =>
        var history := if queried then s.events else [];
        StampedGood(history, e, |s.events| + 1);
        PlacedMembers(s.events, Stamped(history, e), at);
      case MarkNotRetry(target, queried, stored) =>
        var i := Target(s.events, target);
        if i.Some? {
          var after := s.events[i.value := Cleared(s.events[i.value])];
          forall x | x in after ensures GoodEvent(x, |after| + 1) && Mentioned(x) <= s.used {
            var k :| 0 <= k < |after| && after[k] == x;
            assert s.events[k] in s.events;
          }
        }
    }
  }

  lemma {:induction false} RunKeeps(s: State, actions: seq<Action>)
    requires Inv(s) && Legal(s, actions)
    ensures Inv(Run(s, actions))
    decreases |actions|
  {
    if actions != [] {
      StepKeeps(s, actions[0]);
      RunKeeps(Step(s, actions[0]), actions[1..]);
    }
  }

  /** A stored event meets the v3 contract exactly when its attempt number fits 31 bits. */
  lemma GoodAccepted(e: Event, bound: int)
    requires GoodEvent(e, bound)
    ensures AcceptedByV3(e) <==> e.attempt.None? || e.attempt.value <= MAX_ATTEMPT
  {
  }

  /** What the attempt rules come down to: a complete lineage of a retry, or none of one that is not a retry. */
  predicate Complete(e: Event) {
    match e.retryOf
    case Some(of) =>
      of.wellFormed && of != e.id && e.operation.Some? && e.operation.value.wellFormed && IsAttempt(e.attempt) && e.attempt.value >= 2
    case None => IsAttempt(e.attempt) ==> e.attempt.value == 1
  }

  lemma AcceptedIffComplete(e: Event)
    ensures AcceptedByV3(e) <==> Complete(e)
  {
  }

  /** In every reachable state with fewer than 2^31 - 1 events, v3 conversion accepts every stored lineage. */
  lemma LineageAccepted(actions: seq<Action>, e: Event)
    requires Legal(START, actions) && e in Run(START, actions).events
    requires |Run(START, actions).events| < MAX_ATTEMPT
    ensures AcceptedByV3(e)
    ensures e.retryOf.Some? ==> OperationFor(e).value.number >= 2 && OperationFor(e).value.id == e.operation.value
    ensures e.retryOf.None? ==> OperationFor(e).value.number == 1
  {
    RunKeeps(START, actions);
    GoodAccepted(e, |Run(START, actions).events| + 1);
  }

  // ---------------------------------------------------------------- exact lineage

  /** The attempt number an event stands for, and the operation it belongs to. */
  function AttemptOf(e: Event): int { if e.retryOf.Some? && e.attempt.Some? then e.attempt.value else 1 }

  function OperationOf(e: Event): Id { if e.retryOf.Some? && e.operation.Some? then e.operation.value else e.id }

  /** n retry links lead from `id` to `root`, which retries nothing or was never stored. */
  predicate Chain(events: seq<Event>, id: Id, n: int, root: Id)
    decreases n
  {
    var e := Find(events, id);
    if n <= 0 then n == 0 && id == root && (e.None? || e.value.retryOf.None?)
    else e.Some? && e.value.retryOf.Some? && Chain(events, e.value.retryOf.value, n - 1, root)
  }

  /** Every event's attempt is one plus the links to its chain's root, and its operation is the root's. */
  predicate Exact(events: seq<Event>) {
    forall e :: e in events ==> Chain(events, e.id, AttemptOf(e) - 1, OperationOf(e))
  }

  predicate Unambiguous(events: seq<Event>) {
    forall x, y :: x in events && y in events && x.id == y.id ==> x == y
  }

  lemma FindUnique(events: seq<Event>, x: Event)
    requires Unambiguous(events) && x in events
    ensures Find(events, x.id) == Some(x)
  {
    FindMember(events, x.id);
  }

  /** Adding an event nobody mentions leaves every chain as it was. */
  lemma {:induction false} ChainKept(events: seq<Event>, after: seq<Event>, added: Event, id: Id, n: int, root: Id)
    requires Unambiguous(after) && forall x :: x in after <==> x in events || x == added
    requires forall x :: x in events ==> added.id !in Mentioned(x)
    requires id != added.id && Chain(events, id, n, root)
    ensures Chain(after, id, n, root)
    decreases n
  {
    FindMember(events, id);
    FindMember(after, id);
    if Find(events, id).Some? { FindUnique(after, Find(events, id).value); }
    if n > 0 { ChainKept(events, after, added, Find(events, id).value.retryOf.value, n - 1, root); }
  }

  /** What the stamp says about the event it retries. */
  lemma StampExact(events: seq<Event>, id: Id, of: Id, bound: int)
    requires GoodEvents(events, bound) && bound <= MAX_ATTEMPT
    requires forall x :: x in events ==> x.id != id
    ensures var f := Find(events, of);
            StampFor(events, id, of)
              == if f.None? then Stamp(of, 2) else Stamp(OperationOf(f.value), AttemptOf(f.value) + 1)
  {
    FindMember(events, of);
    if Find(events, of).Some? { assert GoodEvent(Find(events, of).value, bound); }
  }

  lemma ChainOf(events: seq<Event>, of: Id)
    requires Exact(events)
    ensures var f := Find(events, of);
            if f.None? then Chain(events, of, 0, of) else Chain(events, of, AttemptOf(f.value) - 1, OperationOf(f.value))
  {
    FindMember(events, of);
  }

  lemma InsertExact(events: seq<Event>, used: set<Id>, e: Event, at: nat)
    requires Inv(State(events, used)) && Exact(events) && Unambiguous(events) && |events| < MAX_ATTEMPT
    requires Allowed(State(events, used), Insert(e, at, true, true)) && e.operation.None? && e.attempt.None?
    ensures var after := Place(events, Stamped(events, e), at); Exact(after) && Unambiguous(after)
  {
    var new_, after := Stamped(events, e), Place(events, Stamped(events, e), at);
    PlacedMembers(events, new_, at);
    forall x | x in events ensures e.id !in Mentioned(x) { assert Mentioned(x) <= used; }
    forall x | x in after ensures Chain(after, x.id, AttemptOf(x) - 1, OperationOf(x)) {
      if x == new_ {
        InsertedChain(events, after, e);
      } else {
        ChainKept(events, after, new_, x.id, AttemptOf(x) - 1, OperationOf(x));
      }
    }
  }

  lemma InsertedChain(events: seq<Event>, after: seq<Event>, e: Event)
    requires GoodEvents(events, |events| + 1) && Exact(events) && |events| < MAX_ATTEMPT
    requires e.operation.None? && e.attempt.None?
    requires e.retryOf.Some? ==> e.isRetry && e.retryOf.value != e.id && e.retryOf.value.wellFormed
    requires Unambiguous(after) && forall x :: x in after <==> x in events || x == Stamped(events, e)
    requires forall x :: x in events ==> e.id !in Mentioned(x)
    ensures var x := Stamped(events, e); Chain(after, x.id, AttemptOf(x) - 1, OperationOf(x))
  {
    var x := Stamped(events, e);
    FindUnique(after, x);
    if e.retryOf.Some? {
      var of := e.retryOf.value;
      StampBounds(events, e.id, of, |events| + 1);
      StampExact(events, e.id, of, |events| + 1);
      ChainOf(events, of);
      ChainKept(events, after, x, of, AttemptOf(x) - 2, OperationOf(x));
    }
  }

  // ---------------------------------------------------------------- when the count survives

  predicate Distinct(events: seq<Event>) { forall i, j :: 0 <= i < j < |events| ==> events[i].id != events[j].id }

  lemma StepDistinct(s: State, a: Action)
    requires Inv(s) && Allowed(s, a) && Distinct(s.events)
    ensures Distinct(Step(s, a).events)
  {
    if a.Insert? && a.stored {
      var e, k := Stamped(if a.queried then s.events else [], a.event), Min(a.at, |s.events|);
      var after := Place(s.events, e, a.at);
      forall i | 0 <= i < |s.events| ensures s.events[i].id != e.id { assert s.events[i] in s.events && e.id == a.event.id; }
      assert forall i :: 0 <= i < |after| ==> after[i] == if i < k then s.events[i] else if i == k then e else s.events[i - 1];
    }
  }

  /** The retried event was never stored, or retries nothing itself. */
  predicate RootOrUnknown(events: seq<Event>, of: Id) {
    var f := Find(events, of);
    f.None? || f.value.retryOf.None?
  }

  predicate Retried(events: seq<Event>, id: Id) { exists x :: x in events && x.retryOf == Some(id) }

  /** What a caller can see before a step: it neither counts blindly nor clears a link others count through. */
  predicate KeepsCount(s: State, a: Action) {
    match a
    case Insert(e, at, queried, stored) =>
      queried || !stored || e.retryOf.None? || RootOrUnknown(s.events, e.retryOf.value)
    case MarkNotRetry(target, queried, stored) =>
      var i := Target(s.events, target);
      || !queried || !stored || i.None?
      || s.events[i.value].retryOf.None? || !Retried(s.events, s.events[i.value].id)
  }

  /** An event stored without its history is stamped as a second attempt of the event it names. */
  lemma BlindExactIff(events: seq<Event>, used: set<Id>, e: Event, at: nat)
    requires Inv(State(events, used)) && Exact(events) && Distinct(events)
    requires Allowed(State(events, used), Insert(e, at, false, true)) && e.operation.None? && e.attempt.None?
    ensures Exact(Place(events, Stamped([], e), at)) <==> e.retryOf.None? || RootOrUnknown(events, e.retryOf.value)
  {
    var new_, after := Stamped([], e), Place(events, Stamped([], e), at);
    PlacedMembers(events, new_, at);
    StepDistinct(State(events, used), Insert(e, at, false, true));
    assert Distinct(after);
    forall x | x in events ensures e.id !in Mentioned(x) { assert Mentioned(x) <= used; }
    forall x | x in events ensures Chain(after, x.id, AttemptOf(x) - 1, OperationOf(x)) {
      ChainKept(events, after, new_, x.id, AttemptOf(x) - 1, OperationOf(x));
    }
    assert Exact(after) <==> Chain(after, new_.id, AttemptOf(new_) - 1, OperationOf(new_));
    BlindChain(events, after, e);
  }

  lemma BlindChain(events: seq<Event>, after: seq<Event>, e: Event)
    requires e.operation.None? && e.attempt.None? && (e.retryOf.Some? ==> e.isRetry && e.retryOf.value != e.id)
    requires Unambiguous(after) && forall x :: x in after <==> x in events || x == Stamped([], e)
    ensures var x := Stamped([], e);
            Chain(after, x.id, AttemptOf(x) - 1, OperationOf(x)) <==> e.retryOf.None? || RootOrUnknown(events, e.retryOf.value)
  {
    FindUnique(after, Stamped([], e));
    if e.retryOf.Some? {
      var of := e.retryOf.value;
      FindKept(events, after, Stamped([], e), of);
      assert StampFor([], e.id, of) == Stamp(of, 2);
      assert Chain(after, e.id, 1, of) <==> Chain(after, of, 0, of);
    }
  }

  lemma FindKept(events: seq<Event>, after: seq<Event>, added: Event, id: Id)
    requires Unambiguous(after) && forall x :: x in after <==> x in events || x == added
    requires id != added.id
    ensures Find(after, id) == Find(events, id)
  {
    FindMember(events, id);
    FindMember(after, id);
  }

  lemma FindCleared(events: seq<Event>, i: nat, id: Id)
    requires Distinct(events) && i < |events|
    ensures var after := events[i := Cleared(events[i])];
            Distinct(after) && Find(after, id) == if id == events[i].id then Some(Cleared(events[i])) else Find(events, id)
  {
    var after := events[i := Cleared(events[i])];
    FindMember(events, id);
    FindMember(after, id);
    if id == events[i].id {
      assert after[i] in after;
      FindUnique(after, after[i]);
    } else if Find(events, id).Some? {
      var k :| 0 <= k < |events| && events[k] == Find(events, id).value;
      assert after[k] == events[k] && after[k] in after;
      FindUnique(after, after[k]);
    }
  }

  /** A chain that does not run through the cleared event, or through one that linked nowhere, stays as it was. */
  lemma {:induction false} ChainCleared(events: seq<Event>, i: nat, id: Id, n: int, root: Id)
    requires Distinct(events) && i < |events| && Chain(events, id, n, root)
    requires events[i].retryOf.None? || (id != events[i].id && !Retried(events, events[i].id))
    ensures Chain(events[i := Cleared(events[i])], id, n, root)
    decreases n
  {
    FindCleared(events, i, id);
    FindMember(events, id);
    if id == events[i].id { FindUnique(events, events[i]); }
    if n > 0 { ChainCleared(events, i, Find(events, id).value.retryOf.value, n - 1, root); }
  }

  /** A retry of the cleared event counted a link that is gone. */
  lemma RetrierBroken(events: seq<Event>, i: nat, x: Event)
    requires GoodEvents(events, |events| + 1) && Exact(events) && Distinct(events)
    requires i < |events| && events[i].retryOf.Some? && x in events && x.retryOf == Some(events[i].id)
    ensures x in events[i := Cleared(events[i])] && !Exact(events[i := Cleared(events[i])])
  {
    var b, after := events[i], events[i := Cleared(events[i])];
    assert b in events && GoodEvent(b, |events| + 1) && GoodEvent(x, |events| + 1);
    var k :| 0 <= k < |events| && events[k] == x;
    assert after[k] == x;
    FindUnique(events, b); FindUnique(events, x);
    FindCleared(events, i, b.id); FindCleared(events, i, x.id);
    assert Chain(events, x.id, AttemptOf(x) - 1, OperationOf(x));
    assert AttemptOf(x) - 1 >= 2;
    assert !Chain(after, b.id, AttemptOf(x) - 2, OperationOf(x));
    assert !Chain(after, x.id, AttemptOf(x) - 1, OperationOf(x));
  }

  lemma ClearExactIff(events: seq<Event>, i: nat)
    requires GoodEvents(events, |events| + 1) && Exact(events) && Distinct(events) && i < |events|
    ensures Exact(events[i := Cleared(events[i])]) <==> events[i].retryOf.None? || !Retried(events, events[i].id)
  {
    var b, after := events[i], events[i := Cleared(events[i])];
    if b.retryOf.None? || !Retried(events, b.id) {
      forall x | x in after ensures Chain(after, x.id, AttemptOf(x) - 1, OperationOf(x)) {
        var k :| 0 <= k < |after| && after[k] == x;
        if k == i { FindCleared(events, i, b.id); } else {
          assert events[k] in events && x.id != b.id;
          ChainCleared(events, i, x.id, AttemptOf(x) - 1, OperationOf(x));
        }
      }
    } else {
      var x :| x in events && x.retryOf == Some(b.id);
      RetrierBroken(events, i, x);
    }
  }

  /** One step keeps every count exact, exactly when the caller could have seen that it would. */
  lemma StepExactIff(s: State, a: Action)
    requires Inv(s) && Allowed(s, a) && Plain(a) && Exact(s.events) && Distinct(s.events) && |s.events| < MAX_ATTEMPT
    ensures Exact(Step(s, a).events) <==> KeepsCount(s, a)
  {
    match a {
      case Insert(e, at, queried, stored) =>
        if stored && queried {
          InsertExact(s.events, s.used, e, at);
        } else if stored {
          BlindExactIff(s.events, s.used, e, at);
        }
      case MarkNotRetry(target, queried, stored) =>
        var i := Target(s.events, target);
        if queried && stored && i.Some? { ClearExactIff(s.events, i.value); }
    }
  }

  predicate AllKeepCount(s: State, actions: seq<Action>)
    decreases |actions|
  {
    actions == [] || (KeepsCount(s, actions[0]) && AllKeepCount(Step(s, actions[0]), actions[1..]))
  }

  /** Exact in every state a run goes through. */
  predicate ExactThroughout(s: State, actions: seq<Action>)
    decreases |actions|
  {
    Exact(s.events) && (actions == [] || ExactThroughout(Step(s, actions[0]), actions[1..]))
  }

  lemma {:induction false} RunExactIff(s: State, actions: seq<Action>)
    requires Inv(s) && Legal(s, actions) && Exact(s.events) && Distinct(s.events)
    requires |Run(s, actions).events| < MAX_ATTEMPT
    ensures ExactThroughout(s, actions) <==> AllKeepCount(s, actions)
    ensures ExactThroughout(s, actions) ==> Exact(Run(s, actions).events)
    decreases |actions|
  {
    if actions != [] {
      var a, s' := actions[0], Step(s, actions[0]);
      StepKeeps(s, a);
      StepDistinct(s, a);
      RunGrows(s', actions[1..]);
      StepExactIff(s, a);
      if KeepsCount(s, a) { RunExactIff(s', actions[1..]); }
    }
  }

  lemma {:induction false} RunGrows(s: State, actions: seq<Action>)
    requires Inv(s) && Legal(s, actions)
    ensures |s.events| <= |Run(s, actions).events|
    decreases |actions|
  {
    if actions != [] {
      StepKeeps(s, actions[0]);
      RunGrows(Step(s, actions[0]), actions[1..]);
    }
  }

  /**
   Exact lineage over whole runs: the attempt is one plus the links to the chain's root in every state,
   exactly when no step stores a retry of a retry blindly or clears a retry that is retried itself.
   */
  lemma LineageExactIff(actions: seq<Action>)
    requires Legal(START, actions) && |Run(START, actions).events| < MAX_ATTEMPT
    ensures ExactThroughout(START, actions) <==> AllKeepCount(START, actions)
    ensures AllKeepCount(START, actions) ==>
              forall e :: e in Run(START, actions).events ==>
                Chain(Run(START, actions).events, e.id, AttemptOf(e) - 1, OperationOf(e))
  {
    RunExactIff(START, actions);
  }

  // ---------------------------------------------------------------- two runs that lose count

  function Recording(id: Id, of: Option<Id>, at: nat, queried: bool): Action {
    Insert(Event(id, of.Some?, of, None, None), at, queried, true)
  }

  /** A call, its retry, and the retry's retry, in the order they were stored. */
  predicate ThreeInChain(events: seq<Event>, a: Id, b: Id, c: Id) {
    && |events| == 3 && events[0].id == a && events[1].id == b && events[2].id == c
    && events[0].retryOf == None && events[1].retryOf == Some(a) && events[2].retryOf == Some(b) && events[1].isRetry
  }

  lemma TwoRecorded(a: Id, b: Id)
    requires a != b && a.wellFormed && b.wellFormed
    ensures var run := [Recording(a, None, 0, true), Recording(b, Some(a), 1, true)];
            var s := Step(Step(START, run[0]), run[1]);
            && Allowed(START, run[0]) && Allowed(Step(START, run[0]), run[1]) && s.used == {a, b}
            && Inv(s) && Exact(s.events) && Distinct(s.events)
            && |s.events| == 2 && s.events[0].id == a && s.events[1].id == b && s.events[0].retryOf == None
            && s.events[1].retryOf == Some(a) && s.events[1].isRetry
  {
    var first, second := Recording(a, None, 0, true), Recording(b, Some(a), 1, true);
    FirstRecorded(a);
    var s1 := Step(START, first);
    StepKeeps(s1, second); StepDistinct(s1, second); StepExactIff(s1, second);
    hide Inv, Exact, Walk;
    assert Step(s1, second).events == [first.event] + [Stamped(s1.events, second.event)];
  }

  lemma FirstRecorded(a: Id)
    requires a.wellFormed
    ensures var first := Recording(a, None, 0, true);
            var s := Step(START, first);
            && Allowed(START, first) && s.events == [first.event] && s.used == {a}
            && Inv(s) && Exact(s.events) && Distinct(s.events)
  {
    var first := Recording(a, None, 0, true);
    StepKeeps(START, first); StepDistinct(START, first); StepExactIff(START, first);
  }

  lemma ThirdRecorded(s: State, a: Id, b: Id, c: Id, queried: bool)
    requires c !in {a, b} && c.wellFormed && b.wellFormed && s.used == {a, b}
    requires Inv(s) && Exact(s.events) && Distinct(s.events)
    requires |s.events| == 2 && s.events[0].id == a && s.events[1].id == b && s.events[0].retryOf == None
    requires s.events[1].retryOf == Some(a) && s.events[1].isRetry
    ensures var third := Recording(c, Some(b), 2, queried);
            && Allowed(s, third) && Inv(Step(s, third)) && Distinct(Step(s, third).events)
            && ThreeInChain(Step(s, third).events, a, b, c) && (Exact(Step(s, third).events) <==> queried)
  {
    var third := Recording(c, Some(b), 2, queried);
    StepKeeps(s, third); StepDistinct(s, third); StepExactIff(s, third);
    assert s.events[1] in s.events;
    FindUnique(s.events, s.events[1]);
    assert Step(s, third).events == s.events + [Stamped(if queried then s.events else [], third.event)];
  }

  function ClearedRun(a: Id, b: Id, c: Id): seq<Action> {
    [Recording(a, None, 0, true), Recording(b, Some(a), 1, true), Recording(c, Some(b), 2, true),
     MarkNotRetry(Some(b), true, true)]
  }

  /** Three calls in a chain, then the middle one is cleared: the last one keeps a number that no longer counts its links. */
  lemma ClearingBreaksCount(a: Id, b: Id, c: Id)
    requires a != b && b != c && a != c && a.wellFormed && b.wellFormed && c.wellFormed
    ensures Legal(START, ClearedRun(a, b, c)) && !Exact(Run(START, ClearedRun(a, b, c)).events)
    ensures forall e :: e in Run(START, ClearedRun(a, b, c)).events ==> AcceptedByV3(e)
  {
    var r0, r1, r2 := Recording(a, None, 0, true), Recording(b, Some(a), 1, true), Recording(c, Some(b), 2, true);
    var r3 := MarkNotRetry(Some(b), true, true);
    assert ClearedRun(a, b, c) == [r0, r1, r2, r3] && Plain(r0) && Plain(r1) && Plain(r2) && Plain(r3);
    hide *;
    TwoRecorded(a, b);
    var s2 := Step(Step(START, r0), r1);
    ThirdRecorded(s2, a, b, c, true);
    MiddleCleared(Step(s2, r2), a, b, c);
    RunOfFour(START, r0, r1, r2, r3);
  }

  lemma RunOfFour(s: State, r0: Action, r1: Action, r2: Action, r3: Action)
    ensures var s1 := Step(s, r0); var s2 := Step(s1, r1); var s3 := Step(s2, r2);
            && Run(s, [r0, r1, r2, r3]) == Step(s3, r3)
            && (Legal(s, [r0, r1, r2, r3]) <==>
                  && Allowed(s, r0) && Allowed(s1, r1) && Allowed(s2, r2) && Allowed(s3, r3)
                  && Plain(r0) && Plain(r1) && Plain(r2) && Plain(r3))
  {
    hide *;
    assert [r0, r1, r2, r3] == [r0] + [r1, r2, r3] && [r1, r2, r3] == [r1] + [r2, r3] && [r2, r3] == [r2] + [r3] && [r3] == [r3] + [];
    RunCons(s, r0, [r1, r2, r3]);
    RunCons(Step(s, r0), r1, [r2, r3]);
    RunCons(Step(Step(s, r0), r1), r2, [r3]);
    RunCons(Step(Step(Step(s, r0), r1), r2), r3, []);
    RunCons(Step(Step(Step(Step(s, r0), r1), r2), r3), r3, []);
  }

  lemma MiddleCleared(s: State, a: Id, b: Id, c: Id)
    requires b.wellFormed && a != b && Inv(s) && Exact(s.events) && Distinct(s.events) && ThreeInChain(s.events, a, b, c)
    ensures var clear := MarkNotRetry(Some(b), true, true);
            && Allowed(s, clear) && !Exact(Step(s, clear).events)
            && forall e :: e in Step(s, clear).events ==> AcceptedByV3(e)
  {
    var clear := MarkNotRetry(Some(b), true, true);
    assert Named(s.events, b, 0) == Named(s.events, b, 1) == Some(1);
    assert s.events[2] in s.events;
    StepExactIff(s, clear);
    StepKeeps(s, clear);
    var s' := Step(s, clear);
    assert |s'.events| == 3;
    hide Step, Exact, Inv, AcceptedByV3;
    forall e | e in s'.events ensures AcceptedByV3(e) { AcceptedSmall(s', e); }
  }

  lemma AcceptedSmall(s: State, e: Event)
    requires Inv(s) && e in s.events && |s.events| < MAX_ATTEMPT
    ensures AcceptedByV3(e)
  {
    GoodAccepted(e, |s.events| + 1);
  }

  lemma RunCons(s: State, a: Action, rest: seq<Action>)
    ensures Run(s, [a] + rest) == Run(Step(s, a), rest)
    ensures Legal(s, [a] + rest) <==> Allowed(s, a) && Plain(a) && Legal(Step(s, a), rest)
    ensures Run(s, []) == s && Legal(s, [])
  {
    assert ([a] + rest)[1..] == rest;
  }

  /** The same chain with the last retry stored while the history cannot be read: it is counted as a second attempt. */
  lemma BlindRetryBreaksCount(a: Id, b: Id, c: Id)
    requires a != b && b != c && a != c && a.wellFormed && b.wellFormed && c.wellFormed
    ensures var run := [Recording(a, None, 0, true), Recording(b, Some(a), 1, true), Recording(c, Some(b), 2, false)];
            Legal(START, run) && !Exact(Run(START, run).events)
  {
    var r0, r1, r2 := Recording(a, None, 0, true), Recording(b, Some(a), 1, true), Recording(c, Some(b), 2, false);
    TwoRecorded(a, b);
    ThirdRecorded(Step(Step(START, r0), r1), a, b, c, false);
    hide Step, Exact, Inv;
    assert [r0, r1, r2] == [r0] + [r1, r2] && [r1, r2] == [r1] + [r2] && [r2] == [r2] + [];
    RunCons(START, r0, [r1, r2]);
    RunCons(Step(START, r0), r1, [r2]);
    RunCons(Step(Step(START, r0), r1), r2, []);
    RunCons(Step(Step(Step(START, r0), r1), r2), r2, []);
  }

  // ---------------------------------------------------------------- the recording object

  /** One task's recorded events and the calls that write retry lineage. */
  class TrackedTask {
    var events: seq<Event>
    ghost var used: set<Id>

    constructor ()
      ensures Contents() == START
    {
      events, used := [], {};
    }

    ghost function Contents(): State
      reads this
    {
      State(events, used)
    }

    /** Stamps the root operation and the attempt number before a retry is stored. */
    method StampRetryLineage(e: Event, queried: bool) returns (r: Event)
      ensures r == Stamped(if queried then events else [], e)
    {
      if !e.isRetry || e.retryOf.None? { return e; }
      var history := if queried then events else [];
      var prior := Lookup(history, e.retryOf.value);
      FindMember(history, e.retryOf.value);
      var operation, attempt, visited := e.retryOf.value, 2, {e.id};
      while prior.Some? && prior.value.id !in visited
        invariant prior.Some? ==> prior.value in history
        invariant StampFor(history, e.id, e.retryOf.value) == Walk(history, prior, visited, Stamp(operation, attempt))
        decreases prior.Some?, |Ids(history) - visited|
      {
        var p := prior.value;
        assert Ids(history) - visited - {p.id} == Ids(history) - (visited + {p.id});
        visited := visited + {p.id};
        if p.operation.Some? { operation := p.operation.value; }
        if IsAttempt(p.attempt) {
          attempt, prior := p.attempt.value + 1, None;
        } else if p.retryOf.None? {
          if p.operation.None? { operation := p.id; }
          prior := None;
        } else {
          if p.operation.None? { operation := p.retryOf.value; }
          attempt := attempt + 1;
          prior := Lookup(history, p.retryOf.value);
          FindMember(history, p.retryOf.value);
        }
      }
      r := e;
      if r.operation.None? { r := r.(operation := Some(operation)); }
      if !IsAttempt(r.attempt) { r := r.(attempt := Some(attempt)); }
    }

    /** The last event with that identifier in query order. */
    method Lookup(history: seq<Event>, id: Id) returns (found: Option<Event>)
      ensures found == Find(history, id)
    {
      var i := |history|;
      assert history[..i] == history;
      while i > 0
        invariant i <= |history| && Find(history, id) == Find(history[..i], id)
      {
        assert history[..i][..i - 1] == history[..i - 1];
        if history[i - 1].id == id { return Some(history[i - 1]); }
        i := i - 1;
      }
      found := None;
    }

    /** A retry marker or an LLM call; `at` is where the store lists it. */
    method Record(e: Event, at: nat, queried: bool, stored: bool)
      modifies this
      ensures Contents() == Step(old(Contents()), Insert(e, at, queried, stored))
    {
      var stamped := StampRetryLineage(e, queried);
      used := used + Mentioned(e);
      if stored { events := Place(events, stamped, at); }
    }

    /** Clears one retry event and gives it a lineage of its own. */
    method MarkNotRetry(target: Option<Id>, queried: bool, stored: bool)
      modifies this
      ensures Contents() == Step(old(Contents()), Action.MarkNotRetry(target, queried, stored))
    {
      if !queried { return; }
      var found := FindTarget(target);
      if found.None? { return; }
      var event := events[found.value];
      event := event.(isRetry := false, retryOf := None);
      event := event.(operation := Some(event.id), attempt := Some(1));
      if stored { events := events[found.value := event]; }
    }

    method FindTarget(target: Option<Id>) returns (found: Option<nat>)
      ensures found == Target(events, target)
    {
      if target.Some? {
        var i := 0;
        while i < |events|
          invariant i <= |events| && Target(events, target) == Named(events, target.value, i)
        {
          if events[i].id == target.value && events[i].isRetry { return Some(i); }
          i := i + 1;
        }
      } else {
        var i := |events|;
        while i > 0
          invariant 0 <= i <= |events| && Target(events, target) == Latest(events, i)
        {
          if events[i - 1].isRetry { return Some(i - 1); }
          i := i - 1;
        }
      }
      found := None;
    }
  }
}
