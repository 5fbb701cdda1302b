/** A wrapped HTTP response body: bytes are counted as they are read and reported once. */
module ResponseBody {
  import opened Sequences

  datatype Action = Read(n: int, eof: bool) | Close

  predicate Ends(a: Action) { a.Close? || a.eof }

  function Count(a: Action): int { if a.Read? then a.n else 0 }

  function TotalBytes(actions: seq<Action>): int {
    if actions == [] then 0 else TotalBytes(actions[..|actions| - 1]) + Count(actions[|actions| - 1])
  }

  /** What is known about a call before its body is read. */
  datatype Call = Call(requestBytes: int, headerBytes: int, emits: bool, status: int, latencyMs: int,
                       thresholdBytes: int, latencyTrigger: int)

  /** What the accountant is told: response and request bytes. */
  datatype Report = Report(response: int, request: int)

  function ReportOf(c: Call, bodyBytes: int): Report { Report(c.headerBytes + bodyBytes, c.requestBytes) }

  /** Large, failed or slow calls of unknown services also leave an event. */
  predicate Notable(c: Call, r: Report) {
    c.emits && (r.request + r.response > c.thresholdBytes || c.status >= 400 || (c.latencyTrigger > 0 && c.latencyMs > c.latencyTrigger))
  }

  /** Bytes read up to and including the first action that ends the body. */
  function BytesAtEnd(actions: seq<Action>): Option<int> {
    if actions == [] then None
    else
      var earlier := BytesAtEnd(actions[..|actions| - 1]);
      if earlier.Some? then earlier
      else if Ends(actions[|actions| - 1]) then Some(TotalBytes(actions))
      else None
  }

  function Reports(c: Call, actions: seq<Action>): seq<Report> {
    var n := BytesAtEnd(actions);
    if n.None? then [] else [ReportOf(c, n.value)]
  }

  function Events(c: Call, actions: seq<Action>): seq<Report> {
    var r := Reports(c, actions);
    if r != [] && Notable(c, r[0]) then r else []
  }

  /** One report as soon as anything ended the body, and it never changes afterwards. */
  lemma {:induction false} ReportedOnce(c: Call, actions: seq<Action>, more: seq<Action>)
    ensures |Reports(c, actions)| == (if exists a :: a in actions && Ends(a) then 1 else 0)
    ensures Reports(c, actions) != [] ==> Reports(c, actions + more) == Reports(c, actions)
    decreases |actions| + |more|
  {
    if more != [] {
      var all, init := actions + more, more[..|more| - 1];
      assert all[..|all| - 1] == actions + init;
      ReportedOnce(c, actions, init);
    } else {
      assert actions + more == actions;
      if actions != [] {
        var init := actions[..|actions| - 1];
        assert actions == init + [actions[|actions| - 1]];
        ReportedOnce(c, init, []);
      }
    }
  }

  /** The sum of what the reads returned. */
  function BytesRead(actions: seq<Action>): int {
    if actions == [] then 0 else (if actions[0].Read? then actions[0].n else 0) + BytesRead(actions[1..])
  }

  lemma {:induction false} ReadsAppend(actions: seq<Action>, a: Action)
    ensures BytesRead(actions + [a]) == BytesRead(actions) + (if a.Read? then a.n else 0)
  {
    if actions == [] {
      assert [] + [a] == [a] && [a][1..] == [];
    } else {
      assert (actions + [a])[1..] == actions[1..] + [a];
      ReadsAppend(actions[1..], a);
    }
  }

  lemma {:induction false} TotalIsRead(actions: seq<Action>)
    ensures TotalBytes(actions) == BytesRead(actions)
  {
    if actions != [] {
      var init, last := actions[..|actions| - 1], actions[|actions| - 1];
      TotalIsRead(init);
      assert actions == init + [last];
      ReadsAppend(init, last);
    }
  }

  /** Up to and including the first end of file or close. */
  ghost predicate EndsAt(actions: seq<Action>, n: nat) {
    0 < n <= |actions| && (actions[n - 1] == Close || (actions[n - 1].Read? && actions[n - 1].eof))
    && forall i :: 0 <= i < n - 1 ==> actions[i].Read? && !actions[i].eof
  }

  /**
   The report has headers and all bytes read by then as response, the request as request; the call leaves
   an event when it is of an unknown service and large, failed, or slow where slowness is watched.
   */
  lemma {:induction false} ReportSays(c: Call, actions: seq<Action>, n: nat)
    requires EndsAt(actions, n)
    ensures var response := c.headerBytes + BytesRead(actions[..n]);
            && Reports(c, actions) == [Report(response, c.requestBytes)]
            && (Events(c, actions) != [] <==>
              c.emits && (response + c.requestBytes > c.thresholdBytes || c.status >= 400
                          || (c.latencyTrigger > 0 && c.latencyMs > c.latencyTrigger)))
    decreases |actions|
  {
    var init := actions[..|actions| - 1];
    if n == |actions| {
      NotEnded(init);
      TotalIsRead(actions);
      assert actions[..n] == actions;
    } else {
      assert init[..n] == actions[..n];
      ReportSays(c, init, n);
    }
  }

  lemma {:induction false} NotEnded(actions: seq<Action>)
    requires forall i :: 0 <= i < |actions| ==> actions[i].Read? && !actions[i].eof
    ensures BytesAtEnd(actions).None?
  {
    if actions != [] { NotEnded(actions[..|actions| - 1]); }
  }

  class RecordingReadCloser {
    const call: Call
    var bytesRead: int
    var finalized: bool
    var reports: seq<Report>
    var events: seq<Report>
    ghost var actions: seq<Action>

    ghost predicate Valid()
      reads this
    {
      && bytesRead == TotalBytes(actions)
      && finalized == BytesAtEnd(actions).Some?
      && reports == Reports(call, actions) && events == Events(call, actions)
    }

    constructor (call: Call)
      ensures Valid() && this.call == call && actions == []
    {
      this.call := call;
      bytesRead, finalized, reports, events, actions := 0, false, [], [], [];
    }

    method Read(n: int, eof: bool)
      requires Valid()
      modifies this
      ensures Valid() && actions == old(actions) + [Action.Read(n, eof)]
    {
      actions := actions + [Action.Read(n, eof)];
      assert actions[..|actions| - 1] == old(actions);
      bytesRead := bytesRead + n;
      if eof { MaybeFinalize(); }
    }

    method Close()
      requires Valid()
      modifies this
      ensures Valid() && actions == old(actions) + [Action.Close]
    {
      actions := actions + [Action.Close];
      assert actions[..|actions| - 1] == old(actions);
      MaybeFinalize();
    }

    method MaybeFinalize()
      modifies this`finalized, this`reports, this`events
      ensures finalized
      ensures old(finalized) ==> reports == old(reports) && events == old(events)
      ensures !old(finalized) ==>
                && reports == old(reports) + [ReportOf(call, bytesRead)]
                && events == old(events) + if Notable(call, ReportOf(call, bytesRead)) then [ReportOf(call, bytesRead)] else []
    {
      if finalized { return; }
      finalized := true;
      var r := ReportOf(call, bytesRead);
      reports := reports + [r];
      if Notable(call, r) { events := events + [r]; } else { assert events + [] == events; }
    }
  }
}
