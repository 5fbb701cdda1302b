/** Per-task byte accounting: bounded live rows that agree with the full call history. */
module Network {
  import opened Sequences

  const FINALIZE_CAP := 20
  const LIVE_CAP := 500
  const OTHER := "_other"
  const UNKNOWN := "_unknown"

  /** One HTTP call as reported; a destination may be internal, external or unresolved. */
  datatype Call = Call(host: string, bytesIn: int, bytesOut: int, isInternal: Option<bool>)

  datatype Row = Row(calls: int, bytesIn: int, bytesOut: int, external: int)

  datatype Field = Calls | BytesIn | BytesOut | External

  datatype HostEntry = HostEntry(host: string, row: Row)

  const ZERO := Row(0, 0, 0, 0)

  function Get(r: Row, f: Field): int {
    match f
    case Calls => r.calls
    case BytesIn => r.bytesIn
    case BytesOut => r.bytesOut
    case External => r.external
  }

  function Add(a: Row, b: Row): Row {
    Row(a.calls + b.calls, a.bytesIn + b.bytesIn, a.bytesOut + b.bytesOut, a.external + b.external)
  }

  lemma AddFields(a: Row, b: Row, f: Field)
    ensures Get(Add(a, b), f) == Get(a, f) + Get(b, f)
  {
  }

  function Weight(r: Row): int { r.bytesIn + r.bytesOut }

  function Key(c: Call): string { if c.host == "" then UNKNOWN else c.host }

  /** A call's own contribution: negative counts are zero, internal bytes are not external. */
  function Bytes(c: Call): Row {
    var bytesOut := Max(c.bytesOut, 0);
    Row(1, Max(c.bytesIn, 0), bytesOut, if c.isInternal == Some(true) then 0 else bytesOut)
  }

  // ---------------------------------------------------------------- the full history

  /** A call as it is counted: its key and its contribution. */
  datatype Hit = Hit(host: string, row: Row)

  function Count(c: Call): Hit { Hit(Key(c), Bytes(c)) }

  predicate Sane(x: Hit) { x.row.calls == 1 && x.row.bytesIn >= 0 && x.row.bytesOut >= 0 && x.row.external >= 0 }

  predicate SaneAll(h: seq<Hit>) { forall x :: x in h ==> Sane(x) }

  function Init(h: seq<Hit>): seq<Hit>
    requires h != []
  {
    h[..|h| - 1]
  }

  function Last(h: seq<Hit>): Hit
    requires h != []
  {
    h[|h| - 1]
  }

  function Total(h: seq<Hit>, f: Field): int {
    if h == [] then 0 else Total(Init(h), f) + Get(Last(h).row, f)
  }

  /** What the calls whose host is in `keys` add up to. */
  function TotalIn(h: seq<Hit>, keys: set<string>, f: Field): int {
    if h == [] then 0
    else TotalIn(Init(h), keys, f) + if Last(h).host in keys then Get(Last(h).row, f) else 0
  }

  function TotalOut(h: seq<Hit>, keys: set<string>, f: Field): int {
    if h == [] then 0
    else TotalOut(Init(h), keys, f) + if Last(h).host in keys then 0 else Get(Last(h).row, f)
  }

  function HostTotal(h: seq<Hit>, host: string, f: Field): int { TotalIn(h, {host}, f) }

  // ---------------------------------------------------------------- the live ledger

  datatype Ledger = Ledger(total: Row, hosts: map<string, Row>, other: Row)

  const EMPTY := Ledger(ZERO, map[], ZERO)

  function Booked(l: Ledger, x: Hit): Ledger {
    var total := Add(l.total, x.row);
    if x.host in l.hosts then Ledger(total, l.hosts[x.host := Add(l.hosts[x.host], x.row)], l.other)
    else if |l.hosts| < LIVE_CAP then Ledger(total, l.hosts[x.host := x.row], l.other)
    else Ledger(total, l.hosts, Add(l.other, x.row))
  }

  function RecordAll(h: seq<Hit>): Ledger {
    if h == [] then EMPTY else Booked(RecordAll(Init(h)), Last(h))
  }

  lemma {:induction false} SplitTotal(h: seq<Hit>, keys: set<string>, f: Field)
    ensures Total(h, f) == TotalIn(h, keys, f) + TotalOut(h, keys, f)
  {
    if h != [] { SplitTotal(Init(h), keys, f); }
  }

  lemma {:induction false} TotalInUnion(h: seq<Hit>, a: set<string>, b: set<string>, f: Field)
    requires a !! b
    ensures TotalIn(h, a + b, f) == TotalIn(h, a, f) + TotalIn(h, b, f)
  {
    if h != [] { TotalInUnion(Init(h), a, b, f); }
  }

  lemma {:induction false} NoneIn(h: seq<Hit>, keys: set<string>, f: Field)
    requires forall x :: x in h ==> x.host !in keys
    ensures TotalIn(h, keys, f) == 0
  {
    if h != [] {
      assert Last(h) in h;
      NoneIn(Init(h), keys, f);
    }
  }

  lemma {:induction false} AllIn(h: seq<Hit>, keys: set<string>, f: Field)
    requires forall x :: x in h ==> x.host in keys
    ensures TotalOut(h, keys, f) == 0
  {
    if h != [] {
      assert Last(h) in h;
      AllIn(Init(h), keys, f);
    }
  }

  function Hits(calls: seq<Call>): seq<Hit> { seq(|calls|, i requires 0 <= i < |calls| => Count(calls[i])) }

  /** The sum of a count over some calls, negative counts taken as zero. */
  function SumCalls(calls: seq<Call>, which: Call -> bool, count: Call -> int): int {
    if calls == [] then 0
    else
      var last := calls[|calls| - 1];
      SumCalls(calls[..|calls| - 1], which, count) + if which(last) && count(last) > 0 then count(last) else 0
  }

  /** Calls to a host; those without one go under "_unknown". */
  function To(keys: set<string>): Call -> bool { (c: Call) => (if c.host != "" then c.host else "_unknown") in keys }

  /** Not known to be internal: an unresolved destination counts as external. */
  function ToOutside(keys: set<string>): Call -> bool { (c: Call) => To(keys)(c) && c.isInternal != Some(true) }

  /** Each column is the sum of its own count over the calls. */
  lemma {:induction false} ColumnSums(calls: seq<Call>, keys: set<string>)
    ensures TotalIn(Hits(calls), keys, Calls) == SumCalls(calls, To(keys), (c: Call) => 1)
    ensures TotalIn(Hits(calls), keys, BytesIn) == SumCalls(calls, To(keys), (c: Call) => c.bytesIn)
    ensures TotalIn(Hits(calls), keys, BytesOut) == SumCalls(calls, To(keys), (c: Call) => c.bytesOut)
    ensures TotalIn(Hits(calls), keys, External) == SumCalls(calls, ToOutside(keys), (c: Call) => c.bytesOut)
  {
    if calls != [] {
      ColumnSums(calls[..|calls| - 1], keys);
      assert Init(Hits(calls)) == Hits(calls[..|calls| - 1]);
    }
  }

  predicate Recorded(h: seq<Hit>, key: string) { exists x :: x in h && x.host == key }

  /** Overflow totals: never negative, and bytes only where calls were counted. */
  lemma {:induction false} TotalOutPositive(h: seq<Hit>, keys: set<string>, f: Field)
    requires SaneAll(h)
    ensures TotalOut(h, keys, f) >= 0
    ensures TotalOut(h, keys, Calls) == 0 ==> TotalOut(h, keys, f) == 0
  {
    if h != [] {
      assert Last(h) in h;
      TotalOutPositive(Init(h), keys, f);
      TotalOutPositive(Init(h), keys, Calls);
    }
  }

  lemma {:induction false} HostPositive(h: seq<Hit>, host: string, f: Field)
    requires SaneAll(h)
    ensures HostTotal(h, host, f) >= 0
    ensures Recorded(h, host) ==> HostTotal(h, host, Calls) > 0
  {
    if h != [] {
      assert Last(h) in h;
      HostPositive(Init(h), host, f);
      HostPositive(Init(h), host, Calls);
      if Recorded(h, host) && Last(h).host != host {
        var x :| x in h && x.host == host;
        assert x in Init(h);
      }
    }
  }

  /** The row the full history assigns to a host. */
  predicate IsHostRow(h: seq<Hit>, host: string, r: Row) {
    forall f :: Get(r, f) == HostTotal(h, host, f)
  }

  /** The ledger after any history: exact rows for tracked hosts, everything else in the overflow. */
  predicate Agrees(l: Ledger, h: seq<Hit>) {
    && (forall f :: Get(l.total, f) == Total(h, f))
    && |l.hosts| <= LIVE_CAP
    && (forall k :: k in l.hosts ==> IsHostRow(h, k, l.hosts[k]) && Recorded(h, k))
    && (forall f :: Get(l.other, f) == TotalOut(h, l.hosts.Keys, f))
    && (|l.hosts| < LIVE_CAP ==> forall x :: x in h ==> x.host in l.hosts)
  }

  lemma HostRowStep(h0: seq<Hit>, x: Hit, k: string, r: Row)
    requires IsHostRow(h0, k, r)
    ensures IsHostRow(h0 + [x], k, if x.host == k then Add(r, x.row) else r)
  {
    var h := h0 + [x];
    assert Init(h) == h0 && Last(h) == x;
    forall f ensures Get(if x.host == k then Add(r, x.row) else r, f) == HostTotal(h, k, f) {
      assert Get(r, f) == HostTotal(h0, k, f);
      AddFields(r, x.row, f);
    }
  }

  lemma FirstHostRow(h0: seq<Hit>, x: Hit)
    requires forall y :: y in h0 ==> y.host != x.host
    ensures IsHostRow(h0 + [x], x.host, x.row)
  {
    var h := h0 + [x];
    assert Init(h) == h0 && Last(h) == x;
    forall f ensures Get(x.row, f) == HostTotal(h, x.host, f) { NoneIn(h0, {x.host}, f); }
  }

  lemma OverflowStep(l: Ledger, h0: seq<Hit>, x: Hit, f: Field)
    requires Agrees(l, h0)
    ensures var l' := Booked(l, x); Get(l'.other, f) == TotalOut(h0 + [x], l'.hosts.Keys, f)
    ensures Get(Booked(l, x).total, f) == Total(h0 + [x], f)
  {
    var h := h0 + [x];
    var l' := Booked(l, x);
    assert Init(h) == h0 && Last(h) == x;
    AddFields(l.total, x.row, f);
    AddFields(l.other, x.row, f);
    assert Get(l.other, f) == TotalOut(h0, l.hosts.Keys, f);
    if x.host !in l.hosts && |l.hosts| < LIVE_CAP {
      AllIn(h0, l.hosts.Keys, f);
      AllIn(h0, l'.hosts.Keys, f);
    } else {
      assert l'.hosts.Keys == l.hosts.Keys;
    }
  }

  lemma BookedHosts(l: Ledger, x: Hit)
    ensures Booked(l, x).hosts.Keys == if x.host !in l.hosts && |l.hosts| < LIVE_CAP then l.hosts.Keys + {x.host} else l.hosts.Keys
  {
  }

  lemma HostsStep(l: Ledger, h0: seq<Hit>, x: Hit, k: string)
    requires Agrees(l, h0) && k in Booked(l, x).hosts
    ensures IsHostRow(h0 + [x], k, Booked(l, x).hosts[k]) && Recorded(h0 + [x], k)
  {
    if k in l.hosts {
      assert Recorded(h0, k);
      HostRowStep(h0, x, k, l.hosts[k]);
    } else {
      FirstHostRow(h0, x);
      assert x in h0 + [x];
    }
  }

  lemma {:induction false} LedgerAgrees(h: seq<Hit>)
    ensures Agrees(RecordAll(h), h)
  {
    if h != [] {
      var h0, x, l := Init(h), Last(h), RecordAll(Init(h));
      LedgerAgrees(h0);
      assert h == h0 + [x];
      AgreesStep(l, h0, x);
    }
  }

  lemma AgreesStep(l: Ledger, h0: seq<Hit>, x: Hit)
    requires Agrees(l, h0)
    ensures Agrees(Booked(l, x), h0 + [x])
  {
    var h, l' := h0 + [x], Booked(l, x);
    forall f ensures Get(l'.total, f) == Total(h, f) && Get(l'.other, f) == TotalOut(h, l'.hosts.Keys, f) {
      OverflowStep(l, h0, x, f);
    }
    forall k | k in l'.hosts ensures IsHostRow(h, k, l'.hosts[k]) && Recorded(h, k) { HostsStep(l, h0, x, k); }
    BookedHosts(l, x);
    assert forall y :: y in h ==> y == x || y in h0;
  }

  // ---------------------------------------------------------------- finalize

  function Names(entries: seq<HostEntry>): set<string> { set e | e in entries :: e.host }

  function SumField(entries: seq<HostEntry>, f: Field): int {
    if entries == [] then 0 else Get(entries[0].row, f) + SumField(entries[1..], f)
  }

  function SumEntries(entries: seq<HostEntry>): Row {
    Row(SumField(entries, Calls), SumField(entries, BytesIn), SumField(entries, BytesOut), SumField(entries, External))
  }

  predicate Distinct(entries: seq<HostEntry>) {
    forall i, j :: 0 <= i < j < |entries| ==> entries[i].host != entries[j].host
  }

  predicate Descending(entries: seq<HostEntry>) {
    forall i, j :: 0 <= i < j < |entries| ==> Weight(entries[i].row) >= Weight(entries[j].row)
  }

  /** Any descending listing of the map: ties in any order. */
  predicate Ranking(hosts: map<string, Row>, ranked: seq<HostEntry>) {
    && Distinct(ranked) && Descending(ranked)
    && Names(ranked) == hosts.Keys
    && forall e :: e in ranked ==> e.host in hosts && hosts[e.host] == e.row
  }

  predicate IsNamed(e: HostEntry) { e.host != OTHER }

  predicate IsOther(e: HostEntry) { e.host == OTHER }

  function Top(ranked: seq<HostEntry>): seq<HostEntry> { Filter(IsNamed, Take(ranked, FINALIZE_CAP)) }

  function Rest(ranked: seq<HostEntry>): seq<HostEntry> {
    Filter(IsOther, Take(ranked, FINALIZE_CAP)) + ranked[|Take(ranked, FINALIZE_CAP)|..]
  }

  /** The reported rows: the leading hosts, and one overflow row when anything was folded. */
  function Report(ranked: seq<HostEntry>, other: Row): seq<HostEntry> {
    var folded := Folded(ranked, other);
    Top(ranked) + if folded.calls > 0 then [HostEntry(OTHER, folded)] else []
  }

  lemma {:induction false} SumConcat(a: seq<HostEntry>, b: seq<HostEntry>, f: Field)
    ensures SumField(a + b, f) == SumField(a, f) + SumField(b, f)
  {
    if a == [] {
      assert a + b == b;
    } else {
      assert (a + b)[1..] == a[1..] + b;
      SumConcat(a[1..], b, f);
    }
  }

  lemma {:induction false} SumPartition(entries: seq<HostEntry>, f: Field)
    ensures SumField(Filter(IsNamed, entries), f) + SumField(Filter(IsOther, entries), f) == SumField(entries, f)
  {
    if entries != [] {
      SumPartition(entries[1..], f);
      assert entries == [entries[0]] + entries[1..];
      FilterCons(IsNamed, entries[0], entries[1..]);
      FilterCons(IsOther, entries[0], entries[1..]);
    }
  }

  lemma DistinctTail(entries: seq<HostEntry>)
    requires entries != [] && Distinct(entries)
    ensures Distinct(entries[1..]) && entries[0].host !in Names(entries[1..])
    ensures Names(entries) == {entries[0].host} + Names(entries[1..])
  {
    assert entries == [entries[0]] + entries[1..];
    forall e | e in entries[1..] ensures e.host != entries[0].host {
      var i :| 0 <= i < |entries[1..]| && entries[1..][i] == e;
      assert entries[i + 1] == e;
    }
  }

  /** Exact host rows add up to what the history says about those hosts. */
  lemma {:induction false} SumIsTotalIn(h: seq<Hit>, entries: seq<HostEntry>, f: Field)
    requires Distinct(entries) && forall e :: e in entries ==> IsHostRow(h, e.host, e.row)
    ensures SumField(entries, f) == TotalIn(h, Names(entries), f)
  {
    if entries == [] {
      assert Names(entries) == {};
      NoneIn(h, {}, f);
    } else {
      DistinctTail(entries);
      SumIsTotalIn(h, entries[1..], f);
      TotalInUnion(h, {entries[0].host}, Names(entries[1..]), f);
    }
  }

  function Folded(ranked: seq<HostEntry>, other: Row): Row { Add(other, SumEntries(Rest(ranked))) }

  lemma FoldedField(ranked: seq<HostEntry>, other: Row, f: Field)
    ensures Get(Folded(ranked, other), f) == Get(other, f) + SumField(Rest(ranked), f)
  {
  }

  lemma ReportField(ranked: seq<HostEntry>, other: Row, f: Field)
    requires Folded(ranked, other).calls >= 0
    requires Folded(ranked, other).calls == 0 ==> Get(Folded(ranked, other), f) == 0
    ensures SumField(Report(ranked, other), f) == SumField(ranked, f) + Get(other, f)
  {
    var lead := Take(ranked, FINALIZE_CAP);
    var tail := ranked[|lead|..];
    assert ranked == lead + tail;
    SumConcat(lead, tail, f);
    SumConcat(Filter(IsOther, lead), tail, f);
    SumPartition(lead, f);
    FoldedField(ranked, other, f);
    var row := [HostEntry(OTHER, Folded(ranked, other))];
    assert row[1..] == [];
    if Folded(ranked, other).calls > 0 {
      SumConcat(Top(ranked), row, f);
    } else {
      assert Report(ranked, other) == Top(ranked);
    }
  }

  lemma {:induction false} SumPositive(h: seq<Hit>, entries: seq<HostEntry>, f: Field)
    requires SaneAll(h)
    requires forall e :: e in entries ==> IsHostRow(h, e.host, e.row) && Recorded(h, e.host)
    ensures SumField(entries, Calls) >= 0 && (SumField(entries, Calls) == 0 ==> SumField(entries, f) == 0)
  {
    if entries != [] {
      SumPositive(h, entries[1..], f);
      var e := entries[0];
      assert e in entries;
      HostPositive(h, e.host, Calls);
      assert Get(e.row, Calls) == HostTotal(h, e.host, Calls);
    }
  }

  /** Every call of the history is in the report exactly once, in every column. */
  lemma ReportConserves(h: seq<Hit>, ranked: seq<HostEntry>, f: Field)
    requires SaneAll(h) && Ranking(RecordAll(h).hosts, ranked)
    ensures SumField(Report(ranked, RecordAll(h).other), f) == Total(h, f)
  {
    var l := RecordAll(h);
    LedgerAgrees(h);
    RankedRows(h, ranked);
    TotalOutPositive(h, l.hosts.Keys, f);
    TotalOutPositive(h, l.hosts.Keys, Calls);
    assert Get(l.other, f) == TotalOut(h, l.hosts.Keys, f);
    assert Get(l.other, Calls) == TotalOut(h, l.hosts.Keys, Calls);
    SumPositive(h, Rest(ranked), f);
    FoldedField(ranked, l.other, f);
    FoldedField(ranked, l.other, Calls);
    assert Get(Folded(ranked, l.other), Calls) == Folded(ranked, l.other).calls;
    ReportField(ranked, l.other, f);
    SumIsTotalIn(h, ranked, f);
    SplitTotal(h, l.hosts.Keys, f);
  }

  lemma RankedRows(h: seq<Hit>, ranked: seq<HostEntry>)
    requires Ranking(RecordAll(h).hosts, ranked)
    ensures forall e :: e in ranked || e in Rest(ranked) ==> IsHostRow(h, e.host, e.row) && Recorded(h, e.host)
    ensures forall e :: e in Rest(ranked) || e in Top(ranked) ==> e in ranked
  {
    LedgerAgrees(h);
    FilterMembers(IsOther, Take(ranked, FINALIZE_CAP));
    FilterMembers(IsNamed, Take(ranked, FINALIZE_CAP));
  }

  lemma {:induction false} DistinctFilter(p: HostEntry -> bool, entries: seq<HostEntry>)
    requires Distinct(entries)
    ensures Distinct(Filter(p, entries))
  {
    if entries != [] {
      DistinctTail(entries);
      DistinctFilter(p, entries[1..]);
      FilterMembers(p, entries[1..]);
      forall e | e in Filter(p, entries[1..]) ensures e.host != entries[0].host {
        assert e.host in Names(entries[1..]);
      }
    }
  }

  lemma ReportNames(h: seq<Hit>, ranked: seq<HostEntry>)
    requires Ranking(RecordAll(h).hosts, ranked)
    ensures var rows := Report(ranked, RecordAll(h).other);
            && Distinct(rows) && |rows| <= FINALIZE_CAP + 1
            && (forall e :: e in rows && e.host != OTHER ==> e in Top(ranked))
            && (forall e :: e in Top(ranked) ==> e in rows)
  {
    var lead := Take(ranked, FINALIZE_CAP);
    DistinctFilter(IsNamed, lead);
    FilterMembers(IsNamed, lead);
    OverflowRowLast(Top(ranked), Folded(ranked, RecordAll(h).other));
  }

  lemma OverflowRowLast(top: seq<HostEntry>, folded: Row)
    requires Distinct(top) && forall e :: e in top ==> IsNamed(e)
    ensures Distinct(top + if folded.calls > 0 then [HostEntry(OTHER, folded)] else [])
  {
    forall i | 0 <= i < |top| ensures top[i].host != OTHER { assert top[i] in top; }
  }

  /** Named rows are exact and unique, and there are at most 21 rows. */
  lemma ReportExact(h: seq<Hit>, ranked: seq<HostEntry>)
    requires Ranking(RecordAll(h).hosts, ranked)
    ensures var rows := Report(ranked, RecordAll(h).other);
            && Distinct(rows) && |rows| <= FINALIZE_CAP + 1
            && (forall e :: e in rows && e.host != OTHER ==> IsHostRow(h, e.host, e.row) && Recorded(h, e.host))
  {
    ReportNames(h, ranked);
    RankedRows(h, ranked);
  }

  /** No host folded into the overflow by rank outweighs a listed one. */
  lemma ReportRanks(h: seq<Hit>, ranked: seq<HostEntry>, e: HostEntry, f: HostEntry)
    requires Ranking(RecordAll(h).hosts, ranked)
    requires e in Report(ranked, RecordAll(h).other) && e.host != OTHER
    requires f in ranked && f.host != OTHER && f !in Report(ranked, RecordAll(h).other)
    ensures Weight(e.row) >= Weight(f.row)
  {
    var lead := Take(ranked, FINALIZE_CAP);
    ReportNames(h, ranked);
    FilterMembers(IsNamed, lead);
    var i :| 0 <= i < |ranked| && ranked[i] == f;
    var j :| 0 <= j < |lead| && lead[j] == e;
    assert ranked[j] == e;
  }

  const BYTES_PER_GB := 1_000_000_000.0

  function EgressCost(rate: real, external: int): real { (external as real) / BYTES_PER_GB * rate }

  function SumCosts(rate: real, rows: seq<HostEntry>): real {
    if rows == [] then 0.0 else EgressCost(rate, rows[0].row.external) + SumCosts(rate, rows[1..])
  }

  lemma {:induction false} CostIsLinear(rate: real, rows: seq<HostEntry>)
    ensures SumCosts(rate, rows) == EgressCost(rate, SumField(rows, External))
  {
    if rows != [] {
      CostIsLinear(rate, rows[1..]);
      EgressAdds(rate, rows[0].row.external, SumField(rows[1..], External));
    }
  }

  lemma EgressAdds(rate: real, a: int, b: int)
    ensures EgressCost(rate, a + b) == EgressCost(rate, a) + EgressCost(rate, b)
  {
    var x, y := a as real / BYTES_PER_GB, b as real / BYTES_PER_GB;
    assert (a + b) as real / BYTES_PER_GB == x + y;
    assert (x + y) * rate == x * rate + y * rate;
  }

  /** The per-host egress costs stamped on the report add up to the task's network cost. */
  lemma EgressAddsUp(h: seq<Hit>, ranked: seq<HostEntry>, rate: real)
    requires SaneAll(h) && Ranking(RecordAll(h).hosts, ranked)
    ensures SumCosts(rate, Report(ranked, RecordAll(h).other)) == EgressCost(rate, Total(h, External))
  {
    ReportConserves(h, ranked, External);
    CostIsLinear(rate, Report(ranked, RecordAll(h).other));
  }

  // ---------------------------------------------------------------- the accountant

  datatype Snapshot = Snapshot(total: Row, byHost: seq<HostEntry>)

  class NetworkAccountant {
    var bytesIn: int
    var bytesOut: int
    var externalBytesOut: int
    var callCount: int
    var hosts: map<string, Row>
    var other: Row
    var frozen: bool
    ghost var history: seq<Hit>

    ghost function State(): Ledger
      reads this
    {
      Ledger(Row(callCount, bytesIn, bytesOut, externalBytesOut), hosts, other)
    }

    ghost predicate Valid()
      reads this
    {
      State() == RecordAll(history) && SaneAll(history)
    }

    constructor ()
      ensures Valid() && history == [] && !frozen
    {
      bytesIn, bytesOut, externalBytesOut, callCount := 0, 0, 0, 0;
      hosts, other, frozen, history := map[], ZERO, false, [];
    }

    /** Adds one call; ignored once finalized. */
    method Record(host: string, inBytes: int, outBytes: int, isInternal: Option<bool>)
      requires Valid()
      modifies this
      ensures Valid() && frozen == old(frozen)
      ensures history == if frozen then old(history)
                         else old(history) + [Count(Call(host, inBytes, outBytes, isInternal))]
      ensures frozen ==> State() == old(State())
    {
      var received, sent := if inBytes < 0 then 0 else inBytes, if outBytes < 0 then 0 else outBytes;
      var external := sent;
      if isInternal.Some? && isInternal.value { external := 0; }
      if frozen { return; }
      var key := if host == "" then UNKNOWN else host;
      var row := Row(1, received, sent, external);
      assert Hit(key, row) == Count(Call(host, inBytes, outBytes, isInternal));
      Book(key, row);
      RecordOne(history, Hit(key, row));
      history := history + [Hit(key, row)];
    }

    method Book(key: string, row: Row)
      requires row.calls == 1
      modifies this`bytesIn, this`bytesOut, this`externalBytesOut, this`callCount, this`hosts, this`other
      ensures State() == Booked(old(State()), Hit(key, row))
    {
      bytesIn, bytesOut := bytesIn + row.bytesIn, bytesOut + row.bytesOut;
      externalBytesOut, callCount := externalBytesOut + row.external, callCount + 1;
      if key in hosts {
        hosts := hosts[key := Add(hosts[key], row)];
      } else if |hosts| < LIVE_CAP {
        hosts := hosts[key := row];
      } else {
        other := Add(other, row);
      }
    }

    /** Drains the hosts heaviest first. */
    method Rank() returns (ranked: seq<HostEntry>)
      ensures Ranking(hosts, ranked)
    {
      ranked := [];
      var left := hosts;
      while left.Keys != {}
        invariant left.Keys <= hosts.Keys && forall k :: k in left ==> left[k] == hosts[k]
        invariant Names(ranked) == hosts.Keys - left.Keys
        invariant Distinct(ranked) && Descending(ranked)
        invariant forall e :: e in ranked ==> e.host in hosts && hosts[e.host] == e.row
        invariant forall e, k :: e in ranked && k in left ==> Weight(e.row) >= Weight(left[k])
        decreases left.Keys
      {
        var best := Heaviest(left);
        forall e | e in ranked ensures e.host != best { assert e.host in Names(ranked); }
        ghost var before := ranked;
        ranked := ranked + [HostEntry(best, left[best])];
        assert Names(ranked) == Names(before) + {best};
        left := left - {best};
      }
    }

    method Heaviest(left: map<string, Row>) returns (best: string)
      requires left.Keys != {}
      ensures best in left && forall k :: k in left ==> Weight(left[best]) >= Weight(left[k])
    {
      best :| best in left;
      var unread := left.Keys;
      while unread != {}
        invariant unread <= left.Keys && best in left
        invariant forall k :: k in left && k !in unread ==> Weight(left[best]) >= Weight(left[k])
        decreases unread
      {
        var k :| k in unread;
        if Weight(left[k]) > Weight(left[best]) { best := k; }
        unread := unread - {k};
      }
    }

    /** Splits the ranking into the listed hosts and the overflow row. */
    method Fold(ranked: seq<HostEntry>) returns (top: seq<HostEntry>, folded: Row)
      ensures top == Top(ranked) && folded == Folded(ranked, other)
    {
      folded, top := other, [];
      assert Rest(ranked[..0]) == [];
      for idx := 0 to |ranked|
        invariant top == Top(ranked[..idx])
        invariant folded == Folded(ranked[..idx], other)
      {
        var item := ranked[idx];
        FoldStep(ranked, idx, other);
        if idx < FINALIZE_CAP && item.host != OTHER {
          top := top + [item];
        } else {
          folded := Add(folded, item.row);
        }
      }
      assert ranked[..|ranked|] == ranked;
    }

    /** Freezes the accountant and reports the leading hosts and the overflow. */
    method Finalize() returns (s: Snapshot)
      requires Valid()
      modifies this`frozen
      ensures Valid() && frozen && history == old(history)
      ensures exists ranked :: Ranking(RecordAll(history).hosts, ranked)
                               && s.byHost == Report(ranked, RecordAll(history).other)
      ensures forall f :: SumField(s.byHost, f) == Get(s.total, f) == Total(history, f)
    {
      frozen := true;
      var ranked := Rank();
      var top, folded := Fold(ranked);
      var rows := top;
      if folded.calls > 0 { rows := rows + [HostEntry(OTHER, folded)]; }
      LedgerAgrees(history);
      assert State().other == RecordAll(history).other && rows == Report(ranked, other);
      forall f ensures SumField(rows, f) == Total(history, f) { ReportConserves(history, ranked, f); }
      s := Snapshot(Row(callCount, bytesIn, bytesOut, externalBytesOut), rows);
    }
  }

  lemma RecordOne(h: seq<Hit>, x: Hit)
    ensures RecordAll(h + [x]) == Booked(RecordAll(h), x)
  {
    assert Init(h + [x]) == h && Last(h + [x]) == x;
  }

  /** One more ranked host: kept when it leads and is not literally "_other", folded otherwise. */
  lemma FoldStep(ranked: seq<HostEntry>, idx: nat, other: Row)
    requires idx < |ranked|
    ensures var before, after := ranked[..idx], ranked[..idx + 1];
            var item := ranked[idx];
            if idx < FINALIZE_CAP && item.host != OTHER
            then Top(after) == Top(before) + [item] && Folded(after, other) == Folded(before, other)
            else Top(after) == Top(before) && Folded(after, other) == Add(Folded(before, other), item.row)
  {
    var before, after := ranked[..idx], ranked[..idx + 1];
    var item := ranked[idx];
    assert after == before + [item];
    assert [item][1..] == [];
    if idx < FINALIZE_CAP {
      FilterConcat(IsNamed, before, [item]);
      FilterConcat(IsOther, before, [item]);
      assert Take(after, FINALIZE_CAP) == after && Take(before, FINALIZE_CAP) == before;
      assert after[|after|..] == [] && before[|before|..] == [];
      assert Rest(before) == Filter(IsOther, before) && Rest(after) == Filter(IsOther, after);
      assert Filter(IsNamed, before) + [] == Filter(IsNamed, before);
      assert Filter(IsOther, before) + [] == Filter(IsOther, before);
    } else {
      assert Take(after, FINALIZE_CAP) == Take(before, FINALIZE_CAP);
      assert Rest(after) == Rest(before) + [item];
    }
    if idx >= FINALIZE_CAP || item.host == OTHER {
      assert Rest(after) == Rest(before) + [item];
      SumAppend(Rest(before), item, other);
    }
  }

  lemma SumAppend(rest: seq<HostEntry>, item: HostEntry, other: Row)
    ensures Add(other, SumEntries(rest + [item])) == Add(Add(other, SumEntries(rest)), item.row)
  {
    assert [item][1..] == [];
    SumConcat(rest, [item], Calls);
    SumConcat(rest, [item], BytesIn);
    SumConcat(rest, [item], BytesOut);
    SumConcat(rest, [item], External);
  }
}
