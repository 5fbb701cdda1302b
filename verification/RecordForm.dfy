/** The contract as a data type: what a well-formed record is, its JSON form, and that exactly those are accepted. */
module RecordForm {
  import opened Sequences
  import opened Json
  import opened Wire
  import opened Contract
  import Names
  import Decimals
  import Timestamps

  // ---------------------------------------------------------------- well-formed records

  predicate OptionalName(s: string) { s == "" || Names.IsCanonical(s) }

  predicate ProviderFormed(p: Provider) {
    Names.IsCanonical(p.name) && Names.IsCanonical(p.service) && |p.recordId| <= 256 && OptionalName(p.region)
  }

  predicate ResourceFormed(r: Option<Resource>) {
    r.Some? ==> r.value.kind in RESOURCE_TYPES && LengthWithin(r.value.id, 256)
  }

  predicate LifecycleFormed(state: string, revision: int) { state in STATES && 1 <= revision <= MAX_REVISION }

  /** A readable start, and an end that is open or not before it. */
  predicate PeriodFormed(p: Option<UsagePeriod>) {
    p.Some? ==>
      var start, end := Timestamps.Parse(p.value.startAt), Timestamps.Parse(p.value.endAt);
      start.Instant? && (p.value.endAt != "" ==> end.Instant? && start.t <= end.t)
  }

  predicate LineFormed(line: UsageLine) {
    CanonicalUnit(line.metric, line.unit) && Decimals.PlainPositive(line.quantity)
  }

  predicate UsageFormed(usage: seq<UsageLine>) {
    && |usage| <= MAX_LINES
    && (forall i :: 0 <= i < |usage| ==> LineFormed(usage[i]))
    && (forall i, j :: 0 <= j < i < |usage| ==> usage[j].metric != usage[i].metric)
  }

  predicate CostFormed(c: Option<CostEvidence>) {
    c.Some? ==>
      && Decimals.PlainPositive(c.value.amount) && IsCurrency(c.value.currency)
      && c.value.source in SOURCES && c.value.confidence in CONFIDENCES && |c.value.pricingVersion| <= 128
      && (c.value.source == "provider_reported" ==> c.value.confidence == "exact" || c.value.confidence == "estimated")
      && (Derived(Some(c.value.source)) ==> c.value.confidence != "exact" && c.value.pricingVersion != "")
  }

  predicate IdentityFormed(d: EventV2) {
    && d.schemaVersion == "2" && IsUuid(d.eventId) && IsUuid(d.taskId) && (d.retryOf == "" || IsUuid(d.retryOf))
    && d.component in COMPONENTS
    && Timestamps.Parse(d.occurredAt).Instant? && Timestamps.Parse(d.observedAt).Instant?
  }

  predicate TimesUsage(usage: seq<UsageLine>) {
    exists i :: 0 <= i < |usage| && Names.HasSuffix(usage[i].unit, "Seconds")
  }

  predicate Closed(p: Option<UsagePeriod>) { p.Some? && p.value.endAt != "" }

  /** What each lifecycle state asserts: nothing yet, a preliminary or a final measurement, or a tombstone. */
  predicate StateFormed(d: EventV2) {
    && (d.state == "pending" ==> d.usage == [] && d.costEvidence.None? && !Closed(d.usagePeriod))
    && (d.state == "provisional" ==>
          d.usage != [] && (d.costEvidence.Some? ==> d.costEvidence.value.confidence != "exact"))
    && (d.state == "final" ==> d.usage != [])
    && (d.state == "voided" ==> d.revision != 1 && d.usage == [] && d.costEvidence.None?)
    && ((d.state == "provisional" || d.state == "final") && TimesUsage(d.usage) ==> Closed(d.usagePeriod))
  }

  predicate WellFormed(d: EventV2) {
    && IdentityFormed(d) && ProviderFormed(d.provider) && ResourceFormed(d.resource)
    && LifecycleFormed(d.state, d.revision) && PeriodFormed(d.usagePeriod) && UsageFormed(d.usage)
    && CostFormed(d.costEvidence) && StateFormed(d)
  }

  // ---------------------------------------------------------------- reading a record back

  function TextOf(v: Option<Value>): string { if Text(v).Some? then Text(v).value else "" }

  function Inner(v: Option<Value>, key: string): Option<Value> { if v.Some? then Field(v.value, key) else None }

  function ReadProvider(v: Option<Value>): Provider {
    Provider(TextOf(Inner(v, "name")), TextOf(Inner(v, "service")), TextOf(Inner(v, "record_id")), TextOf(Inner(v, "region")))
  }

  function ReadResource(v: Option<Value>): Option<Resource> {
    if v.None? then None else Some(Resource(TextOf(Inner(v, "type")), TextOf(Inner(v, "id"))))
  }

  function ReadRevision(v: Option<Value>): int {
    var r := Inner(v, "revision");
    if r.Some? && r.value.Num? then r.value.n.Floor else 0
  }

  function ReadPeriod(v: Option<Value>): Option<UsagePeriod> {
    if v.None? then None else Some(UsagePeriod(TextOf(Inner(v, "start_at")), TextOf(Inner(v, "end_at"))))
  }

  function ReadLine(v: Value): UsageLine {
    UsageLine(TextOf(Field(v, "metric")), TextOf(Field(v, "quantity")), TextOf(Field(v, "unit")))
  }

  function ReadUsage(v: Option<Value>): seq<UsageLine> {
    var items := Lines(v);
    seq(|items|, i requires 0 <= i < |items| => ReadLine(items[i]))
  }

  function ReadCost(v: Option<Value>): Option<CostEvidence> {
    if v.None? then None
    else Some(CostEvidence(TextOf(Inner(v, "amount")), TextOf(Inner(v, "currency")), TextOf(Inner(v, "source")),
                           TextOf(Inner(v, "confidence")), TextOf(Inner(v, "pricing_version"))))
  }

  function ReadEvent(f: map<string, Value>): EventV2 {
    EventV2(TextOf(Member(f, "schema_version")), TextOf(Member(f, "event_id")), TextOf(Member(f, "task_id")),
            TextOf(Member(f, "occurred_at")), TextOf(Member(f, "observed_at")), TextOf(Member(f, "component")),
            ReadProvider(Member(f, "provider")), ReadResource(Member(f, "resource")),
            TextOf(Inner(Member(f, "lifecycle"), "state")), ReadRevision(Member(f, "lifecycle")),
            ReadPeriod(Member(f, "usage_period")), ReadUsage(Member(f, "usage")),
            ReadCost(Member(f, "cost_evidence")), TextOf(Member(f, "retry_of")))
  }

  // ---------------------------------------------------------------- section by section

  lemma KnownIff(fields: map<string, Value>, allowed: set<string>, prefix: string)
    ensures UnknownKeys(fields, allowed, prefix) == {} <==> fields.Keys <= allowed
  {
    if k :| k in fields && k !in allowed {
      assert Issue(Under(prefix, k), "Unknown field") in UnknownKeys(fields, allowed, prefix);
    }
  }

  lemma UnionEmpty(a: set<Issue>, b: set<Issue>)
    ensures a + b == {} <==> a == {} && b == {}
  {
    if a != {} { var x :| x in a; assert x in a + b; }
    if b != {} { var x :| x in b; assert x in a + b; }
  }

  lemma {:induction false} AllEmpty(f: nat -> set<Issue>, n: nat)
    ensures Union(f, n) == {} <==> forall i: nat :: i < n ==> f(i) == {}
  {
    if n > 0 {
      AllEmpty(f, n - 1);
      UnionEmpty(Union(f, n - 1), f(n - 1));
    }
  }

  lemma SevenEmpty(a: set<Issue>, b: set<Issue>, c: set<Issue>, d: set<Issue>, e: set<Issue>, f: set<Issue>, g: set<Issue>)
    ensures a + b + c + d + e + f + g == {} <==> a == {} && b == {} && c == {} && d == {} && e == {} && f == {} && g == {}
  {
    UnionEmpty(a, b);
    UnionEmpty(a + b, c);
    UnionEmpty(a + b + c, d);
    UnionEmpty(a + b + c + d, e);
    UnionEmpty(a + b + c + d + e, f);
    UnionEmpty(a + b + c + d + e + f, g);
  }

  lemma FieldsEmpty(f: map<string, Value>)
    ensures FieldIssues(f) == {} <==>
              && IdentityIssues(f) == {} && ProviderIssues(Member(f, "provider")) == {} && ResourceIssues(Member(f, "resource")) == {}
              && LifecycleIssues(Member(f, "lifecycle")) == {} && PeriodIssues(Member(f, "usage_period")) == {}
              && UsageIssues(Member(f, "usage")) == {} && EvidenceIssues(Member(f, "cost_evidence")) == {}
  {
    hide IdentityIssues, ProviderIssues, ResourceIssues, LifecycleIssues, UsageIssues, EvidenceIssues, PeriodIssues;
    SevenEmpty(IdentityIssues(f), ProviderIssues(Member(f, "provider")), ResourceIssues(Member(f, "resource")),
               LifecycleIssues(Member(f, "lifecycle")), PeriodIssues(Member(f, "usage_period")),
               UsageIssues(Member(f, "usage")), EvidenceIssues(Member(f, "cost_evidence")));
  }

  lemma FourEmpty(a: set<Issue>, b: set<Issue>, c: set<Issue>, d: set<Issue>)
    ensures a + b + c + d == {} <==> a == {} && b == {} && c == {} && d == {}
  {
    UnionEmpty(a, b); UnionEmpty(a + b, c); UnionEmpty(a + b + c, d);
  }

  lemma FiveEmpty(a: set<Issue>, b: set<Issue>, c: set<Issue>, d: set<Issue>, e: set<Issue>)
    ensures a + b + c + d + e == {} <==> a == {} && b == {} && c == {} && d == {} && e == {}
  {
    FourEmpty(a, b, c, d);
    UnionEmpty(a + b + c + d, e);
  }

  lemma SameFields(f: map<string, Value>, g: map<string, Value>, allowed: set<string>)
    requires f.Keys <= allowed && g.Keys <= allowed
    requires forall k :: k in allowed ==> Member(f, k) == Member(g, k)
    ensures f == g
  {
    assert forall k :: k in f || k in g ==> k in allowed && Member(f, k) == Member(g, k);
  }

  /** A provider is accepted exactly when it is the JSON form of a well-formed one. */
  lemma ProviderForm(v: Option<Value>)
    ensures ProviderIssues(v) == {} <==> v == Some(ProviderJson(ReadProvider(v))) && ProviderFormed(ReadProvider(v))
  {
    if v.Some? && v.value.Obj? {
      var f, p := v.value.fields, ReadProvider(v);
      KnownIff(f, PROVIDER_KEYS, "provider");
      FiveEmpty(UnknownKeys(f, PROVIDER_KEYS, "provider"),
                StringIssues(Member(f, "name"), "provider.name", Names.IsCanonical),
                StringIssues(Member(f, "service"), "provider.service", Names.IsCanonical),
                Require("record_id" in f ==> TextWithin(Member(f, "record_id"), 256), "provider.record_id", "Invalid provider record ID"),
                if "region" in f then StringIssues(Member(f, "region"), "provider.region", Names.IsCanonical) else {});
      if ProviderIssues(v) == {} { assert f == ProviderJson(p).fields; }
      if v == Some(ProviderJson(p)) { ProviderMembers(p); }
    }
  }

  lemma ProviderMembers(p: Provider)
    ensures var f := ProviderJson(p).fields;
            && f.Keys <= PROVIDER_KEYS
            && Member(f, "name") == Some(Str(p.name)) && Member(f, "service") == Some(Str(p.service))
            && Member(f, "record_id") == (if p.recordId == "" then None else Some(Str(p.recordId)))
            && Member(f, "region") == (if p.region == "" then None else Some(Str(p.region)))
    ensures ReadProvider(Some(ProviderJson(p))) == p
  {
  }

  lemma ResourceForm(v: Option<Value>)
    ensures ResourceIssues(v) == {} <==> v == ResourceJson(ReadResource(v)) && ResourceFormed(ReadResource(v))
  {
    if v.Some? && v.value.Obj? {
      var f, r := v.value.fields, ReadResource(v);
      KnownIff(f, RESOURCE_KEYS, "resource");
      if ResourceIssues(v) == {} { assert f == ResourceJson(r).value.fields; }
    }
  }

  /** Lifecycle members of a record. */
  lemma LifecycleForm(v: Option<Value>, d: EventV2)
    requires d.state == TextOf(Inner(v, "state")) && d.revision == ReadRevision(v)
    ensures LifecycleIssues(v) == {} <==> v == Some(LifecycleJson(d)) && LifecycleFormed(d.state, d.revision)
    ensures LifecycleIssues(v) == {} ==> State(v) == d.state && Revision(v) == d.revision as real
  {
    if v.Some? && v.value.Obj? {
      var f := v.value.fields;
      KnownIff(f, LIFECYCLE_KEYS, "lifecycle");
      if LifecycleIssues(v) == {} { assert f == LifecycleJson(d).fields; }
    }
  }

  predicate PeriodAccepted(f: map<string, Value>) {
    var start, end := Stamp(Member(f, "start_at")), Stamp(Member(f, "end_at"));
    f.Keys <= PERIOD_KEYS && start.Instant? && ("end_at" in f ==> end.Instant? && start.t <= end.t)
  }

  lemma PeriodFieldsIff(f: map<string, Value>)
    ensures PeriodIssues(Some(Obj(f))) == {} <==> PeriodAccepted(f)
  {
    hide Timestamps.Parse;
    var start, end := Stamp(Member(f, "start_at")), Stamp(Member(f, "end_at"));
    KnownIff(f, PERIOD_KEYS, "usage_period");
    FourEmpty(UnknownKeys(f, PERIOD_KEYS, "usage_period"), TimeIssues(Member(f, "start_at"), "usage_period.start_at"),
              if "end_at" in f then TimeIssues(Member(f, "end_at"), "usage_period.end_at") else {},
              Require(start.Instant? && end.Instant? ==> start.t <= end.t, "usage_period.end_at", "End cannot precede start"));
  }

  lemma PeriodMembers(p: UsagePeriod)
    ensures var f := PeriodJson(Some(p)).value.fields;
            && f.Keys <= PERIOD_KEYS && Member(f, "start_at") == Some(Str(p.startAt))
            && Member(f, "end_at") == if p.endAt == "" then None else Some(Str(p.endAt))
    ensures ReadPeriod(PeriodJson(Some(p))) == Some(p)
  {
  }

  lemma PeriodFits(f: map<string, Value>, p: UsagePeriod)
    requires ReadPeriod(Some(Obj(f))) == Some(p)
    ensures PeriodAccepted(f) <==> f == PeriodJson(Some(p)).value.fields && PeriodFormed(Some(p))
    ensures PeriodAccepted(f) ==> ("end_at" in f <==> p.endAt != "")
  {
    EmptyTextIsNoTime();
    PeriodMembers(p);
    var g := PeriodJson(Some(p)).value.fields;
    hide Timestamps.Parse, PeriodJson;
    if PeriodAccepted(f) {
      assert Member(f, "start_at") == Member(g, "start_at") && Member(f, "end_at") == Member(g, "end_at");
      SameFields(f, g, PERIOD_KEYS);
    }
  }

  lemma PeriodForm(v: Option<Value>)
    ensures PeriodIssues(v) == {} <==> v == PeriodJson(ReadPeriod(v)) && PeriodFormed(ReadPeriod(v))
    ensures PeriodIssues(v) == {} ==>
              && (EndOk(v) <==> Closed(ReadPeriod(v)))
              && ((v.Some? && Field(v.value, "end_at").Some?) <==> Closed(ReadPeriod(v)))
  {
    if v.Some? && v.value.Obj? {
      PeriodFieldsIff(v.value.fields);
      PeriodFits(v.value.fields, ReadPeriod(v).value);
      hide Timestamps.Parse, PeriodIssues, PeriodFormed;
    }
  }

  lemma EmptyTextIsNoTime()
    ensures !Timestamps.Parse("").Instant?
  {
  }

  lemma LineMembers(line: UsageLine)
    ensures var v := LineJson(line);
            && v.fields.Keys <= LINE_KEYS && ReadLine(v) == line
            && Field(v, "metric") == Some(Str(line.metric)) && Field(v, "quantity") == Some(Str(line.quantity))
            && Field(v, "unit") == Some(Str(line.unit))
  {
  }

  predicate LineAccepted(v: Value) {
    v.Obj? && v.fields.Keys <= LINE_KEYS && Contract.Metric(v).Some? && TextPositive(Field(v, "quantity"))
    && Contract.Unit(v).Some? && CanonicalUnit(Contract.Metric(v).value, Contract.Unit(v).value)
  }

  lemma LineForm(v: Value)
    ensures LineAccepted(v) <==> v == LineJson(ReadLine(v)) && LineFormed(ReadLine(v))
    ensures LineAccepted(v) ==> Contract.Metric(v) == Some(ReadLine(v).metric) && Contract.Unit(v) == Some(ReadLine(v).unit)
  {
    hide Decimals.PlainPositive;
    var line := ReadLine(v);
    LineMembers(line);
    if LineAccepted(v) {
      assert v.fields == LineJson(line).fields;
    } else if v == LineJson(line) && LineFormed(line) {
      assert UNIT_BY_METRIC[line.metric] in UNIT_BY_METRIC.Values;
    }
  }

  lemma LineIssuesIff(usage: seq<Value>, i: nat)
    requires i < |usage|
    ensures LineIssues(usage, i) == {} <==> LineAccepted(usage[i]) && !RepeatsMetric(usage, i)
  {
    if usage[i].Obj? {
      hide Decimals.PlainPositive, RepeatsMetric;
      KnownIff(usage[i].fields, LINE_KEYS, LinePath(i));
      var metric, unit, positive := Contract.Metric(usage[i]), Contract.Unit(usage[i]), TextPositive(Field(usage[i], "quantity"));
      RulesIff(LinePath(i), metric, RepeatsMetric(usage, i), positive, unit);
      UnionEmpty(UnknownKeys(usage[i].fields, LINE_KEYS, LinePath(i)),
                 LineRules(LinePath(i), metric, RepeatsMetric(usage, i), positive, unit));
    }
  }

  lemma RulesIff(prefix: string, metric: Option<string>, repeated: bool, positive: bool, unit: Option<string>)
    ensures LineRules(prefix, metric, repeated, positive, unit) == {}
            <==> metric.Some? && !repeated && positive && unit.Some? && CanonicalUnit(metric.value, unit.value)
  {
    FiveEmpty(Require(metric.Some?, prefix + ".metric", "Invalid usage metric"),
              Require(metric.Some? ==> !repeated, prefix + ".metric", "Duplicate usage metric"),
              Require(positive, prefix + ".quantity", "Must be a positive plain decimal string"),
              Require(unit.Some?, prefix + ".unit", "Invalid usage unit"),
              Require(metric.Some? && unit.Some? ==> CanonicalUnit(metric.value, unit.value),
                      prefix + ".unit", "Metric must use its canonical unit"));
  }

  predicate LinesAccepted(items: seq<Value>) {
    && (forall i :: 0 <= i < |items| ==> LineAccepted(items[i]))
    && (forall i :: 0 <= i < |items| ==> !RepeatsMetric(items, i))
  }

  lemma LinesIff(items: seq<Value>)
    ensures Union(IssuesAt(items), |items|) == {} <==> LinesAccepted(items)
  {
    hide LineIssues, LineAccepted, RepeatsMetric, Union;
    AllEmpty(IssuesAt(items), |items|);
    forall i: nat | i < |items|
      ensures IssuesAt(items)(i) == {} <==> LineAccepted(items[i]) && !RepeatsMetric(items, i)
    {
      LineIssuesIff(items, i);
    }
  }

  /** Lines accepted one by one are distinct lines of the record. */
  lemma LinesForm(items: seq<Value>)
    ensures var usage := ReadUsage(Some(Arr(items)));
            && |usage| == |items|
            && (LinesAccepted(items)
                <==> UsageJson(usage).items == items && (forall i :: 0 <= i < |usage| ==> LineFormed(usage[i]))
                     && (forall i, j :: 0 <= j < i < |usage| ==> usage[j].metric != usage[i].metric))
            && (LinesAccepted(items) ==> (HasTime(items) <==> TimesUsage(usage)))
  {
    var usage := ReadUsage(Some(Arr(items)));
    forall i | 0 <= i < |items|
      ensures LineAccepted(items[i]) <==> items[i] == LineJson(usage[i]) && LineFormed(usage[i])
      ensures LineAccepted(items[i]) ==> Contract.Metric(items[i]) == Some(usage[i].metric)
      ensures LineAccepted(items[i]) ==> Contract.Unit(items[i]) == Some(usage[i].unit)
    {
      LineForm(items[i]);
    }
    hide LineAccepted, LineFormed, LineJson, ReadLine, Contract.Metric, Contract.Unit;
    if LinesAccepted(items) {
      assert UsageJson(usage).items == items;
      forall i, j | 0 <= j < i < |usage| ensures usage[j].metric != usage[i].metric { assert !RepeatsMetric(items, i); }
      forall i | 0 <= i < |items| ensures IsTime(items[i]) <==> Names.HasSuffix(usage[i].unit, "Seconds") { }
    } else if UsageJson(usage).items == items && forall i :: 0 <= i < |usage| ==> LineFormed(usage[i]) {
      forall i | 0 <= i < |items| ensures LineAccepted(items[i]) { assert items[i] == UsageJson(usage).items[i]; }
    }
  }

  lemma UsageForm(v: Option<Value>)
    ensures UsageIssues(v) == {} <==> v == Some(UsageJson(ReadUsage(v))) && UsageFormed(ReadUsage(v))
    ensures UsageIssues(v) == {} ==>
              |Lines(v)| == |ReadUsage(v)| && (HasTime(Lines(v)) <==> TimesUsage(ReadUsage(v)))
  {
    if v.Some? && v.value.Arr? {
      var items := v.value.items;
      LinesIff(items);
      LinesForm(items);
      hide Union, LinesAccepted, LineFormed, HasTime, TimesUsage;
      UnionEmpty(Require(|items| <= MAX_LINES, "usage", "At most 32 usage lines are allowed"), Union(IssuesAt(items), |items|));
    }
  }

  lemma SourceIff(source: string, confidence: string, versioned: bool)
    requires confidence in CONFIDENCES
    ensures SourceIssues(Some(source), Some(confidence), versioned) == {} <==>
              && (source == "provider_reported" ==> confidence == "exact" || confidence == "estimated")
              && (Derived(Some(source)) ==> confidence != "exact" && versioned)
  {
    FourEmpty(Require(source == "provider_reported" ==> confidence == "exact" || confidence == "estimated",
                      "cost_evidence.confidence", "Provider-reported cost must be exact or estimated"),
              Require(Derived(Some(source)) ==> confidence != "exact", "cost_evidence.confidence", "SDK-derived cost cannot be exact"),
              Require(Derived(Some(source)) ==> versioned, "cost_evidence.pricing_version", "SDK-derived cost requires pricing_version"),
              {});
  }

  predicate CostAccepted(f: map<string, Value>) {
    && f.Keys <= EVIDENCE_KEYS && TextPositive(Member(f, "amount")) && TextMatches(Member(f, "currency"), IsCurrency)
    && TextIn(Member(f, "source"), SOURCES) && TextIn(Member(f, "confidence"), CONFIDENCES)
    && ("pricing_version" in f ==> TextWithin(Member(f, "pricing_version"), 128))
  }

  lemma CostSame(f: map<string, Value>, c: CostEvidence)
    requires ReadCost(Some(Obj(f))) == Some(c) && CostAccepted(f)
    ensures f == EvidenceJson(Some(c)).value.fields
  {
    CostMembers(c);
    var g := EvidenceJson(Some(c)).value.fields;
    hide Decimals.PlainPositive, IsCurrency, EvidenceJson;
    assert Member(f, "amount") == Member(g, "amount") && Member(f, "currency") == Member(g, "currency");
    assert Member(f, "source") == Member(g, "source") && Member(f, "confidence") == Member(g, "confidence");
    assert Member(f, "pricing_version") == Member(g, "pricing_version");
    SameFields(f, g, EVIDENCE_KEYS);
  }

  lemma CostFits(f: map<string, Value>, c: CostEvidence)
    requires ReadCost(Some(Obj(f))) == Some(c)
    ensures CostAccepted(f) && SourceIssues(Some(c.source), Some(c.confidence), "pricing_version" in f) == {}
            <==> f == EvidenceJson(Some(c)).value.fields && CostFormed(Some(c))
    ensures CostAccepted(f) ==> Text(Member(f, "source")) == Some(c.source) && Text(Member(f, "confidence")) == Some(c.confidence)
  {
    if CostAccepted(f) { CostSame(f, c); }
    if c.confidence in CONFIDENCES { SourceIff(c.source, c.confidence, "pricing_version" in f); }
    if f == EvidenceJson(Some(c)).value.fields { CostMembers(c); }
    hide Decimals.PlainPositive, IsCurrency, EvidenceJson, SourceIssues;
  }

  lemma CostForm(v: Option<Value>)
    ensures EvidenceIssues(v) == {} <==> v == EvidenceJson(ReadCost(v)) && CostFormed(ReadCost(v))
    ensures EvidenceIssues(v) == {} && v.Some? ==> Text(Field(v.value, "confidence")) == Some(ReadCost(v).value.confidence)
  {
    if v.Some? && v.value.Obj? {
      var f := v.value.fields;
      CostFieldsIff(f);
      CostFits(f, ReadCost(v).value);
      UnionEmpty(EvidenceFieldIssues(f),
                 SourceIssues(Text(Member(f, "source")), Text(Member(f, "confidence")), "pricing_version" in f));
      hide CostAccepted, CostFormed, EvidenceFieldIssues, SourceIssues;
    }
  }

  lemma CostMembers(c: CostEvidence)
    ensures var f := EvidenceJson(Some(c)).value.fields;
            && f.Keys <= EVIDENCE_KEYS
            && Member(f, "amount") == Some(Str(c.amount)) && Member(f, "currency") == Some(Str(c.currency))
            && Member(f, "source") == Some(Str(c.source)) && Member(f, "confidence") == Some(Str(c.confidence))
            && Member(f, "pricing_version") == if c.pricingVersion == "" then None else Some(Str(c.pricingVersion))
    ensures ReadCost(EvidenceJson(Some(c))) == Some(c)
  {
  }

  lemma CostFieldsIff(f: map<string, Value>)
    ensures EvidenceFieldIssues(f) == {} <==> CostAccepted(f)
  {
    KnownIff(f, EVIDENCE_KEYS, "cost_evidence");
    hide Decimals.PlainPositive, IsCurrency, UnknownKeys;
    FiveEmpty(UnknownKeys(f, EVIDENCE_KEYS, "cost_evidence"),
              Require(TextPositive(Member(f, "amount")), "cost_evidence.amount", "Must be a positive plain decimal string"),
              Require(TextMatches(Member(f, "currency"), IsCurrency), "cost_evidence.currency", "Invalid currency"),
              Require(TextIn(Member(f, "source"), SOURCES), "cost_evidence.source", "Invalid evidence source"),
              Require(TextIn(Member(f, "confidence"), CONFIDENCES), "cost_evidence.confidence", "Invalid confidence"));
  }

  // ---------------------------------------------------------------- identity

  predicate IdentityAccepted(f: map<string, Value>) {
    && f.Keys <= EVENT_KEYS && Text(Member(f, "schema_version")) == Some("2")
    && TextMatches(Member(f, "event_id"), IsUuid) && TextMatches(Member(f, "task_id"), IsUuid)
    && TextIn(Member(f, "component"), COMPONENTS)
    && ("retry_of" in f ==> TextMatches(Member(f, "retry_of"), IsUuid))
    && Stamp(Member(f, "occurred_at")).Instant? && Stamp(Member(f, "observed_at")).Instant?
  }

  lemma IdentityIff(f: map<string, Value>)
    ensures IdentityIssues(f) == {} <==> IdentityAccepted(f)
  {
    KnownIff(f, EVENT_KEYS, "");
    hide Timestamps.Parse, IsUuid, UnknownKeys;
    var retry := if "retry_of" in f then StringIssues(Member(f, "retry_of"), "retry_of", IsUuid) else {};
    FiveEmpty(UnknownKeys(f, EVENT_KEYS, ""),
              Require(Text(Member(f, "schema_version")) == Some("2"), "schema_version", "Must equal 2"),
              StringIssues(Member(f, "event_id"), "event_id", IsUuid), StringIssues(Member(f, "task_id"), "task_id", IsUuid),
              Require(TextIn(Member(f, "component"), COMPONENTS), "component", "Unknown attribution component"));
    UnionEmpty(NameIssues(f) - retry, retry);
    UnionEmpty(TimeIssues(Member(f, "occurred_at"), "occurred_at"), TimeIssues(Member(f, "observed_at"), "observed_at"));
    UnionEmpty(NameIssues(f), InstantIssues(f));
  }

  /** The record's own texts are the members of the object. */
  predicate HasTexts(f: map<string, Value>, d: EventV2) {
    forall k :: k in {"schema_version", "event_id", "task_id", "occurred_at", "observed_at", "component", "retry_of"} ==>
      Member(f, k) == EventMember(d, k)
  }

  lemma TextsIff(f: map<string, Value>, d: EventV2)
    ensures HasTexts(f, d) <==>
              && Member(f, "schema_version") == Some(Str(d.schemaVersion)) && Member(f, "event_id") == Some(Str(d.eventId))
              && Member(f, "task_id") == Some(Str(d.taskId)) && Member(f, "occurred_at") == Some(Str(d.occurredAt))
              && Member(f, "observed_at") == Some(Str(d.observedAt)) && Member(f, "component") == Some(Str(d.component))
              && Member(f, "retry_of") == if d.retryOf == "" then None else Some(Str(d.retryOf))
  {
  }

  lemma ReadTexts(f: map<string, Value>)
    ensures var d := ReadEvent(f);
            && d.schemaVersion == TextOf(Member(f, "schema_version")) && d.eventId == TextOf(Member(f, "event_id"))
            && d.taskId == TextOf(Member(f, "task_id")) && d.occurredAt == TextOf(Member(f, "occurred_at"))
            && d.observedAt == TextOf(Member(f, "observed_at")) && d.component == TextOf(Member(f, "component"))
            && d.retryOf == TextOf(Member(f, "retry_of"))
  {
  }

  lemma IdentityForm(f: map<string, Value>, d: EventV2)
    requires d == ReadEvent(f)
    ensures IdentityIssues(f) == {} <==> f.Keys <= EVENT_KEYS && HasTexts(f, d) && IdentityFormed(d)
  {
    IdentityIff(f);
    TextsIff(f, d);
    ReadTexts(f);
    EmptyTextIsNoTime();
    NoEmptyUuid();
    hide Timestamps.Parse, IsUuid, IdentityIssues, HasTexts, ReadEvent, EventMember;
  }

  lemma NoEmptyUuid()
    ensures !IsUuid("")
  {
  }

  // ---------------------------------------------------------------- the whole record

  lemma StateIff(s: Summary, d: EventV2)
    requires d.state in STATES && s.state == d.state && s.revision == d.revision as real && s.lines == |d.usage|
    requires (s.hasTime <==> TimesUsage(d.usage)) && (s.endOk <==> Closed(d.usagePeriod)) && (s.hasEnd <==> Closed(d.usagePeriod))
    requires s.costed == d.costEvidence.Some?
    requires s.confidence == if d.costEvidence.Some? then Some(d.costEvidence.value.confidence) else None
    ensures StateIssues(s) == {} <==> StateFormed(d)
  {
    hide TimesUsage, Closed;
    UnionEmpty(Require(ClosesTime(s), "usage_period.end_at", "Finalized time-based usage requires a closed usage period"),
               OneStateIssues(s));
    OneStateIff(s);
  }

  lemma OneStateIff(s: Summary)
    ensures OneStateIssues(s) == {} <==>
              && (s.state == "pending" ==> s.lines == 0 && !s.costed && !s.hasEnd)
              && (s.state == "provisional" ==> s.lines > 0 && s.confidence != Some("exact"))
              && (s.state == "final" ==> s.lines > 0)
              && (s.state == "voided" ==> s.revision != 1.0 && s.lines == 0 && !s.costed)
  {
    FourEmpty(Require(s.lines == 0, "usage", "Pending events cannot assert usage"),
              Require(!s.costed, "cost_evidence", "Pending events cannot assert cost"),
              Require(!s.hasEnd, "usage_period.end_at", "Pending events cannot close usage"), {});
    UnionEmpty(Require(s.lines > 0, "usage", "Provisional events require usage"),
               Require(s.confidence != Some("exact"), "cost_evidence.confidence", "Provisional cost cannot be exact"));
    UnionEmpty(Require(s.revision != 1.0, "lifecycle.revision", "Voided events must supersede an earlier revision"),
               Require(s.lines == 0 && !s.costed, "usage", "Voided events must be tombstones"));
  }

  /** The object holds exactly the members of the record. */
  predicate Holds(f: map<string, Value>, d: EventV2) {
    f.Keys <= EVENT_KEYS && forall k :: k in EVENT_KEYS ==> Member(f, k) == EventMember(d, k)
  }

  lemma HoldsIff(f: map<string, Value>, d: EventV2)
    ensures Obj(f) == EventJson(d) <==> Holds(f, d)
  {
    var g := EventJson(d).fields;
    forall k | k in EVENT_KEYS ensures g.Keys <= EVENT_KEYS && Member(g, k) == EventMember(d, k) { EventLookup(d, k); }
    assert "usage" in EVENT_KEYS;
    if Holds(f, d) { SameFields(f, g, EVENT_KEYS); }
  }

  lemma HoldsSections(f: map<string, Value>, d: EventV2)
    ensures Holds(f, d) <==>
              && f.Keys <= EVENT_KEYS && HasTexts(f, d)
              && Member(f, "provider") == Some(ProviderJson(d.provider)) && Member(f, "resource") == ResourceJson(d.resource)
              && Member(f, "lifecycle") == Some(LifecycleJson(d)) && Member(f, "usage_period") == PeriodJson(d.usagePeriod)
              && Member(f, "usage") == Some(UsageJson(d.usage)) && Member(f, "cost_evidence") == EvidenceJson(d.costEvidence)
  {
    hide ProviderJson, ResourceJson, LifecycleJson, PeriodJson, UsageJson, EvidenceJson;
    assert EVENT_KEYS == {"schema_version", "event_id", "task_id", "occurred_at", "observed_at", "component", "retry_of"}
                         + {"provider", "resource", "lifecycle", "usage_period", "usage", "cost_evidence"};
  }

  lemma SectionsForm(f: map<string, Value>, d: EventV2)
    requires d == ReadEvent(f)
    ensures FieldIssues(f) == {} <==>
              && Holds(f, d) && IdentityFormed(d) && ProviderFormed(d.provider) && ResourceFormed(d.resource)
              && LifecycleFormed(d.state, d.revision) && PeriodFormed(d.usagePeriod) && UsageFormed(d.usage)
              && CostFormed(d.costEvidence)
  {
    hide *;
    FieldsEmpty(f);
    ReadSections(f);
    HoldsSections(f, d);
    IdentityForm(f, d);
    ProviderForm(Member(f, "provider"));
    ResourceForm(Member(f, "resource"));
    LifecycleForm(Member(f, "lifecycle"), d);
    PeriodForm(Member(f, "usage_period"));
    UsageForm(Member(f, "usage"));
    CostForm(Member(f, "cost_evidence"));
  }

  lemma ReadSections(f: map<string, Value>)
    ensures var d := ReadEvent(f);
            && d.provider == ReadProvider(Member(f, "provider")) && d.resource == ReadResource(Member(f, "resource"))
            && d.state == TextOf(Inner(Member(f, "lifecycle"), "state")) && d.revision == ReadRevision(Member(f, "lifecycle"))
            && d.usagePeriod == ReadPeriod(Member(f, "usage_period")) && d.usage == ReadUsage(Member(f, "usage"))
            && d.costEvidence == ReadCost(Member(f, "cost_evidence"))
  {
  }

  lemma SummaryForm(f: map<string, Value>)
    requires FieldIssues(f) == {}
    ensures StateIssues(Summarize(f)) == {} <==> StateFormed(ReadEvent(f))
  {
    hide *;
    var d, s := ReadEvent(f), Summarize(f);
    FieldsEmpty(f);
    ReadSections(f);
    LifecycleForm(Member(f, "lifecycle"), d);
    PeriodForm(Member(f, "usage_period"));
    UsageForm(Member(f, "usage"));
    CostForm(Member(f, "cost_evidence"));
    SummaryOf(f);
    KnownState(d);
    CostRead(Member(f, "cost_evidence"));
    StateIff(s, d);
  }

  lemma KnownState(d: EventV2)
    ensures LifecycleFormed(d.state, d.revision) ==> d.state in STATES
  {
  }

  lemma CostRead(v: Option<Value>)
    ensures v.Some? <==> ReadCost(v).Some?
  {
  }

  lemma SummaryOf(f: map<string, Value>)
    ensures var s, usage, period, cost := Summarize(f), Lines(Member(f, "usage")), Member(f, "usage_period"), Member(f, "cost_evidence");
            && s.state == State(Member(f, "lifecycle")) && s.revision == Revision(Member(f, "lifecycle"))
            && s.lines == |usage| && s.hasTime == HasTime(usage) && s.endOk == EndOk(period)
            && s.hasEnd == (period.Some? && Field(period.value, "end_at").Some?) && s.costed == cost.Some?
            && s.confidence == if cost.Some? then Text(Field(cost.value, "confidence")) else None
  {
  }

  /**
   The contract as a data type: a value is accepted exactly when it is the JSON form of a
   well-formed record, which it determines.
   */
  lemma AcceptedForm(v: Value)
    ensures Accepted(v) <==> v.Obj? && WellFormed(ReadEvent(v.fields)) && v == EventJson(ReadEvent(v.fields))
  {
    if v.Obj? {
      var f, d := v.fields, ReadEvent(v.fields);
      HoldsIff(f, d);
      SectionsForm(f, d);
      UnionEmpty(FieldIssues(f), StateIssues(Summarize(f)));
      if FieldIssues(f) == {} { SummaryForm(f); }
      hide FieldIssues, StateIssues, Summarize, ReadEvent, EventJson, StateFormed;
    }
  }

  lemma UsageRead(usage: seq<UsageLine>)
    ensures ReadUsage(Some(UsageJson(usage))) == usage
  {
    forall i | 0 <= i < |usage| ensures ReadLine(UsageJson(usage).items[i]) == usage[i] { LineMembers(usage[i]); }
  }

  lemma PartsRead(d: EventV2)
    ensures ReadProvider(Some(ProviderJson(d.provider))) == d.provider
    ensures ReadResource(ResourceJson(d.resource)) == d.resource
    ensures ReadPeriod(PeriodJson(d.usagePeriod)) == d.usagePeriod
    ensures ReadCost(EvidenceJson(d.costEvidence)) == d.costEvidence
    ensures TextOf(Inner(Some(LifecycleJson(d)), "state")) == d.state && ReadRevision(Some(LifecycleJson(d))) == d.revision
  {
    ProviderMembers(d.provider);
    if d.usagePeriod.Some? { PeriodMembers(d.usagePeriod.value); }
    if d.costEvidence.Some? { CostMembers(d.costEvidence.value); }
  }

  /** Reading a written record gives the record back: its JSON form loses nothing. */
  lemma WrittenReadsBack(d: EventV2)
    ensures EventJson(d).Obj? && ReadEvent(EventJson(d).fields) == d
  {
    var f := EventJson(d).fields;
    assert Obj(f) == EventJson(d);
    hide *;
    HoldsIff(f, d);
    HoldsSections(f, d);
    TextsIff(f, d);
    PartsRead(d);
    UsageRead(d.usage);
    ReadTexts(f);
    ReadSections(f);
    TextOfStr();
  }

  lemma TextOfStr()
    ensures TextOf(None) == "" && forall s :: TextOf(Some(Str(s))) == s
  {
  }

  /** So a record is sent and accepted exactly when it is well-formed. */
  lemma WrittenAcceptedIff(d: EventV2)
    ensures Accepted(EventJson(d)) <==> WellFormed(d)
  {
    hide *;
    WrittenReadsBack(d);
    AcceptedForm(EventJson(d));
  }
}
