/**
 The attribution v2 contract: every rule a record can break, as a set of issues, and the imperative
 pass that reports them.
 */
module Contract {
  import opened Sequences
  import opened Json
  import opened Wire
  import Names
  import Decimals
  import Timestamps

  datatype Issue = Issue(path: string, message: string)

  const COMPONENTS: set<string> := {
    "llm", "telephony", "voice_platform", "speech_to_text", "text_to_speech", "realtime_transport", "recording",
    "post_call_analysis", "compute", "gpu", "network", "storage", "external"}
  const RESOURCE_TYPES: set<string> := {"model", "sku", "instance", "endpoint", "session", "other"}
  const STATES: set<string> := {"pending", "provisional", "final", "voided"}
  const SOURCES: set<string> := {"provider_reported", "sdk_catalog", "sdk_rate_registry", "manual"}
  const CONFIDENCES: set<string> := {"exact", "computed", "estimated", "unknown"}

  const PROVIDER_KEYS: set<string> := {"name", "service", "record_id", "region"}
  const RESOURCE_KEYS: set<string> := {"type", "id"}
  const LIFECYCLE_KEYS: set<string> := {"state", "revision"}
  const PERIOD_KEYS: set<string> := {"start_at", "end_at"}
  const LINE_KEYS: set<string> := {"metric", "quantity", "unit"}
  const EVIDENCE_KEYS: set<string> := {"amount", "currency", "source", "confidence", "pricing_version"}

  const MAX_REVISION := 2147483647
  const MAX_LINES := 32

  predicate IsHex(c: char) { '0' <= c <= '9' || 'a' <= c <= 'f' || 'A' <= c <= 'F' }

  /** Eight, four, four, four and twelve hexadecimal digits with dashes between. */
  predicate IsUuid(s: string) {
    |s| == 36 && forall i :: 0 <= i < 36 ==> if i in {8, 13, 18, 23} then s[i] == '-' else IsHex(s[i])
  }

  predicate IsCurrency(s: string) { |s| == 3 && forall i :: 0 <= i < 3 ==> 'A' <= s[i] <= 'Z' }

  predicate LengthWithin(s: string, max: nat) { 1 <= |s| <= max }

  function Require(ok: bool, path: string, message: string): set<Issue> {
    if ok then {} else {Issue(path, message)}
  }

  predicate TextIn(v: Option<Value>, allowed: set<string>) { Text(v).Some? && Text(v).value in allowed }

  predicate TextWithin(v: Option<Value>, max: nat) { Text(v).Some? && LengthWithin(Text(v).value, max) }

  predicate TextMatches(v: Option<Value>, pattern: string -> bool) {
    Text(v).Some? && Text(v).value != "" && pattern(Text(v).value)
  }

  predicate TextPositive(v: Option<Value>) { Text(v).Some? && Decimals.PlainPositive(Text(v).value) }

  function Under(prefix: string, key: string): string { if prefix == "" then key else prefix + "." + key }

  function UnknownIn(keys: set<string>, allowed: set<string>, prefix: string): set<Issue> {
    set k | k in keys && k !in allowed :: Issue(Under(prefix, k), "Unknown field")
  }

  function UnknownKeys(fields: map<string, Value>, allowed: set<string>, prefix: string): set<Issue> {
    UnknownIn(fields.Keys, allowed, prefix)
  }

  function StringIssues(v: Option<Value>, path: string, pattern: string -> bool): set<Issue> {
    Require(TextMatches(v, pattern), path, "Invalid string value")
  }

  function Stamp(v: Option<Value>): Timestamps.Stamp {
    if Text(v).None? then Timestamps.Malformed else Timestamps.Parse(Text(v).value)
  }

  function TimeIssues(v: Option<Value>, path: string): set<Issue> {
    match Stamp(v)
    case Malformed => {Issue(path, "Invalid string value")}
    case NotCalendar => {Issue(path, "Timestamp must be a valid ISO 8601 calendar instant")}
    case Instant(_) => {}
  }

  // ---------------------------------------------------------------- the rules, section by section

  function InstantIssues(f: map<string, Value>): set<Issue> {
    TimeIssues(Member(f, "occurred_at"), "occurred_at") + TimeIssues(Member(f, "observed_at"), "observed_at")
  }

  function NameIssues(f: map<string, Value>): set<Issue> {
    UnknownKeys(f, EVENT_KEYS, "")
    + Require(Text(Member(f, "schema_version")) == Some("2"), "schema_version", "Must equal 2")
    + StringIssues(Member(f, "event_id"), "event_id", IsUuid)
    + StringIssues(Member(f, "task_id"), "task_id", IsUuid)
    + Require(TextIn(Member(f, "component"), COMPONENTS), "component", "Unknown attribution component")
    + if "retry_of" in f then StringIssues(Member(f, "retry_of"), "retry_of", IsUuid) else {}
  }

  function IdentityIssues(f: map<string, Value>): set<Issue> { NameIssues(f) + InstantIssues(f) }

  function ProviderIssues(v: Option<Value>): set<Issue> {
    if v.None? || !v.value.Obj? then {Issue("provider", "Provider must be an object")}
    else
      var f := v.value.fields;
      UnknownKeys(f, PROVIDER_KEYS, "provider")
      + StringIssues(Member(f, "name"), "provider.name", Names.IsCanonical)
      + StringIssues(Member(f, "service"), "provider.service", Names.IsCanonical)
      + Require("record_id" in f ==> TextWithin(Member(f, "record_id"), 256), "provider.record_id", "Invalid provider record ID")
      + if "region" in f then StringIssues(Member(f, "region"), "provider.region", Names.IsCanonical) else {}
  }

  function ResourceIssues(v: Option<Value>): set<Issue> {
    if v.None? then {}
    else if !v.value.Obj? then {Issue("resource", "Resource must be an object")}
    else
      var f := v.value.fields;
      UnknownKeys(f, RESOURCE_KEYS, "resource")
      + Require(TextIn(Member(f, "type"), RESOURCE_TYPES), "resource.type", "Invalid resource type")
      + Require(TextWithin(Member(f, "id"), 256), "resource.id", "Invalid resource ID")
  }

  predicate RevisionOk(v: Option<Value>) {
    v.Some? && v.value.Num? && v.value.plain && v.value.n == v.value.n.Floor as real && 1.0 <= v.value.n <= MAX_REVISION as real
  }

  function LifecycleIssues(v: Option<Value>): set<Issue> {
    if v.None? || !v.value.Obj? then {Issue("lifecycle", "Lifecycle must be an object")}
    else
      var f := v.value.fields;
      UnknownKeys(f, LIFECYCLE_KEYS, "lifecycle")
      + Require(TextIn(Member(f, "state"), STATES), "lifecycle.state", "Invalid lifecycle state")
      + Require(RevisionOk(Member(f, "revision")), "lifecycle.revision", "Revision must be a positive integer")
  }

  /** The state the cross-field rules use: empty when it is not a known one. */
  function State(v: Option<Value>): string {
    if v.Some? && TextIn(Field(v.value, "state"), STATES) then Text(Field(v.value, "state")).value else ""
  }

  function Revision(v: Option<Value>): real {
    if v.Some? && RevisionOk(Field(v.value, "revision")) then Field(v.value, "revision").value.n else 0.0
  }

  function PeriodIssues(v: Option<Value>): set<Issue> {
    if v.None? then {}
    else if !v.value.Obj? then {Issue("usage_period", "Usage period must be an object")}
    else
      var f := v.value.fields;
      var start, end := Stamp(Member(f, "start_at")), Stamp(Member(f, "end_at"));
      UnknownKeys(f, PERIOD_KEYS, "usage_period")
      + TimeIssues(Member(f, "start_at"), "usage_period.start_at")
      + (if "end_at" in f then TimeIssues(Member(f, "end_at"), "usage_period.end_at") else {})
      + Require(start.Instant? && end.Instant? ==> start.t <= end.t, "usage_period.end_at", "End cannot precede start")
  }

  /** Whether the period has a readable end. */
  predicate EndOk(v: Option<Value>) { v.Some? && Stamp(Field(v.value, "end_at")).Instant? }

  /** A usage line's metric, when it is one the contract knows. */
  function Metric(line: Value): Option<string> {
    if TextIn(Field(line, "metric"), UNIT_BY_METRIC.Keys) then Text(Field(line, "metric")) else None
  }

  predicate RepeatsMetric(usage: seq<Value>, i: nat)
    requires i < |usage|
  {
    exists j :: 0 <= j < i && Metric(usage[j]) == Metric(usage[i])
  }

  function Unit(line: Value): Option<string> {
    if TextIn(Field(line, "unit"), UNIT_BY_METRIC.Values) then Text(Field(line, "unit")) else None
  }

  predicate IsTime(line: Value) { Unit(line).Some? && Names.HasSuffix(Unit(line).value, "Seconds") }

  predicate HasTime(usage: seq<Value>) { exists i :: 0 <= i < |usage| && IsTime(usage[i]) }

  function LinePath(i: nat): string { "usage." + Decimals.Digits(i) }

  function LineRules(prefix: string, metric: Option<string>, repeated: bool, positive: bool, unit: Option<string>): set<Issue> {
    Require(metric.Some?, prefix + ".metric", "Invalid usage metric")
    + Require(metric.Some? ==> !repeated, prefix + ".metric", "Duplicate usage metric")
    + Require(positive, prefix + ".quantity", "Must be a positive plain decimal string")
    + Require(unit.Some?, prefix + ".unit", "Invalid usage unit")
    + Require(metric.Some? && unit.Some? ==> CanonicalUnit(metric.value, unit.value),
              prefix + ".unit", "Metric must use its canonical unit")
  }

  predicate CanonicalUnit(metric: string, unit: string) { metric in UNIT_BY_METRIC && UNIT_BY_METRIC[metric] == unit }

  function LineIssues(usage: seq<Value>, i: nat): set<Issue>
    requires i < |usage|
  {
    if !usage[i].Obj? then {Issue(LinePath(i), "Usage line must be an object")}
    else
      UnknownKeys(usage[i].fields, LINE_KEYS, LinePath(i))
      + LineRules(LinePath(i), Metric(usage[i]), RepeatsMetric(usage, i), TextPositive(Field(usage[i], "quantity")), Unit(usage[i]))
  }

  /** The union of f(0), ..., f(n - 1). */
  function Union(f: nat -> set<Issue>, n: nat): set<Issue> {
    if n == 0 then {} else Union(f, n - 1) + f(n - 1)
  }

  function IssuesAt(usage: seq<Value>): nat -> set<Issue> {
    (i: nat) => if i < |usage| then LineIssues(usage, i) else {}
  }

  function UsageIssues(v: Option<Value>): set<Issue> {
    if v.None? || !v.value.Arr? then {Issue("usage", "Usage must be an array")}
    else
      Require(|v.value.items| <= MAX_LINES, "usage", "At most 32 usage lines are allowed")
      + Union(IssuesAt(v.value.items), |v.value.items|)
  }

  function Lines(v: Option<Value>): seq<Value> { if v.Some? && v.value.Arr? then v.value.items else [] }

  predicate Derived(source: Option<string>) { source == Some("sdk_catalog") || source == Some("sdk_rate_registry") }

  /** Rules that relate the source of a cost to its confidence and version. */
  function SourceIssues(source: Option<string>, confidence: Option<string>, versioned: bool): set<Issue> {
    Require((source == Some("provider_reported") && confidence.Some? && confidence.value in CONFIDENCES)
            ==> (confidence.value == "exact" || confidence.value == "estimated"),
            "cost_evidence.confidence", "Provider-reported cost must be exact or estimated")
    + Require(Derived(source) ==> confidence != Some("exact"), "cost_evidence.confidence", "SDK-derived cost cannot be exact")
    + Require(Derived(source) ==> versioned, "cost_evidence.pricing_version", "SDK-derived cost requires pricing_version")
  }

  function EvidenceFieldIssues(f: map<string, Value>): set<Issue> {
    UnknownKeys(f, EVIDENCE_KEYS, "cost_evidence")
    + Require(TextPositive(Member(f, "amount")), "cost_evidence.amount", "Must be a positive plain decimal string")
    + Require(TextMatches(Member(f, "currency"), IsCurrency), "cost_evidence.currency", "Invalid currency")
    + Require(TextIn(Member(f, "source"), SOURCES), "cost_evidence.source", "Invalid evidence source")
    + Require(TextIn(Member(f, "confidence"), CONFIDENCES), "cost_evidence.confidence", "Invalid confidence")
    + Require("pricing_version" in f ==> TextWithin(Member(f, "pricing_version"), 128),
              "cost_evidence.pricing_version", "Invalid pricing version")
  }

  function EvidenceIssues(v: Option<Value>): set<Issue> {
    if v.None? then {}
    else if !v.value.Obj? then {Issue("cost_evidence", "Cost evidence must be an object")}
    else
      var f := v.value.fields;
      EvidenceFieldIssues(f)
      + SourceIssues(Text(Member(f, "source")), Text(Member(f, "confidence")), "pricing_version" in f)
  }

  /** What the cross-field rules look at. */
  datatype Summary = Summary(state: string, revision: real, lines: nat, hasTime: bool, endOk: bool,
                             hasEnd: bool, costed: bool, confidence: Option<string>)

  function Summarize(f: map<string, Value>): Summary {
    var usage, period, cost := Lines(Member(f, "usage")), Member(f, "usage_period"), Member(f, "cost_evidence");
    Summary(State(Member(f, "lifecycle")), Revision(Member(f, "lifecycle")), |usage|, HasTime(usage), EndOk(period),
            period.Some? && Field(period.value, "end_at").Some?, cost.Some?,
            if cost.Some? then Text(Field(cost.value, "confidence")) else None)
  }

  function PendingIssues(s: Summary): set<Issue> {
    Require(s.lines == 0, "usage", "Pending events cannot assert usage")
    + Require(!s.costed, "cost_evidence", "Pending events cannot assert cost")
    + Require(!s.hasEnd, "usage_period.end_at", "Pending events cannot close usage")
  }

  function ProvisionalIssues(s: Summary): set<Issue> {
    Require(s.lines > 0, "usage", "Provisional events require usage")
    + Require(s.confidence != Some("exact"), "cost_evidence.confidence", "Provisional cost cannot be exact")
  }

  function VoidedIssues(s: Summary): set<Issue> {
    Require(s.revision != 1.0, "lifecycle.revision", "Voided events must supersede an earlier revision")
    + Require(s.lines == 0 && !s.costed, "usage", "Voided events must be tombstones")
  }

  function OneStateIssues(s: Summary): set<Issue> {
    if s.state == "pending" then PendingIssues(s)
    else if s.state == "provisional" then ProvisionalIssues(s)
    else if s.state == "final" then Require(s.lines > 0, "usage", "Final events require usage")
    else if s.state == "voided" then VoidedIssues(s)
    else {}
  }

  predicate ClosesTime(s: Summary) { s.hasTime && (s.state == "provisional" || s.state == "final") ==> s.endOk }

  /** Rules that relate the lifecycle to usage, period and cost. */
  function StateIssues(s: Summary): set<Issue> {
    Require(ClosesTime(s), "usage_period.end_at", "Finalized time-based usage requires a closed usage period")
    + OneStateIssues(s)
  }

  function FieldIssues(f: map<string, Value>): set<Issue> {
    IdentityIssues(f) + ProviderIssues(Member(f, "provider")) + ResourceIssues(Member(f, "resource"))
    + LifecycleIssues(Member(f, "lifecycle")) + PeriodIssues(Member(f, "usage_period"))
    + UsageIssues(Member(f, "usage")) + EvidenceIssues(Member(f, "cost_evidence"))
  }

  /** Every rule the record breaks. */
  function Issues(v: Value): set<Issue> {
    if !v.Obj? then {Issue("", "Event must be an object")}
    else
      var f := v.fields;
      FieldIssues(f) + StateIssues(Summarize(f))
  }

  predicate Accepted(v: Value) { Issues(v) == {} }

  // ---------------------------------------------------------------- the pass

  function AsSet(issues: seq<Issue>): set<Issue> { set i | i in issues }

  lemma AsSetConcat(a: seq<Issue>, b: seq<Issue>)
    ensures AsSet(a + b) == AsSet(a) + AsSet(b)
  {
  }

  method Add(issues: seq<Issue>, ok: bool, path: string, message: string) returns (more: seq<Issue>)
    ensures AsSet(more) == AsSet(issues) + Require(ok, path, message)
  {
    more := if ok then issues else issues + [Issue(path, message)];
  }

  lemma UnknownStep(keys: set<string>, k: string, allowed: set<string>, prefix: string)
    ensures UnknownIn(keys + {k}, allowed, prefix)
            == UnknownIn(keys, allowed, prefix) + if k in allowed then {} else {Issue(Under(prefix, k), "Unknown field")}
  {
  }

  method ScanKeys(fields: map<string, Value>, allowed: set<string>, prefix: string) returns (found: seq<Issue>)
    ensures AsSet(found) == UnknownKeys(fields, allowed, prefix)
  {
    found := [];
    var keys := fields.Keys;
    ghost var done: set<string> := {};
    while keys != {}
      invariant keys + done == fields.Keys
      invariant AsSet(found) == UnknownIn(done, allowed, prefix)
      decreases |keys|
    {
      var k :| k in keys;
      UnknownStep(done, k, allowed, prefix);
      if k !in allowed { found := found + [Issue(Under(prefix, k), "Unknown field")]; }
      done := done + {k};
      keys := keys - {k};
    }
    assert done == fields.Keys;
  }

  method ValidString(issues: seq<Issue>, v: Option<Value>, path: string, pattern: string -> bool) returns (more: seq<Issue>)
    ensures AsSet(more) == AsSet(issues) + StringIssues(v, path, pattern)
  {
    more := Add(issues, TextMatches(v, pattern), path, "Invalid string value");
  }

  method ParseTimestamp(issues: seq<Issue>, v: Option<Value>, path: string) returns (more: seq<Issue>, stamp: Timestamps.Stamp)
    ensures AsSet(more) == AsSet(issues) + TimeIssues(v, path) && stamp == Stamp(v)
  {
    stamp := Stamp(v);
    match stamp
    case Malformed => more := issues + [Issue(path, "Invalid string value")];
    case NotCalendar => more := issues + [Issue(path, "Timestamp must be a valid ISO 8601 calendar instant")];
    case Instant(_) => more := issues;
  }

  method CheckIdentity(f: map<string, Value>) returns (issues: seq<Issue>)
    ensures AsSet(issues) == IdentityIssues(f)
  {
    issues := CheckNames(f);
    var found, stamp := ParseTimestamp([], Member(f, "occurred_at"), "occurred_at");
    found, stamp := ParseTimestamp(found, Member(f, "observed_at"), "observed_at");
    assert AsSet(found) == InstantIssues(f);
    issues := Append(issues, found);
  }

  method CheckNames(f: map<string, Value>) returns (issues: seq<Issue>)
    ensures AsSet(issues) == NameIssues(f)
  {
    issues := ScanKeys(f, EVENT_KEYS, "");
    issues := Add(issues, Text(Member(f, "schema_version")) == Some("2"), "schema_version", "Must equal 2");
    issues := ValidString(issues, Member(f, "event_id"), "event_id", IsUuid);
    issues := ValidString(issues, Member(f, "task_id"), "task_id", IsUuid);
    issues := Add(issues, TextIn(Member(f, "component"), COMPONENTS), "component", "Unknown attribution component");
    if "retry_of" in f { issues := ValidString(issues, Member(f, "retry_of"), "retry_of", IsUuid); }
  }

  method CheckProvider(v: Option<Value>) returns (issues: seq<Issue>)
    ensures AsSet(issues) == ProviderIssues(v)
  {
    if v.None? || !v.value.Obj? { return [Issue("provider", "Provider must be an object")]; }
    var f := v.value.fields;
    issues := ScanKeys(f, PROVIDER_KEYS, "provider");
    issues := ValidString(issues, Member(f, "name"), "provider.name", Names.IsCanonical);
    issues := ValidString(issues, Member(f, "service"), "provider.service", Names.IsCanonical);
    issues := Add(issues, "record_id" in f ==> TextWithin(Member(f, "record_id"), 256),
                  "provider.record_id", "Invalid provider record ID");
    if "region" in f { issues := ValidString(issues, Member(f, "region"), "provider.region", Names.IsCanonical); }
  }

  method CheckResource(v: Option<Value>) returns (issues: seq<Issue>)
    ensures AsSet(issues) == ResourceIssues(v)
  {
    if v.None? { return []; }
    if !v.value.Obj? { return [Issue("resource", "Resource must be an object")]; }
    var f := v.value.fields;
    issues := ScanKeys(f, RESOURCE_KEYS, "resource");
    issues := Add(issues, TextIn(Member(f, "type"), RESOURCE_TYPES), "resource.type", "Invalid resource type");
    issues := Add(issues, TextWithin(Member(f, "id"), 256), "resource.id", "Invalid resource ID");
  }

  method CheckLifecycle(v: Option<Value>) returns (issues: seq<Issue>, state: string, revision: real)
    ensures AsSet(issues) == LifecycleIssues(v) && state == State(v) && revision == Revision(v)
  {
    state, revision := "", 0.0;
    if v.None? || !v.value.Obj? { return [Issue("lifecycle", "Lifecycle must be an object")], state, revision; }
    var f := v.value.fields;
    issues := ScanKeys(f, LIFECYCLE_KEYS, "lifecycle");
    issues := Add(issues, TextIn(Member(f, "state"), STATES), "lifecycle.state", "Invalid lifecycle state");
    issues := Add(issues, RevisionOk(Member(f, "revision")), "lifecycle.revision", "Revision must be a positive integer");
    if TextIn(Member(f, "state"), STATES) { state := f["state"].s; }
    if RevisionOk(Member(f, "revision")) { revision := f["revision"].n; }
  }

  method CheckPeriod(v: Option<Value>) returns (issues: seq<Issue>, endOk: bool)
    ensures AsSet(issues) == PeriodIssues(v) && endOk == EndOk(v)
  {
    endOk := false;
    if v.None? { return [], false; }
    if !v.value.Obj? { return [Issue("usage_period", "Usage period must be an object")], false; }
    var f := v.value.fields;
    var start, end: Timestamps.Stamp := Timestamps.Malformed, Timestamps.Malformed;
    issues := ScanKeys(f, PERIOD_KEYS, "usage_period");
    issues, start := ParseTimestamp(issues, Member(f, "start_at"), "usage_period.start_at");
    if "end_at" in f { issues, end := ParseTimestamp(issues, Member(f, "end_at"), "usage_period.end_at"); }
    endOk := end.Instant?;
    issues := Add(issues, start.Instant? && end.Instant? ==> start.t <= end.t, "usage_period.end_at", "End cannot precede start");
  }

  /** Metrics of the lines read so far. */
  ghost predicate SeenMetrics(usage: seq<Value>, n: nat, seen: set<string>)
    requires n <= |usage|
  {
    forall m :: m in seen <==> exists j :: 0 <= j < n && Metric(usage[j]) == Some(m)
  }

  method CheckLine(usage: seq<Value>, i: nat, seen: set<string>) returns (issues: seq<Issue>, seen': set<string>)
    requires i < |usage| && SeenMetrics(usage, i, seen)
    ensures AsSet(issues) == LineIssues(usage, i) && SeenMetrics(usage, i + 1, seen')
  {
    seen' := seen;
    if !usage[i].Obj? { return [Issue(LinePath(i), "Usage line must be an object")], seen'; }
    var metric, unit := Metric(usage[i]), Unit(usage[i]);
    var repeated := metric.Some? && metric.value in seen;
    if metric.Some? { seen' := seen + {metric.value}; }
    issues := ScanKeys(usage[i].fields, LINE_KEYS, LinePath(i));
    var found := CheckLineRules(LinePath(i), metric, repeated, TextPositive(Field(usage[i], "quantity")), unit);
    issues := Append(issues, found);
  }

  method CheckLineRules(prefix: string, metric: Option<string>, repeated: bool, positive: bool, unit: Option<string>)
    returns (issues: seq<Issue>)
    ensures forall r: bool :: (metric.Some? ==> r == repeated) ==> AsSet(issues) == LineRules(prefix, metric, r, positive, unit)
  {
    issues := if metric.Some? then [] else [Issue(prefix + ".metric", "Invalid usage metric")];
    issues := Add(issues, metric.Some? ==> !repeated, prefix + ".metric", "Duplicate usage metric");
    issues := Add(issues, positive, prefix + ".quantity", "Must be a positive plain decimal string");
    issues := Add(issues, unit.Some?, prefix + ".unit", "Invalid usage unit");
    issues := Add(issues, metric.Some? && unit.Some? ==> CanonicalUnit(metric.value, unit.value),
                  prefix + ".unit", "Metric must use its canonical unit");
  }

  /** One pass over the usage lines, remembering metrics and whether any measures time. */
  method CheckUsage(v: Option<Value>) returns (issues: seq<Issue>, hasTime: bool)
    ensures AsSet(issues) == UsageIssues(v) && hasTime == HasTime(Lines(v))
  {
    hide LineIssues;
    hasTime := false;
    if v.None? || !v.value.Arr? { return [Issue("usage", "Usage must be an array")], false; }
    var usage := v.value.items;
    issues := Add([], |usage| <= MAX_LINES, "usage", "At most 32 usage lines are allowed");
    ghost var first := issues;
    var seen: set<string> := {};
    for i := 0 to |usage|
      invariant AsSet(issues) == AsSet(first) + Union(IssuesAt(usage), i)
      invariant SeenMetrics(usage, i, seen)
      invariant hasTime <==> exists j :: 0 <= j < i && IsTime(usage[j])
    {
      var found;
      found, seen := CheckLine(usage, i, seen);
      AsSetConcat(issues, found);
      issues := issues + found;
      hasTime := hasTime || IsTime(usage[i]);
    }
  }

  method CheckEvidence(v: Option<Value>) returns (issues: seq<Issue>)
    ensures AsSet(issues) == EvidenceIssues(v)
  {
    if v.None? { return []; }
    if !v.value.Obj? { return [Issue("cost_evidence", "Cost evidence must be an object")]; }
    var f := v.value.fields;
    var fields := CheckEvidenceFields(f);
    var rules := CheckSource(Text(Member(f, "source")), Text(Member(f, "confidence")), "pricing_version" in f);
    issues := Append(fields, rules);
  }

  method CheckEvidenceFields(f: map<string, Value>) returns (issues: seq<Issue>)
    ensures AsSet(issues) == EvidenceFieldIssues(f)
  {
    issues := ScanKeys(f, EVIDENCE_KEYS, "cost_evidence");
    issues := Add(issues, TextPositive(Member(f, "amount")), "cost_evidence.amount", "Must be a positive plain decimal string");
    issues := Add(issues, TextMatches(Member(f, "currency"), IsCurrency), "cost_evidence.currency", "Invalid currency");
    issues := Add(issues, TextIn(Member(f, "source"), SOURCES), "cost_evidence.source", "Invalid evidence source");
    issues := Add(issues, TextIn(Member(f, "confidence"), CONFIDENCES), "cost_evidence.confidence", "Invalid confidence");
    issues := Add(issues, "pricing_version" in f ==> TextWithin(Member(f, "pricing_version"), 128),
                  "cost_evidence.pricing_version", "Invalid pricing version");
  }

  method CheckSource(source: Option<string>, confidence: Option<string>, versioned: bool) returns (issues: seq<Issue>)
    ensures AsSet(issues) == SourceIssues(source, confidence, versioned)
  {
    issues := [];
    if source == Some("provider_reported") && confidence.Some? && confidence.value in CONFIDENCES
       && confidence.value != "exact" && confidence.value != "estimated" {
      issues := issues + [Issue("cost_evidence.confidence", "Provider-reported cost must be exact or estimated")];
    }
    if Derived(source) && confidence == Some("exact") {
      issues := issues + [Issue("cost_evidence.confidence", "SDK-derived cost cannot be exact")];
    }
    if Derived(source) && !versioned {
      issues := issues + [Issue("cost_evidence.pricing_version", "SDK-derived cost requires pricing_version")];
    }
  }

  method CheckState(s: Summary) returns (issues: seq<Issue>)
    ensures AsSet(issues) == StateIssues(s)
  {
    issues := if ClosesTime(s) then []
      else [Issue("usage_period.end_at", "Finalized time-based usage requires a closed usage period")];
    var found := CheckOneState(s);
    issues := Append(issues, found);
  }

  method CheckOneState(s: Summary) returns (issues: seq<Issue>)
    ensures AsSet(issues) == OneStateIssues(s)
  {
    issues := [];
    match s.state {
      case "pending" =>
        issues := Add(issues, s.lines == 0, "usage", "Pending events cannot assert usage");
        issues := Add(issues, !s.costed, "cost_evidence", "Pending events cannot assert cost");
        issues := Add(issues, !s.hasEnd, "usage_period.end_at", "Pending events cannot close usage");
      case "provisional" =>
        issues := Add(issues, s.lines > 0, "usage", "Provisional events require usage");
        issues := Add(issues, s.confidence != Some("exact"), "cost_evidence.confidence", "Provisional cost cannot be exact");
      case "final" =>
        issues := Add(issues, s.lines > 0, "usage", "Final events require usage");
      case "voided" =>
        issues := Add(issues, s.revision != 1.0, "lifecycle.revision", "Voided events must supersede an earlier revision");
        issues := Add(issues, s.lines == 0 && !s.costed, "usage", "Voided events must be tombstones");
      case _ =>
    }
  }

  method Append(issues: seq<Issue>, found: seq<Issue>) returns (more: seq<Issue>)
    ensures AsSet(more) == AsSet(issues) + AsSet(found)
  {
    AsSetConcat(issues, found);
    more := issues + found;
  }

  /** Reports every broken rule and no other; the record is accepted when nothing is reported. */
  method ValidateEventV2(v: Value) returns (success: bool, issues: seq<Issue>)
    ensures AsSet(issues) == Issues(v)
    ensures success <==> Accepted(v)
  {
    hide FieldIssues, StateIssues;
    if v.Obj? {
      issues := CheckEvent(v.fields);
    } else {
      issues := [Issue("", "Event must be an object")];
    }
    success := issues == [];
    assert issues != [] ==> issues[0] in AsSet(issues);
  }

  method CheckEvent(f: map<string, Value>) returns (issues: seq<Issue>)
    ensures AsSet(issues) == Issues(Obj(f))
  {
    var found, summary := CheckFields(f);
    var cross := CheckState(summary);
    issues := Append(found, cross);
  }

  method CheckFields(f: map<string, Value>) returns (issues: seq<Issue>, summary: Summary)
    ensures AsSet(issues) == FieldIssues(f) && summary == Summarize(f)
  {
    hide Stamp, LineIssues, Union;
    var identity := CheckIdentity(f);
    var provider := CheckProvider(Member(f, "provider"));
    var resource := CheckResource(Member(f, "resource"));
    var lifecycle, state, revision := CheckLifecycle(Member(f, "lifecycle"));
    var period, endOk := CheckPeriod(Member(f, "usage_period"));
    var usage, hasTime := CheckUsage(Member(f, "usage"));
    var evidence := CheckEvidence(Member(f, "cost_evidence"));
    issues := Collect([identity, provider, resource, lifecycle, period, usage, evidence]);
    var end, cost := Member(f, "usage_period"), Member(f, "cost_evidence");
    summary := Summary(state, revision, |Lines(Member(f, "usage"))|, hasTime, endOk,
                       end.Some? && Field(end.value, "end_at").Some?, cost.Some?,
                       if cost.Some? then Text(Field(cost.value, "confidence")) else None);
  }

  method Collect(parts: seq<seq<Issue>>) returns (issues: seq<Issue>)
    requires |parts| == 7
    ensures AsSet(issues) == AsSet(parts[0]) + AsSet(parts[1]) + AsSet(parts[2]) + AsSet(parts[3]) + AsSet(parts[4])
                             + AsSet(parts[5]) + AsSet(parts[6])
  {
    issues := Append(parts[0], parts[1]);
    issues := Append(issues, parts[2]);
    issues := Append(issues, parts[3]);
    issues := Append(issues, parts[4]);
    issues := Append(issues, parts[5]);
    issues := Append(issues, parts[6]);
  }
}
