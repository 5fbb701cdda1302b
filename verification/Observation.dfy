/** Attribution v3 observations. */
module Observation {
  import opened Sequences
  import opened Decimals
  import opened Names
  import opened Wire
  import opened Attribution
  import Contract
  import Json
  import Lineage
  import AttributionContract
  import Timestamps

  datatype DimensionValue = TextValue(s: string) | FlagValue(b: bool) | IntegerValue(s: string) | DecimalValue(s: string)

  datatype Dimension = Dimension(key: string, value: DimensionValue)

  // ---------------------------------------------------------------- caller-supplied dimensions

  const MAX_DIMENSIONS := 24

  function Unsigned(s: string): string { if HasPrefix(s, "-") then s[1..] else s }

  /** ^-?(?:0|[1-9]\d{0,25})$ */
  predicate IsInteger(s: string) {
    var u := Unsigned(s);
    AllDigits(u) && NoLeadingZero(u) && |u| <= 26
  }

  /** ^-?(?:0|[1-9]\d{0,25})(?:\.\d{1,12})?$ */
  predicate IsDecimal(s: string) {
    var u := Unsigned(s);
    var p := PointAt(u);
    && p <= |u| && AllDigits(u[..p]) && NoLeadingZero(u[..p]) && p <= 26
    && (p < |u| ==> AllDigits(u[p + 1..]) && 1 <= |u| - p - 1 <= MAX_PLACES)
  }

  function ParseValue(v: Option<Json.Value>): Option<DimensionValue> {
    if v.None? || !v.value.Obj? then None
    else
      var kind, value := Json.Text(Json.Field(v.value, "type")), Json.Field(v.value, "value");
      var text := Json.Text(value);
      if kind == Some("string") && text.Some? && 0 < |text.value| <= 256 then Some(TextValue(text.value))
      else if kind == Some("boolean") && value.Some? && value.value.Bool? then Some(FlagValue(value.value.b))
      else if kind == Some("integer") && text.Some? && IsInteger(text.value) then Some(IntegerValue(text.value))
      else if kind == Some("decimal") && text.Some? && IsDecimal(text.value) then Some(DecimalValue(text.value))
      else None
  }

  function ParseDimension(v: Json.Value): Option<Dimension> {
    var key, value := Json.Text(Json.Field(v, "key")), ParseValue(Json.Field(v, "value"));
    if key.None? || !IsCanonical(key.value) || value.None? then None else Some(Dimension(key.value, value.value))
  }

  /** The members of a dimension's JSON form. */
  ghost predicate HoldsValue(v: Json.Value, kind: string, value: Json.Value) {
    v.Obj? && Json.Member(v.fields, "type") == Some(Json.Str(kind)) && Json.Member(v.fields, "value") == Some(value)
  }

  ghost predicate HoldsDimension(v: Json.Value, d: Dimension) {
    && v.Obj? && Json.Member(v.fields, "key") == Some(Json.Str(d.key)) && "value" in v.fields
    && match d.value
       case TextValue(s) => HoldsValue(v.fields["value"], "string", Json.Str(s)) && 1 <= |s| <= 256
       case FlagValue(b) => HoldsValue(v.fields["value"], "boolean", Json.Bool(b))
       case IntegerValue(s) => HoldsValue(v.fields["value"], "integer", Json.Str(s)) && IsInteger(s)
       case DecimalValue(s) => HoldsValue(v.fields["value"], "decimal", Json.Str(s)) && IsDecimal(s)
  }

  /** Reading a dimension succeeds exactly on the JSON form of one with a canonical key and a value of its kind. */
  lemma DimensionForm(v: Json.Value, d: Dimension)
    ensures ParseDimension(v) == Some(d) <==> HoldsDimension(v, d) && IsCanonical(d.key)
  {
    hide IsInteger, IsDecimal, IsCanonical;
  }

  /** At most 24 of them, all well formed, read in order; an absent or null list is empty. */
  lemma DimensionsForm(raw: Option<Json.Value>, dims: seq<Dimension>)
    ensures ExplicitDimensions(raw) == Some(dims) <==>
              if raw.None? || raw.value.Null? then dims == []
              else raw.value.Arr? && |raw.value.items| == |dims| <= 24
                   && forall i :: 0 <= i < |dims| ==> HoldsDimension(raw.value.items[i], dims[i]) && IsCanonical(dims[i].key)
  {
    hide ParseDimension, HoldsDimension, IsCanonical;
    if raw.Some? && raw.value.Arr? { ParseAllForm(raw.value.items, dims); }
  }

  lemma {:induction false} ParseAllForm(items: seq<Json.Value>, dims: seq<Dimension>)
    ensures ParseAll(items) == Some(dims) <==>
              |items| == |dims|
              && forall i :: 0 <= i < |dims| ==> HoldsDimension(items[i], dims[i]) && IsCanonical(dims[i].key)
  {
    hide ParseDimension, HoldsDimension, IsCanonical;
    if items != [] && dims != [] {
      var n := |items| - 1;
      ParseAllForm(items[..n], dims[..|dims| - 1]);
      DimensionForm(items[n], dims[|dims| - 1]);
      assert dims == dims[..|dims| - 1] + [dims[|dims| - 1]];
    }
  }

  function ParseAll(items: seq<Json.Value>): Option<seq<Dimension>> {
    if items == [] then Some([])
    else
      var init, last := ParseAll(items[..|items| - 1]), ParseDimension(items[|items| - 1]);
      if init.None? || last.None? then None else Some(init.value + [last.value])
  }

  /** Absent dimensions are none at all; anything malformed spoils the observation. */
  function ExplicitDimensions(raw: Option<Json.Value>): Option<seq<Dimension>> {
    match raw
    case None => Some([])
    case Some(Null) => Some([])
    case Some(Arr(items)) => if |items| > MAX_DIMENSIONS then None else ParseAll(items)
    case Some(_) => None
  }

  method ExplicitV3Dimensions(raw: Option<Json.Value>) returns (r: Option<seq<Dimension>>)
    ensures r == ExplicitDimensions(raw)
  {
    if raw.None? || raw.value.Null? { return Some([]); }
    if !raw.value.Arr? || |raw.value.items| > MAX_DIMENSIONS { return None; }
    var items := raw.value.items;
    var dimensions: seq<Dimension> := [];
    for i := 0 to |items|
      invariant ParseAll(items[..i]) == Some(dimensions)
    {
      assert items[..i + 1][..i] == items[..i];
      var d := ParseDimension(items[i]);
      if d.None? {
        NoneSpoils(items, i + 1);
        return None;
      }
      dimensions := dimensions + [d.value];
    }
    assert items[..|items|] == items;
    r := Some(dimensions);
  }

  lemma {:induction false} NoneSpoils(items: seq<Json.Value>, i: nat)
    requires i <= |items| && ParseAll(items[..i]).None?
    ensures ParseAll(items).None?
    decreases |items| - i
  {
    if i == |items| {
      assert items[..i] == items;
    } else {
      assert items[..i + 1][..i] == items[..i];
      NoneSpoils(items, i + 1);
    }
  }

  // ---------------------------------------------------------------- what is measured

  datatype Line = Line(id: nat, metric: string, quantity: Decimal, unit: string)

  /** A usage line before it gets its identifier. */
  datatype UnitMeasure = UnitMeasure(metric: string, quantity: Decimal, unit: string)

  datatype Mapped = Mapped(component: string, usage: seq<UnitMeasure>, duration: Decimal, dimensions: seq<Dimension>)

  function AppendUnit(usage: seq<UnitMeasure>, metric: string, q: Option<Decimal>, unit: string): seq<UnitMeasure> {
    var p := if q.Some? then PositiveQuantity(q.value) else None;
    if p.Some? then usage + [UnitMeasure(metric, p.value, unit)] else usage
  }

  function SignalUsage(read: Reader, e: Event): seq<UnitMeasure> {
    var a := AppendUnit([], "gpu.sm_utilization_percent", DecimalDetail(read, e.details, ["sm_util_pct"]), "Percent");
    var b := AppendUnit(a, "gpu.memory_utilization_percent", DecimalDetail(read, e.details, ["mem_util_pct"]), "Percent");
    var c := AppendUnit(b, "gpu.vram_peak_bytes", DecimalDetail(read, e.details, ["vram_used_peak_bytes"]), "Bytes");
    var d := AppendUnit(c, "gpu.vram_capacity_bytes", DecimalDetail(read, e.details, ["vram_total_bytes"]), "Bytes");
    var f := AppendUnit(d, "gpu.process_count", DecimalDetail(read, e.details, ["process_count"]), "Processes");
    AppendUnit(f, "gpu.sample_count", DecimalDetail(read, e.details, ["sample_count"]), "Samples")
  }

  /** The index's printed form is a parameter: only its key matters to the rules. */
  function SignalDimensions(read: Reader, e: Event, printed: Decimal -> string): seq<Dimension> {
    var index := DecimalDetail(read, e.details, ["gpu_index"]);
    var sku := TrimSpace(StringDetail(e.details, ["gpu_sku"]));
    (if index.Some? && index.value.coef >= 0 && Whole(index.value) then [Dimension("gpu_index", IntegerValue(printed(index.value)))] else [])
    + if sku != "" then [Dimension("gpu_sku", TextValue(Truncate(sku, 256)))] else []
  }

  /** No fraction: the digits below the point are zero. */
  predicate Whole(d: Decimal) { d.exp >= 0 || Shift(Shrink(d.coef, -d.exp), -d.exp) == d.coef }

  predicate IsUnit(s: string) {
    && 1 <= |s| <= 64 && (IsAlnum(Lower(s[0])))
    && forall i :: 0 <= i < |s| ==> IsAlnum(Lower(s[i])) || s[i] in "._{}/*^+-"
  }

  /** A metric the contract does not know, named and measured by the caller. */
  function UnknownUsage(read: Reader, e: Event): Option<Mapped> {
    var metric := TrimSpace(StringDetail(e.details, ["attribution_usage_metric"]));
    var unit := TrimSpace(StringDetail(e.details, ["attribution_usage_unit"]));
    var quantity := DecimalDetail(read, e.details, ["attribution_usage_quantity"]);
    var usage := AppendUnit([], metric, quantity, unit);
    if !e.kind.ExternalCost? || !IsCanonical(metric) || metric in UNIT_BY_METRIC || usage == [] || !IsUnit(unit) then None
    else Some(Mapped("external", usage, DecimalOrZero(read, e.details, ["attribution_usage_duration_seconds"]), []))
  }

  function SignalDuration(read: Reader, e: Event): Decimal {
    var ms := DecimalOrZero(read, e.details, ["task_duration_ms"]);
    if Positive(ms) then DivThousand(ms) else ZERO
  }

  function KnownLines(usage: seq<Measure>): seq<UnitMeasure>
    requires WellFormed(usage)
  {
    seq(|usage|, i requires 0 <= i < |usage| => UnitMeasure(usage[i].metric, usage[i].quantity, UNIT_BY_METRIC[usage[i].metric]))
  }

  /** Unlike v2, nothing stands in when nothing was measured. */
  function MappedUsage(read: Reader, e: Event, printed: Decimal -> string): Option<Mapped> {
    if e.kind.GpuSignal? then Some(Mapped("gpu", SignalUsage(read, e), SignalDuration(read, e), SignalDimensions(read, e, printed)))
    else if UnknownUsage(read, e).Some? then UnknownUsage(read, e)
    else
      var p := ComponentAndUsage(read, e);
      if p.None? || !WellFormed(p.value.usage) then None
      else Some(Mapped(p.value.component, KnownLines(p.value.usage), p.value.duration, []))
  }

  function SelectedComponent(e: Event, fallback: string, components: set<string>): Option<string> {
    var explicit := TrimSpace(StringDetail(e.details, ["attribution_component"]));
    if explicit == "" then Some(fallback) else if explicit in components then Some(explicit) else None
  }

  const STATUSES: set<string> := {"in_progress", "succeeded", "failed", "cancelled", "unknown"}

  function OperationStatus(e: Event): (r: string)
    ensures r in STATUSES
  {
    var explicit := TrimSpace(StringDetail(e.details, ["attribution_operation_status"]));
    if explicit in STATUSES then explicit
    else if e.kind.GpuSignal? then "unknown"
    else if e.kind.RetryMarker? || e.errorType != "" || StringDetail(e.details, ["error_type"]) != "" then "failed"
    else "succeeded"
  }

  // ---------------------------------------------------------------- lineage and dimensions of an event

  /** A UUID of a known version and variant. */
  predicate IsV3Uuid(s: string) {
    Contract.IsUuid(s) && '1' <= s[14] <= '5' && Lower(s[19]) in {'8', '9', 'a', 'b'}
  }

  function IdOf(s: string): Lineage.Id { Lineage.Id(s, IsV3Uuid(s)) }

  function OperationDetail(e: Event): Option<Lineage.Id> {
    var text := ToLower(TrimSpace(StringDetail(e.details, ["attribution_operation_id"])));
    if text == "" then None else Some(IdOf(text))
  }

  function WholePart(d: Decimal): int { if d.exp >= 0 then Coef(d, 0) else Shrink(d.coef, -d.exp) }

  function AttemptDetail(read: Reader, e: Event): Option<int> {
    var raw := DecimalDetail(read, e.details, ["attribution_attempt_number"]);
    if raw.Some? && Positive(raw.value) && Whole(raw.value) then Some(WholePart(raw.value)) else None
  }

  /** What lineage an event carries. */
  function LineageOf(read: Reader, e: Event): Lineage.Event {
    Lineage.Event(IdOf(UuidText(e.id)), e.isRetry, if e.retryOf.Some? then Some(IdOf(UuidText(e.retryOf.value))) else None,
                  OperationDetail(e), AttemptDetail(read, e))
  }

  function RawDimensions(e: Event): Option<Json.Value> {
    if "attribution_dimensions" !in e.details then None
    else
      match e.details["attribution_dimensions"]
      case Nil => Some(Json.Null)
      case Nested(v) => Some(v)
      case _ => Some(Json.Bool(true))  // a number, a text or a flag: not a list
  }

  /** The two details that stamping writes. */
  function WithStamp(e: Event, operation: Uuid, attempt: int): Event {
    e.(details := e.details["attribution_operation_id" := Written(UuidText(operation))]
                           ["attribution_attempt_number" := Exact(FromInt(attempt))])
  }

  lemma UuidTextTrimmed(u: Uuid)
    ensures var s := UuidText(u); s != "" && TrimSpace(s) == s && ToLower(s) == s
  {
    AttributionContract.UuidTextMatches(u);
    var s := UuidText(u);
    RunNames(u, 0, 8); RunNames(u, 8, 12); RunNames(u, 12, 16); RunNames(u, 16, 20); RunNames(u, 20, 32);
    JoinNames(HexRun(u, 0, 8), HexRun(u, 8, 12), HexRun(u, 12, 16), HexRun(u, 16, 20), HexRun(u, 20, 32));
    TrimSpaceShrinks(s);
    LowerFixed(s);
  }

  lemma RunNames(u: Uuid, from: nat, to: nat)
    requires from <= to <= 32
    ensures NameChars(HexRun(u, from, to))
  {
    forall n: nat | n < 16 ensures IsNameChar(Hex(n)) { }
  }

  lemma JoinNames(a: string, b: string, c: string, d: string, e: string)
    requires NameChars(a) && NameChars(b) && NameChars(c) && NameChars(d) && NameChars(e)
    ensures NameChars(a + "-" + b + "-" + c + "-" + d + "-" + e)
  {
  }

  /** Conversion reads back exactly the operation and the number that were stamped. */
  lemma StampReadsBack(read: Reader, e: Event, operation: Uuid, attempt: int)
    requires attempt > 0
    ensures LineageOf(read, WithStamp(e, operation, attempt))
            == LineageOf(read, e).(operation := Some(IdOf(UuidText(operation))), attempt := Some(attempt))
  {
    var stamped := WithStamp(e, operation, attempt);
    UuidTextTrimmed(operation);
    hide UuidText, IsV3Uuid, TrimSpace, ToLower;
    assert StringDetail(stamped.details, ["attribution_operation_id"]) == UuidText(operation);
    assert DecimalDetail(read, stamped.details, ["attribution_attempt_number"]) == Some(FromInt(attempt));
  }

  // ---------------------------------------------------------------- the observation and its rules

  datatype Observation = Observation(
    occurredAt: string, component: string, operation: Lineage.Operation, status: string,
    usage: seq<Line>, dimensions: seq<Dimension>, period: Option<UsagePeriod>, evidence: Option<CostEvidence>)

  const TIME_METRICS: set<string> := {
    "audio_seconds", "connected_seconds", "recording_seconds", "agent_seconds", "compute_seconds", "vcpu_seconds",
    "memory_gib_seconds", "gpu_seconds"}

  predicate DistinctLines(usage: seq<Line>) { forall i, j :: 0 <= i < j < |usage| ==> usage[i].id != usage[j].id }

  predicate DistinctKeys(dimensions: seq<Dimension>) {
    forall i, j :: 0 <= i < j < |dimensions| ==> dimensions[i].key != dimensions[j].key
  }

  predicate LinesFit(usage: seq<Line>) {
    forall i :: 0 <= i < |usage| ==>
      Positive(usage[i].quantity) && (usage[i].metric in UNIT_BY_METRIC ==> usage[i].unit == UNIT_BY_METRIC[usage[i].metric])
  }

  predicate MeasuresKnownTime(usage: seq<Line>) { exists i :: 0 <= i < |usage| && usage[i].metric in TIME_METRICS }

  predicate PeriodFits(p: Option<UsagePeriod>) {
    p.Some? ==>
      var start, end := Timestamps.Parse(p.value.startAt), Timestamps.Parse(p.value.endAt);
      start.Instant? && end.Instant? && start.t <= end.t
  }

  predicate EvidenceConsistent(c: Option<CostEvidence>) {
    c.Some? ==>
      && (c.value.source == "provider_reported" ==> c.value.confidence == "exact" || c.value.confidence == "estimated")
      && (c.value.source == "sdk_catalog" || c.value.source == "sdk_rate_registry" ==>
            c.value.confidence != "exact" && c.value.pricingVersion != "")
  }

  /** Every cross-field rule, for a final observation. The published schema is checked separately. */
  predicate Semantics(o: Observation) {
    && Timestamps.Parse(o.occurredAt).Instant?
    && PeriodFits(o.period)
    && LinesFit(o.usage) && DistinctLines(o.usage)
    && (o.usage != [] ==> DistinctKeys(o.dimensions))
    && Lineage.AttemptRules(o.operation)
    && o.status != "in_progress"
    && (o.status == "succeeded" ==> o.usage != [])
    && (MeasuresKnownTime(o.usage) ==> o.period.Some?)
    && EvidenceConsistent(o.evidence)
  }

  /** Line identifiers are derived from event, metric, unit and dimensions. */
  type LineIds = (string, string) -> nat

  ghost predicate Injective(lineIds: LineIds) {
    forall m1, u1, m2, u2 :: lineIds(m1, u1) == lineIds(m2, u2) ==> m1 == m2 && u1 == u2
  }

  function LinesOf(lineIds: LineIds, usage: seq<UnitMeasure>): seq<Line> {
    seq(|usage|, i requires 0 <= i < |usage| =>
      Line(lineIds(usage[i].metric, usage[i].unit), usage[i].metric, usage[i].quantity, usage[i].unit))
  }

  predicate TimesLines(usage: seq<UnitMeasure>) {
    exists i :: 0 <= i < |usage| && usage[i].metric in UNIT_BY_METRIC && UNIT_BY_METRIC[usage[i].metric] == usage[i].unit
                && HasSuffix(usage[i].unit, "Seconds")
  }

  function StartAt(e: Event, m: Mapped): int { Micros(e.at + Backward(m.duration)) }

  function Draft(lineIds: LineIds, e: Event, m: Mapped, dims: seq<Dimension>, component: string,
                 operation: Lineage.Operation, status: string): Observation {
    Observation(Timestamps.Format(Micros(e.at)), component, operation, status, LinesOf(lineIds, m.usage), dims + m.dimensions,
                if TimesLines(m.usage) || Positive(m.duration)
                  then Some(UsagePeriod(Timestamps.Format(StartAt(e, m)), Timestamps.Format(Micros(e.at)))) else None,
                if e.kind.GpuSignal? then None else EvidenceFor(e))
  }

  /** The converter; `schema` is the published schema's verdict. */
  function ToObservation(schema: Observation -> bool, lineIds: LineIds, read: Reader,
                         printed: Decimal -> string, components: set<string>, e: Event): Option<Observation> {
    var m, dims := MappedUsage(read, e, printed), ExplicitDimensions(RawDimensions(e));
    var operation := Lineage.OperationFor(LineageOf(read, e));
    if m.None? || dims.None? || operation.None? then None
    else
      var component := SelectedComponent(e, m.value.component, components);
      if component.None? then None
      else
        var o := Draft(lineIds, e, m.value, dims.value, component.value, operation.value, OperationStatus(e));
        if schema(o) && Semantics(o) then Some(o) else None
  }

  // ---------------------------------------------------------------- when the rules hold

  predicate UsageFits(usage: seq<UnitMeasure>) {
    && (forall i :: 0 <= i < |usage| ==> Positive(usage[i].quantity) && (usage[i].metric in UNIT_BY_METRIC ==> usage[i].unit == UNIT_BY_METRIC[usage[i].metric]))
    && forall i, j :: 0 <= i < j < |usage| ==> usage[i].metric != usage[j].metric
  }

  predicate Within(usage: seq<UnitMeasure>, metrics: set<string>) { forall m :: m in usage ==> m.metric in metrics }

  lemma AppendFits(usage: seq<UnitMeasure>, metrics: set<string>, metric: string, q: Option<Decimal>, unit: string)
    requires UsageFits(usage) && Within(usage, metrics) && metric !in metrics && metric !in UNIT_BY_METRIC
    ensures UsageFits(AppendUnit(usage, metric, q, unit))
    ensures Within(AppendUnit(usage, metric, q, unit), metrics + {metric})
  {
    forall i | 0 <= i < |usage| ensures usage[i].metric != metric { assert usage[i] in usage; }
  }

  lemma SignalMetricsUnknown()
    ensures "gpu.sm_utilization_percent" !in UNIT_BY_METRIC && "gpu.memory_utilization_percent" !in UNIT_BY_METRIC
    ensures "gpu.vram_peak_bytes" !in UNIT_BY_METRIC && "gpu.vram_capacity_bytes" !in UNIT_BY_METRIC
    ensures "gpu.process_count" !in UNIT_BY_METRIC && "gpu.sample_count" !in UNIT_BY_METRIC
  {
  }

  lemma SignalFits(read: Reader, e: Event)
    ensures UsageFits(SignalUsage(read, e))
  {
    hide AppendUnit, DecimalDetail, UsageFits, Within;
    var q0, q1 := DecimalDetail(read, e.details, ["sm_util_pct"]), DecimalDetail(read, e.details, ["mem_util_pct"]);
    var q2, q3 := DecimalDetail(read, e.details, ["vram_used_peak_bytes"]), DecimalDetail(read, e.details, ["vram_total_bytes"]);
    var q4, q5 := DecimalDetail(read, e.details, ["process_count"]), DecimalDetail(read, e.details, ["sample_count"]);
    SignalMetricsUnknown();
    NothingFits();
    var seen: set<string> := {};
    AppendFits([], seen, "gpu.sm_utilization_percent", q0, "Percent");
    seen := seen + {"gpu.sm_utilization_percent"};
    var a := AppendUnit([], "gpu.sm_utilization_percent", q0, "Percent");
    AppendFits(a, seen, "gpu.memory_utilization_percent", q1, "Percent");
    seen := seen + {"gpu.memory_utilization_percent"};
    var b := AppendUnit(a, "gpu.memory_utilization_percent", q1, "Percent");
    AppendFits(b, seen, "gpu.vram_peak_bytes", q2, "Bytes");
    seen := seen + {"gpu.vram_peak_bytes"};
    var c := AppendUnit(b, "gpu.vram_peak_bytes", q2, "Bytes");
    AppendFits(c, seen, "gpu.vram_capacity_bytes", q3, "Bytes");
    seen := seen + {"gpu.vram_capacity_bytes"};
    var d := AppendUnit(c, "gpu.vram_capacity_bytes", q3, "Bytes");
    AppendFits(d, seen, "gpu.process_count", q4, "Processes");
    seen := seen + {"gpu.process_count"};
    AppendFits(AppendUnit(d, "gpu.process_count", q4, "Processes"), seen, "gpu.sample_count", q5, "Samples");
  }

  lemma NothingFits()
    ensures UsageFits([]) && Within([], {})
  {
  }

  /** Whatever is measured, every line is positive, in its canonical unit, and of its own metric. */
  lemma MappedFits(read: Reader, e: Event, printed: Decimal -> string)
    requires MappedUsage(read, e, printed).Some?
    ensures UsageFits(MappedUsage(read, e, printed).value.usage)
  {
    hide ComponentAndUsage, SignalUsage, SignalDimensions, AttributionContract.Sendable;
    if e.kind.GpuSignal? {
      SignalFits(read, e);
    } else if UnknownUsage(read, e).None? {
      AttributionContract.PartsSendable(read, e);
      KnownFits(ComponentAndUsage(read, e).value);
    }
  }

  lemma KnownFits(p: Parts)
    requires AttributionContract.Sendable(p) && WellFormed(p.usage)
    ensures UsageFits(KnownLines(p.usage))
  {
  }

  lemma TimeMetricsEnd(metric: string)
    requires metric in TIME_METRICS
    ensures metric in UNIT_BY_METRIC && HasSuffix(UNIT_BY_METRIC[metric], "Seconds")
  {
    assert HasSuffix("Seconds", "Seconds") && HasSuffix("vCPU-Seconds", "Seconds");
    assert HasSuffix("GiB-Seconds", "Seconds") && HasSuffix("GPU-Seconds", "Seconds");
  }

  lemma LinesHold(lineIds: LineIds, usage: seq<UnitMeasure>)
    requires Injective(lineIds) && UsageFits(usage)
    ensures var lines := LinesOf(lineIds, usage);
            LinesFit(lines) && DistinctLines(lines) && (MeasuresKnownTime(lines) ==> TimesLines(usage))
  {
    var lines := LinesOf(lineIds, usage);
    if MeasuresKnownTime(lines) {
      var i :| 0 <= i < |lines| && lines[i].metric in TIME_METRICS;
      TimeMetricsEnd(lines[i].metric);
      assert usage[i].metric == lines[i].metric;
    }
  }

  lemma EvidenceHolds(e: Event)
    ensures EvidenceConsistent(EvidenceFor(e))
  {
    if EvidenceFor(e).Some? { AttributionContract.TermsOk(e); }
  }

  predicate TimesFit(e: Event, m: Mapped) {
    && AttributionContract.YearFits(Micros(e.at))
    && (TimesLines(m.usage) || Positive(m.duration) ==>
          AttributionContract.YearFits(StartAt(e, m)) && StartAt(e, m) <= Micros(e.at))
  }

  /** Dimensions do not clash and the status fits what was measured. */
  predicate PartsFit(e: Event, m: Mapped, dims: seq<Dimension>, status: string) {
    && TimesFit(e, m)
    && (m.usage != [] ==> DistinctKeys(dims + m.dimensions))
    && status != "in_progress" && (status == "succeeded" ==> m.usage != [])
  }

  lemma DraftTimes(lineIds: LineIds, e: Event, m: Mapped, dims: seq<Dimension>,
                   component: string, operation: Lineage.Operation, status: string)
    ensures var o := Draft(lineIds, e, m, dims, component, operation, status);
            (Timestamps.Parse(o.occurredAt).Instant? && PeriodFits(o.period)) <==> TimesFit(e, m)
  {
    hide Timestamps.Format, Timestamps.Parse;
    Timestamps.FormatReads(Micros(e.at));
    Timestamps.FormatReads(StartAt(e, m));
  }

  /** The observation satisfies the cross-field rules exactly when its parts fit and its attempt is in order. */
  lemma DraftHoldsIff(lineIds: LineIds, read: Reader, printed: Decimal -> string, e: Event, dims: seq<Dimension>,
                      component: string, operation: Lineage.Operation, status: string)
    requires Injective(lineIds) && MappedUsage(read, e, printed).Some?
    ensures var m := MappedUsage(read, e, printed).value;
            Semantics(Draft(lineIds, e, m, dims, component, operation, status))
            <==> PartsFit(e, m, dims, status) && Lineage.AttemptRules(operation)
  {
    hide MappedUsage, Timestamps.Format, Timestamps.Parse, EvidenceFor, EvidenceConsistent,
         PeriodFits, TimesFit, LinesFit, DistinctLines;
    var m := MappedUsage(read, e, printed).value;
    MappedFits(read, e, printed);
    LinesHold(lineIds, m.usage);
    EvidenceHolds(e);
    NoEvidence();
    DraftTimes(lineIds, e, m, dims, component, operation, status);
  }

  lemma NoEvidence()
    ensures EvidenceConsistent(None)
  {
  }

  /** Everything about an event but its lineage: its usage is known, its dimensions and component too, and they fit. */
  predicate Measured(schema: Observation -> bool, lineIds: LineIds, read: Reader,
                     printed: Decimal -> string, components: set<string>, e: Event) {
    var m, dims := MappedUsage(read, e, printed), ExplicitDimensions(RawDimensions(e));
    && m.Some? && dims.Some? && PartsFit(e, m.value, dims.value, OperationStatus(e))
    && var component, operation := SelectedComponent(e, m.value.component, components), Lineage.OperationFor(LineageOf(read, e));
       && component.Some?
       && (operation.Some? ==>
             schema(Draft(lineIds, e, m.value, dims.value, component.value, operation.value, OperationStatus(e))))
  }

  /** An event is converted exactly when its measured parts fit and its lineage is complete. */
  lemma ToObservationIff(schema: Observation -> bool, lineIds: LineIds, read: Reader,
                         printed: Decimal -> string, components: set<string>, e: Event)
    requires Injective(lineIds)
    ensures ToObservation(schema, lineIds, read, printed, components, e).Some?
            <==> Measured(schema, lineIds, read, printed, components, e) && Lineage.Complete(LineageOf(read, e))
  {
    var m, dims := MappedUsage(read, e, printed), ExplicitDimensions(RawDimensions(e));
    var operation := Lineage.OperationFor(LineageOf(read, e));
    Lineage.AcceptedIffComplete(LineageOf(read, e));
    hide MappedUsage, ExplicitDimensions, RawDimensions, LineageOf, Lineage.OperationFor, Lineage.Complete,
         SelectedComponent, OperationStatus, PartsFit, Semantics, Draft;
    if m.Some? && dims.Some? && operation.Some? && SelectedComponent(e, m.value.component, components).Some? {
      DraftHoldsIff(lineIds, read, printed, e, dims.value, SelectedComponent(e, m.value.component, components).value,
                    operation.value, OperationStatus(e));
    }
  }

  /**
   Recording and conversion together: an event whose lineage was stored in any run, whatever was
   cleared or could not be read on the way, is converted exactly when its measured parts fit.
   */
  lemma StoredConvertsIff(schema: Observation -> bool, lineIds: LineIds, read: Reader, printed: Decimal -> string,
                          components: set<string>, e: Event, actions: seq<Lineage.Action>)
    requires Injective(lineIds) && Lineage.Legal(Lineage.START, actions)
    requires LineageOf(read, e) in Lineage.Run(Lineage.START, actions).events
    requires |Lineage.Run(Lineage.START, actions).events| < Lineage.MAX_ATTEMPT
    ensures ToObservation(schema, lineIds, read, printed, components, e).Some?
            <==> Measured(schema, lineIds, read, printed, components, e)
  {
    hide *;
    Lineage.LineageAccepted(actions, LineageOf(read, e));
    Lineage.AcceptedIffComplete(LineageOf(read, e));
    ToObservationIff(schema, lineIds, read, printed, components, e);
  }

  /** A call that measured nothing and succeeded reaches v2 as one request and is refused by v3, whatever the schema says. */
  lemma NothingMeasured(schema: Observation -> bool, lineIds: LineIds, read: Reader,
                        printed: Decimal -> string, components: set<string>, e: Event)
    requires Injective(lineIds) && e.kind.Network? && NetworkUsage(read, e) == [] && OperationStatus(e) == "succeeded"
    requires AttributionContract.EvidenceFits(e) && AttributionContract.YearFits(Micros(e.at))
    ensures var r := Convert(read, e); r.Some? && |r.value.usage| == 1 && r.value.usage[0].metric == "request_count"
    ensures ToObservation(schema, lineIds, read, printed, components, e).None?
  {
    NothingMapped(read, printed, e);
    hide *;
    AttributionContract.ConvertsIff(read, e);
    RequestLine(e, Parts("network", [], ZERO));
    ToObservationIff(schema, lineIds, read, printed, components, e);
    NothingFit(schema, lineIds, read, printed, components, e);
  }

  lemma NothingFit(schema: Observation -> bool, lineIds: LineIds, read: Reader,
                   printed: Decimal -> string, components: set<string>, e: Event)
    requires MappedUsage(read, e, printed) == Some(Mapped("network", [], ZERO, [])) && OperationStatus(e) == "succeeded"
    ensures !Measured(schema, lineIds, read, printed, components, e)
  {
    hide MappedUsage, OperationStatus, TimesFit, Draft, ExplicitDimensions;
  }

  lemma NothingMapped(read: Reader, printed: Decimal -> string, e: Event)
    requires e.kind.Network? && NetworkUsage(read, e) == []
    requires AttributionContract.EvidenceFits(e) && AttributionContract.YearFits(Micros(e.at))
    ensures var p := Parts("network", [], ZERO);
            && ComponentAndUsage(read, e) == Some(p) && UsageOf(p) == [Measure("request_count", ONE)]
            && AttributionContract.Representable(e, p)
            && MappedUsage(read, e, printed) == Some(Mapped("network", [], ZERO, []))
  {
    hide AttributionContract.EvidenceFits, AttributionContract.YearFits;
    var p := Parts("network", [], ZERO);
    assert ComponentAndUsage(read, e) == Some(p);
    assert KnownLines([]) == [];
    assert !HasSuffix("Requests", "Seconds");
    LimitAboveOne();
  }

  lemma RequestLine(e: Event, p: Parts)
    requires UsageOf(p) == [Measure("request_count", ONE)]
    ensures WellFormed(UsageOf(p))
    ensures var usage := Attribution.Draft(e, p).usage; |usage| == 1 && usage[0].metric == "request_count"
  {
  }

  lemma LimitAboveOne()
    ensures Greater(LIMIT, ONE)
  {
    ShiftZero(26);
    ShiftTwice(1, 1, 25);
    assert Shift(1, 1) == 10;
    ShiftOrder(0, 9, 25);
    ShiftZero(25);
    ShiftAdds(1, 9, 25);
    ShiftOrder(0, 1, 25);
  }
}
