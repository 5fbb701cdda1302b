/** Which converted events the contract accepts, piece by piece, and which durations a record can carry. */
module AttributionContract {
  import opened Sequences
  import opened Decimals
  import opened Names
  import opened Wire
  import opened Attribution
  import opened Contract
  import RecordForm
  import Timestamps

  // ---------------------------------------------------------------- usage lines

  predicate DistinctMetrics(usage: seq<Measure>) {
    forall i, j :: 0 <= j < i < |usage| ==> usage[j].metric != usage[i].metric
  }

  predicate BelowLimit(usage: seq<Measure>) { forall i :: 0 <= i < |usage| ==> Greater(LIMIT, usage[i].quantity) }

  /** Written lines are well formed exactly when every quantity is below 10^26. */
  lemma UsageOk(usage: seq<Measure>)
    requires WellFormed(usage) && DistinctMetrics(usage) && |usage| <= MAX_LINES
    ensures RecordForm.UsageFormed(WrittenUsage(usage)) <==> BelowLimit(usage)
    ensures RecordForm.TimesUsage(WrittenUsage(usage)) <==> MeasuresTime(usage)
  {
    hide PlainPositive;
    var lines := WrittenUsage(usage);
    forall i | 0 <= i < |usage| ensures RecordForm.LineFormed(lines[i]) <==> Greater(LIMIT, usage[i].quantity) {
      QuantityText(usage[i].quantity);
    }
  }

  // ---------------------------------------------------------------- what the converter puts in

  lemma UuidTextMatches(u: Uuid)
    ensures IsUuid(UuidText(u)) && UuidText(u) != ""
  {
    forall n: nat | n < 16 ensures IsHex(Hex(n)) { }
    RunsMatch(HexRun(u, 0, 8), HexRun(u, 8, 12), HexRun(u, 12, 16), HexRun(u, 16, 20), HexRun(u, 20, 32));
  }

  predicate AllHex(s: string) { forall i :: 0 <= i < |s| ==> IsHex(s[i]) }

  lemma RunsMatch(a: string, b: string, c: string, d: string, e: string)
    requires |a| == 8 && |b| == |c| == |d| == 4 && |e| == 12
    requires AllHex(a) && AllHex(b) && AllHex(c) && AllHex(d) && AllHex(e)
    ensures IsUuid(a + "-" + b + "-" + c + "-" + d + "-" + e)
  {
  }

  lemma ReservedNames()
    ensures IsCanonical("openai") && IsCanonical("responses") && IsCanonical("anthropic") && IsCanonical("messages")
    ensures IsCanonical("aws") && IsCanonical("bedrock") && IsCanonical("google") && IsCanonical("generate_content")
  {
  }

  lemma ReservedServices()
    ensures IsCanonical("cohere") && IsCanonical("chat") && IsCanonical("vercel") && IsCanonical("ai_sdk")
    ensures IsCanonical("langchain") && IsCanonical("api") && IsCanonical("unknown") && IsCanonical("external")
  {
  }

  lemma ReservedClouds()
    ensures IsCanonical("azure") && IsCanonical("google_cloud") && IsCanonical("kubernetes") && IsCanonical("runtime")
    ensures IsCanonical("compute") && IsCanonical("self_hosted") && IsCanonical("gpu_compute") && IsCanonical("gpu")
  {
  }

  lemma ReservedOthers()
    ensures IsCanonical("internet") && IsCanonical("egress") && IsCanonical("dexcost") && IsCanonical("retry")
    ensures IsCanonical("mcp") && IsCanonical("tool") && IsCanonical("http_api")
  {
  }

  predicate BothCanonical(names: (string, string)) { IsCanonical(names.0) && IsCanonical(names.1) }

  lemma LlmNames(e: Event)
    ensures BothCanonical(LlmProvider(e))
  {
    ReservedNames(); ReservedServices();
    CanonicalNameMatches(e.provider, "unknown");
  }

  lemma ComputeNames(e: Event)
    ensures BothCanonical(ComputeProvider(e))
  {
    ReservedNames(); ReservedServices(); ReservedClouds();
    CanonicalNameMatches(e.provider, "runtime");
    CanonicalNameMatches(FirstNonEmpty(StringDetail(e.details, ["billing_model"]), e.serviceName), "compute");
  }

  lemma GpuNames(e: Event)
    ensures BothCanonical(GpuProvider(e))
  {
    ReservedClouds();
    CanonicalNameMatches(FirstNonEmpty(StringDetail(e.details, ["cloud_provider"]), e.provider), "runtime");
    CanonicalNameMatches(StringDetail(e.details, ["billing_model"]), "gpu");
  }

  lemma ExternalNames(e: Event)
    ensures BothCanonical(ExternalProvider(e))
  {
    ReservedServices(); ReservedOthers();
    var service := FirstNonEmpty(e.serviceName, "external");
    CanonicalNameMatches(TrimPrefix(service, "mcp:"), "tool");
    CanonicalNameMatches(service, "external");
    CanonicalNameMatches(e.provider, CanonicalName(service, "external"));
    CanonicalNameMatches(service, "api");
  }

  /** Whatever the event, its provider identity satisfies the contract. */
  lemma ProviderForOk(e: Event)
    ensures RecordForm.ProviderFormed(ProviderFor(e))
  {
    hide LlmProvider, ComputeProvider, GpuProvider, ExternalProvider, StringDetail;
    match e.kind {
      case LlmCall => LlmNames(e);
      case ComputeCost => ComputeNames(e);
      case GpuCost | GpuSignal => GpuNames(e);
      case Network =>
        ReservedOthers();
        CanonicalNameMatches(FirstNonEmpty(StringDetail(e.details, ["cloud_provider"]), e.provider), "internet");
      case RetryMarker => ReservedOthers();
      case ExternalCost | OtherType => ExternalNames(e);
    }
    ReservedServices();
    CanonicalNameMatches(StringDetail(e.details, ["region", "cloud_region"]), "unknown");
  }

  /** Whatever the event, its resource satisfies the contract. */
  lemma ResourceForOk(e: Event)
    ensures RecordForm.ResourceFormed(ResourceFor(e))
  {
  }

  function Metrics(usage: seq<Measure>): set<string> { set m | m in usage :: m.metric }

  predicate GoodUsage(usage: seq<Measure>, metrics: set<string>) {
    WellFormed(usage) && DistinctMetrics(usage) && Metrics(usage) <= metrics
  }

  lemma AppendOk(usage: seq<Measure>, metrics: set<string>, metric: string, quantity: Decimal)
    requires GoodUsage(usage, metrics) && metric !in metrics && metric in UNIT_BY_METRIC
    ensures GoodUsage(AppendUsage(usage, metric, quantity), metrics + {metric})
    ensures |usage| <= |AppendUsage(usage, metric, quantity)| <= |usage| + 1
  {
    forall i | 0 <= i < |usage| ensures usage[i].metric in metrics { assert usage[i] in usage; }
  }

  lemma FirstLine(metric: string, quantity: Decimal)
    requires metric in UNIT_BY_METRIC
    ensures GoodUsage(AppendUsage([], metric, quantity), {metric}) && |AppendUsage([], metric, quantity)| <= 1
  {
    AppendOk([], {}, metric, quantity);
    assert {} + {metric} == {metric};
  }

  predicate Sendable(p: Parts) {
    var usage := UsageOf(p);
    WellFormed(usage) && DistinctMetrics(usage) && 1 <= |usage| <= MAX_LINES && p.component in COMPONENTS
  }

  lemma SendableIf(p: Parts)
    requires WellFormed(p.usage) && DistinctMetrics(p.usage) && |p.usage| <= MAX_LINES && p.component in COMPONENTS
    ensures Sendable(p)
  {
    FirstLine("request_count", ONE);
  }

  lemma TokenLines(t: Tokens)
    ensures WellFormed(TokenUsage(t)) && DistinctMetrics(TokenUsage(t)) && |TokenUsage(t)| <= 5
  {
    var a := AppendUsage([], "input_tokens", t.input);
    var b := AppendUsage(a, "cache_read_input_tokens", t.cached);
    var c := AppendUsage(b, "cache_write_input_tokens", t.cacheWrite);
    var d := AppendUsage(c, "output_tokens", t.output);
    FirstLine("input_tokens", t.input);
    var seen := {"input_tokens"};
    AppendOk(a, seen, "cache_read_input_tokens", t.cached);
    seen := seen + {"cache_read_input_tokens"};
    AppendOk(b, seen, "cache_write_input_tokens", t.cacheWrite);
    seen := seen + {"cache_write_input_tokens"};
    AppendOk(c, seen, "output_tokens", t.output);
    seen := seen + {"output_tokens"};
    AppendOk(d, seen, "reasoning_output_tokens", t.reasoning);
  }

  lemma ComputeLines(read: Reader, e: Event)
    ensures var u := ComputeUsage(read, e); WellFormed(u) && DistinctMetrics(u) && |u| <= 4
  {
    var duration := ComputeDuration(read, e);
    var memory := DecimalDetail(read, e.details, ["memory_bytes_limit", "memory_bytes_peak"]);
    var a := AppendUsage([], "compute_seconds", duration);
    var b := AppendUsage(a, "vcpu_seconds", DecimalOrZero(read, e.details, ["vcpu_seconds_used"]));
    FirstLine("compute_seconds", duration);
    var seen := {"compute_seconds"};
    AppendOk(a, seen, "vcpu_seconds", DecimalOrZero(read, e.details, ["vcpu_seconds_used"]));
    seen := seen + {"vcpu_seconds"};
    var c := b;
    if memory.Some? {
      var q := Times(DivGib(memory.value), duration);
      AppendOk(b, seen, "memory_gib_seconds", q);
      c := AppendUsage(b, "memory_gib_seconds", q);
    }
    seen := seen + {"memory_gib_seconds"};
    AppendOk(c, seen, "request_count", DecimalOrZero(read, e.details, ["invocation_count"]));
  }

  lemma NetworkLines(read: Reader, e: Event)
    ensures var u := NetworkUsage(read, e); WellFormed(u) && DistinctMetrics(u) && |u| <= 2
  {
    var out := DecimalOrZero(read, e.details, ["request_bytes"]);
    FirstLine("bytes_out", out);
    AppendOk(AppendUsage([], "bytes_out", out), {"bytes_out"}, "bytes_in", DecimalOrZero(read, e.details, ["response_bytes"]));
  }

  /** Whatever is measured forms a usage list the contract can take. */
  lemma PartsSendable(read: Reader, e: Event)
    requires ComponentAndUsage(read, e).Some?
    ensures Sendable(ComponentAndUsage(read, e).value)
  {
    var p := ComponentAndUsage(read, e).value;
    match e.kind {
      case RetryMarker => FirstLine("request_count", ONE);
      case LlmCall => TokenLines(TokenSplit(read, e).value); FirstLine("request_count", ONE);
      case ComputeCost => ComputeLines(read, e);
      case GpuCost => FirstLine("gpu_seconds", p.duration); GpuLine(read, e);
      case Network => NetworkLines(read, e);
      case ExternalCost => ExternalLine(read, e);
    }
    SendableIf(p);
  }

  lemma GpuLine(read: Reader, e: Event)
    ensures var u := GpuParts(read, e).usage; WellFormed(u) && DistinctMetrics(u) && |u| <= 1
  {
    assert "gpu_seconds" in UNIT_BY_METRIC;
  }

  lemma MetricKnown(e: Event)
    ensures ExternalMetric(e) in UNIT_BY_METRIC
  {
    assert "page_count" in UNIT_BY_METRIC && "credit_count" in UNIT_BY_METRIC && "image_count" in UNIT_BY_METRIC;
    assert "call_count" in UNIT_BY_METRIC && "characters" in UNIT_BY_METRIC && "request_count" in UNIT_BY_METRIC;
  }

  lemma ExternalLine(read: Reader, e: Event)
    ensures var u := ExternalParts(read, e).usage; WellFormed(u) && DistinctMetrics(u) && |u| <= 1
  {
    var quantity := DecimalDetail(read, e.details, ["attribution_usage_quantity"]);
    MetricKnown(e);
    FirstLine(ExternalMetric(e), if quantity.Some? then quantity.value else ONE);
  }

  // ---------------------------------------------------------------- evidence

  /** The amount can be written, and confidence and version are ones the contract knows. */
  predicate EvidenceFits(e: Event) {
    var terms := EvidenceTerms(e);
    EvidenceFor(e).Some? ==>
      Greater(LIMIT, PositiveQuantity(e.cost).value) && terms.value.1 in CONFIDENCES && |terms.value.2| <= 128
  }

  lemma TermsOk(e: Event)
    requires EvidenceTerms(e).Some?
    ensures var t := EvidenceTerms(e).value;
            && t.0 in SOURCES
            && (t.2 != "" || !Derived(Some(t.0)))
            && !(Derived(Some(t.0)) && t.1 == "exact")
            && (t.0 == "provider_reported" ==> t.1 == "exact" || t.1 == "estimated")
  {
  }

  lemma EvidenceForOk(e: Event)
    ensures RecordForm.CostFormed(EvidenceFor(e)) <==> EvidenceFits(e)
  {
    if EvidenceFor(e).Some? {
      TermsOk(e);
      QuantityText(PositiveQuantity(e.cost).value);
      hide PlainPositive, EvidenceTerms, PositiveQuantity, Greater;
    }
  }

  // ---------------------------------------------------------------- the record as a whole

  predicate YearFits(t: int) { 0 <= Timestamps.Year(t) <= 9999 }

  predicate TimesFit(e: Event, p: Parts)
    requires WellFormed(UsageOf(p))
  {
    && YearFits(Micros(e.at))
    && (HasPeriod(p) ==> YearFits(StartOf(e, p)) && StartOf(e, p) <= Micros(e.at))
  }

  /** What a caller can check before converting. */
  predicate Representable(e: Event, p: Parts)
    requires WellFormed(UsageOf(p))
  {
    BelowLimit(UsageOf(p)) && EvidenceFits(e) && TimesFit(e, p)
  }

  lemma DraftPeriod(e: Event, p: Parts)
    requires WellFormed(UsageOf(p))
    ensures YearFits(Micros(e.at)) ==>
              (RecordForm.PeriodFormed(PeriodOf(e, p))
               <==> (HasPeriod(p) ==> YearFits(StartOf(e, p)) && StartOf(e, p) <= Micros(e.at)))
    ensures RecordForm.Closed(PeriodOf(e, p)) <==> HasPeriod(p)
  {
    hide Timestamps.Format, Timestamps.Parse;
    if HasPeriod(p) {
      Timestamps.FormatReads(Micros(e.at));
      Timestamps.FormatReads(StartOf(e, p));
      FormatNotEmpty(Micros(e.at));
    }
  }

  lemma FormatNotEmpty(t: int)
    ensures Timestamps.Format(t) != ""
  {
    var s := Timestamps.Format(t);
    assert s[|s| - 1] == 'Z';
  }

  lemma DraftIdentity(e: Event, p: Parts)
    requires Sendable(p)
    ensures RecordForm.IdentityFormed(Draft(e, p)) <==> YearFits(Micros(e.at))
  {
    hide Timestamps.Format, Timestamps.Parse, IsUuid, UuidText;
    UuidTextMatches(e.id);
    UuidTextMatches(e.task);
    if e.retryOf.Some? { UuidTextMatches(e.retryOf.value); }
    Timestamps.FormatReads(Micros(e.at));
  }

  lemma DraftMembers(e: Event, p: Parts)
    requires Sendable(p)
    ensures var d := Draft(e, p);
            && d.provider == ProviderFor(e) && d.resource == ResourceFor(e) && d.state == "final" && d.revision == 1
            && d.usagePeriod == PeriodOf(e, p) && d.usage == WrittenUsage(UsageOf(p)) && d.costEvidence == EvidenceFor(e)
            && RecordForm.LifecycleFormed(d.state, d.revision) && d.usage != []
            && (RecordForm.StateFormed(d) <==> (RecordForm.TimesUsage(d.usage) ==> RecordForm.Closed(d.usagePeriod)))
  {
    hide RecordForm.TimesUsage, RecordForm.Closed;
  }

  lemma RepresentableIff(e: Event, p: Parts)
    requires Sendable(p)
    ensures Representable(e, p) <==>
              && YearFits(Micros(e.at)) && BelowLimit(UsageOf(p)) && EvidenceFits(e)
              && (HasPeriod(p) ==> YearFits(StartOf(e, p)) && StartOf(e, p) <= Micros(e.at))
    ensures MeasuresTime(UsageOf(p)) ==> HasPeriod(p)
  {
  }

  /** A converted draft is accepted exactly when its numbers, evidence and times can be written. */
  lemma DraftAcceptedIff(e: Event, p: Parts)
    requires Sendable(p)
    ensures Accepted(EventJson(Draft(e, p))) <==> Representable(e, p)
  {
    assert WellFormed(UsageOf(p)) && DistinctMetrics(UsageOf(p)) && |UsageOf(p)| <= MAX_LINES;
    RecordForm.WrittenAcceptedIff(Draft(e, p));
    assert RecordForm.WellFormed(Draft(e, p)) <==>
             var d := Draft(e, p);
             && RecordForm.IdentityFormed(d) && RecordForm.ProviderFormed(d.provider) && RecordForm.ResourceFormed(d.resource)
             && RecordForm.LifecycleFormed(d.state, d.revision) && RecordForm.PeriodFormed(d.usagePeriod)
             && RecordForm.UsageFormed(d.usage) && RecordForm.CostFormed(d.costEvidence) && RecordForm.StateFormed(d);
    hide *;
    DraftMembers(e, p);
    DraftIdentity(e, p);
    ProviderForOk(e);
    ResourceForOk(e);
    UsageOk(UsageOf(p));
    EvidenceForOk(e);
    DraftPeriod(e, p);
    RepresentableIff(e, p);
  }

  lemma SendableForm(p: Parts)
    requires Sendable(p)
    ensures WellFormed(UsageOf(p))
  {
  }

  lemma ConvertsTo(read: Reader, e: Event)
    ensures Convert(read, e) == match ComponentAndUsage(read, e)
      case None => None
      case Some(p) => if WellFormed(UsageOf(p)) && Accepted(EventJson(Draft(e, p))) then Some(Draft(e, p)) else None
  {
    hide Accepted, ComponentAndUsage, Draft;
  }

  /** The converter refuses an event exactly when it measures nothing representable. */
  lemma ConvertsIff(read: Reader, e: Event)
    ensures var p := ComponentAndUsage(read, e);
            && (p.Some? ==> Sendable(p.value))
            && (Convert(read, e).Some? <==> p.Some? && Representable(e, p.value))
            && (Convert(read, e).Some? ==> Convert(read, e).value == Draft(e, p.value))
  {
    hide *;
    var p := ComponentAndUsage(read, e);
    ConvertsTo(read, e);
    if p.Some? {
      PartsSendable(read, e);
      SendableForm(p.value);
      DraftAcceptedIff(e, p.value);
    }
  }

  // ---------------------------------------------------------------- durations in 64 bits

  function Nanos(duration: Decimal): int
    requires Positive(duration)
  {
    Round(Times(duration, FromInt(1_000_000)), 0).coef * 1000
  }

  lemma Wraps(n: int) returns (k: int)
    ensures Wrap(n) == n + k * (2 * TWO_63) && -TWO_63 <= Wrap(n) < TWO_63
  {
    k := -((n + TWO_63) / (2 * TWO_63));
  }

  /** The 64 bit steps together lose whole turns of 2^64 nanoseconds. */
  lemma ShiftTurns(duration: Decimal) returns (k: int)
    requires Positive(duration)
    ensures Backward(duration) == k * (2 * TWO_63) - Nanos(duration) && -TWO_63 <= Backward(duration) < TWO_63
  {
    var m := Round(Times(duration, FromInt(1_000_000)), 0).coef;
    var a := Wraps(m);
    var b := Wraps(Wrap(m) * 1000);
    var c := Wraps(-Offset(duration));
    k := c - a * 1000 - b;
  }

  lemma ShrinkNat(d: Decimal)
    requires Positive(d)
    ensures Round(d, 0).coef >= 0
  {
    if d.exp > 0 { ShiftNat(d.coef, d.exp + 1); } else { ShrunkNat(d.coef, -1 - d.exp); }
  }

  lemma {:induction false} ShiftNat(a: int, n: nat)
    requires a >= 0
    ensures Shift(a, n) >= 0
  {
    if n > 0 { ShiftNat(a, n - 1); }
  }

  lemma {:induction false} ShrunkNat(a: int, n: int)
    requires a >= 0
    ensures n >= 0 ==> Shrink(a, n) >= 0
  {
    if n > 0 { ShrunkNat(a, n - 1); }
  }

  /** The period covers the measured duration exactly when it is at most 2^63 nanoseconds; then it is in order. */
  lemma PeriodExactIff(e: Event, p: Parts)
    requires Positive(p.duration)
    ensures StartOf(e, p) == Micros(e.at - Nanos(p.duration)) <==> Nanos(p.duration) <= TWO_63
    ensures Nanos(p.duration) <= TWO_63 ==> StartOf(e, p) <= Micros(e.at)
  {
    var k := ShiftTurns(p.duration);
    ShrinkNat(Times(p.duration, FromInt(1_000_000)));
    var nanos := Nanos(p.duration);
    assert nanos >= 0;
    hide Nanos, Offset, Wrap, Backward, Round, Times;
    assert k >= 0 && (k == 0 <==> nanos <= TWO_63);
  }

  /** An external call that reports how long it took. */
  function Lasting(at: int, duration: Decimal): Event {
    var nobody: Uuid := seq(32, i => 0);
    Event(nobody, nobody, ExternalCost, at, ZERO, "", "", "", "", "", "", None, None, None, false, "", None, "",
          map["attribution_usage_metric" := Written("request_count"), "attribution_usage_duration_seconds" := Exact(duration)])
  }

  lemma LastingDetails(read: Reader, at: int, duration: Decimal)
    ensures var details := Lasting(at, duration).details;
            && StringDetail(details, ["attribution_usage_metric"]) == "request_count"
            && StringDetail(details, ["attribution_component"]) == ""
            && DecimalDetail(read, details, ["attribution_usage_quantity"]) == None
            && DecimalDetail(read, details, ["attribution_usage_duration_seconds"]) == Some(duration)
  {
    var details := Lasting(at, duration).details;
    assert TrimSpace("request_count") == "request_count";
    assert StringDetail(details, []) == "" && DecimalDetail(read, details, []) == None;
    assert ["attribution_component"][1..] == [] && ["attribution_usage_quantity"][1..] == [];
  }

  lemma {:induction false} ShiftGrows(a: int, n: nat)
    requires a > 0
    ensures Shift(a, n) >= a + n
  {
    if n > 0 { ShiftGrows(a, n - 1); }
  }

  lemma LastingParts(read: Reader, at: int, duration: Decimal)
    ensures ComponentAndUsage(read, Lasting(at, duration)) == Some(LastingPart(duration))
    ensures EvidenceFits(Lasting(at, duration)) && Lasting(at, duration).at == at
    ensures var usage := UsageOf(LastingPart(duration));
            usage == [Measure("request_count", ONE)] && WellFormed(usage) && BelowLimit(usage)
  {
    LastingDetails(read, at, duration);
    assert PositiveQuantity(ONE) == Some(ONE) && PositiveQuantity(ZERO) == None;
    ShiftGrows(1, 26);
    assert "request_count" in UNIT_BY_METRIC;
    hide StringDetail, DecimalDetail, EvidenceTerms, PositiveQuantity, CanonicalName, Contains, Greater;
    assert [] + [Measure("request_count", ONE)] == [Measure("request_count", ONE)];
  }

  function LastingPart(duration: Decimal): Parts { Parts("external", [Measure("request_count", ONE)], duration) }

  lemma LastingTimes(e: Event, p: Parts)
    requires UsageOf(p) == [Measure("request_count", ONE)] && WellFormed(UsageOf(p))
    requires BelowLimit(UsageOf(p)) && EvidenceFits(e)
    ensures Representable(e, p) <==>
              && YearFits(Micros(e.at))
              && (Positive(p.duration) ==> YearFits(StartOf(e, p)) && StartOf(e, p) <= Micros(e.at))
  {
    hide BelowLimit, EvidenceFits, StartOf, YearFits;
    assert !HasSuffix(UNIT_BY_METRIC["request_count"], "Seconds");
  }

  lemma LastingIff(read: Reader, at: int, duration: Decimal)
    ensures var e, p := Lasting(at, duration), LastingPart(duration);
            Convert(read, e).Some? <==>
              YearFits(Micros(at)) && (Positive(duration) ==> YearFits(StartOf(e, p)) && StartOf(e, p) <= Micros(at))
  {
    var e, p := Lasting(at, duration), LastingPart(duration);
    assert p.duration == duration;
    hide *;
    ConvertsIff(read, e);
    LastingParts(read, at, duration);
    LastingTimes(e, p);
  }

  lemma NanosOfSeconds(seconds: int)
    requires seconds > 0
    ensures Positive(Decimal(seconds, 0)) && Nanos(Decimal(seconds, 0)) == seconds * 1_000_000_000
  {
    assert Times(Decimal(seconds, 0), FromInt(1_000_000)) == Decimal(seconds * 1_000_000, 0);
  }

  lemma LongStart(at: int)
    ensures var short, long := Decimal(9223372036, 0), Decimal(9223372037, 0);
            && StartOf(Lasting(at, long), LastingPart(long)) > Micros(at)
            && StartOf(Lasting(at, short), LastingPart(short)) == Micros(at - 9223372036_000_000_000) <= Micros(at)
  {
    var short, long := Decimal(9223372036, 0), Decimal(9223372037, 0);
    NanosOfSeconds(9223372036); NanosOfSeconds(9223372037);
    PeriodExactIff(Lasting(at, short), LastingPart(short));
    var k := ShiftTurns(long);
    hide Nanos, Offset, Wrap, Backward;
    assert k == 1;
  }

  /** At 9223372036 seconds such a call is converted while its years can be written; a second more, and it is refused. */
  lemma LongDurationRefused(read: Reader, at: int)
    ensures Convert(read, Lasting(at, Decimal(9223372037, 0))).None?
    ensures YearFits(Micros(at)) && YearFits(Micros(at - 9223372036_000_000_000)) ==>
              Convert(read, Lasting(at, Decimal(9223372036, 0))).Some?
  {
    var short, long := Decimal(9223372036, 0), Decimal(9223372037, 0);
    NanosOfSeconds(9223372036); NanosOfSeconds(9223372037);
    LongStart(at);
    hide *;
    LastingIff(read, at, short); LastingIff(read, at, long);
  }

  // ---------------------------------------------------------------- nothing is lost on the way

  /** Every written line below the limit denotes the measured quantity. */
  lemma LinesReadBack(usage: seq<Measure>, i: nat)
    requires WellFormed(usage) && BelowLimit(usage) && i < |usage|
    ensures var line := WrittenUsage(usage)[i];
            && |WrittenUsage(usage)| == |usage| && line.metric == usage[i].metric
            && PlainPositive(line.quantity) && Same(Reading(line.quantity), usage[i].quantity)
  {
    QuantityText(usage[i].quantity);
  }

  lemma HexInjective(m: nat, n: nat)
    requires m < 16 && n < 16 && Hex(m) == Hex(n)
    ensures m == n
  {
  }

  /** Identifiers stay distinct in text. */
  lemma UuidTextInjective(a: Uuid, b: Uuid)
    requires UuidText(a) == UuidText(b)
    ensures a == b
  {
    forall i | 0 <= i < 32 ensures a[i] == b[i] {
      UuidDigit(a, i);
      UuidDigit(b, i);
      HexInjective(a[i], b[i]);
    }
  }

  /** Where a digit of the identifier stands in its text. */
  lemma UuidDigit(u: Uuid, i: nat)
    requires i < 32
    ensures |UuidText(u)| == 36
    ensures var at := if i < 8 then i else if i < 12 then i + 1 else if i < 16 then i + 2 else if i < 20 then i + 3 else i + 4;
            UuidText(u)[at] == Hex(u[i])
  {
  }
}
