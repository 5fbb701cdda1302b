/** Conversion of recorded events to attribution v2 records. Texts are ASCII. */
module Attribution {
  import opened Sequences
  import opened Decimals
  import opened Names
  import opened Wire
  import Json
  import Contract
  import Timestamps

  type Uuid = u: seq<nat> | |u| == 32 && (forall i :: 0 <= i < 32 ==> u[i] < 16) witness seq(32, i => 0)

  datatype EventType = LlmCall | ExternalCost | ComputeCost | RetryMarker | Network | GpuCost | GpuSignal | OtherType

  /** A detail value. `Printed` is a value that is read through its printed form, `Nested` a list or an object. */
  datatype Detail = Nil | True | Exact(d: Decimal) | Written(s: string) | Printed(s: string) | Nested(v: Json.Value)

  /** How the number library reads a text. */
  type Reader = string -> Option<Decimal>

  /** `at` is in nanoseconds from the start of year 0. */
  datatype Event = Event(
    id: Uuid, task: Uuid, kind: EventType, at: int, cost: Decimal, confidence: string, source: string,
    pricingVersion: string, serviceName: string, provider: string, model: string,
    inputTokens: Option<int>, outputTokens: Option<int>, cachedTokens: Option<int>,
    isRetry: bool, retryReason: string, retryOf: Option<Uuid>, errorType: string, details: map<string, Detail>)

  // ---------------------------------------------------------------- details

  function Quantity(read: Reader, d: Detail): Option<Decimal> {
    match d
    case Nil | True | Nested(_) => None
    case Exact(v) => Some(v)
    case Written(s) => read(TrimSpace(s))
    case Printed(s) => read(s)
  }

  /** The first key that holds a number. */
  function DecimalDetail(read: Reader, details: map<string, Detail>, keys: seq<string>): Option<Decimal> {
    if keys == [] then None
    else
      var v := if keys[0] in details then Quantity(read, details[keys[0]]) else None;
      if v.Some? then v else DecimalDetail(read, details, keys[1..])
  }

  function DecimalOrZero(read: Reader, details: map<string, Detail>, keys: seq<string>): Decimal {
    var v := DecimalDetail(read, details, keys);
    if v.Some? then v.value else ZERO
  }

  /** The first key that holds a text that is not blank. */
  function StringDetail(details: map<string, Detail>, keys: seq<string>): string {
    if keys == [] then ""
    else if keys[0] in details && details[keys[0]].Written? && TrimSpace(details[keys[0]].s) != "" then details[keys[0]].s
    else StringDetail(details, keys[1..])
  }

  function FirstNonEmpty(a: string, b: string): string { if a != "" then a else b }

  function Count(n: Option<int>): Decimal { FromInt(if n.Some? then n.value else 0) }

  function Hex(n: nat): char
    requires n < 16
  {
    if n < 10 then ('0' as int + n) as char else ('a' as int + n - 10) as char
  }

  function HexRun(u: Uuid, from: nat, to: nat): string
    requires from <= to <= 32
  {
    seq(to - from, i requires 0 <= i < to - from => Hex(u[from + i]))
  }

  function UuidText(u: Uuid): string {
    HexRun(u, 0, 8) + "-" + HexRun(u, 8, 12) + "-" + HexRun(u, 12, 16) + "-" + HexRun(u, 16, 20) + "-" + HexRun(u, 20, 32)
  }

  // ---------------------------------------------------------------- identity, resource, evidence

  function LlmProvider(e: Event): (string, string) {
    var raw := ToLower(e.provider);
    if Contains(raw, "openai") then ("openai", "responses")
    else if Contains(raw, "anthropic") then ("anthropic", "messages")
    else if Contains(raw, "bedrock") then ("aws", "bedrock")
    else if Contains(raw, "gemini") || raw == "google" then ("google", "generate_content")
    else if Contains(raw, "cohere") then ("cohere", "chat")
    else if Contains(raw, "vercel") then ("vercel", "ai_sdk")
    else if Contains(raw, "langchain") then ("langchain", "chat")
    else (CanonicalName(e.provider, "unknown"), "api")
  }

  function ComputeProvider(e: Event): (string, string) {
    var billing := StringDetail(e.details, ["billing_model"]);
    var name :=
      if HasPrefix(billing, "azure") then "azure"
      else if billing == "gce" || billing == "cloud_functions" || HasPrefix(billing, "cloud_") then "google_cloud"
      else if billing == "vercel_fluid" then "vercel"
      else if billing == "k8s_pod" then "kubernetes"
      else if billing == "lambda" || billing == "fargate" || billing == "ec2" then "aws"
      else CanonicalName(e.provider, "runtime");
    (name, CanonicalName(FirstNonEmpty(billing, e.serviceName), "compute"))
  }

  function GpuProvider(e: Event): (string, string) {
    var billing := StringDetail(e.details, ["billing_model"]);
    if billing == "local_gpu_usage_only" then ("self_hosted", "gpu_compute")
    else
      (CanonicalName(FirstNonEmpty(StringDetail(e.details, ["cloud_provider"]), e.provider), "runtime"),
       CanonicalName(billing, "gpu"))
  }

  function ExternalProvider(e: Event): (string, string) {
    var service := FirstNonEmpty(e.serviceName, "external");
    if HasPrefix(service, "mcp:") then ("mcp", CanonicalName(TrimPrefix(service, "mcp:"), "tool"))
    else if Contains(service, ".") then (CanonicalName(service, "external"), "http_api")
    else (CanonicalName(e.provider, CanonicalName(service, "external")), CanonicalName(service, "api"))
  }

  function ProviderName(e: Event): (string, string) {
    match e.kind
    case LlmCall => LlmProvider(e)
    case ComputeCost => ComputeProvider(e)
    case GpuCost | GpuSignal => GpuProvider(e)
    case Network =>
      (CanonicalName(FirstNonEmpty(StringDetail(e.details, ["cloud_provider"]), e.provider), "internet"), "egress")
    case RetryMarker => ("dexcost", "retry")
    case ExternalCost | OtherType => ExternalProvider(e)
  }

  function ProviderFor(e: Event): Provider {
    var (name, service) := ProviderName(e);
    var record := StringDetail(e.details, ["provider_record_id", "request_id", "call_sid"]);
    var region := StringDetail(e.details, ["region", "cloud_region"]);
    Provider(name, service, if 0 < |record| <= 256 then record else "",
             if region != "" then CanonicalName(region, "unknown") else "")
  }

  function ExplicitResource(e: Event): Option<Resource> {
    var kind := StringDetail(e.details, ["attribution_resource_type"]);
    var id := StringDetail(e.details, ["attribution_resource_id"]);
    if kind != "" && id != "" && kind in Contract.RESOURCE_TYPES then Some(Resource(kind, Truncate(id, 256))) else None
  }

  function ResourceFor(e: Event): Option<Resource> {
    var sku := StringDetail(e.details, ["gpu_sku", "instance_type"]);
    var instance := StringDetail(e.details, ["instance_type", "architecture"]);
    if ExplicitResource(e).Some? then ExplicitResource(e)
    else if e.kind.RetryMarker? && TrimSpace(e.retryReason) != "" then Some(Resource("other", Truncate(TrimSpace(e.retryReason), 256)))
    else if e.model != "" then Some(Resource("model", Truncate(e.model, 256)))
    else if (e.kind.GpuCost? || e.kind.GpuSignal?) && sku != "" then Some(Resource("sku", Truncate(sku, 256)))
    else if e.kind.ComputeCost? && instance != "" then Some(Resource("instance", Truncate(instance, 256)))
    else None
  }

  /** The contract's source for an SDK price, if the recorded source is one. */
  function SdkSource(source: string): string {
    if source == "service_catalog" || source == "litellm" || source == "tokencost" || HasPrefix(source, "compute_catalog:")
       || HasPrefix(source, "gpu_catalog:") || HasPrefix(source, "egress_catalog:") then "sdk_catalog"
    else if source == "rate_registry" then "sdk_rate_registry"
    else ""
  }

  function PricingSource(e: Event): string {
    if e.source == "" && e.kind.Network? then StringDetail(e.details, ["egress_pricing_source"]) else e.source
  }

  /** Source, confidence and version of the evidence, before the amount is looked at. */
  function EvidenceTerms(e: Event): Option<(string, string, string)> {
    var source := PricingSource(e);
    if e.kind.RetryMarker? then Some(("manual", "exact", ""))
    else if source == "provider_response" then Some(("provider_reported", if e.confidence == "exact" then "exact" else "estimated", ""))
    else if source == "manual" || source == "custom" || source == "user_override" then Some(("manual", e.confidence, ""))
    else if SdkSource(source) == "" || e.pricingVersion == "" then None
    else Some((SdkSource(source), if e.confidence == "exact" then "computed" else e.confidence, e.pricingVersion))
  }

  function EvidenceFor(e: Event): Option<CostEvidence> {
    var amount, terms := PositiveQuantity(e.cost), EvidenceTerms(e);
    if amount.None? || terms.None? then None
    else Some(CostEvidence(Decimals.Text(amount.value), "USD", terms.value.0, terms.value.1, terms.value.2))
  }

  // ---------------------------------------------------------------- usage

  /** A usage line before its quantity is written as text. */
  datatype Measure = Measure(metric: string, quantity: Decimal)

  datatype Parts = Parts(component: string, usage: seq<Measure>, duration: Decimal)

  /** Adds a line when the quantity is positive. */
  function AppendUsage(usage: seq<Measure>, metric: string, quantity: Decimal): seq<Measure> {
    var q := PositiveQuantity(quantity);
    if q.Some? then usage + [Measure(metric, q.value)] else usage
  }

  const ONE := Decimal(1, 0)

  /** Providers that report input tokens without the cached ones. */
  predicate SeparateCache(e: Event) {
    var provider := ToLower(e.provider);
    Contains(provider, "anthropic") || Contains(provider, "bedrock") || provider == "aws"
  }

  /** The five token quantities, unless the parts exceed their totals. */
  datatype Tokens = Tokens(input: Decimal, cached: Decimal, cacheWrite: Decimal, output: Decimal, reasoning: Decimal)

  function TokenSplit(read: Reader, e: Event): Option<Tokens> {
    var cached, total, output := Count(e.cachedTokens), Count(e.inputTokens), Count(e.outputTokens);
    var cacheWrite := DecimalOrZero(read, e.details, ["cache_write_input_tokens", "cache_creation_input_tokens"]);
    var reasoning := DecimalOrZero(read, e.details, ["reasoning_output_tokens", "reasoning_tokens"]);
    if !SeparateCache(e) && Greater(Plus(cached, cacheWrite), total) then None
    else if Positive(reasoning) && Greater(reasoning, output) then None
    else
      Some(Tokens(if SeparateCache(e) then total else Minus(Minus(total, cached), cacheWrite), cached, cacheWrite,
                  if Positive(reasoning) then Minus(output, reasoning) else output, reasoning))
  }

  function TokenUsage(t: Tokens): seq<Measure> {
    var a := AppendUsage([], "input_tokens", t.input);
    var b := AppendUsage(a, "cache_read_input_tokens", t.cached);
    var c := AppendUsage(b, "cache_write_input_tokens", t.cacheWrite);
    var d := AppendUsage(c, "output_tokens", t.output);
    AppendUsage(d, "reasoning_output_tokens", t.reasoning)
  }

  function LlmParts(read: Reader, e: Event): Option<Parts> {
    if TrimSpace(StringDetail(e.details, ["openai_usage_error"])) != "" || TokenSplit(read, e).None? then None
    else
      var usage := TokenUsage(TokenSplit(read, e).value);
      Some(Parts("llm", if usage == [] then AppendUsage([], "request_count", ONE) else usage, ZERO))
  }

  function ComputeDuration(read: Reader, e: Event): Decimal {
    var fromMillis := DivThousand(DecimalOrZero(read, e.details, ["duration_ms"]));
    if fromMillis.coef == 0 then DecimalOrZero(read, e.details, ["wall_clock_seconds"]) else fromMillis
  }

  function ComputeUsage(read: Reader, e: Event): seq<Measure> {
    var duration := ComputeDuration(read, e);
    var memory := DecimalDetail(read, e.details, ["memory_bytes_limit", "memory_bytes_peak"]);
    var a := AppendUsage([], "compute_seconds", duration);
    var b := AppendUsage(a, "vcpu_seconds", DecimalOrZero(read, e.details, ["vcpu_seconds_used"]));
    var c := if memory.Some? then AppendUsage(b, "memory_gib_seconds", Times(DivGib(memory.value), duration)) else b;
    AppendUsage(c, "request_count", DecimalOrZero(read, e.details, ["invocation_count"]))
  }

  function GpuParts(read: Reader, e: Event): Parts {
    var duration := DivThousand(DecimalOrZero(read, e.details, ["duration_ms"]));
    var measured := DecimalDetail(read, e.details, ["gpu_seconds_used"]);
    var count := DecimalDetail(read, e.details, ["gpu_count"]);
    var elapsed := Times(duration, if count.Some? then count.value else ONE);
    var billing := StringDetail(e.details, ["billing_model"]);
    var active := billing == "per_gpu_second_active" || billing == "local_gpu_usage_only";
    var billed := if measured.Some? && (active || elapsed.coef == 0) then measured.value else elapsed;
    Parts("gpu", AppendUsage([], "gpu_seconds", billed), duration)
  }

  function NetworkUsage(read: Reader, e: Event): seq<Measure> {
    var a := AppendUsage([], "bytes_out", DecimalOrZero(read, e.details, ["request_bytes"]));
    AppendUsage(a, "bytes_in", DecimalOrZero(read, e.details, ["response_bytes"]))
  }

  function ExternalMetric(e: Event): string {
    var explicit := StringDetail(e.details, ["attribution_usage_metric"]);
    var per := CanonicalName(StringDetail(e.details, ["attribution_usage_per"]), "request");
    if explicit in UNIT_BY_METRIC then explicit
    else if Contains(per, "page") then "page_count"
    else if Contains(per, "credit") then "credit_count"
    else if Contains(per, "image") then "image_count"
    else if Contains(per, "call") then "call_count"
    else if Contains(per, "character") then "characters"
    else "request_count"
  }

  function ExternalParts(read: Reader, e: Event): Parts {
    var quantity := DecimalDetail(read, e.details, ["attribution_usage_quantity"]);
    var component := StringDetail(e.details, ["attribution_component"]);
    Parts(if component == "speech_to_text" || component == "text_to_speech" then component else "external",
          AppendUsage([], ExternalMetric(e), if quantity.Some? then quantity.value else ONE),
          DecimalOrZero(read, e.details, ["attribution_usage_duration_seconds"]))
  }

  function ComponentAndUsage(read: Reader, e: Event): Option<Parts> {
    match e.kind
    case GpuSignal | OtherType => None
    case RetryMarker => Some(Parts("external", AppendUsage([], "request_count", ONE), ZERO))
    case LlmCall => LlmParts(read, e)
    case ComputeCost => Some(Parts("compute", ComputeUsage(read, e), ComputeDuration(read, e)))
    case GpuCost => Some(GpuParts(read, e))
    case Network => Some(Parts("network", NetworkUsage(read, e), ZERO))
    case ExternalCost => Some(ExternalParts(read, e))
  }

  // ---------------------------------------------------------------- the record

  /** Lines of the record: a request count stands in when nothing was measured. */
  function UsageOf(p: Parts): seq<Measure> { if p.usage == [] then AppendUsage([], "request_count", ONE) else p.usage }

  function WrittenLine(m: Measure): UsageLine
    requires m.metric in UNIT_BY_METRIC && Positive(m.quantity)
  {
    UsageLine(m.metric, Decimals.Text(m.quantity), UNIT_BY_METRIC[m.metric])
  }

  predicate WellFormed(usage: seq<Measure>) {
    forall i :: 0 <= i < |usage| ==> usage[i].metric in UNIT_BY_METRIC && Positive(usage[i].quantity) && usage[i].quantity.exp >= -MAX_PLACES
  }

  function WrittenUsage(usage: seq<Measure>): seq<UsageLine>
    requires WellFormed(usage)
  {
    seq(|usage|, i requires 0 <= i < |usage| => WrittenLine(usage[i]))
  }

  predicate MeasuresTime(usage: seq<Measure>)
    requires WellFormed(usage)
  {
    exists i :: 0 <= i < |usage| && HasSuffix(UNIT_BY_METRIC[usage[i].metric], "Seconds")
  }

  const TWO_63 := 0x8000_0000_0000_0000

  /** Signed 64 bit wrap-around. */
  function Wrap(n: int): int { (n + TWO_63) % (2 * TWO_63) - TWO_63 }

  /** A duration in nanoseconds: microseconds rounded half up, both steps in 64 bits. */
  function Offset(duration: Decimal): int {
    if Positive(duration) then Wrap(Wrap(Round(Times(duration, FromInt(1_000_000)), 0).coef) * 1000) else 0
  }

  /** Instants are cut to microseconds when written. */
  function Micros(nanos: int): int { nanos / 1000 }

  /** From the event back to the start of its period: negating the offset wraps as well. */
  function Backward(duration: Decimal): int { Wrap(-Offset(duration)) }

  function StartOf(e: Event, p: Parts): int { Micros(e.at + Backward(p.duration)) }

  predicate HasPeriod(p: Parts)
    requires WellFormed(UsageOf(p))
  {
    MeasuresTime(UsageOf(p)) || Positive(p.duration)
  }

  function PeriodOf(e: Event, p: Parts): Option<UsagePeriod>
    requires WellFormed(UsageOf(p))
  {
    if HasPeriod(p) then Some(UsagePeriod(Timestamps.Format(StartOf(e, p)), Timestamps.Format(Micros(e.at)))) else None
  }

  function Draft(e: Event, p: Parts): EventV2
    requires WellFormed(UsageOf(p))
  {
    var occurred := Timestamps.Format(Micros(e.at));
    EventV2("2", UuidText(e.id), UuidText(e.task), occurred, occurred, p.component, ProviderFor(e), ResourceFor(e),
            "final", 1, PeriodOf(e, p), WrittenUsage(UsageOf(p)), EvidenceFor(e),
            if e.isRetry && e.retryOf.Some? then UuidText(e.retryOf.value) else "")
  }

  /** The converter: a draft that the contract does not accept is dropped. */
  function Convert(read: Reader, e: Event): Option<EventV2> {
    var p := ComponentAndUsage(read, e);
    if p.None? || !WellFormed(UsageOf(p.value)) then None
    else
      var d := Draft(e, p.value);
      if Contract.Accepted(EventJson(d)) then Some(d) else None
  }
}
