/** What the lines of a converted record say about the event, kind by kind. */
module ConvertedLines {
  import opened Sequences
  import opened Decimals
  import opened Names
  import opened Wire
  import opened Attribution
  import opened AttributionContract
  import Timestamps

  // ---------------------------------------------------------------- reading details

  ghost predicate NumberAt(read: Reader, details: map<string, Detail>, key: string, d: Decimal) {
    key in details && Quantity(read, details[key]) == Some(d)
  }

  /** A detail is read from the first of its keys that holds a number. */
  lemma {:induction false} FirstNumber(read: Reader, details: map<string, Detail>, keys: seq<string>)
    ensures match DecimalDetail(read, details, keys)
      case None => forall k, d :: k in keys ==> !NumberAt(read, details, k, d)
      case Some(v) => exists i :: 0 <= i < |keys| && NumberAt(read, details, keys[i], v)
                                  && forall j, d :: 0 <= j < i ==> !NumberAt(read, details, keys[j], d)
  {
    if keys != [] && !(keys[0] in details && Quantity(read, details[keys[0]]).Some?) {
      FirstNumber(read, details, keys[1..]);
      match DecimalDetail(read, details, keys[1..]) {
        case None =>
        case Some(v) =>
          var i :| 0 <= i < |keys[1..]| && NumberAt(read, details, keys[1..][i], v)
                   && forall j, d :: 0 <= j < i ==> !NumberAt(read, details, keys[1..][j], d);
          forall j, d | 0 <= j < i + 1 ensures !NumberAt(read, details, keys[j], d) {
            if j > 0 { assert keys[j] == keys[1..][j - 1]; }
          }
          assert NumberAt(read, details, keys[i + 1], v);
      }
    }
  }

  // ---------------------------------------------------------------- lines against amounts

  predicate Sent(amounts: map<string, Decimal>, metric: string) {
    metric in amounts && PositiveQuantity(amounts[metric]).Some?
  }

  /** One line for every amount that is positive once rounded, denoting it, and no other line. */
  ghost predicate Lists(lines: seq<UsageLine>, amounts: map<string, Decimal>) {
    && (forall i, j :: 0 <= j < i < |lines| ==> lines[j].metric != lines[i].metric)
    && (forall m :: Sent(amounts, m) <==> HasLine(lines, m))
    && (forall i :: 0 <= i < |lines| && Sent(amounts, lines[i].metric) ==> Denotes(lines[i], amounts[lines[i].metric]))
  }

  ghost predicate HasLine(lines: seq<UsageLine>, metric: string) {
    exists i :: 0 <= i < |lines| && lines[i].metric == metric
  }

  ghost predicate Denotes(line: UsageLine, amount: Decimal) {
    var q := PositiveQuantity(amount);
    q.Some? && PlainPositive(line.quantity) && Same(Reading(line.quantity), q.value)
    && line.metric in UNIT_BY_METRIC && line.unit == UNIT_BY_METRIC[line.metric]
  }

  /** One request stands in when nothing is positive. */
  function OrOneRequest(amounts: map<string, Decimal>): map<string, Decimal> {
    if exists m :: m in amounts && PositiveQuantity(amounts[m]).Some? then amounts else map["request_count" := ONE]
  }

  /** The same before the quantities are written. */
  ghost predicate Builds(usage: seq<Measure>, amounts: map<string, Decimal>) {
    && (forall i :: 0 <= i < |usage| ==> Sent(amounts, usage[i].metric)
                                         && usage[i].quantity == PositiveQuantity(amounts[usage[i].metric]).value)
    && (forall m :: Sent(amounts, m) ==> Built(usage, m))
  }

  ghost predicate Built(usage: seq<Measure>, metric: string) {
    exists i :: 0 <= i < |usage| && usage[i].metric == metric
  }

  lemma BuildsAppend(usage: seq<Measure>, amounts: map<string, Decimal>, metric: string, q: Decimal)
    requires Builds(usage, amounts) && metric !in amounts
    ensures Builds(AppendUsage(usage, metric, q), amounts[metric := q])
  {
    var after, all := AppendUsage(usage, metric, q), amounts[metric := q];
    hide PositiveQuantity;
    forall m | Sent(all, m) ensures Built(after, m) {
      if m == metric {
        assert after[|usage|].metric == m;
      } else {
        assert Sent(amounts, m);
        var i :| 0 <= i < |usage| && usage[i].metric == m;
        assert after[i].metric == m;
      }
    }
  }

  lemma BuildsFirst(metric: string, q: Decimal)
    ensures Builds(AppendUsage([], metric, q), map[metric := q])
  {
    BuildsAppend([], map[], metric, q);
    assert map[][metric := q] == map[metric := q];
  }

  lemma BuildsStandIn(p: Parts, amounts: map<string, Decimal>)
    requires Builds(p.usage, amounts)
    ensures Builds(UsageOf(p), OrOneRequest(amounts))
  {
    BuildsFirst("request_count", ONE);
    if p.usage == [] {
      assert forall m :: Sent(amounts, m) ==> Built(p.usage, m);
      hide PositiveQuantity;
      assert forall m :: m in amounts && PositiveQuantity(amounts[m]).Some? ==> Sent(amounts, m);
    } else {
      assert Sent(amounts, p.usage[0].metric);
    }
  }

  lemma BuiltIsWritten(usage: seq<Measure>, amounts: map<string, Decimal>)
    requires Builds(usage, amounts) && WellFormed(usage) && BelowLimit(usage) && DistinctMetrics(usage)
    ensures Lists(WrittenUsage(usage), amounts)
  {
    var lines := WrittenUsage(usage);
    hide PositiveQuantity, PlainPositive, Reading, Same, Greater;
    forall i | 0 <= i < |usage| ensures Denotes(lines[i], amounts[lines[i].metric]) {
      LinesReadBack(usage, i);
    }
    forall m ensures Sent(amounts, m) <==> HasLine(lines, m) {
      if Sent(amounts, m) {
        var i :| 0 <= i < |usage| && usage[i].metric == m;
        assert lines[i].metric == m;
      }
    }
  }

  /** The record, if there is one, lists these amounts. */
  ghost predicate Sends(record: Option<EventV2>, amounts: map<string, Decimal>) {
    record.Some? ==> Lists(record.value.usage, amounts)
  }

  ghost predicate Measures(parts: Option<Parts>, amounts: map<string, Decimal>) {
    parts.Some? ==> Builds(parts.value.usage, amounts)
  }

  lemma RecordLists(read: Reader, e: Event, amounts: map<string, Decimal>)
    requires Measures(ComponentAndUsage(read, e), amounts)
    ensures Sends(Convert(read, e), OrOneRequest(amounts))
  {
    hide Convert, ComponentAndUsage;
    ConvertsIff(read, e);
    if Convert(read, e).None? { return; }
    hide Convert, ComponentAndUsage, Builds, Lists, OrOneRequest;
    var p := ComponentAndUsage(read, e).value;
    BuildsStandIn(p, amounts);
    SendableParts(e, p);
    BuiltIsWritten(UsageOf(p), OrOneRequest(amounts));
  }

  lemma SendableParts(e: Event, p: Parts)
    requires Sendable(p) && Representable(e, p)
    ensures WellFormed(UsageOf(p)) && BelowLimit(UsageOf(p)) && DistinctMetrics(UsageOf(p))
    ensures Draft(e, p).usage == WrittenUsage(UsageOf(p)) && Draft(e, p).component == p.component
  {
  }

  // ---------------------------------------------------------------- kind by kind

  /** Sent bytes go out, received bytes come in. */
  function NetworkAmounts(read: Reader, e: Event): map<string, Decimal> {
    map["bytes_out" := DecimalOrZero(read, e.details, ["request_bytes"]),
        "bytes_in" := DecimalOrZero(read, e.details, ["response_bytes"])]
  }

  lemma NetworkBuilds(read: Reader, e: Event)
    requires e.kind.Network?
    ensures Measures(ComponentAndUsage(read, e), NetworkAmounts(read, e))
  {
    hide DecimalOrZero, AppendUsage, Builds;
    var out, back := DecimalOrZero(read, e.details, ["request_bytes"]), DecimalOrZero(read, e.details, ["response_bytes"]);
    BuildsFirst("bytes_out", out);
    BuildsAppend(AppendUsage([], "bytes_out", out), map["bytes_out" := out], "bytes_in", back);
    assert map["bytes_out" := out]["bytes_in" := back] == NetworkAmounts(read, e);
  }

  /** Milliseconds when there are any, else seconds of wall clock. */
  function ComputeSeconds(read: Reader, e: Event): Decimal {
    var millis := DecimalOrZero(read, e.details, ["duration_ms"]);
    if millis.coef != 0 then Decimal(millis.coef, millis.exp - 3) else DecimalOrZero(read, e.details, ["wall_clock_seconds"])
  }

  /** Seconds as timed, processor seconds and invocations as counted, memory over the time. */
  function ComputeAmounts(read: Reader, e: Event): map<string, Decimal> {
    var memory := DecimalOrZero(read, e.details, ["memory_bytes_limit", "memory_bytes_peak"]);
    map["compute_seconds" := ComputeSeconds(read, e),
        "vcpu_seconds" := DecimalOrZero(read, e.details, ["vcpu_seconds_used"]),
        "memory_gib_seconds" := Times(DivGib(memory), ComputeSeconds(read, e)),
        "request_count" := DecimalOrZero(read, e.details, ["invocation_count"])]
  }

  lemma ComputeBuilds(read: Reader, e: Event)
    requires e.kind.ComputeCost?
    ensures Measures(ComponentAndUsage(read, e), ComputeAmounts(read, e))
  {
    hide AppendUsage, Builds, DecimalDetail;
    var seconds, vcpu := ComputeSeconds(read, e), DecimalOrZero(read, e.details, ["vcpu_seconds_used"]);
    var memory := DecimalOrZero(read, e.details, ["memory_bytes_limit", "memory_bytes_peak"]);
    var calls := DecimalOrZero(read, e.details, ["invocation_count"]);
    FourBuild(seconds, vcpu, Times(DivGib(memory), seconds), calls);
  }

  lemma FourBuild(seconds: Decimal, vcpu: Decimal, gibs: Decimal, calls: Decimal)
    ensures var a := AppendUsage([], "compute_seconds", seconds);
            var b := AppendUsage(a, "vcpu_seconds", vcpu);
            var c := AppendUsage(b, "memory_gib_seconds", gibs);
            && (gibs.coef == 0 ==> c == b)
            && Builds(AppendUsage(c, "request_count", calls), map[
              "compute_seconds" := seconds, "vcpu_seconds" := vcpu, "memory_gib_seconds" := gibs, "request_count" := calls])
  {
    var a := AppendUsage([], "compute_seconds", seconds);
    var b := AppendUsage(a, "vcpu_seconds", vcpu);
    var c := AppendUsage(b, "memory_gib_seconds", gibs);
    assert gibs.coef == 0 ==> c == b;
    BuildsFirst("compute_seconds", seconds);
    hide AppendUsage, Builds;
    var m := map["compute_seconds" := seconds];
    BuildsAppend(a, m, "vcpu_seconds", vcpu);
    m := m["vcpu_seconds" := vcpu];
    BuildsAppend(b, m, "memory_gib_seconds", gibs);
    m := m["memory_gib_seconds" := gibs];
    BuildsAppend(c, m, "request_count", calls);
    assert m["request_count" := calls]
        == map["compute_seconds" := seconds, "vcpu_seconds" := vcpu, "memory_gib_seconds" := gibs, "request_count" := calls];
  }

  /** Measured seconds when billing is by activity or nothing else is known, else elapsed time on every device. */
  function GpuSeconds(read: Reader, e: Event): Decimal {
    var millis := DecimalOrZero(read, e.details, ["duration_ms"]);
    var measured, count := DecimalDetail(read, e.details, ["gpu_seconds_used"]), DecimalDetail(read, e.details, ["gpu_count"]);
    var elapsed := Times(Decimal(millis.coef, millis.exp - 3), if count.Some? then count.value else FromInt(1));
    var active := StringDetail(e.details, ["billing_model"]) in {"per_gpu_second_active", "local_gpu_usage_only"};
    if measured.Some? && (active || elapsed.coef == 0) then measured.value else elapsed
  }

  lemma GpuBuilds(read: Reader, e: Event)
    requires e.kind.GpuCost?
    ensures Measures(ComponentAndUsage(read, e), map["gpu_seconds" := GpuSeconds(read, e)])
  {
    hide AppendUsage, Builds, DecimalDetail, StringDetail;
    BuildsFirst("gpu_seconds", GpuSeconds(read, e));
  }

  lemma RetryBuilds(read: Reader, e: Event)
    requires e.kind.RetryMarker?
    ensures Measures(ComponentAndUsage(read, e), map["request_count" := FromInt(1)])
  {
    hide AppendUsage, Builds;
    BuildsFirst("request_count", ONE);
  }

  // ---------------------------------------------------------------- external calls

  /** What an external call counts, by a word in the unit it is priced per. */
  const PER_WORDS: seq<(string, string)> := [
    ("page", "page_count"), ("credit", "credit_count"), ("image", "image_count"), ("call", "call_count"), ("character", "characters")]

  ghost predicate WordAt(per: string, i: nat)
    requires i < |PER_WORDS|
  {
    Contains(per, PER_WORDS[i].0) && forall j :: 0 <= j < i ==> !Contains(per, PER_WORDS[j].0)
  }

  /** A known metric is taken as named, else the first word found decides, else it is a request. */
  ghost predicate MetricNamed(e: Event, metric: string) {
    var named := StringDetail(e.details, ["attribution_usage_metric"]);
    var per := CanonicalName(StringDetail(e.details, ["attribution_usage_per"]), "request");
    if named in UNIT_BY_METRIC then metric == named
    else (exists i :: 0 <= i < |PER_WORDS| && WordAt(per, i) && metric == PER_WORDS[i].1)
         || (metric == "request_count" && forall i :: 0 <= i < |PER_WORDS| ==> !Contains(per, PER_WORDS[i].0))
  }

  function ExternalQuantity(read: Reader, e: Event): Decimal {
    var quantity := DecimalDetail(read, e.details, ["attribution_usage_quantity"]);
    if quantity.Some? then quantity.value else FromInt(1)
  }

  lemma ExternalNamed(e: Event)
    ensures MetricNamed(e, ExternalMetric(e))
  {
    hide Contains, StringDetail, CanonicalName;
    var per := CanonicalName(StringDetail(e.details, ["attribution_usage_per"]), "request");
    assert PER_WORDS[0].0 == "page" && PER_WORDS[1].0 == "credit" && PER_WORDS[2].0 == "image";
    assert PER_WORDS[3].0 == "call" && PER_WORDS[4].0 == "character";
    var i := if Contains(per, "page") then 0 else if Contains(per, "credit") then 1 else if Contains(per, "image") then 2
             else if Contains(per, "call") then 3 else 4;
    assert Contains(per, PER_WORDS[i].0) ==> WordAt(per, i);
  }

  lemma ExternalBuilds(read: Reader, e: Event)
    requires e.kind.ExternalCost?
    ensures Measures(ComponentAndUsage(read, e), map[ExternalMetric(e) := ExternalQuantity(read, e)])
  {
    hide AppendUsage, Builds, DecimalDetail, StringDetail, ExternalMetric;
    BuildsFirst(ExternalMetric(e), ExternalQuantity(read, e));
  }

  // ---------------------------------------------------------------- model calls

  /** Tokens by metric: cached and reasoning ones come off the totals unless the provider reports them beside. */
  function TokenAmounts(read: Reader, e: Event): map<string, Decimal> {
    var total, cached, output := Count(e.inputTokens), Count(e.cachedTokens), Count(e.outputTokens);
    var written := DecimalOrZero(read, e.details, ["cache_write_input_tokens", "cache_creation_input_tokens"]);
    var reasoning := DecimalOrZero(read, e.details, ["reasoning_output_tokens", "reasoning_tokens"]);
    var name := ToLower(e.provider);
    var beside := Contains(name, "anthropic") || Contains(name, "bedrock") || name == "aws";
    map["input_tokens" := if beside then total else Minus(Minus(total, cached), written),
        "cache_read_input_tokens" := cached,
        "cache_write_input_tokens" := written,
        "output_tokens" := if Positive(reasoning) then Minus(output, reasoning) else output,
        "reasoning_output_tokens" := reasoning]
  }

  ghost predicate TokensAre(t: Tokens, amounts: map<string, Decimal>) {
    amounts == map["input_tokens" := t.input, "cache_read_input_tokens" := t.cached, "cache_write_input_tokens" := t.cacheWrite,
                   "output_tokens" := t.output, "reasoning_output_tokens" := t.reasoning]
  }

  lemma FiveBuild(t: Tokens, amounts: map<string, Decimal>)
    requires TokensAre(t, amounts)
    ensures Builds(TokenUsage(t), amounts)
  {
    hide AppendUsage, Builds;
    var a := AppendUsage([], "input_tokens", t.input);
    var b := AppendUsage(a, "cache_read_input_tokens", t.cached);
    var c := AppendUsage(b, "cache_write_input_tokens", t.cacheWrite);
    var d := AppendUsage(c, "output_tokens", t.output);
    BuildsFirst("input_tokens", t.input);
    var m := map["input_tokens" := t.input];
    BuildsAppend(a, m, "cache_read_input_tokens", t.cached);
    m := m["cache_read_input_tokens" := t.cached];
    BuildsAppend(b, m, "cache_write_input_tokens", t.cacheWrite);
    m := m["cache_write_input_tokens" := t.cacheWrite];
    BuildsAppend(c, m, "output_tokens", t.output);
    m := m["output_tokens" := t.output];
    BuildsAppend(d, m, "reasoning_output_tokens", t.reasoning);
    assert m["reasoning_output_tokens" := t.reasoning] == amounts;
  }

  lemma SplitAmounts(read: Reader, e: Event)
    requires TokenSplit(read, e).Some?
    ensures TokensAre(TokenSplit(read, e).value, TokenAmounts(read, e))
  {
    hide DecimalOrZero, Contains, ToLower, Greater, Plus, Minus;
  }

  lemma LlmBuilds(read: Reader, e: Event)
    requires e.kind.LlmCall?
    ensures Measures(ComponentAndUsage(read, e), OrOneRequest(TokenAmounts(read, e)))
  {
    hide TokenUsage, TokenSplit, OrOneRequest, Builds, StringDetail, TrimSpace;
    var split := TokenSplit(read, e);
    if split.Some? {
      SplitAmounts(read, e);
      FiveBuild(split.value, TokenAmounts(read, e));
      BuildsStandIn(Parts("llm", TokenUsage(split.value), ZERO), TokenAmounts(read, e));
    }
  }

  // ---------------------------------------------------------------- every kind

  /** What an event of each kind measures. */
  ghost predicate AmountsOf(read: Reader, e: Event, amounts: map<string, Decimal>) {
    match e.kind
    case Network => amounts == NetworkAmounts(read, e)
    case ComputeCost => amounts == ComputeAmounts(read, e)
    case GpuCost => amounts == map["gpu_seconds" := GpuSeconds(read, e)]
    case RetryMarker => amounts == map["request_count" := FromInt(1)]
    case ExternalCost => exists metric :: MetricNamed(e, metric) && amounts == map[metric := ExternalQuantity(read, e)]
    case LlmCall => amounts == OrOneRequest(TokenAmounts(read, e))
    case GpuSignal | OtherType => amounts == map[]
  }

  lemma EventMeasures(read: Reader, e: Event) returns (amounts: map<string, Decimal>)
    ensures AmountsOf(read, e, amounts) && Measures(ComponentAndUsage(read, e), amounts)
  {
    hide NetworkAmounts, ComputeAmounts, GpuSeconds, TokenAmounts, MetricNamed, ExternalQuantity, ExternalMetric, Builds, OrOneRequest;
    match e.kind {
      case Network => NetworkBuilds(read, e); amounts := NetworkAmounts(read, e);
      case ComputeCost => ComputeBuilds(read, e); amounts := ComputeAmounts(read, e);
      case GpuCost => GpuBuilds(read, e); amounts := map["gpu_seconds" := GpuSeconds(read, e)];
      case RetryMarker => RetryBuilds(read, e); amounts := map["request_count" := FromInt(1)];
      case ExternalCost =>
        ExternalNamed(e); ExternalBuilds(read, e);
        amounts := map[ExternalMetric(e) := ExternalQuantity(read, e)];
      case LlmCall => LlmBuilds(read, e); amounts := OrOneRequest(TokenAmounts(read, e));
      case GpuSignal | OtherType => amounts := map[];
    }
  }

  /**
   A converted record has exactly one line for each amount its kind measures that is positive once
   rounded, and the line denotes that amount.
   */
  lemma ConvertedAmounts(read: Reader, e: Event) returns (amounts: map<string, Decimal>)
    ensures AmountsOf(read, e, amounts)
    ensures Convert(read, e).Some? ==> Lists(Convert(read, e).value.usage, OrOneRequest(amounts))
  {
    amounts := EventMeasures(read, e);
    hide Convert, Lists;
    RecordLists(read, e, amounts);
  }

  // ---------------------------------------------------------------- which events are measured

  /** Neither a signal nor an unknown kind, and a model call whose parts stay within its totals. */
  ghost predicate Measurable(read: Reader, e: Event) {
    match e.kind
    case GpuSignal | OtherType => false
    case LlmCall =>
      var total, cached, output := Count(e.inputTokens), Count(e.cachedTokens), Count(e.outputTokens);
      var written := DecimalOrZero(read, e.details, ["cache_write_input_tokens", "cache_creation_input_tokens"]);
      var reasoning := DecimalOrZero(read, e.details, ["reasoning_output_tokens", "reasoning_tokens"]);
      var name := ToLower(e.provider);
      && TrimSpace(StringDetail(e.details, ["openai_usage_error"])) == ""
      && (Contains(name, "anthropic") || Contains(name, "bedrock") || name == "aws" || !Greater(Plus(cached, written), total))
      && (reasoning.coef <= 0 || !Greater(reasoning, output))
    case _ => true
  }

  lemma MeasuredIff(read: Reader, e: Event)
    ensures ComponentAndUsage(read, e).Some? <==> Measurable(read, e)
  {
    hide DecimalOrZero, StringDetail, Contains, ToLower, Greater, Plus, Minus, AppendUsage;
  }

  // ---------------------------------------------------------------- the rest of the record

  predicate ComponentFits(e: Event, component: string) {
    match e.kind
    case LlmCall => component == "llm"
    case ComputeCost => component == "compute"
    case GpuCost => component == "gpu"
    case Network => component == "network"
    case ExternalCost =>
      var named := StringDetail(e.details, ["attribution_component"]);
      if named in {"speech_to_text", "text_to_speech"} then component == named else component == "external"
    case _ => component == "external"
  }

  /** How long the measured thing took. */
  function Elapsed(read: Reader, e: Event): Decimal {
    match e.kind
    case ComputeCost => ComputeSeconds(read, e)
    case GpuCost => var millis := DecimalOrZero(read, e.details, ["duration_ms"]); Decimal(millis.coef, millis.exp - 3)
    case ExternalCost => DecimalOrZero(read, e.details, ["attribution_usage_duration_seconds"])
    case _ => ZERO
  }

  lemma PartsSay(read: Reader, e: Event)
    requires ComponentAndUsage(read, e).Some?
    ensures var p := ComponentAndUsage(read, e).value; ComponentFits(e, p.component) && p.duration == Elapsed(read, e)
  {
    hide DecimalDetail, StringDetail, AppendUsage, TokenSplit, TokenUsage, NetworkUsage, ComputeUsage, ExternalMetric;
  }

  /** A record names its event, task and retry, carries the event's instant, and the component of its kind. */
  lemma RecordSays(read: Reader, e: Event)
    requires Convert(read, e).Some?
    ensures var d := Convert(read, e).value;
            && d.eventId == UuidText(e.id) && d.taskId == UuidText(e.task)
            && d.retryOf == (if e.isRetry && e.retryOf.Some? then UuidText(e.retryOf.value) else "")
            && Timestamps.Parse(d.occurredAt) == Timestamps.Instant(e.at / 1000) && d.observedAt == d.occurredAt
            && ComponentFits(e, d.component) && d.state == "final" && d.revision == 1
  {
    hide Convert, ComponentAndUsage, UuidText, Timestamps.Format, Timestamps.Parse, ComponentFits;
    ConvertsIff(read, e);
    PartsSay(read, e);
    hide Sendable;
    Timestamps.FormatReads(Micros(e.at));
    var p := ComponentAndUsage(read, e).value;
    SendableForm(p);
  }

  predicate TimeLine(line: UsageLine) { HasSuffix(line.unit, "Seconds") }

  /** The period, present when time was measured, ends at the event and lasts as long as what it measured. */
  ghost predicate PeriodSaid(e: Event, usage: seq<UsageLine>, period: Option<UsagePeriod>, elapsed: Decimal) {
    && (period.Some? <==> Positive(elapsed) || exists line :: line in usage && TimeLine(line))
    && (period.Some? ==> PeriodReads(e, period.value, elapsed))
  }

  ghost predicate PeriodReads(e: Event, period: UsagePeriod, elapsed: Decimal) {
    && Timestamps.Parse(period.endAt) == Timestamps.Instant(e.at / 1000)
    && (!Positive(elapsed) ==> period.startAt == period.endAt)
    && (Positive(elapsed) && Nanos(elapsed) <= TWO_63 ==>
      Timestamps.Parse(period.startAt) == Timestamps.Instant((e.at - Nanos(elapsed)) / 1000))
  }

  lemma PeriodSays(read: Reader, e: Event)
    requires Convert(read, e).Some?
    ensures var d := Convert(read, e).value; PeriodSaid(e, d.usage, d.usagePeriod, Elapsed(read, e))
  {
    hide Convert, ComponentAndUsage, PeriodSaid, Elapsed;
    ConvertsIff(read, e);
    PartsSay(read, e);
    hide Sendable;
    var p := ComponentAndUsage(read, e).value;
    DraftMembers(e, p);
    RepresentableIff(e, p);
    SendableForm(p);
    DraftPeriodSaid(e, p);
  }

  lemma DraftPeriodSaid(e: Event, p: Parts)
    requires WellFormed(UsageOf(p)) && YearFits(Micros(e.at)) && (HasPeriod(p) ==> YearFits(StartOf(e, p)))
    ensures PeriodSaid(e, WrittenUsage(UsageOf(p)), PeriodOf(e, p), p.duration)
  {
    TimeLines(UsageOf(p));
    hide UsageOf, YearFits, MeasuresTime, TimeLine, WrittenUsage, WellFormed, PeriodReads, StartOf, Timestamps.Format;
    if HasPeriod(p) { PeriodTexts(e, p); }
  }

  lemma PeriodTexts(e: Event, p: Parts)
    requires YearFits(Micros(e.at)) && YearFits(StartOf(e, p))
    ensures PeriodReads(e, UsagePeriod(Timestamps.Format(StartOf(e, p)), Timestamps.Format(Micros(e.at))), p.duration)
  {
    hide Timestamps.Format, Timestamps.Parse, Timestamps.Year, Nanos, Backward;
    Timestamps.FormatReads(Micros(e.at));
    Timestamps.FormatReads(StartOf(e, p));
    if Positive(p.duration) { PeriodExactIff(e, p); } else { NoOffset(p.duration); }
  }

  lemma NoOffset(duration: Decimal)
    requires !Positive(duration)
    ensures Backward(duration) == 0
  {
  }

  lemma TimeLines(usage: seq<Measure>)
    requires WellFormed(usage)
    ensures MeasuresTime(usage) <==> exists line :: line in WrittenUsage(usage) && TimeLine(line)
  {
    var lines := WrittenUsage(usage);
    if MeasuresTime(usage) {
      var i :| 0 <= i < |usage| && HasSuffix(UNIT_BY_METRIC[usage[i].metric], "Seconds");
      assert lines[i] in lines && TimeLine(lines[i]);
    }
  }

  // ---------------------------------------------------------------- the price

  /** Prices from an SDK catalogue or registry. */
  predicate Catalogued(source: string) {
    || source in {"service_catalog", "litellm", "tokencost", "rate_registry"}
    || HasPrefix(source, "compute_catalog:") || HasPrefix(source, "gpu_catalog:") || HasPrefix(source, "egress_catalog:")
  }

  function PriceSource(e: Event): string {
    if e.source == "" && e.kind.Network? then StringDetail(e.details, ["egress_pricing_source"]) else e.source
  }

  /**
   Who vouches for the price: a person, the provider, or the SDK, which never claims to be exact and must
   say from which version of its prices.
   */
  predicate Vouched(e: Event, source: string, c: CostEvidence) {
    if e.kind.RetryMarker? then c.source == "manual" && c.confidence == "exact"
    else if source == "provider_response" then
      c.source == "provider_reported" && c.confidence == (if e.confidence == "exact" then "exact" else "estimated")
    else if source in {"manual", "custom", "user_override"} then c.source == "manual" && c.confidence == e.confidence
    else
      && Catalogued(source) && c.source == (if source == "rate_registry" then "sdk_rate_registry" else "sdk_catalog")
      && c.confidence == (if e.confidence == "exact" then "computed" else e.confidence)
      && c.pricingVersion == e.pricingVersion != ""
  }

  predicate Unvouched(e: Event, source: string) {
    && !e.kind.RetryMarker? && source !in {"provider_response", "manual", "custom", "user_override"}
    && (!Catalogued(source) || e.pricingVersion == "")
  }

  /** A price is evidence when it is positive and somebody vouches for it, and its amount denotes the cost. */
  ghost predicate PriceSaid(e: Event, evidence: Option<CostEvidence>) {
    match evidence
    case None => PositiveQuantity(e.cost).None? || Unvouched(e, PriceSource(e))
    case Some(c) =>
      && PositiveQuantity(e.cost).Some? && PlainPositive(c.amount) && Same(Reading(c.amount), PositiveQuantity(e.cost).value)
      && c.currency == "USD" && Vouched(e, PriceSource(e), c)
  }

  lemma PriceSays(read: Reader, e: Event)
    requires Convert(read, e).Some?
    ensures PriceSaid(e, Convert(read, e).value.costEvidence)
  {
    hide Convert, ComponentAndUsage, PriceSaid, EvidenceFor;
    ConvertsIff(read, e);
    hide Sendable, EvidenceFits;
    EvidenceSaid(e);
    SendableForm(ComponentAndUsage(read, e).value);
  }

  lemma EvidenceSaid(e: Event)
    requires EvidenceFits(e)
    ensures PriceSaid(e, EvidenceFor(e))
  {
    TermsSaid(e);
    var amount := PositiveQuantity(e.cost);
    if amount.Some? { QuantityText(amount.value); }
    hide PositiveQuantity, PlainPositive, Reading, Same, Greater, PriceSource, EvidenceTerms, Vouched, Unvouched;
  }

  /** The terms before the amount is looked at. */
  lemma TermsSaid(e: Event)
    ensures match EvidenceTerms(e)
      case None => Unvouched(e, PriceSource(e))
      case Some(t) => forall amount: string :: Vouched(e, PriceSource(e), CostEvidence(amount, "USD", t.0, t.1, t.2))
  {
    hide StringDetail;
    assert "rate_registry"[0] == 'r' && "compute_catalog:"[0] == 'c' && "gpu_catalog:"[0] == 'g' && "egress_catalog:"[0] == 'e';
  }

  // ---------------------------------------------------------------- who was called

  /** Model providers by a word in the recorded name: what the record calls them and their service. */
  const MODEL_PROVIDERS: seq<(string, string, string)> := [
    ("openai", "openai", "responses"), ("anthropic", "anthropic", "messages"), ("bedrock", "aws", "bedrock"),
    ("gemini", "google", "generate_content"), ("cohere", "cohere", "chat"), ("vercel", "vercel", "ai_sdk"),
    ("langchain", "langchain", "chat")]

  ghost predicate Named(raw: string, i: nat)
    requires i < |MODEL_PROVIDERS|
  {
    Contains(raw, MODEL_PROVIDERS[i].0) || (MODEL_PROVIDERS[i].1 == "google" && raw == "google")
  }

  /** The first listed word decides, and an unlisted provider keeps its own name. */
  lemma ModelProvider(read: Reader, e: Event) returns (i: nat)
    requires e.kind.LlmCall? && Convert(read, e).Some?
    ensures i <= |MODEL_PROVIDERS| && forall j :: 0 <= j < i ==> !Named(ToLower(e.provider), j)
    ensures var p := Convert(read, e).value.provider;
            if i < |MODEL_PROVIDERS|
              then Named(ToLower(e.provider), i) && p.name == MODEL_PROVIDERS[i].1 && p.service == MODEL_PROVIDERS[i].2
              else p.name == CanonicalName(e.provider, "unknown") && p.service == "api"
  {
    hide Convert, ComponentAndUsage;
    ConvertsIff(read, e);
    hide Sendable, Representable, CanonicalName, StringDetail;
    SendableForm(ComponentAndUsage(read, e).value);
    i := FirstNamed(e);
    assert Convert(read, e).value.provider == ProviderFor(e);
  }

  lemma FirstNamed(e: Event) returns (i: nat)
    requires e.kind.LlmCall?
    ensures i <= |MODEL_PROVIDERS| && forall j :: 0 <= j < i ==> !Named(ToLower(e.provider), j)
    ensures var p := ProviderFor(e);
            if i < |MODEL_PROVIDERS|
              then Named(ToLower(e.provider), i) && p.name == MODEL_PROVIDERS[i].1 && p.service == MODEL_PROVIDERS[i].2
              else p.name == CanonicalName(e.provider, "unknown") && p.service == "api"
  {
    hide Contains, CanonicalName, StringDetail, ToLower;
    var raw := ToLower(e.provider);
    assert MODEL_PROVIDERS[0] == ("openai", "openai", "responses") && MODEL_PROVIDERS[1] == ("anthropic", "anthropic", "messages");
    assert MODEL_PROVIDERS[2] == ("bedrock", "aws", "bedrock") && MODEL_PROVIDERS[3] == ("gemini", "google", "generate_content");
    assert MODEL_PROVIDERS[4] == ("cohere", "cohere", "chat") && MODEL_PROVIDERS[5] == ("vercel", "vercel", "ai_sdk");
    assert MODEL_PROVIDERS[6] == ("langchain", "langchain", "chat") && "google"[0] == 'g';
    i := if Contains(raw, "openai") then 0 else if Contains(raw, "anthropic") then 1 else if Contains(raw, "bedrock") then 2
         else if Contains(raw, "gemini") || raw == "google" then 3 else if Contains(raw, "cohere") then 4
         else if Contains(raw, "vercel") then 5 else if Contains(raw, "langchain") then 6 else 7;
    assert forall j :: 0 <= j < 7 && j != 3 ==> MODEL_PROVIDERS[j].1[0] != 'g';
  }
}
