/** What the lines and the status of an attribution v3 observation say about the event. */
module ObservedLines {
  import opened Sequences
  import opened Decimals
  import opened Names
  import opened Wire
  import opened Attribution
  import opened AttributionContract
  import opened ConvertedLines
  import O = Observation

  /** One line, in its own unit, for each amount that is positive once rounded, and no other line. */
  ghost predicate ListsUnits(usage: seq<O.UnitMeasure>, amounts: map<string, Decimal>) {
    && (forall i :: 0 <= i < |usage| ==> UnitOf(usage[i], amounts))
    && (forall m :: Sent(amounts, m) ==> HasUnit(usage, m))
    && forall i, j :: 0 <= i < j < |usage| ==> usage[i].metric != usage[j].metric
  }

  ghost predicate UnitOf(u: O.UnitMeasure, amounts: map<string, Decimal>) {
    && Sent(amounts, u.metric) && u.quantity == PositiveQuantity(amounts[u.metric]).value
    && u.metric in UNIT_BY_METRIC && u.unit == UNIT_BY_METRIC[u.metric]
  }

  ghost predicate HasUnit(usage: seq<O.UnitMeasure>, metric: string) {
    exists i :: 0 <= i < |usage| && usage[i].metric == metric
  }

  /** A metric of the caller's own, with its unit and a positive quantity. */
  predicate OwnMetric(read: Reader, e: Event) {
    var metric := TrimSpace(StringDetail(e.details, ["attribution_usage_metric"]));
    var quantity := DecimalDetail(read, e.details, ["attribution_usage_quantity"]);
    && e.kind.ExternalCost? && IsCanonical(metric) && metric !in UNIT_BY_METRIC
    && quantity.Some? && PositiveQuantity(quantity.value).Some?
    && O.IsUnit(TrimSpace(StringDetail(e.details, ["attribution_usage_unit"])))
  }

  /** What a utilization signal reports: metric, detail and unit. */
  const SIGNALS: seq<(string, string, string)> := [
    ("gpu.sm_utilization_percent", "sm_util_pct", "Percent"), ("gpu.memory_utilization_percent", "mem_util_pct", "Percent"),
    ("gpu.vram_peak_bytes", "vram_used_peak_bytes", "Bytes"), ("gpu.vram_capacity_bytes", "vram_total_bytes", "Bytes"),
    ("gpu.process_count", "process_count", "Processes"), ("gpu.sample_count", "sample_count", "Samples")]

  ghost predicate SignalAt(read: Reader, e: Event, i: nat, u: O.UnitMeasure)
    requires i < |SIGNALS|
  {
    var q := DecimalDetail(read, e.details, [SIGNALS[i].1]);
    q.Some? && PositiveQuantity(q.value) == Some(u.quantity) && u.metric == SIGNALS[i].0 && u.unit == SIGNALS[i].2
  }

  ghost predicate SignalSaid(read: Reader, e: Event, u: O.UnitMeasure) {
    exists i :: 0 <= i < |SIGNALS| && SignalAt(read, e, i, u)
  }

  /** A signal's lines are its positive readings. */
  lemma SignalReadings(read: Reader, e: Event, u: O.UnitMeasure)
    ensures u in O.SignalUsage(read, e) <==> SignalSaid(read, e, u)
  {
    hide DecimalDetail, O.AppendUnit;
    var a := AppendIn(read, e, [], 0, u);
    var b := AppendIn(read, e, a, 1, u);
    var c := AppendIn(read, e, b, 2, u);
    var d := AppendIn(read, e, c, 3, u);
    var f := AppendIn(read, e, d, 4, u);
    var g := AppendIn(read, e, f, 5, u);
    SignalTable();
    hide SIGNALS, SignalAt;
    assert O.SignalUsage(read, e) == g;
    assert SignalSaid(read, e, u) <==>
             SignalAt(read, e, 0, u) || SignalAt(read, e, 1, u) || SignalAt(read, e, 2, u)
             || SignalAt(read, e, 3, u) || SignalAt(read, e, 4, u) || SignalAt(read, e, 5, u);
  }

  lemma AppendIn(read: Reader, e: Event, before: seq<O.UnitMeasure>, i: nat, u: O.UnitMeasure) returns (after: seq<O.UnitMeasure>)
    requires i < |SIGNALS|
    ensures after == O.AppendUnit(before, SIGNALS[i].0, DecimalDetail(read, e.details, [SIGNALS[i].1]), SIGNALS[i].2)
    ensures u in after <==> u in before || SignalAt(read, e, i, u)
  {
    hide DecimalDetail, PositiveQuantity, SIGNALS;
    after := O.AppendUnit(before, SIGNALS[i].0, DecimalDetail(read, e.details, [SIGNALS[i].1]), SIGNALS[i].2);
  }

  lemma SignalTable()
    ensures |SIGNALS| == 6
    ensures SIGNALS[0] == ("gpu.sm_utilization_percent", "sm_util_pct", "Percent")
    ensures SIGNALS[1] == ("gpu.memory_utilization_percent", "mem_util_pct", "Percent")
    ensures SIGNALS[2] == ("gpu.vram_peak_bytes", "vram_used_peak_bytes", "Bytes")
    ensures SIGNALS[3] == ("gpu.vram_capacity_bytes", "vram_total_bytes", "Bytes")
    ensures SIGNALS[4] == ("gpu.process_count", "process_count", "Processes")
    ensures SIGNALS[5] == ("gpu.sample_count", "sample_count", "Samples")
  {
  }

  lemma KnownUnits(usage: seq<Measure>, amounts: map<string, Decimal>)
    requires Builds(usage, amounts) && WellFormed(usage) && DistinctMetrics(usage)
    ensures ListsUnits(O.KnownLines(usage), amounts)
  {
    hide PositiveQuantity;
    var lines := O.KnownLines(usage);
    forall m | Sent(amounts, m) ensures HasUnit(lines, m) {
      var i :| 0 <= i < |usage| && usage[i].metric == m;
      assert lines[i].metric == m;
    }
  }

  /** What is mapped: the caller's own metric, a signal's readings, or the amounts of the event's kind. */
  ghost predicate UsageSaid(read: Reader, e: Event, amounts: map<string, Decimal>, usage: seq<O.UnitMeasure>) {
    if e.kind.GpuSignal? then forall u :: u in usage <==> SignalSaid(read, e, u)
    else if OwnMetric(read, e) then
      usage == [O.UnitMeasure(TrimSpace(StringDetail(e.details, ["attribution_usage_metric"])),
                              PositiveQuantity(DecimalDetail(read, e.details, ["attribution_usage_quantity"]).value).value,
                              TrimSpace(StringDetail(e.details, ["attribution_usage_unit"])))]
    else ListsUnits(usage, amounts)
  }

  lemma OwnUsage(read: Reader, e: Event)
    ensures O.UnknownUsage(read, e).Some? <==> OwnMetric(read, e)
    ensures OwnMetric(read, e) && !e.kind.GpuSignal? ==> UsageSaid(read, e, map[], O.UnknownUsage(read, e).value.usage)
  {
    hide PositiveQuantity, DecimalDetail, StringDetail, TrimSpace, IsCanonical, O.IsUnit;
  }

  lemma MappedAmounts(read: Reader, printed: Decimal -> string, e: Event) returns (amounts: map<string, Decimal>)
    requires O.MappedUsage(read, e, printed).Some?
    ensures AmountsOf(read, e, amounts)
    ensures UsageSaid(read, e, amounts, O.MappedUsage(read, e, printed).value.usage)
  {
    hide Builds, ListsUnits, AmountsOf, ComponentAndUsage, O.UnknownUsage, OwnMetric, O.SignalUsage, SignalSaid, Sendable, DecimalDetail,
         StringDetail, TrimSpace, PositiveQuantity;
    amounts := EventMeasures(read, e);
    OwnUsage(read, e);
    if e.kind.GpuSignal? {
      forall u ensures u in O.SignalUsage(read, e) <==> SignalSaid(read, e, u) { SignalReadings(read, e, u); }
    } else if !OwnMetric(read, e) {
      PartsSendable(read, e);
      KnownParts(ComponentAndUsage(read, e).value);
      KnownUnits(ComponentAndUsage(read, e).value.usage, amounts);
    }
  }

  lemma KnownParts(p: Parts)
    requires Sendable(p)
    ensures DistinctMetrics(p.usage)
  {
  }

  /** An observation's lines: metric, quantity and unit as mapped. */
  ghost predicate Unlabelled(lines: seq<O.Line>, usage: seq<O.UnitMeasure>) {
    |lines| == |usage|
    && forall i :: 0 <= i < |lines| ==> O.UnitMeasure(lines[i].metric, lines[i].quantity, lines[i].unit) == usage[i]
  }

  /** The lines of an observation are what the event measured, each in the unit of its metric. */
  lemma ObservedAmounts(schema: O.Observation -> bool, lineIds: O.LineIds, read: Reader, printed: Decimal -> string,
                        components: set<string>, e: Event) returns (amounts: map<string, Decimal>, usage: seq<O.UnitMeasure>)
    requires O.ToObservation(schema, lineIds, read, printed, components, e).Some?
    ensures AmountsOf(read, e, amounts) && UsageSaid(read, e, amounts, usage)
    ensures Unlabelled(O.ToObservation(schema, lineIds, read, printed, components, e).value.usage, usage)
  {
    hide O.MappedUsage, AmountsOf, UsageSaid, O.ExplicitDimensions, O.RawDimensions, O.LineageOf, O.SelectedComponent,
         O.OperationStatus, O.Semantics;
    usage := O.MappedUsage(read, e, printed).value.usage;
    amounts := MappedAmounts(read, printed, e);
  }

  /** A stated status is kept; otherwise a signal's is unknown, and a retry or an error makes a call failed. */
  lemma StatusSays(schema: O.Observation -> bool, lineIds: O.LineIds, read: Reader, printed: Decimal -> string,
                   components: set<string>, e: Event)
    requires O.ToObservation(schema, lineIds, read, printed, components, e).Some?
    ensures var status := O.ToObservation(schema, lineIds, read, printed, components, e).value.status;
            var stated := TrimSpace(StringDetail(e.details, ["attribution_operation_status"]));
            var failed := e.kind.RetryMarker? || e.errorType != "" || StringDetail(e.details, ["error_type"]) != "";
            && status in {"succeeded", "failed", "cancelled", "unknown"} && stated != "in_progress"
            && (stated in {"succeeded", "failed", "cancelled", "unknown"} ==> status == stated)
            && (stated !in {"succeeded", "failed", "cancelled", "unknown"} ==>
                  status == if e.kind.GpuSignal? then "unknown" else if failed then "failed" else "succeeded")
  {
    hide O.MappedUsage, O.ExplicitDimensions, O.RawDimensions, O.LineageOf, O.SelectedComponent, StringDetail, TrimSpace;
  }
}
