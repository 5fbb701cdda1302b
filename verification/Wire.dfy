/** The attribution v2 record and its JSON form. */
module Wire {
  import opened Sequences
  import opened Json

  const UNIT_BY_METRIC: map<string, string> := map[
    "input_tokens" := "Tokens", "output_tokens" := "Tokens", "cache_read_input_tokens" := "Tokens",
    "cache_write_input_tokens" := "Tokens", "reasoning_output_tokens" := "Tokens", "characters" := "Characters",
    "audio_seconds" := "Seconds", "connected_seconds" := "Seconds", "recording_seconds" := "Seconds",
    "agent_seconds" := "Seconds", "compute_seconds" := "Seconds", "vcpu_seconds" := "vCPU-Seconds",
    "memory_gib_seconds" := "GiB-Seconds", "gpu_seconds" := "GPU-Seconds", "request_count" := "Requests",
    "call_count" := "Calls", "bytes_in" := "Bytes", "bytes_out" := "Bytes", "image_count" := "Images",
    "page_count" := "Pages", "credit_count" := "Credits"]

  datatype UsageLine = UsageLine(metric: string, quantity: string, unit: string)

  /** Empty texts are left out of the JSON form. */
  datatype Provider = Provider(name: string, service: string, recordId: string, region: string)

  datatype Resource = Resource(kind: string, id: string)

  datatype CostEvidence =
    CostEvidence(amount: string, currency: string, source: string, confidence: string, pricingVersion: string)

  datatype UsagePeriod = UsagePeriod(startAt: string, endAt: string)

  datatype EventV2 = EventV2(
    schemaVersion: string, eventId: string, taskId: string, occurredAt: string, observedAt: string,
    component: string, provider: Provider, resource: Option<Resource>, state: string, revision: int,
    usagePeriod: Option<UsagePeriod>, usage: seq<UsageLine>, costEvidence: Option<CostEvidence>, retryOf: string)

  function Optional(key: string, text: string): map<string, Value> {
    if text == "" then map[] else map[key := Str(text)]
  }

  function ProviderJson(p: Provider): Value {
    Obj(map["name" := Str(p.name), "service" := Str(p.service)] + Optional("record_id", p.recordId) + Optional("region", p.region))
  }

  function ResourceJson(r: Option<Resource>): Option<Value> {
    if r.None? then None else Some(Obj(map["type" := Str(r.value.kind), "id" := Str(r.value.id)]))
  }

  function LifecycleJson(e: EventV2): Value {
    Obj(map["state" := Str(e.state), "revision" := Num(e.revision as real, true)])
  }

  function PeriodJson(p: Option<UsagePeriod>): Option<Value> {
    if p.None? then None else Some(Obj(map["start_at" := Str(p.value.startAt)] + Optional("end_at", p.value.endAt)))
  }

  function LineJson(line: UsageLine): Value {
    Obj(map["metric" := Str(line.metric), "quantity" := Str(line.quantity), "unit" := Str(line.unit)])
  }

  function UsageJson(usage: seq<UsageLine>): Value { Arr(seq(|usage|, i requires 0 <= i < |usage| => LineJson(usage[i]))) }

  function EvidenceJson(c: Option<CostEvidence>): Option<Value> {
    if c.None? then None
    else
      Some(Obj(map["amount" := Str(c.value.amount), "currency" := Str(c.value.currency), "source" := Str(c.value.source),
                   "confidence" := Str(c.value.confidence)] + Optional("pricing_version", c.value.pricingVersion)))
  }

  /** The members of the record's JSON object; None when the member is left out. */
  function EventMember(e: EventV2, key: string): Option<Value> {
    if key == "schema_version" then Some(Str(e.schemaVersion))
    else if key == "event_id" then Some(Str(e.eventId))
    else if key == "task_id" then Some(Str(e.taskId))
    else if key == "occurred_at" then Some(Str(e.occurredAt))
    else if key == "observed_at" then Some(Str(e.observedAt))
    else if key == "component" then Some(Str(e.component))
    else if key == "provider" then Some(ProviderJson(e.provider))
    else if key == "resource" then ResourceJson(e.resource)
    else if key == "lifecycle" then Some(LifecycleJson(e))
    else if key == "usage_period" then PeriodJson(e.usagePeriod)
    else if key == "usage" then Some(UsageJson(e.usage))
    else if key == "cost_evidence" then EvidenceJson(e.costEvidence)
    else if key == "retry_of" && e.retryOf != "" then Some(Str(e.retryOf))
    else None
  }

  const EVENT_KEYS: set<string> := {
    "schema_version", "event_id", "task_id", "occurred_at", "observed_at", "component", "provider", "resource",
    "lifecycle", "usage_period", "usage", "cost_evidence", "retry_of"}

  function EventJson(e: EventV2): Value {
    Obj(map key | key in EVENT_KEYS && EventMember(e, key).Some? :: EventMember(e, key).value)
  }

  lemma EventLookup(d: EventV2, key: string)
    requires key in EVENT_KEYS
    ensures EventJson(d).fields.Keys <= EVENT_KEYS
    ensures Member(EventJson(d).fields, key) == EventMember(d, key)
  {
  }
}
