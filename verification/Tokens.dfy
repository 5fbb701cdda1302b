/** Provider token usage, its disjoint billing buckets, and what they cost. */
module Tokens {
  import opened Sequences
  import opened Json

  const TWO_63 := 0x8000_0000_0000_0000

  function Wrap(n: int): int { (n + TWO_63) % (2 * TWO_63) - TWO_63 }

  datatype Usage = Usage(totalInput: int, input: int, cacheRead: int, cacheWrite: int,
                         totalOutput: int, output: int, reasoning: int)

  datatype Normalized = Buckets(usage: Usage) | Invalid(reason: string)

  /** A non-negative integral number within 64 bits. */
  function TokenCounter(v: Value): (r: Option<int>)
    ensures r.Some? ==> 0 <= r.value < TWO_63
  {
    if v.Num? && 0.0 <= v.n < TWO_63 as real && v.n == v.n.Floor as real then Some(v.n.Floor) else None
  }

  function OptionalCounter(v: Option<Value>): (r: Option<int>)
    ensures r.Some? ==> 0 <= r.value < TWO_63
  {
    if v.None? || v.value.Null? then Some(0) else TokenCounter(v.value)
  }

  function Either(usage: map<string, Value>, a: string, b: string): Option<Value> {
    if a in usage then Some(usage[a]) else Member(usage, b)
  }

  function DetailsOf(usage: map<string, Value>, a: string, b: string): Option<map<string, Value>> {
    if a in usage && usage[a].Obj? then Some(usage[a].fields)
    else if b in usage && usage[b].Obj? then Some(usage[b].fields)
    else None
  }

  /** Chat Completions or Responses API usage, split into buckets that do not overlap. */
  function NormalizeOpenAIUsage(usage: map<string, Value>): Normalized {
    var rawInput, rawOutput := Either(usage, "prompt_tokens", "input_tokens"), Either(usage, "completion_tokens", "output_tokens");
    if rawInput.None? || rawOutput.None? then Invalid("usage is missing input or output token totals")
    else
      var totalInput, totalOutput := TokenCounter(rawInput.value), TokenCounter(rawOutput.value);
      var inputDetails := DetailsOf(usage, "prompt_tokens_details", "input_tokens_details");
      var outputDetails := DetailsOf(usage, "completion_tokens_details", "output_tokens_details");
      var cached := OptionalCounter(if inputDetails.Some? then Member(inputDetails.value, "cached_tokens") else Member(usage, "cached_tokens"));
      var write := OptionalCounter(if inputDetails.Some? then Member(inputDetails.value, "cache_write_tokens") else None);
      var reasoning := OptionalCounter(if outputDetails.Some? then Member(outputDetails.value, "reasoning_tokens") else None);
      if totalInput.None? || totalOutput.None? || cached.None? || write.None? || reasoning.None?
        then Invalid("token counters must be non-negative integers")
      else Split(totalInput.value, cached.value, write.value, totalOutput.value, reasoning.value)
  }

  /** Sums and differences wrap at 64 bits. */
  function Split(totalInput: int, cached: int, write: int, totalOutput: int, reasoning: int): Normalized {
    if Wrap(cached + write) > totalInput then Invalid("cache token buckets exceed total input tokens")
    else if reasoning > totalOutput then Invalid("reasoning tokens exceed total output tokens")
    else Buckets(Usage(totalInput, Wrap(totalInput - cached - write), cached, write, totalOutput, totalOutput - reasoning, reasoning))
  }

  predicate Conserved(u: Usage) {
    && u.input >= 0 && u.cacheRead >= 0 && u.cacheWrite >= 0 && u.output >= 0 && u.reasoning >= 0
    && u.input + u.cacheRead + u.cacheWrite == u.totalInput
    && u.output + u.reasoning == u.totalOutput
  }

  /** Accepted usage splits its totals exactly, unless the two cache counts overflow 63 bits together. */
  lemma BucketsConserve(usage: map<string, Value>)
    requires NormalizeOpenAIUsage(usage).Buckets?
    ensures var u := NormalizeOpenAIUsage(usage).usage; Conserved(u) <==> u.cacheRead + u.cacheWrite < TWO_63
  {
    var u := NormalizeOpenAIUsage(usage).usage;
    if u.cacheRead + u.cacheWrite < TWO_63 {
      assert Wrap(u.cacheRead + u.cacheWrite) == u.cacheRead + u.cacheWrite;
    }
  }

  function Plain(n: int): Value { Num(n as real, true) }

  /** Ten input tokens of which 2^62 are said to be cached and as many written. */
  const HUGE_CACHE: map<string, Value> := map[
    "prompt_tokens" := Plain(10), "completion_tokens" := Plain(0),
    "prompt_tokens_details" :=
      Obj(map["cached_tokens" := Plain(0x4000_0000_0000_0000), "cache_write_tokens" := Plain(0x4000_0000_0000_0000)])]

  /** Such usage is accepted: the cache counts wrap past the check and leave a negative bucket. */
  lemma OverflowAccepted()
    ensures var n := NormalizeOpenAIUsage(HUGE_CACHE); n.Buckets? && n.usage.input < 0 && !Conserved(n.usage)
  {
  }

  // ---------------------------------------------------------------- pricing

  datatype Pricing = Pricing(input: real, output: real, cacheRead: Option<real>, cacheWrite: Option<real>, disjoint: bool)

  datatype Quote = Quote(cost: real, confidence: string)

  /** Input tokens by the rate they are charged at. */
  datatype InputSplit = InputSplit(plain: int, cached: int, written: int)

  function Clamped(n: int): int { Max(n, 0) }

  /** For providers that count cached tokens inside the input total. */
  function IncludedSplit(p: Pricing, input: int, cached: int, written: int): InputSplit {
    var effectiveCached := if p.cacheRead.Some? then Min(cached, input) else 0;
    var remaining := input - effectiveCached;
    var effectiveWritten := if p.cacheWrite.Some? then Min(written, remaining) else 0;
    InputSplit(remaining - effectiveWritten, effectiveCached, effectiveWritten)
  }

  function Rate(r: Option<real>, fallback: real): real { if r.Some? then r.value else fallback }

  function ComputeCost(p: Pricing, inputTokens: int, outputTokens: int, cachedTokens: int, writtenTokens: int): Quote {
    var input, output, cached, written := Clamped(inputTokens), Clamped(outputTokens), Clamped(cachedTokens), Clamped(writtenTokens);
    if p.disjoint then
      var guessed := (cached > 0 && p.cacheRead.None?) || (written > 0 && p.cacheWrite.None?);
      Quote(p.input * input as real + (if cached > 0 then Rate(p.cacheRead, p.input) else Rate(p.cacheRead, 0.0)) * cached as real
              + (if written > 0 then Rate(p.cacheWrite, p.input) else Rate(p.cacheWrite, 0.0)) * written as real
              + p.output * output as real,
            if guessed then "unknown" else "computed")
    else
      var s := IncludedSplit(p, input, cached, written);
      Quote(p.input * s.plain as real + Rate(p.cacheRead, 0.0) * s.cached as real + Rate(p.cacheWrite, 0.0) * s.written as real
              + p.output * output as real,
            "computed")
  }

  /** However large the reported cache counts, the charged buckets are non-negative and sum to the input. */
  lemma ChargedBucketsConserve(p: Pricing, inputTokens: int, cachedTokens: int, writtenTokens: int)
    ensures var s := IncludedSplit(p, Clamped(inputTokens), Clamped(cachedTokens), Clamped(writtenTokens));
            && s.plain >= 0 && s.cached >= 0 && s.written >= 0
            && s.plain + s.cached + s.written == Clamped(inputTokens)
            && s.cached <= Clamped(cachedTokens) && s.written <= Clamped(writtenTokens)
  {
  }

  /** With both cache rates known, the charged buckets are the normalized ones and the cost is rate times bucket. */
  lemma CostExact(p: Pricing, u: Usage)
    requires Conserved(u) && !p.disjoint && p.cacheRead.Some? && p.cacheWrite.Some?
    ensures IncludedSplit(p, u.totalInput, u.cacheRead, u.cacheWrite) == InputSplit(u.input, u.cacheRead, u.cacheWrite)
    ensures ComputeCost(p, u.totalInput, u.totalOutput, u.cacheRead, u.cacheWrite)
            == Quote(p.input * u.input as real + p.cacheRead.value * u.cacheRead as real
                       + p.cacheWrite.value * u.cacheWrite as real + p.output * u.totalOutput as real, "computed")
  {
    assert Clamped(u.totalInput) == u.totalInput && Clamped(u.cacheRead) == u.cacheRead;
    assert Clamped(u.cacheWrite) == u.cacheWrite && Clamped(u.totalOutput) == u.totalOutput;
  }

  /** A missing cache rate leaves the tokens in the bucket charged as plain input. */
  lemma MissingRateChargesPlain(p: Pricing, u: Usage)
    requires Conserved(u) && !p.disjoint
    ensures var s := IncludedSplit(p, u.totalInput, u.cacheRead, u.cacheWrite);
            s.plain == u.input + (if p.cacheRead.None? then u.cacheRead else 0) + (if p.cacheWrite.None? then u.cacheWrite else 0)
  {
  }

  /** Tokens cost the same whether a provider counts cached ones beside its input total or inside it. */
  lemma DisjointCostsTheSame(p: Pricing, input: nat, output: nat, cached: nat, written: nat)
    ensures var beside := ComputeCost(p.(disjoint := true), input, output, cached, written);
            && beside.cost == ComputeCost(p.(disjoint := false), input + cached + written, output, cached, written).cost
            && (beside.confidence == "computed"
                <==> (cached == 0 || p.cacheRead.Some?) && (written == 0 || p.cacheWrite.Some?))
  {
    var total, uncached, unwritten := input + cached + written, if p.cacheRead.None? then cached else 0, if p.cacheWrite.None? then written else 0;
    assert IncludedSplit(p, total, cached, written) == InputSplit(input + uncached + unwritten, cached - uncached, written - unwritten);
    PlainCharge(p.input, input, uncached, unwritten);
    RateCharge(p.input, p.cacheRead, cached);
    RateCharge(p.input, p.cacheWrite, written);
    InsideCost(p.(disjoint := false), total, output, cached, written);
    BesideCost(p.(disjoint := true), input, output, cached, written);
    hide *;
  }

  function Charge(rate: real, n: int): real { rate * n as real }

  lemma InsideCost(p: Pricing, total: nat, output: nat, cached: nat, written: nat)
    requires !p.disjoint
    ensures var s := IncludedSplit(p, total, cached, written);
            ComputeCost(p, total, output, cached, written).cost
            == Charge(p.input, s.plain) + Charge(Rate(p.cacheRead, 0.0), s.cached) + Charge(Rate(p.cacheWrite, 0.0), s.written)
               + Charge(p.output, output)
  {
    hide IncludedSplit, Rate;
  }

  lemma BesideCost(p: Pricing, input: nat, output: nat, cached: nat, written: nat)
    requires p.disjoint
    ensures var q := ComputeCost(p, input, output, cached, written);
            && q.cost == Charge(p.input, input) + Charge(Rate(p.cacheRead, p.input), cached)
                         + Charge(Rate(p.cacheWrite, p.input), written) + Charge(p.output, output)
            && (q.confidence == "computed"
                <==> (cached == 0 || p.cacheRead.Some?) && (written == 0 || p.cacheWrite.Some?))
  {
  }

  lemma PlainCharge(rate: real, a: int, b: int, c: int)
    ensures Charge(rate, a + b + c) == Charge(rate, a) + Charge(rate, b) + Charge(rate, c)
  {
  }

  lemma RateCharge(plain: real, rate: Option<real>, n: int)
    ensures var rest := if rate.None? then n else 0;
            Charge(Rate(rate, plain), n) == Charge(plain, rest) + Charge(Rate(rate, 0.0), n - rest)
  {
  }

  // ---------------------------------------------------------------- finding a model

  function AfterSlash(model: string): Option<string>
    decreases |model|
  {
    if model == "" then None
    else if model[0] == '/' then Some(model[1..])
    else AfterSlash(model[1..])
  }

  predicate IsDigit(c: char) { '0' <= c <= '9' }

  /** -YYYY-MM-DD at the end. */
  predicate HasDate(model: string) {
    && |model| >= 11
    && var d := model[|model| - 11..];
       && d[0] == '-' && d[5] == '-' && d[8] == '-'
       && forall i :: i in [1, 2, 3, 4, 6, 7, 9, 10] ==> IsDigit(d[i])
  }

  function Candidates(model: string): seq<string> {
    [model] + (if AfterSlash(model).Some? then [AfterSlash(model).value] else [])
    + (if HasDate(model) then [model[..|model| - 11]] else [])
  }

  /** The first candidate name the catalogue knows. */
  function FirstKnown(models: map<string, Pricing>, names: seq<string>): Option<Pricing> {
    if names == [] then None
    else if names[0] in models then Some(models[names[0]])
    else FirstKnown(models, names[1..])
  }

  /** The lookup as the engine runs it: exact name, provider prefix removed, date removed. */
  method FindModel(models: map<string, Pricing>, model: string) returns (found: Option<Pricing>)
    ensures found == FirstKnown(models, Candidates(model))
    ensures found.None? <==> forall name :: name in Candidates(model) ==> name !in models
  {
    NoneKnown(models, Candidates(model));
    KnownSteps(models, model);
    hide FirstKnown, Candidates;
    if model in models { return Some(models[model]); }
    var i := 0;
    assert model[0..] == model;
    while i < |model|
      invariant 0 <= i <= |model| && AfterSlash(model) == AfterSlash(model[i..])
    {
      assert model[i..][1..] == model[i + 1..];
      if model[i] == '/' {
        var stripped := model[i + 1..];
        if stripped in models { return Some(models[stripped]); }
        break;
      }
      i := i + 1;
    }
    if HasDate(model) && model[..|model| - 11] in models { return Some(models[model[..|model| - 11]]); }
    found := None;
  }

  lemma KnownSteps(models: map<string, Pricing>, model: string)
    ensures FirstKnown(models, Candidates(model))
            == if model in models then Some(models[model])
               else if AfterSlash(model).Some? && AfterSlash(model).value in models then Some(models[AfterSlash(model).value])
               else if HasDate(model) && model[..|model| - 11] in models then Some(models[model[..|model| - 11]])
               else None
  {
    var stripped := if AfterSlash(model).Some? then [AfterSlash(model).value] else [];
    var undated := if HasDate(model) then [model[..|model| - 11]] else [];
    assert Candidates(model) == [model] + (stripped + undated);
    KnownCons(models, model, stripped + undated);
    if stripped != [] {
      KnownCons(models, stripped[0], undated);
      assert stripped == [stripped[0]];
    } else {
      assert stripped + undated == undated;
    }
    if undated != [] {
      KnownCons(models, undated[0], []);
      assert undated == [undated[0]] + [];
    }
  }

  lemma KnownCons(models: map<string, Pricing>, name: string, rest: seq<string>)
    ensures FirstKnown(models, [name] + rest) == if name in models then Some(models[name]) else FirstKnown(models, rest)
  {
    assert ([name] + rest)[1..] == rest;
  }

  lemma {:induction false} NoneKnown(models: map<string, Pricing>, names: seq<string>)
    ensures FirstKnown(models, names).None? <==> forall name :: name in names ==> name !in models
  {
    if names != [] {
      NoneKnown(models, names[1..]);
      assert forall name :: name in names <==> name == names[0] || name in names[1..];
    }
  }
}
