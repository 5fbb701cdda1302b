/** Which field of a usage object feeds which billing bucket. */
module TokenFields {
  import opened Sequences
  import opened Json
  import opened Tokens

  /** The number n, which counters may also say by being absent or null when it is zero. */
  predicate Counter(v: Option<Value>, n: int) {
    || (v.Some? && v.value.Num? && v.value.n == n as real)
    || (n == 0 && (v.None? || v.value.Null?))
  }

  predicate Total(v: Option<Value>, n: int) { v.Some? && v.value.Num? && v.value.n == n as real }

  /** The object under a key, if there is one. */
  function Details(usage: map<string, Value>, key: string): Option<map<string, Value>> {
    if key in usage && usage[key].Obj? then Some(usage[key].fields) else None
  }

  /** Both cache counts in the details, or no details and a cached count beside the totals. */
  predicate CacheCounts(usage: map<string, Value>, details: Option<map<string, Value>>, cached: int, written: int) {
    match details
    case Some(d) => Counter(Member(d, "cached_tokens"), cached) && Counter(Member(d, "cache_write_tokens"), written)
    case None => Counter(Member(usage, "cached_tokens"), cached) && written == 0
  }

  predicate ReasoningCount(details: Option<map<string, Value>>, reasoning: int) {
    match details
    case Some(d) => Counter(Member(d, "reasoning_tokens"), reasoning)
    case None => reasoning == 0
  }

  predicate Counts(input: int, cached: int, written: int, output: int, reasoning: int) {
    && 0 <= input < TWO_63 && 0 <= output < TWO_63 && 0 <= reasoning < TWO_63
    && 0 <= cached && 0 <= written && cached + written < TWO_63
  }

  /** Usage in the form of Chat Completions. */
  predicate ChatUsage(usage: map<string, Value>, input: int, cached: int, written: int, output: int, reasoning: int) {
    && Total(Member(usage, "prompt_tokens"), input) && Total(Member(usage, "completion_tokens"), output)
    && Details(usage, "input_tokens_details").None? && Details(usage, "output_tokens_details").None?
    && CacheCounts(usage, Details(usage, "prompt_tokens_details"), cached, written)
    && ReasoningCount(Details(usage, "completion_tokens_details"), reasoning)
  }

  /** Usage in the form of the Responses API. */
  predicate ResponsesUsage(usage: map<string, Value>, input: int, cached: int, written: int, output: int, reasoning: int) {
    && "prompt_tokens" !in usage && "completion_tokens" !in usage
    && Total(Member(usage, "input_tokens"), input) && Total(Member(usage, "output_tokens"), output)
    && Details(usage, "prompt_tokens_details").None? && Details(usage, "completion_tokens_details").None?
    && CacheCounts(usage, Details(usage, "input_tokens_details"), cached, written)
    && ReasoningCount(Details(usage, "output_tokens_details"), reasoning)
  }

  /**
   Either form is accepted exactly when its parts stay within its totals, and then every count is in
   the bucket its field names.
   */
  lemma NormalizesByField(usage: map<string, Value>, input: int, cached: int, written: int, output: int, reasoning: int)
    requires Counts(input, cached, written, output, reasoning)
    requires || ChatUsage(usage, input, cached, written, output, reasoning)
             || ResponsesUsage(usage, input, cached, written, output, reasoning)
    ensures var n := NormalizeOpenAIUsage(usage);
            && (n.Buckets? <==> cached + written <= input && reasoning <= output)
            && (n.Buckets? ==> n.usage == Usage(input, input - cached - written, cached, written, output, output - reasoning, reasoning))
  {
    Unwrapped(input, cached, written, output, reasoning);
    if ChatUsage(usage, input, cached, written, output, reasoning) {
      ChatRead(usage, input, cached, written, output, reasoning);
    } else {
      ResponsesRead(usage, input, cached, written, output, reasoning);
    }
    hide NormalizeOpenAIUsage, Split, ChatUsage, ResponsesUsage;
  }

  lemma Unwrapped(input: int, cached: int, written: int, output: int, reasoning: int)
    requires Counts(input, cached, written, output, reasoning)
    ensures var n := Split(input, cached, written, output, reasoning);
            && (n.Buckets? <==> cached + written <= input && reasoning <= output)
            && (n.Buckets? ==> n.usage == Usage(input, input - cached - written, cached, written, output, output - reasoning, reasoning))
  {
    assert Wrap(cached + written) == cached + written;
    if cached + written <= input { assert Wrap(input - cached - written) == input - cached - written; }
  }

  lemma ChatRead(usage: map<string, Value>, input: int, cached: int, written: int, output: int, reasoning: int)
    requires Counts(input, cached, written, output, reasoning) && ChatUsage(usage, input, cached, written, output, reasoning)
    ensures NormalizeOpenAIUsage(usage) == Split(input, cached, written, output, reasoning)
  {
    TotalRead(usage, "prompt_tokens", "input_tokens", input);
    TotalRead(usage, "completion_tokens", "output_tokens", output);
    DetailsAre(usage, "prompt_tokens_details", "input_tokens_details");
    DetailsAre(usage, "completion_tokens_details", "output_tokens_details");
    hide TotalIs, CacheCounts, ReasoningCount, NormalizeOpenAIUsage, Split, Details, DetailsOf, Member, Total;
    Assembled(usage, Details(usage, "prompt_tokens_details"), Details(usage, "completion_tokens_details"),
              input, cached, written, output, reasoning);
  }

  lemma ResponsesRead(usage: map<string, Value>, input: int, cached: int, written: int, output: int, reasoning: int)
    requires Counts(input, cached, written, output, reasoning) && ResponsesUsage(usage, input, cached, written, output, reasoning)
    ensures NormalizeOpenAIUsage(usage) == Split(input, cached, written, output, reasoning)
  {
    TotalRead(usage, "prompt_tokens", "input_tokens", input);
    TotalRead(usage, "completion_tokens", "output_tokens", output);
    DetailsAre(usage, "prompt_tokens_details", "input_tokens_details");
    DetailsAre(usage, "completion_tokens_details", "output_tokens_details");
    hide TotalIs, CacheCounts, ReasoningCount, NormalizeOpenAIUsage, Split, Details, DetailsOf, Member, Total;
    Assembled(usage, Details(usage, "input_tokens_details"), Details(usage, "output_tokens_details"),
              input, cached, written, output, reasoning);
  }

  ghost predicate TotalIs(usage: map<string, Value>, a: string, b: string, n: int) {
    var v := Either(usage, a, b); v.Some? && TokenCounter(v.value) == Some(n)
  }

  lemma TotalRead(usage: map<string, Value>, a: string, b: string, n: int)
    requires 0 <= n < TWO_63
    ensures Total(Member(usage, a), n) || (a !in usage && Total(Member(usage, b), n)) ==> TotalIs(usage, a, b, n)
  {
    assert (n as real).Floor == n;
  }

  lemma DetailsAre(usage: map<string, Value>, a: string, b: string)
    ensures Details(usage, b).None? ==> DetailsOf(usage, a, b) == Details(usage, a)
    ensures Details(usage, a).None? ==> DetailsOf(usage, a, b) == Details(usage, b)
  {
  }

  /** Normalization once the totals and the details are found. */
  lemma Assembled(usage: map<string, Value>, inputs: Option<map<string, Value>>, outputs: Option<map<string, Value>>,
                  input: int, cached: int, written: int, output: int, reasoning: int)
    requires Counts(input, cached, written, output, reasoning)
    requires inputs == DetailsOf(usage, "prompt_tokens_details", "input_tokens_details")
    requires outputs == DetailsOf(usage, "completion_tokens_details", "output_tokens_details")
    requires TotalIs(usage, "prompt_tokens", "input_tokens", input)
    requires TotalIs(usage, "completion_tokens", "output_tokens", output)
    requires CacheCounts(usage, inputs, cached, written) && ReasoningCount(outputs, reasoning)
    ensures NormalizeOpenAIUsage(usage) == Split(input, cached, written, output, reasoning)
  {
    CacheRead(usage, inputs, cached, written);
    ReasoningRead(outputs, reasoning);
    hide TokenCounter, OptionalCounter, Split, DetailsOf, Either, Member, CacheCounts, ReasoningCount, Counts;
  }

  lemma CacheRead(usage: map<string, Value>, inputs: Option<map<string, Value>>, cached: int, written: int)
    requires 0 <= cached < TWO_63 && 0 <= written < TWO_63 && CacheCounts(usage, inputs, cached, written)
    ensures OptionalCounter(if inputs.Some? then Member(inputs.value, "cached_tokens") else Member(usage, "cached_tokens")) == Some(cached)
    ensures OptionalCounter(if inputs.Some? then Member(inputs.value, "cache_write_tokens") else None) == Some(written)
  {
    hide OptionalCounter, Member;
    CounterRead(if inputs.Some? then Member(inputs.value, "cached_tokens") else Member(usage, "cached_tokens"), cached);
    CounterRead(if inputs.Some? then Member(inputs.value, "cache_write_tokens") else None, written);
  }

  lemma ReasoningRead(outputs: Option<map<string, Value>>, reasoning: int)
    requires 0 <= reasoning < TWO_63 && ReasoningCount(outputs, reasoning)
    ensures OptionalCounter(if outputs.Some? then Member(outputs.value, "reasoning_tokens") else None) == Some(reasoning)
  {
    hide OptionalCounter, Member;
    CounterRead(if outputs.Some? then Member(outputs.value, "reasoning_tokens") else None, reasoning);
  }

  lemma CounterRead(v: Option<Value>, n: int)
    requires 0 <= n < TWO_63
    ensures Counter(v, n) ==> OptionalCounter(v) == Some(n)
  {
    assert (n as real).Floor == n;
  }
}
