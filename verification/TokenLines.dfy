/** The token lines of an attribution record, against the provider's totals and the billing buckets. */
module TokenLines {
  import opened Sequences
  import opened Decimals
  import opened Attribution
  import Names
  import B = Tokens

  // ---------------------------------------------------------------- comparing numbers at a common exponent

  lemma CoefAt(d: Decimal, m: int, e: int)
    requires e <= m <= d.exp
    ensures Coef(d, e) == Shift(Coef(d, m), m - e)
  {
    ShiftTwice(d.coef, d.exp - m, m - e);
  }

  lemma PlusAt(a: Decimal, b: Decimal, e: int)
    requires e <= a.exp && e <= b.exp
    ensures Coef(Plus(a, b), e) == Coef(a, e) + Coef(b, e)
  {
    var m := Min(a.exp, b.exp);
    CoefAt(a, m, e); CoefAt(b, m, e);
    ShiftAdds(Coef(a, m), Coef(b, m), m - e);
  }

  lemma MinusAt(a: Decimal, b: Decimal, e: int)
    requires e <= a.exp && e <= b.exp
    ensures Coef(Minus(a, b), e) == Coef(a, e) - Coef(b, e)
  {
    var m := Min(a.exp, b.exp);
    CoefAt(a, m, e); CoefAt(b, m, e);
    ShiftAdds(Coef(a, m) - Coef(b, m), Coef(b, m), m - e);
  }

  lemma GreaterAt(a: Decimal, b: Decimal, e: int)
    requires e <= a.exp && e <= b.exp
    ensures Greater(a, b) <==> Coef(a, e) > Coef(b, e)
  {
    var m := Min(a.exp, b.exp);
    CoefAt(a, m, e); CoefAt(b, m, e);
    ShiftOrder(Coef(b, m), Coef(a, m), m - e);
  }

  lemma SignAt(d: Decimal, e: int)
    requires e <= d.exp
    ensures (d.coef > 0 <==> Coef(d, e) > 0) && (d.coef < 0 <==> Coef(d, e) < 0)
  {
    ShiftZero(d.exp - e);
    ShiftOrder(0, d.coef, d.exp - e);
    ShiftOrder(d.coef, 0, d.exp - e);
  }

  // ---------------------------------------------------------------- the split

  function CacheWritten(read: Reader, e: Event): Decimal {
    DecimalOrZero(read, e.details, ["cache_write_input_tokens", "cache_creation_input_tokens"])
  }

  function Reasoned(read: Reader, e: Event): Decimal {
    DecimalOrZero(read, e.details, ["reasoning_output_tokens", "reasoning_tokens"])
  }

  /** Counts as a provider reports them: not negative, and at most twelve decimal places. */
  predicate SaneCounts(read: Reader, e: Event) {
    var w, r := CacheWritten(read, e), Reasoned(read, e);
    && Count(e.inputTokens).coef >= 0 && Count(e.cachedTokens).coef >= 0 && Count(e.outputTokens).coef >= 0
    && w.coef >= 0 && w.exp >= -MAX_PLACES && r.coef >= 0 && r.exp >= -MAX_PLACES
  }

  /** An exponent at which every quantity of the event is an integer. */
  function Grid(read: Reader, e: Event): int { Min(0, Min(CacheWritten(read, e).exp, Reasoned(read, e).exp)) }

  predicate OnGrid(t: Tokens, g: int) {
    && g <= t.input.exp && g <= t.cached.exp && g <= t.cacheWrite.exp && g <= t.output.exp && g <= t.reasoning.exp
    && t.input.exp >= -MAX_PLACES && t.cached.exp >= -MAX_PLACES && t.cacheWrite.exp >= -MAX_PLACES
    && t.output.exp >= -MAX_PLACES && t.reasoning.exp >= -MAX_PLACES
  }

  lemma SplitOnGrid(read: Reader, e: Event)
    requires SaneCounts(read, e) && TokenSplit(read, e).Some?
    ensures OnGrid(TokenSplit(read, e).value, Grid(read, e))
  {
  }

  /** The five quantities are not negative and sum to the reported totals. */
  lemma SplitConserves(read: Reader, e: Event)
    requires SaneCounts(read, e) && TokenSplit(read, e).Some?
    ensures var t, g := TokenSplit(read, e).value, Grid(read, e);
            && OnGrid(t, g)
            && t.input.coef >= 0 && t.cached.coef >= 0 && t.cacheWrite.coef >= 0 && t.output.coef >= 0 && t.reasoning.coef >= 0
            && Coef(t.output, g) + Coef(t.reasoning, g) == Coef(Count(e.outputTokens), g)
            && (!SeparateCache(e) ==>
                  Coef(t.input, g) + Coef(t.cached, g) + Coef(t.cacheWrite, g) == Coef(Count(e.inputTokens), g))
  {
    SplitOnGrid(read, e);
    InputConserves(read, e);
    OutputConserves(read, e);
  }

  lemma InputConserves(read: Reader, e: Event)
    requires SaneCounts(read, e) && TokenSplit(read, e).Some?
    ensures var t, g := TokenSplit(read, e).value, Grid(read, e);
            && t.input.coef >= 0
            && (!SeparateCache(e) ==>
                  Coef(t.input, g) + Coef(t.cached, g) + Coef(t.cacheWrite, g) == Coef(Count(e.inputTokens), g))
  {
    var total, cached, w, g := Count(e.inputTokens), Count(e.cachedTokens), CacheWritten(read, e), Grid(read, e);
    if !SeparateCache(e) {
      PlusAt(cached, w, g);
      GreaterAt(Plus(cached, w), total, g);
      MinusAt(total, cached, g);
      MinusAt(Minus(total, cached), w, g);
      SignAt(Minus(Minus(total, cached), w), g);
    }
  }

  lemma OutputConserves(read: Reader, e: Event)
    requires SaneCounts(read, e) && TokenSplit(read, e).Some?
    ensures var t, g := TokenSplit(read, e).value, Grid(read, e);
            t.output.coef >= 0 && Coef(t.output, g) + Coef(t.reasoning, g) == Coef(Count(e.outputTokens), g)
  {
    var output, r, g := Count(e.outputTokens), Reasoned(read, e), Grid(read, e);
    SignAt(r, g);
    if Positive(r) {
      GreaterAt(r, output, g);
      MinusAt(output, r, g);
      SignAt(Minus(output, r), g);
    }
  }

  // ---------------------------------------------------------------- the lines

  /** Sum of the lines of some metrics, at exponent g. */
  function SumLines(usage: seq<Measure>, metrics: set<string>, g: int): int
    requires forall m :: m in usage ==> g <= m.quantity.exp
  {
    if usage == [] then 0
    else
      var last := usage[|usage| - 1];
      SumLines(usage[..|usage| - 1], metrics, g) + if last.metric in metrics then Coef(last.quantity, g) else 0
  }

  predicate LinesOnGrid(usage: seq<Measure>, g: int) { forall m :: m in usage ==> g <= m.quantity.exp }

  /** A zero quantity gets no line, any other is written unrounded. */
  lemma AppendSum(usage: seq<Measure>, metric: string, q: Decimal, metrics: set<string>, g: int)
    requires LinesOnGrid(usage, g) && q.coef >= 0 && q.exp >= -MAX_PLACES && g <= q.exp
    ensures var after := AppendUsage(usage, metric, q);
            && LinesOnGrid(after, g)
            && SumLines(after, metrics, g) == SumLines(usage, metrics, g) + if metric in metrics then Coef(q, g) else 0
  {
    if q.coef == 0 {
      ShiftZero(q.exp - g);
    } else {
      var line := Measure(metric, q);
      assert (usage + [line])[..|usage|] == usage;
    }
  }

  const INPUT_METRICS: set<string> := {"input_tokens", "cache_read_input_tokens", "cache_write_input_tokens"}
  const OUTPUT_METRICS: set<string> := {"output_tokens", "reasoning_output_tokens"}

  lemma TokenLineSums(t: Tokens, g: int, metrics: set<string>)
    requires OnGrid(t, g)
    requires t.input.coef >= 0 && t.cached.coef >= 0 && t.cacheWrite.coef >= 0 && t.output.coef >= 0 && t.reasoning.coef >= 0
    ensures LinesOnGrid(TokenUsage(t), g)
    ensures SumLines(TokenUsage(t), metrics, g)
            == (if "input_tokens" in metrics then Coef(t.input, g) else 0)
               + (if "cache_read_input_tokens" in metrics then Coef(t.cached, g) else 0)
               + (if "cache_write_input_tokens" in metrics then Coef(t.cacheWrite, g) else 0)
               + (if "output_tokens" in metrics then Coef(t.output, g) else 0)
               + (if "reasoning_output_tokens" in metrics then Coef(t.reasoning, g) else 0)
  {
    hide AppendUsage;
    var a := AppendUsage([], "input_tokens", t.input);
    var b := AppendUsage(a, "cache_read_input_tokens", t.cached);
    var c := AppendUsage(b, "cache_write_input_tokens", t.cacheWrite);
    var d := AppendUsage(c, "output_tokens", t.output);
    AppendSum([], "input_tokens", t.input, metrics, g);
    AppendSum(a, "cache_read_input_tokens", t.cached, metrics, g);
    AppendSum(b, "cache_write_input_tokens", t.cacheWrite, metrics, g);
    AppendSum(c, "output_tokens", t.output, metrics, g);
    AppendSum(d, "reasoning_output_tokens", t.reasoning, metrics, g);
  }

  /** The input and the output lines of a converted LLM call sum to the event's totals. */
  lemma LinesConserve(read: Reader, e: Event)
    requires SaneCounts(read, e) && TokenSplit(read, e).Some?
    ensures var usage, g := TokenUsage(TokenSplit(read, e).value), Grid(read, e);
            && LinesOnGrid(usage, g)
            && SumLines(usage, OUTPUT_METRICS, g) == Coef(Count(e.outputTokens), g)
            && (!SeparateCache(e) ==> SumLines(usage, INPUT_METRICS, g) == Coef(Count(e.inputTokens), g))
  {
    hide TokenSplit, TokenUsage, SumLines;
    var t, g := TokenSplit(read, e).value, Grid(read, e);
    SplitConserves(read, e);
    TokenLineSums(t, g, OUTPUT_METRICS);
    TokenLineSums(t, g, INPUT_METRICS);
  }

  // ---------------------------------------------------------------- agreement with the billing buckets

  /** The event that carries normalized usage, its counts read back as whole numbers. */
  predicate Carries(read: Reader, e: Event, u: B.Usage) {
    && e.inputTokens == Some(u.totalInput) && e.outputTokens == Some(u.totalOutput)
    && Count(e.cachedTokens) == FromInt(u.cacheRead)
    && CacheWritten(read, e).exp >= 0 && Coef(CacheWritten(read, e), 0) == u.cacheWrite
    && Reasoned(read, e).exp >= 0 && Coef(Reasoned(read, e), 0) == u.reasoning
  }

  /** Attribution of an OpenAI call splits the totals into exactly the billing buckets. */
  lemma SplitIsBuckets(read: Reader, e: Event, u: B.Usage)
    requires B.Conserved(u) && Carries(read, e, u) && !SeparateCache(e)
    ensures TokenSplit(read, e).Some?
    ensures var t := TokenSplit(read, e).value;
            && OnGrid(t, 0)
            && Coef(t.input, 0) == u.input && Coef(t.cached, 0) == u.cacheRead && Coef(t.cacheWrite, 0) == u.cacheWrite
            && Coef(t.output, 0) == u.output && Coef(t.reasoning, 0) == u.reasoning
  {
    var total, cached, w := FromInt(u.totalInput), FromInt(u.cacheRead), CacheWritten(read, e);
    var output, r := FromInt(u.totalOutput), Reasoned(read, e);
    PlusAt(cached, w, 0);
    GreaterAt(Plus(cached, w), total, 0);
    MinusAt(total, cached, 0);
    MinusAt(Minus(total, cached), w, 0);
    SignAt(r, 0);
    GreaterAt(r, output, 0);
    MinusAt(output, r, 0);
  }
}
