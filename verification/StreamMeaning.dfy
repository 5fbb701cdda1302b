/** What the objects of a stream say about the call. */
module StreamMeaning {
  // Model, tokens, record identifier and error, from the bytes on.

  import opened Sequences
  import opened Json
  import opened Streaming
  import Names
  import Tokens
  import TokenFields

  type Chunk = map<string, Value>

  // ---------------------------------------------------------------- from bytes to objects

  /** Every block followed by its blank line. */
  function Glued(blocks: seq<string>): string {
    if blocks == [] then "" else blocks[0] + "\n\n" + Glued(blocks[1..])
  }

  predicate BlankAt(s: string, i: nat) { i + 1 < |s| && s[i] == '\n' && s[i + 1] == '\n' }

  ghost predicate NoBlank(s: string) { forall i: nat :: !BlankAt(s, i) }

  lemma {:induction false} CutIsFirst(s: string)
    ensures var k := Cut(s);
            && (k.None? ==> NoBlank(s))
            && (k.Some? ==> k.value + 2 <= |s| && BlankAt(s, k.value) && NoBlank(s[..k.value]))
  {
    if |s| >= 2 && !BlankAt(s, 0) {
      CutIsFirst(s[1..]);
      var k := Cut(s[1..]);
      if k.Some? {
        assert s[1..][..k.value] == s[..k.value + 1][1..];
        NoBlankCons(s[..k.value + 1]);
      } else {
        NoBlankCons(s);
      }
    }
  }

  lemma NoBlankCons(s: string)
    requires |s| > 0 && !BlankAt(s, 0) && NoBlank(s[1..])
    ensures NoBlank(s)
  {
    forall i: nat ensures !BlankAt(s, i) {
      if i > 0 { assert !BlankAt(s[1..], i - 1); }
    }
  }

  /** Blocks end at the blank lines: nothing is lost, and no block or rest holds one. */
  lemma {:induction false} BlocksCover(s: string)
    ensures s == Glued(Blocks(s)) + Tail(s)
    ensures NoBlank(Tail(s)) && forall b :: b in Blocks(s) ==> NoBlank(b)
    decreases |s|
  {
    hide Cut, NoBlank, Blocks, Tail, Glued;
    CutIsFirst(s);
    var k := Cut(s);
    if k.Some? {
      BlocksCover(s[k.value + 2..]);
      FirstBlock(s, k.value);
      GluedFirst(s, k.value, Blocks(s[k.value + 2..]), Tail(s[k.value + 2..]));
    } else {
      NoBlocks(s);
      assert Glued([]) + s == s by { GluedNothing(); }
    }
  }

  lemma GluedNothing()
    ensures Glued([]) == ""
  {
  }

  lemma GluedFirst(s: string, k: nat, blocks: seq<string>, rest: string)
    requires k + 2 <= |s| && BlankAt(s, k) && s[k + 2..] == Glued(blocks) + rest
    ensures s == Glued([s[..k]] + blocks) + rest
  {
    assert ([s[..k]] + blocks)[1..] == blocks;
    assert s == s[..k] + "\n\n" + s[k + 2..];
    var first, glued := s[..k] + "\n\n", Glued(blocks);
    hide Glued;
    Assoc(first, glued, rest);
  }

  /** Every line followed by its line break. */
  function GluedLines(lines: seq<string>): string {
    if lines == [] then "" else lines[0] + "\n" + GluedLines(lines[1..])
  }

  lemma {:induction false} LineEndIsFirst(s: string)
    ensures var n := LineEnd(s); '\n' !in s[..n] && (n < |s| ==> s[n] == '\n')
  {
    if s != "" && s[0] != '\n' {
      LineEndIsFirst(s[1..]);
      assert s[..LineEnd(s)] == [s[0]] + s[1..][..LineEnd(s[1..])];
    }
  }

  /** Lines end at the line breaks, and nothing is left over unless a line is too long. */
  lemma {:induction false} LinesCover(block: string) returns (rest: string)
    ensures block + "\n" == GluedLines(Lines(block)) + rest
    ensures rest == "" || rest == "\n" || LineEnd(rest) > MAX_LINE
    ensures forall line :: line in Lines(block) ==> '\n' !in line && |line| <= MAX_LINE
    decreases |block|
  {
    hide Lines, LineEnd, GluedLines;
    LineEndIsFirst(block);
    FirstOfLines(block);
    var n := LineEnd(block);
    if block == "" || n > MAX_LINE {
      rest := block + "\n";
      if n > MAX_LINE { LineEndExtends(block); }
    } else if n == |block| {
      rest := "";
      GluedLinesFirst(block, []);
      assert [block] + [] == [block];
    } else {
      var after := block[n + 1..];
      rest := LinesCover(after);
      GluedLinesFirst(block[..n], Lines(after));
      assert block + "\n" == (block[..n] + "\n") + (after + "\n");
      Assoc(block[..n] + "\n", GluedLines(Lines(after)), rest);
    }
  }

  lemma FirstOfLines(block: string)
    ensures var n := LineEnd(block);
            Lines(block) == if block == "" || n > MAX_LINE then []
                            else if n == |block| then [block]
                            else [block[..n]] + Lines(block[n + 1..])
    ensures GluedLines([]) == ""
  {
    assert block[..|block|] == block;
  }

  lemma GluedLinesFirst(line: string, lines: seq<string>)
    ensures GluedLines([line] + lines) == (line + "\n") + GluedLines(lines)
  {
    assert ([line] + lines)[1..] == lines;
  }

  lemma {:induction false} LineEndExtends(s: string)
    ensures LineEnd(s + "\n") == LineEnd(s)
  {
    if s != "" && s[0] != '\n' {
      assert (s + "\n")[1..] == s[1..] + "\n";
      LineEndExtends(s[1..]);
    }
  }

  /** The object of a data line. */
  function ObjectOf(decode: Decoder, line: string): Option<Chunk> {
    var t := Names.TrimSpace(line);
    if "data:" <= t && Names.TrimSpace(t[5..]) !in {"", "[DONE]"} then decode(Names.TrimSpace(t[5..])) else None
  }

  function Objects(decode: Decoder, lines: seq<string>): seq<Chunk> {
    if lines == [] then []
    else
      var o := ObjectOf(decode, lines[|lines| - 1]);
      Objects(decode, lines[..|lines| - 1]) + if o.Some? then [o.value] else []
  }

  function Decoded(decode: Decoder, blocks: seq<string>): seq<Chunk> {
    if blocks == [] then [] else Decoded(decode, blocks[..|blocks| - 1]) + Objects(decode, Lines(blocks[|blocks| - 1]))
  }

  // ---------------------------------------------------------------- last word

  /** n is the last positive count, zero when there is none. */
  ghost predicate LastPositive(os: seq<Chunk>, count: Chunk -> int, n: int) {
    || (n == 0 && forall o :: o in os ==> count(o) <= 0)
    || exists i :: 0 <= i < |os| && n == count(os[i]) > 0 && forall j :: i < j < |os| ==> count(os[j]) <= 0
  }

  ghost predicate FirstPositive(os: seq<Chunk>, count: Chunk -> int, n: int) {
    || (n == 0 && forall o :: o in os ==> count(o) <= 0)
    || exists i :: 0 <= i < |os| && n == count(os[i]) > 0 && forall j :: 0 <= j < i ==> count(os[j]) <= 0
  }

  /** t is the last text that is not empty. */
  ghost predicate LastText(os: seq<Chunk>, text: Chunk -> string, t: string) {
    || (t == "" && forall o :: o in os ==> text(o) == "")
    || exists i :: 0 <= i < |os| && t == text(os[i]) != "" && forall j :: i < j < |os| ==> text(os[j]) == ""
  }

  lemma LastPositiveStep(os: seq<Chunk>, o: Chunk, count: Chunk -> int, n: int)
    requires LastPositive(os, count, n)
    ensures LastPositive(os + [o], count, if count(o) > 0 then count(o) else n)
  {
    var more := os + [o];
    if count(o) > 0 {
      assert more[|os|] == o;
    } else if i :| 0 <= i < |os| && n == count(os[i]) > 0 && forall j :: i < j < |os| ==> count(os[j]) <= 0 {
      assert more[i] == os[i];
    }
  }

  lemma FirstPositiveStep(os: seq<Chunk>, o: Chunk, count: Chunk -> int, n: int)
    requires FirstPositive(os, count, n)
    ensures FirstPositive(os + [o], count, if n == 0 && count(o) > 0 then count(o) else n)
  {
    var more := os + [o];
    if n == 0 && count(o) > 0 {
      assert more[|os|] == o;
    } else if i :| 0 <= i < |os| && n == count(os[i]) > 0 && forall j :: 0 <= j < i ==> count(os[j]) <= 0 {
      assert more[i] == os[i];
    }
  }

  lemma LastTextStep(os: seq<Chunk>, o: Chunk, text: Chunk -> string, t: string)
    requires LastText(os, text, t)
    ensures LastText(os + [o], text, if text(o) != "" then text(o) else t)
  {
    var more := os + [o];
    if text(o) != "" {
      assert more[|os|] == o;
    } else if i :| 0 <= i < |os| && t == text(os[i]) != "" && forall j :: i < j < |os| ==> text(os[j]) == "" {
      assert more[i] == os[i];
    }
  }

  // ---------------------------------------------------------------- Anthropic

  predicate HasType(o: Chunk, kind: string) { Member(o, "type") == Some(Str(kind)) }

  /** The object under a key, or nothing in it. */
  function Inside(o: Chunk, key: string): Chunk { if key in o && o[key].Obj? then o[key].fields else map[] }

  function TextAt(o: Chunk, key: string): string { if key in o && o[key].Str? then o[key].s else "" }

  function NumberAt(o: Chunk, key: string): int { if key in o && o[key].Num? then Truncated(o[key].n) else 0 }

  function StartModel(o: Chunk): string { if HasType(o, "message_start") then TextAt(Inside(o, "message"), "model") else "" }

  function StartInput(o: Chunk): int {
    if HasType(o, "message_start") then NumberAt(Inside(Inside(o, "message"), "usage"), "input_tokens") else 0
  }

  function StartCached(o: Chunk): int {
    if HasType(o, "message_start") then NumberAt(Inside(Inside(o, "message"), "usage"), "cache_read_input_tokens") else 0
  }

  function DeltaOutput(o: Chunk): int { if HasType(o, "message_delta") then NumberAt(Inside(o, "usage"), "output_tokens") else 0 }

  function DeltaInput(o: Chunk): int { if HasType(o, "message_delta") then NumberAt(Inside(o, "usage"), "input_tokens") else 0 }

  /** The last input count of a start, or else the first of a delta. */
  ghost predicate InputSaid(os: seq<Chunk>, n: int) {
    if exists o :: o in os && StartInput(o) > 0 then LastPositive(os, StartInput, n) else FirstPositive(os, DeltaInput, n)
  }

  ghost predicate AnthropicSaid(os: seq<Chunk>, p: Parsed) {
    && LastText(os, StartModel, p.model) && InputSaid(os, p.usage.input)
    && LastPositive(os, StartCached, p.usage.cached) && LastPositive(os, DeltaOutput, p.usage.output)
    && p.usage.cacheWrite == 0 && p.usage.reasoning == 0 && p.recordId == "" && p.usageError == ""
  }

  lemma InputStep(os: seq<Chunk>, o: Chunk, n: int)
    requires InputSaid(os, n)
    ensures InputSaid(os + [o], if StartInput(o) > 0 then StartInput(o) else if n == 0 && DeltaInput(o) > 0 then DeltaInput(o) else n)
  {
    var more := os + [o];
    assert o in more && forall x :: x in os ==> x in more;
    if exists x :: x in os && StartInput(x) > 0 {
      assert n > 0;
      LastPositiveStep(os, o, StartInput, n);
    } else if StartInput(o) > 0 {
      assert LastPositive(os, StartInput, 0);
      LastPositiveStep(os, o, StartInput, 0);
    } else {
      FirstPositiveStep(os, o, DeltaInput, n);
      assert !exists x :: x in more && StartInput(x) > 0;
    }
  }

  lemma AnthropicStep(os: seq<Chunk>, p: Parsed, o: Chunk)
    requires AnthropicSaid(os, p)
    ensures AnthropicSaid(os + [o], AnthropicChunk(p, o))
  {
    LastTextStep(os, o, StartModel, p.model);
    InputStep(os, o, p.usage.input);
    LastPositiveStep(os, o, StartCached, p.usage.cached);
    LastPositiveStep(os, o, DeltaOutput, p.usage.output);
    AnthropicFields(p, o);
    hide LastText, LastPositive, InputSaid, AnthropicChunk, StartModel, StartInput, StartCached, DeltaOutput, DeltaInput;
  }

  /** One object, field by field. */
  lemma AnthropicFields(p: Parsed, o: Chunk)
    ensures var q := AnthropicChunk(p, o);
            && q.model == (if StartModel(o) != "" then StartModel(o) else p.model)
            && q.recordId == p.recordId && q.usageError == p.usageError
            && q.usage.input == (if StartInput(o) > 0 then StartInput(o)
                                 else if p.usage.input == 0 && DeltaInput(o) > 0 then DeltaInput(o) else p.usage.input)
            && q.usage.output == (if DeltaOutput(o) > 0 then DeltaOutput(o) else p.usage.output)
            && q.usage.cached == (if StartCached(o) > 0 then StartCached(o) else p.usage.cached)
            && q.usage.cacheWrite == p.usage.cacheWrite && q.usage.reasoning == p.usage.reasoning
  {
    TypesDiffer(o);
    hide Truncated;
  }

  lemma TypesDiffer(o: Chunk)
    ensures !(HasType(o, "message_start") && HasType(o, "message_delta"))
    ensures forall kind :: HasType(o, kind) <==> Text(Member(o, "type")) == Some(kind)
  {
    assert "message_start"[8] != "message_delta"[8];
  }

  // ---------------------------------------------------------------- OpenAI and Groq

  /** A completed response carries the fields, else the object itself. */
  function Body(o: Chunk): Chunk {
    if HasType(o, "response.completed") && "response" in o && o["response"].Obj? then o["response"].fields else o
  }

  function BodyModel(o: Chunk): string { TextAt(Body(o), "model") }

  function BodyId(o: Chunk): string { TextAt(Body(o), "id") }

  predicate HasUsage(o: Chunk) { "usage" in Body(o) && Body(o)["usage"].Obj? }

  function Normal(o: Chunk): Tokens.Normalized { Tokens.NormalizeOpenAIUsage(Inside(Body(o), "usage")) }

  predicate Accepted(o: Chunk) { HasUsage(o) && Normal(o).Buckets? }

  predicate CountsAre(u: Usage, n: Tokens.Usage) {
    && u.input == n.totalInput && u.output == n.totalOutput
    && u.cached == n.cacheRead && u.cacheWrite == n.cacheWrite && u.reasoning == n.reasoning
  }

  /** The counts of the last usage object that was accepted. */
  ghost predicate UsageSaid(os: seq<Chunk>, u: Usage) {
    || (u == Usage(0, 0, 0, 0, 0) && forall o :: o in os ==> !Accepted(o))
    || exists i :: 0 <= i < |os| && Accepted(os[i]) && CountsAre(u, Normal(os[i]).usage)
                   && forall j :: i < j < |os| ==> !Accepted(os[j])
  }

  /** The error of the last usage object, if it was not accepted. */
  ghost predicate ErrorSaid(os: seq<Chunk>, error: string) {
    || (error == "" && forall o :: o in os ==> !HasUsage(o))
    || exists i :: 0 <= i < |os| && HasUsage(os[i]) && error == (if Accepted(os[i]) then "" else Normal(os[i]).reason)
                   && forall j :: i < j < |os| ==> !HasUsage(os[j])
  }

  ghost predicate OpenAISaid(os: seq<Chunk>, p: Parsed) {
    LastText(os, BodyModel, p.model) && LastText(os, BodyId, p.recordId) && UsageSaid(os, p.usage) && ErrorSaid(os, p.usageError)
  }

  lemma UsageStep(os: seq<Chunk>, o: Chunk, u: Usage, v: Usage)
    requires UsageSaid(os, u) && if Accepted(o) then CountsAre(v, Normal(o).usage) else v == u
    ensures UsageSaid(os + [o], v)
  {
    hide HasUsage, CountsAre, Normal;
    var more := os + [o];
    if Accepted(o) {
      assert more[|os|] == o;
    } else if i :| 0 <= i < |os| && Accepted(os[i]) && CountsAre(u, Normal(os[i]).usage)
                   && forall j :: i < j < |os| ==> !Accepted(os[j]) {
      assert more[i] == os[i];
    }
  }

  lemma ErrorStep(os: seq<Chunk>, o: Chunk, before: string, after: string)
    requires ErrorSaid(os, before)
    requires if HasUsage(o) then after == (if Accepted(o) then "" else Normal(o).reason) else after == before
    ensures ErrorSaid(os + [o], after)
  {
    hide HasUsage, Normal;
    var more := os + [o];
    if HasUsage(o) {
      assert more[|os|] == o;
    } else if i :| 0 <= i < |os| && HasUsage(os[i]) && before == (if Accepted(os[i]) then "" else Normal(os[i]).reason)
                   && forall j :: i < j < |os| ==> !HasUsage(os[j]) {
      assert more[i] == os[i];
    }
  }

  /** One object, field by field. */
  lemma OpenAIFields(p: Parsed, o: Chunk)
    ensures var q := OpenAIChunk(p, o);
            && q.model == (if BodyModel(o) != "" then BodyModel(o) else p.model)
            && q.recordId == (if BodyId(o) != "" then BodyId(o) else p.recordId)
            && (if Accepted(o) then CountsAre(q.usage, Normal(o).usage) else q.usage == p.usage)
            && (if HasUsage(o) then q.usageError == (if Accepted(o) then "" else Normal(o).reason) else q.usageError == p.usageError)
  {
    TypesDiffer(o);
    hide Tokens.NormalizeOpenAIUsage;
  }

  lemma OpenAIStep(os: seq<Chunk>, p: Parsed, o: Chunk)
    requires OpenAISaid(os, p)
    ensures OpenAISaid(os + [o], OpenAIChunk(p, o))
  {
    hide LastText, UsageSaid, ErrorSaid, OpenAIChunk, BodyModel, BodyId, Normal, Accepted, HasUsage, CountsAre;
    OpenAIFields(p, o);
    var q := OpenAIChunk(p, o);
    LastTextStep(os, o, BodyModel, p.model);
    LastTextStep(os, o, BodyId, p.recordId);
    UsageStep(os, o, p.usage, q.usage);
    ErrorStep(os, o, p.usageError, q.usageError);
  }

  // ---------------------------------------------------------------- whole streams

  function FoldFrom(provider: Provider, p: Parsed, os: seq<Chunk>): Parsed {
    if os == [] then p
    else
      var before := FoldFrom(provider, p, os[..|os| - 1]);
      if provider.Anthropic? then AnthropicChunk(before, os[|os| - 1]) else OpenAIChunk(before, os[|os| - 1])
  }

  lemma {:induction false} FoldConcat(provider: Provider, p: Parsed, a: seq<Chunk>, b: seq<Chunk>)
    ensures FoldFrom(provider, p, a + b) == FoldFrom(provider, FoldFrom(provider, p, a), b)
  {
    hide AnthropicChunk, OpenAIChunk;
    if b == [] {
      assert a + b == a;
    } else {
      assert (a + b)[..|a + b| - 1] == a + b[..|b| - 1];
      FoldConcat(provider, p, a, b[..|b| - 1]);
    }
  }

  lemma {:induction false} LinesFold(provider: Provider, decode: Decoder, p: Parsed, lines: seq<string>)
    ensures ReadLines(provider, decode, p, lines) == FoldFrom(provider, p, Objects(decode, lines))
  {
    hide AnthropicChunk, OpenAIChunk, ObjectOf, ReadLine;
    if lines != [] {
      var init, line := lines[..|lines| - 1], lines[|lines| - 1];
      LinesFold(provider, decode, p, init);
      LineSays(provider, decode, ReadLines(provider, decode, p, init), line);
      var o, os := ObjectOf(decode, line), Objects(decode, init);
      if o.Some? { assert (os + [o.value])[..|os|] == os; } else { assert os + [] == os; }
    }
  }

  lemma LineSays(provider: Provider, decode: Decoder, p: Parsed, line: string)
    ensures var o := ObjectOf(decode, line);
            ReadLine(provider, decode, p, line)
            == if o.None? then p else if provider.Anthropic? then AnthropicChunk(p, o.value) else OpenAIChunk(p, o.value)
  {
    hide AnthropicChunk, OpenAIChunk, Names.TrimSpace;
  }

  lemma {:induction false} BlocksFold(provider: Provider, decode: Decoder, p: Parsed, blocks: seq<string>)
    ensures ReadBlocks(provider, decode, p, blocks) == FoldFrom(provider, p, Decoded(decode, blocks))
  {
    hide FoldFrom, Lines, Objects, ReadLines;
    if blocks == [] {
      FoldNothing(provider, p);
    } else {
      var init, block := blocks[..|blocks| - 1], blocks[|blocks| - 1];
      BlocksFold(provider, decode, p, init);
      LinesFold(provider, decode, ReadBlocks(provider, decode, p, init), Lines(block));
      FoldConcat(provider, p, Decoded(decode, init), Objects(decode, Lines(block)));
    }
  }

  lemma FoldNothing(provider: Provider, p: Parsed)
    ensures FoldFrom(provider, p, []) == p
  {
  }

  /** Only the objects count: other lines, end marks and undecodable payloads change nothing. */
  lemma NoiseIgnored(provider: Provider, decode: Decoder, stream: string, other: string)
    requires Decoded(decode, Blocks(stream)) == Decoded(decode, Blocks(other))
    ensures Meaning(provider, decode, stream) == Meaning(provider, decode, other)
  {
    BlocksFold(provider, decode, NOTHING, Blocks(stream));
    BlocksFold(provider, decode, NOTHING, Blocks(other));
  }

  ghost predicate Said(provider: Provider, os: seq<Chunk>, p: Parsed) {
    if provider.Anthropic? then AnthropicSaid(os, p) else OpenAISaid(os, p)
  }

  lemma {:induction false} FoldSays(provider: Provider, os: seq<Chunk>)
    ensures Said(provider, os, FoldFrom(provider, NOTHING, os))
  {
    hide AnthropicChunk, OpenAIChunk, AnthropicSaid, OpenAISaid;
    if os == [] {
      NothingSaid();
    } else {
      var init, o := os[..|os| - 1], os[|os| - 1];
      FoldSays(provider, init);
      assert os == init + [o];
      if provider.Anthropic? {
        AnthropicStep(init, FoldFrom(provider, NOTHING, init), o);
      } else {
        OpenAIStep(init, FoldFrom(provider, NOTHING, init), o);
      }
    }
  }

  lemma NothingSaid()
    ensures AnthropicSaid([], NOTHING) && OpenAISaid([], NOTHING)
  {
  }

  /** What a stream says is the last word of its objects, field by field. */
  lemma StreamSays(provider: Provider, decode: Decoder, stream: string)
    ensures Said(provider, Decoded(decode, Blocks(stream)), Meaning(provider, decode, stream))
  {
    hide Said, FoldFrom, Decoded, Blocks;
    BlocksFold(provider, decode, NOTHING, Blocks(stream));
    FoldSays(provider, Decoded(decode, Blocks(stream)));
  }

  /** A start and cumulative deltas: input and cached tokens of the start, output of the last delta. */
  lemma StartThenDeltas(decode: Decoder, stream: string, start: Chunk, deltas: seq<Chunk>)
    requires Decoded(decode, Blocks(stream)) == [start] + deltas && deltas != []
    requires HasType(start, "message_start") && StartInput(start) > 0 && StartCached(start) >= 0
    requires forall d :: d in deltas ==> HasType(d, "message_delta") && DeltaOutput(d) > 0
    ensures Meaning(Anthropic, decode, stream)
            == Parsed(StartModel(start), Usage(StartInput(start), DeltaOutput(deltas[|deltas| - 1]), StartCached(start), 0, 0), "", "")
  {
    StreamSays(Anthropic, decode, stream);
    StartThenDeltasSaid(start, deltas, Meaning(Anthropic, decode, stream));
    hide *;
  }

  lemma StartThenDeltasSaid(start: Chunk, deltas: seq<Chunk>, p: Parsed)
    requires AnthropicSaid([start] + deltas, p) && deltas != []
    requires HasType(start, "message_start") && StartInput(start) > 0 && StartCached(start) >= 0
    requires forall d :: d in deltas ==> HasType(d, "message_delta") && DeltaOutput(d) > 0
    ensures p == Parsed(StartModel(start), Usage(StartInput(start), DeltaOutput(deltas[|deltas| - 1]), StartCached(start), 0, 0), "", "")
  {
    var os := [start] + deltas;
    assert os[0] == start && start in os && os[|os| - 1] == deltas[|deltas| - 1];
    forall j | 1 <= j < |os| ensures StartInput(os[j]) == StartCached(os[j]) == 0 && StartModel(os[j]) == "" && DeltaOutput(os[j]) > 0 {
      assert os[j] in deltas;
      TypesDiffer(os[j]);
    }
    hide StartModel, StartInput, StartCached, DeltaInput, DeltaOutput;
  }

  /** The last object's counts, each from its own field, are the stream's. */
  lemma FinalObjectCounts(provider: Provider, decode: Decoder, stream: string, before: seq<Chunk>, last: Chunk,
                          input: int, cached: int, written: int, output: int, reasoning: int)
    requires !provider.Anthropic? && Decoded(decode, Blocks(stream)) == before + [last] && HasUsage(last)
    requires var usage := Inside(Body(last), "usage");
             || TokenFields.ChatUsage(usage, input, cached, written, output, reasoning)
             || TokenFields.ResponsesUsage(usage, input, cached, written, output, reasoning)
    requires TokenFields.Counts(input, cached, written, output, reasoning) && cached + written <= input && reasoning <= output
    ensures var p := Meaning(provider, decode, stream);
            p.usage == Usage(input, output, cached, written, reasoning) && p.usageError == ""
  {
    StreamSays(provider, decode, stream);
    TokenFields.NormalizesByField(Inside(Body(last), "usage"), input, cached, written, output, reasoning);
    LastAccepted(before, last, Meaning(provider, decode, stream));
    hide *;
  }

  lemma LastAccepted(before: seq<Chunk>, last: Chunk, p: Parsed)
    requires OpenAISaid(before + [last], p) && Accepted(last)
    ensures CountsAre(p.usage, Normal(last).usage) && p.usageError == ""
  {
    hide LastText, Normal, HasUsage, CountsAre;
    var os := before + [last];
    assert os[|before|] == last && last in os;
  }

  // ---------------------------------------------------------------- the event

  /** The event of a stream carries what the stream said, priced when it counted tokens and had no error. */
  lemma EventSays(provider: Provider, decode: Decoder, price: Pricer, requestModel: string, actions: seq<Action>)
    requires UntilFinish(actions).Some?
    ensures var p := Meaning(provider, decode, Join(ChunksOf(UntilFinish(actions).value)));
            var events := Recorded(provider, decode, price, requestModel, actions);
            && |events| == 1
            && var e := events[0];
               && e.provider == provider && e.recordId == p.recordId && e.usageError == p.usageError
               && e.model == (if p.model != "" then p.model else requestModel)
               && (e.counted <==> p.usageError == "" && (p.usage.input != 0 || p.usage.output != 0))
               && (e.counted ==> e.usage.input == p.usage.input && e.usage.output == p.usage.output
                                 && e.usage.cached == Max(p.usage.cached, 0) && e.usage.cacheWrite == Max(p.usage.cacheWrite, 0)
                                 && e.usage.reasoning == Max(p.usage.reasoning, 0)
                                 && e.cost == price(e.model, p.usage.input, p.usage.output, p.usage.cached, p.usage.cacheWrite))
               && (!e.counted ==> e.cost == 0.0)
  {
    hide Meaning, UntilFinish;
  }
}
