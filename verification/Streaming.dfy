/** Reading usage out of a server-sent event stream. */
module Streaming {
  import opened Sequences
  import opened Json
  import Names
  import Tokens

  // ---------------------------------------------------------------- cutting the stream of bytes

  /** Position of the first blank line. */
  function Cut(s: string): (k: Option<nat>)
    ensures k.Some? ==> k.value + 2 <= |s| && s[k.value] == '\n' && s[k.value + 1] == '\n'
  {
    if |s| < 2 then None
    else if s[0] == '\n' && s[1] == '\n' then Some(0)
    else
      var k := Cut(s[1..]);
      if k.None? then None else Some(k.value + 1)
  }

  /** The complete blocks, left to right, and the incomplete rest. */
  function Blocks(s: string): seq<string>
    decreases |s|
  {
    var k := Cut(s);
    if k.None? then [] else [s[..k.value]] + Blocks(s[k.value + 2..])
  }

  function Tail(s: string): string
    decreases |s|
  {
    var k := Cut(s);
    if k.None? then s else Tail(s[k.value + 2..])
  }

  // ---------------------------------------------------------------- reading a block

  datatype Provider = OpenAI | Anthropic | Groq

  datatype Usage = Usage(input: int, output: int, cached: int, cacheWrite: int, reasoning: int)

  datatype Parsed = Parsed(model: string, usage: Usage, recordId: string, usageError: string)

  const NOTHING := Parsed("", Usage(0, 0, 0, 0, 0), "", "")

  /** Reads a payload as a JSON object. */
  type Decoder = string -> Option<map<string, Value>>

  /** A line longer than the scanner's buffer ends the block. */
  const MAX_LINE := 1_048_575

  function LineEnd(s: string): (n: nat)
    ensures n <= |s|
  {
    if s == "" || s[0] == '\n' then 0 else 1 + LineEnd(s[1..])
  }

  function Lines(block: string): seq<string>
    decreases |block|
  {
    if block == "" then []
    else
      var n := LineEnd(block);
      if n > MAX_LINE then [] else [block[..n]] + (if n == |block| then [] else Lines(block[n + 1..]))
  }

  function Truncated(n: real): int { if n >= 0.0 then n.Floor else -((-n).Floor) }

  function IntFrom(m: map<string, Value>, key: string): int {
    if key in m && m[key].Num? then Truncated(m[key].n) else 0
  }

  function Object(v: Option<Value>): Option<map<string, Value>> {
    if v.Some? && v.value.Obj? then Some(v.value.fields) else None
  }

  function Replaced(old_: string, v: Option<Value>): string {
    if Text(v).Some? && Text(v).value != "" then Text(v).value else old_
  }

  function OpenAIUsage(p: Parsed, usage: Option<map<string, Value>>): Parsed {
    if usage.None? then p
    else match Tokens.NormalizeOpenAIUsage(usage.value)
      case Invalid(reason) => p.(usageError := reason)
      case Buckets(u) => p.(usage := Usage(u.totalInput, u.totalOutput, u.cacheRead, u.cacheWrite, u.reasoning), usageError := "")
  }

  function OpenAIChunk(p: Parsed, chunk: map<string, Value>): Parsed {
    var response := Object(Member(chunk, "response"));
    var c := if response.Some? && Text(Member(chunk, "type")) == Some("response.completed") then response.value else chunk;
    OpenAIUsage(p.(model := Replaced(p.model, Member(c, "model")), recordId := Replaced(p.recordId, Member(c, "id"))),
                Object(Member(c, "usage")))
  }

  function Positive(n: int, otherwise: int): int { if n > 0 then n else otherwise }

  function AnthropicChunk(p: Parsed, chunk: map<string, Value>): Parsed {
    var kind := Text(Member(chunk, "type"));
    if kind == Some("message_start") then
      var message := Object(Member(chunk, "message"));
      if message.None? then p
      else
        var named := p.(model := Replaced(p.model, Member(message.value, "model")));
        var usage := Object(Member(message.value, "usage"));
        if usage.None? then named
        else named.(usage := p.usage.(input := Positive(IntFrom(usage.value, "input_tokens"), p.usage.input),
                                      cached := Positive(IntFrom(usage.value, "cache_read_input_tokens"), p.usage.cached)))
    else if kind == Some("message_delta") then
      var usage := Object(Member(chunk, "usage"));
      if usage.None? then p
      else p.(usage := p.usage.(output := Positive(IntFrom(usage.value, "output_tokens"), p.usage.output),
                                input := if p.usage.input == 0 then Positive(IntFrom(usage.value, "input_tokens"), 0) else p.usage.input))
    else p
  }

  /** The JSON text of a data line. */
  function Payload(line: string): string {
    var t := Names.TrimSpace(line);
    if Names.HasPrefix(t, "data:") then Names.TrimSpace(t[5..]) else ""
  }

  function ReadLine(provider: Provider, decode: Decoder, p: Parsed, line: string): Parsed {
    var payload := Payload(line);
    if payload == "" || payload == "[DONE]" || decode(payload).None? then p
    else if provider.Anthropic? then AnthropicChunk(p, decode(payload).value)
    else OpenAIChunk(p, decode(payload).value)
  }

  function ReadLines(provider: Provider, decode: Decoder, p: Parsed, lines: seq<string>): Parsed {
    if lines == [] then p
    else ReadLine(provider, decode, ReadLines(provider, decode, p, lines[..|lines| - 1]), lines[|lines| - 1])
  }

  function ReadBlocks(provider: Provider, decode: Decoder, p: Parsed, blocks: seq<string>): Parsed {
    if blocks == [] then p
    else ReadLines(provider, decode, ReadBlocks(provider, decode, p, blocks[..|blocks| - 1]), Lines(blocks[|blocks| - 1]))
  }

  /** The meaning of a stream: its complete blocks read in order, the incomplete tail ignored. */
  function Meaning(provider: Provider, decode: Decoder, stream: string): Parsed {
    ReadBlocks(provider, decode, NOTHING, Blocks(stream))
  }

  // ---------------------------------------------------------------- one chunk at a time

  datatype Reader = Reader(buffer: string, parsed: Parsed)

  const EMPTY := Reader("", NOTHING)

  function Feed(provider: Provider, decode: Decoder, r: Reader, chunk: string): Reader {
    Reader(Tail(r.buffer + chunk), ReadBlocks(provider, decode, r.parsed, Blocks(r.buffer + chunk)))
  }

  function FeedAll(provider: Provider, decode: Decoder, chunks: seq<string>): Reader {
    if chunks == [] then EMPTY
    else Feed(provider, decode, FeedAll(provider, decode, chunks[..|chunks| - 1]), chunks[|chunks| - 1])
  }

  function Join(chunks: seq<string>): string {
    if chunks == [] then "" else Join(chunks[..|chunks| - 1]) + chunks[|chunks| - 1]
  }

  lemma {:induction false} CutExtends(a: string, b: string)
    ensures Cut(a).Some? ==> Cut(a + b) == Cut(a)
  {
    if |a| >= 2 {
      assert (a + b)[1..] == a[1..] + b;
      CutExtends(a[1..], b);
    }
  }

  lemma SliceConcat(a: string, b: string, k: nat)
    requires k + 2 <= |a|
    ensures (a + b)[..k] == a[..k] && (a + b)[k + 2..] == a[k + 2..] + b
  {
  }

  lemma FirstBlock(s: string, k: nat)
    requires Cut(s) == Some(k)
    ensures Blocks(s) == [s[..k]] + Blocks(s[k + 2..]) && Tail(s) == Tail(s[k + 2..])
  {
    hide Cut;
  }

  lemma OneBlock(provider: Provider, decode: Decoder, p: Parsed, done: seq<string>, block: string)
    ensures ReadBlocks(provider, decode, p, done + [block]) == ReadLines(provider, decode, ReadBlocks(provider, decode, p, done), Lines(block))
  {
    hide ReadLines, Lines;
    assert (done + [block])[..|done|] == done;
  }

  lemma NothingRead(provider: Provider, decode: Decoder, p: Parsed)
    ensures ReadBlocks(provider, decode, p, []) == p
  {
  }

  lemma NoBlocks(s: string)
    requires Cut(s).None?
    ensures Blocks(s) == [] && Tail(s) == s
  {
  }

  /** Cutting what has arrived so far, and later the rest, finds the same blocks as cutting everything at once. */
  lemma {:induction false} BlocksConcat(a: string, b: string)
    ensures Blocks(a + b) == Blocks(a) + Blocks(Tail(a) + b)
    ensures Tail(a + b) == Tail(Tail(a) + b)
    decreases |a|, 1
  {
    var k := Cut(a);
    if k.None? {
      assert [] + Blocks(a + b) == Blocks(a + b);
    } else {
      BlocksConcatStep(a, b, k.value);
    }
  }

  lemma {:induction false} BlocksConcatStep(a: string, b: string, k: nat)
    requires Cut(a) == Some(k)
    ensures Blocks(a + b) == Blocks(a) + Blocks(Tail(a) + b)
    ensures Tail(a + b) == Tail(Tail(a) + b)
    decreases |a|, 0
  {
    hide Blocks, Tail, Cut;
    var rest := a[k + 2..];
    CutExtends(a, b);
    SliceConcat(a, b, k);
    FirstBlock(a, k);
    FirstBlock(a + b, k);
    BlocksConcat(rest, b);
    Assoc([a[..k]], Blocks(rest), Blocks(Tail(rest) + b));
  }

  lemma {:induction false} ReadBlocksConcat(provider: Provider, decode: Decoder, p: Parsed, a: seq<string>, b: seq<string>)
    ensures ReadBlocks(provider, decode, p, a + b) == ReadBlocks(provider, decode, ReadBlocks(provider, decode, p, a), b)
  {
    if b == [] {
      assert a + b == a;
    } else {
      assert (a + b)[..|a + b| - 1] == a + b[..|b| - 1];
      ReadBlocksConcat(provider, decode, p, a, b[..|b| - 1]);
    }
  }

  /** However the stream is cut into reads, the result is the meaning of the whole stream. */
  lemma {:induction false} CutIndependent(provider: Provider, decode: Decoder, chunks: seq<string>)
    ensures FeedAll(provider, decode, chunks) == Reader(Tail(Join(chunks)), Meaning(provider, decode, Join(chunks)))
  {
    if chunks != [] {
      var init, last := chunks[..|chunks| - 1], chunks[|chunks| - 1];
      CutIndependent(provider, decode, init);
      BlocksConcat(Join(init), last);
      ReadBlocksConcat(provider, decode, NOTHING, Blocks(Join(init)), Blocks(Tail(Join(init)) + last));
    } else {
      assert Blocks("") == [] && Tail("") == "";
    }
  }

  /** Two ways of cutting the same bytes give the same model, usage, record id and error. */
  lemma SameBytesSameResult(provider: Provider, decode: Decoder, chunks: seq<string>, others: seq<string>)
    requires Join(chunks) == Join(others)
    ensures FeedAll(provider, decode, chunks) == FeedAll(provider, decode, others)
  {
    CutIndependent(provider, decode, chunks);
    CutIndependent(provider, decode, others);
  }

  // ---------------------------------------------------------------- recording once

  datatype Action = Read(bytes: string, terminal: bool) | Close

  function BytesOf(a: Action): string { if a.Read? then a.bytes else "" }

  predicate Finishes(a: Action) { a.Close? || a.terminal }

  /** The price of model, input, output, cache-read and cache-write tokens. */
  type Pricer = (string, int, int, int, int) -> real

  datatype Event = Event(provider: Provider, model: string, recordId: string, usageError: string, counted: bool,
                         usage: Usage, cost: real)

  /** The one event of a stream. Malformed usage is kept as an error, absent usage costs nothing. */
  function EventOf(provider: Provider, price: Pricer, requestModel: string, p: Parsed): Event {
    var model := if p.model == "" then requestModel else p.model;
    var u := p.usage;
    var counted := p.usageError == "" && !(u.input == 0 && u.output == 0);
    if counted
      then Event(provider, model, p.recordId, "", true,
                 Usage(u.input, u.output, Max(u.cached, 0), Max(u.cacheWrite, 0), Max(u.reasoning, 0)),
                 price(model, u.input, u.output, u.cached, u.cacheWrite))
    else Event(provider, model, p.recordId, p.usageError, false, NOTHING.usage, 0.0)
  }

  function ChunksOf(actions: seq<Action>): seq<string> {
    if actions == [] then [] else ChunksOf(actions[..|actions| - 1]) + [BytesOf(actions[|actions| - 1])]
  }

  /** The actions up to and including the first that finishes the stream. */
  function UntilFinish(actions: seq<Action>): Option<seq<Action>> {
    if actions == [] then None
    else
      var earlier := UntilFinish(actions[..|actions| - 1]);
      if earlier.Some? then earlier
      else if Finishes(actions[|actions| - 1]) then Some(actions)
      else None
  }

  /** What the store holds afterwards: one event as soon as anything finished the stream, with what was read by then. */
  function Recorded(provider: Provider, decode: Decoder, price: Pricer, requestModel: string, actions: seq<Action>): seq<Event> {
    var done := UntilFinish(actions);
    if done.None? then []
    else [EventOf(provider, price, requestModel, Meaning(provider, decode, Join(ChunksOf(done.value))))]
  }

  /** Feeding no bytes changes nothing when the buffer holds no complete block. */
  lemma FeedNothing(provider: Provider, decode: Decoder, r: Reader)
    requires Cut(r.buffer).None?
    ensures Feed(provider, decode, r, "") == r
  {
    assert r.buffer + "" == r.buffer;
  }

  /** Any mix of terminal reads and closes inserts exactly one event; without either there is none. */
  lemma {:induction false} RecordedOnce(provider: Provider, decode: Decoder, price: Pricer,
                                        requestModel: string, actions: seq<Action>)
    ensures var n := |Recorded(provider, decode, price, requestModel, actions)|;
            n <= 1 && (n == 1 <==> exists a :: a in actions && Finishes(a))
  {
    hide EventOf, Meaning;
    if actions != [] {
      var init := actions[..|actions| - 1];
      RecordedOnce(provider, decode, price, requestModel, init);
      assert actions == init + [actions[|actions| - 1]];
    }
  }

  /** How one more action changes what was fed, and what is recorded. */
  lemma OneMore(provider: Provider, decode: Decoder, price: Pricer, requestModel: string, before: seq<Action>, a: Action)
    ensures var after := before + [a];
            var r := FeedAll(provider, decode, ChunksOf(after));
            && r == Feed(provider, decode, FeedAll(provider, decode, ChunksOf(before)), BytesOf(a))
            && (UntilFinish(after).Some? <==> UntilFinish(before).Some? || Finishes(a))
            && Recorded(provider, decode, price, requestModel, after)
               == (if UntilFinish(before).Some? then Recorded(provider, decode, price, requestModel, before)
                   else if Finishes(a) then [EventOf(provider, price, requestModel, r.parsed)]
                   else [])
            && (UntilFinish(before).None? ==> Recorded(provider, decode, price, requestModel, before) == [])
  {
    hide EventOf, Feed, Meaning;
    var after := before + [a];
    assert after[..|before|] == before;
    var chunks := ChunksOf(before) + [BytesOf(a)];
    assert ChunksOf(after) == chunks && chunks[..|chunks| - 1] == ChunksOf(before);
    CutIndependent(provider, decode, ChunksOf(after));
  }

  /** The recorder object: scan buffer, parsed state, and the events it inserted. */
  class StreamRecorder {
    const provider: Provider
    const decode: Decoder
    const price: Pricer
    const requestModel: string
    var scanBuf: string
    var parsed: Parsed
    var finalized: bool
    var inserted: seq<Event>
    ghost var actions: seq<Action>

    ghost predicate Valid()
      reads this
    {
      && Cut(scanBuf).None?
      && Reader(scanBuf, parsed) == FeedAll(provider, decode, ChunksOf(actions))
      && finalized == UntilFinish(actions).Some?
      && inserted == Recorded(provider, decode, price, requestModel, actions)
    }

    constructor (provider: Provider, decode: Decoder, price: Pricer, requestModel: string)
      ensures Valid() && actions == [] && inserted == []
      ensures this.provider == provider && this.decode == decode && this.price == price && this.requestModel == requestModel
    {
      this.provider, this.decode, this.price, this.requestModel := provider, decode, price, requestModel;
      scanBuf, parsed, finalized, inserted, actions := "", NOTHING, false, [], [];
    }

    /** Forwards bytes; a terminal error finishes the stream. */
    method Read(bytes: string, terminal: bool)
      requires Valid()
      modifies this
      ensures Valid() && actions == old(actions) + [Action.Read(bytes, terminal)]
    {
      hide EventOf, Recorded, UntilFinish, FeedAll, ChunksOf;
      OneMore(provider, decode, price, requestModel, actions, Action.Read(bytes, terminal));
      FeedNothing(provider, decode, Reader(scanBuf, parsed));
      if |bytes| > 0 {
        scanBuf := scanBuf + bytes;
        ConsumeBuffered();
      } else {
        assert bytes == "";
      }
      actions := actions + [Action.Read(bytes, terminal)];
      if terminal { Finalize(); }
    }

    method Close()
      requires Valid()
      modifies this
      ensures Valid() && actions == old(actions) + [Action.Close]
    {
      hide EventOf, Recorded, UntilFinish, FeedAll, ChunksOf;
      OneMore(provider, decode, price, requestModel, actions, Action.Close);
      FeedNothing(provider, decode, Reader(scanBuf, parsed));
      actions := actions + [Action.Close];
      Finalize();
    }

    /** Reads every complete block and keeps the rest. */
    method ConsumeBuffered()
      modifies this`scanBuf, this`parsed
      ensures Cut(scanBuf).None? && scanBuf == Tail(old(scanBuf))
              && parsed == ReadBlocks(provider, decode, old(parsed), Blocks(old(scanBuf)))
    {
      hide Blocks, Tail, Cut, ReadBlocks, ReadLines, Lines;
      var data := scanBuf;
      ghost var done: seq<string> := [];
      NothingRead(provider, decode, parsed);
      assert done + Blocks(data) == Blocks(data);
      while Cut(data).Some?
        invariant Blocks(scanBuf) == done + Blocks(data) && Tail(scanBuf) == Tail(data)
        invariant scanBuf == old(scanBuf) && parsed == ReadBlocks(provider, decode, old(parsed), done)
        decreases |data|
      {
        var idx := Cut(data).value;
        var event := data[..idx];
        FirstBlock(data, idx);
        Assoc(done, [event], Blocks(data[idx + 2..]));
        OneBlock(provider, decode, old(parsed), done, event);
        data := data[idx + 2..];
        done := done + [event];
        ProcessSSEEvent(event);
      }
      NoBlocks(data);
      assert done + [] == done;
      scanBuf := data;
    }

    method ProcessSSEEvent(event: string)
      modifies this`parsed
      ensures parsed == ReadLines(provider, decode, old(parsed), Lines(event))
    {
      var lines := Lines(event);
      var i := 0;
      while i < |lines|
        invariant 0 <= i <= |lines| && parsed == ReadLines(provider, decode, old(parsed), lines[..i])
      {
        assert lines[..i + 1][..i] == lines[..i];
        parsed := ReadLine(provider, decode, parsed, lines[i]);
        i := i + 1;
      }
      assert lines[..i] == lines;
    }

    /** Inserts the event the first time only. */
    method Finalize()
      modifies this`finalized, this`inserted
      ensures finalized
      ensures inserted == if old(finalized) then old(inserted) else old(inserted) + [EventOf(provider, price, requestModel, parsed)]
    {
      if finalized { return; }
      finalized := true;
      inserted := inserted + [EventOf(provider, price, requestModel, parsed)];
    }
  }
}
