/** The provider agent's stream transducer (internal/provider/agent.go, `handleStreamingResponse`): backend
    lines in, chunk messages out. */
module AgentStream {
  import opened Wire

  datatype Backend = Ollama | OpenAI

  /** One decoded backend record. An OpenAI record has no thinking text, and is done when it carries a
      finish reason. */
  datatype Delta = Delta(content: string, thinking: string, toolCalls: string, done: bool)

  /** The JSON decoders, and the normalisation of raw tool calls; all of them are parameters. */
  datatype Codec = Codec(
    ollama: string -> Option<Delta>,
    openai: string -> Option<Delta>,
    normalizeToolCalls: string -> string)

  const DATA_PREFIX := "data: "
  const DONE_LINE := "data: [DONE]"

  datatype Decoded = Skip | Sentinel | Data(delta: Delta)

  function DecodeLine(c: Codec, backend: Backend, line: string): Decoded {
    match backend
    case OpenAI =>
      if line == "" then Skip
      else if line == DONE_LINE then Sentinel
      else if DATA_PREFIX <= line then
        match c.openai(line[|DATA_PREFIX|..])
        case None => Skip
        case Some(d) => Data(d.(thinking := ""))
      else Skip
    case Ollama =>
      if line == "" then Skip
      else match c.ollama(line)
        case None => Skip
        case Some(d) => Data(d)
  }

  /** Content, or the thinking text where content is empty. */
  function Text(d: Delta): string {
    if d.content == "" && d.thinking != "" then d.thinking else d.content
  }

  function ChunkOf(c: Codec, rid: RequestId, d: Delta): ProviderMsg {
    Chunk(rid, Text(d), c.normalizeToolCalls(d.toolCalls), d.done)
  }

  function DoneChunk(rid: RequestId): ProviderMsg {
    Chunk(rid, "", "", true)
  }

  function Unexpected(rid: RequestId): ProviderMsg {
    Error(rid, "internal", "stream ended unexpectedly")
  }

  /** What one attempt to write to the coordinator meets. */
  datatype Link = NoConn | WriteFails | WriteOk

  function Deliver(link: Link, m: ProviderMsg): seq<ProviderMsg> {
    if link.WriteOk? then [m] else []
  }

  /** The messages delivered when the k-th write from now on meets `link(k)`. */
  function Delivered(c: Codec, backend: Backend, rid: RequestId, lines: seq<string>, link: nat -> Link, k: nat): seq<ProviderMsg>
    decreases |lines|
  {
    if lines == [] then Deliver(link(k), Unexpected(rid))
    else match DecodeLine(c, backend, lines[0])
      case Skip => Delivered(c, backend, rid, lines[1..], link, k)
      case Sentinel => Deliver(link(k), DoneChunk(rid))
      case Data(d) =>
        if !link(k).WriteOk? then Deliver(link(k + 1), Unexpected(rid))
        else if d.done then [ChunkOf(c, rid, d)]
        else [ChunkOf(c, rid, d)] + Delivered(c, backend, rid, lines[1..], link, k + 1)
  }

  lemma DeliveredFrom(c: Codec, backend: Backend, rid: RequestId, lines: seq<string>, link: nat -> Link, k: nat, i: nat)
    requires i < |lines|
    ensures Delivered(c, backend, rid, lines[i..], link, k)
         == match DecodeLine(c, backend, lines[i])
            case Skip => Delivered(c, backend, rid, lines[i + 1..], link, k)
            case Sentinel => Deliver(link(k), DoneChunk(rid))
            case Data(d) =>
              if !link(k).WriteOk? then Deliver(link(k + 1), Unexpected(rid))
              else if d.done then [ChunkOf(c, rid, d)]
              else [ChunkOf(c, rid, d)] + Delivered(c, backend, rid, lines[i + 1..], link, k + 1)
  {
    assert lines[i..][1..] == lines[i + 1..];
  }

  /** The scanner loop, with its `sentDone` flag and its deferred error message. */
  method HandleStreamingResponse(c: Codec, backend: Backend, rid: RequestId, lines: seq<string>, link: nat -> Link)
      returns (sent: seq<ProviderMsg>)
    ensures sent == Delivered(c, backend, rid, lines, link, 0)
  {
    sent := [];
    var sentDone := false;
    var k: nat := 0;
    var i := 0;
    var stopped := false;
    while i < |lines| && !stopped
      invariant 0 <= i <= |lines|
      invariant !stopped ==> !sentDone && sent + Delivered(c, backend, rid, lines[i..], link, k) == Delivered(c, backend, rid, lines, link, 0)
      invariant stopped && sentDone ==> sent == Delivered(c, backend, rid, lines, link, 0)
      invariant stopped && !sentDone ==> sent + Deliver(link(k), Unexpected(rid)) == Delivered(c, backend, rid, lines, link, 0)
      decreases |lines| - i, !stopped
    {
      DeliveredFrom(c, backend, rid, lines, link, k, i);
      var decoded := DecodeLine(c, backend, lines[i]);
      i := i + 1;
      match decoded {
        case Skip =>
        case Sentinel =>
          sent := sent + Deliver(link(k), DoneChunk(rid));
          sentDone := true;
          stopped := true;
        case Data(d) =>
          var outcome := link(k);
          k := k + 1;
          if outcome.WriteOk? {
            sent := sent + [ChunkOf(c, rid, d)];
            if d.done {
              sentDone := true;
              stopped := true;
            }
          } else {
            stopped := true;
          }
      }
    }
    if !sentDone {
      sent := sent + Deliver(link(k), Unexpected(rid));
    }
  }

  // ----- What the transducer means -----

  /** The records of a stream, up to and including the first one that is done. */
  function Deltas(c: Codec, backend: Backend, lines: seq<string>): seq<Delta>
    decreases |lines|
  {
    if lines == [] then []
    else match DecodeLine(c, backend, lines[0])
      case Skip => Deltas(c, backend, lines[1..])
      case Sentinel => [Delta("", "", "", true)]
      case Data(d) => if d.done then [d] else [d] + Deltas(c, backend, lines[1..])
  }

  predicate EndsDone(ds: seq<Delta>) {
    ds != [] && ds[|ds| - 1].done
  }

  function Chunks(c: Codec, rid: RequestId, ds: seq<Delta>): (ms: seq<ProviderMsg>)
    ensures |ms| == |ds|
    ensures forall i :: 0 <= i < |ds| ==> ms[i] == ChunkOf(c, rid, ds[i])
  {
    seq(|ds|, i requires 0 <= i < |ds| => ChunkOf(c, rid, ds[i]))
  }

  /** The whole output over a working connection: one chunk per record in order, then an error unless the
      last record was done. */
  function Messages(c: Codec, rid: RequestId, ds: seq<Delta>): seq<ProviderMsg> {
    Chunks(c, rid, ds) + if EndsDone(ds) then [] else [Unexpected(rid)]
  }

  /** Only the last record of a stream can be done. */
  ghost predicate DoneLast(ds: seq<Delta>) {
    forall i :: 0 <= i < |ds| - 1 ==> !ds[i].done
  }

  lemma DoneLastCons(d: Delta, ds: seq<Delta>)
    requires !d.done && DoneLast(ds)
    ensures DoneLast([d] + ds)
  {
    assert forall i :: 1 <= i <= |ds| ==> ([d] + ds)[i] == ds[i - 1];
  }

  lemma {:induction false} OnlyLastIsDone(c: Codec, backend: Backend, lines: seq<string>)
    ensures DoneLast(Deltas(c, backend, lines))
    decreases |lines|
  {
    if lines != [] {
      OnlyLastIsDone(c, backend, lines[1..]);
      match DecodeLine(c, backend, lines[0]) {
        case Skip =>
        case Sentinel =>
        case Data(d) =>
          if !d.done {
            DoneLastCons(d, Deltas(c, backend, lines[1..]));
          }
      }
    }
  }

  // Normalising the tool calls of an empty record yields none, as in the source.
  predicate SaneCodec(c: Codec) {
    c.normalizeToolCalls("") == ""
  }

  lemma MessagesCons(c: Codec, rid: RequestId, d: Delta, ds: seq<Delta>)
    requires !d.done
    ensures Messages(c, rid, [d] + ds) == [ChunkOf(c, rid, d)] + Messages(c, rid, ds)
  {
    assert Chunks(c, rid, [d] + ds) == [ChunkOf(c, rid, d)] + Chunks(c, rid, ds);
    assert ds != [] ==> ([d] + ds)[|ds|] == ds[|ds| - 1];
  }

  /** Over a working connection the loop delivers exactly the messages of the decoded records. */
  lemma {:induction false} WorkingConnection(c: Codec, backend: Backend, rid: RequestId, lines: seq<string>,
                                             link: nat -> Link, k: nat)
    requires SaneCodec(c) && forall j :: link(j) == WriteOk
    ensures Delivered(c, backend, rid, lines, link, k) == Messages(c, rid, Deltas(c, backend, lines))
    decreases |lines|
  {
    if lines != [] {
      match DecodeLine(c, backend, lines[0]) {
        case Skip =>
          WorkingConnection(c, backend, rid, lines[1..], link, k);
        case Sentinel =>
        case Data(d) =>
          if !d.done {
            WorkingConnection(c, backend, rid, lines[1..], link, k + 1);
            MessagesCons(c, rid, d, Deltas(c, backend, lines[1..]));
          }
      }
    }
  }

  /** Non-terminal chunks in line order, then exactly one terminal message, and nothing after it. */
  lemma OneTerminalMessage(c: Codec, backend: Backend, rid: RequestId, lines: seq<string>)
    ensures var ms := Messages(c, rid, Deltas(c, backend, lines));
            && |ms| > 0 && Terminal(ms[|ms| - 1])
            && forall i :: 0 <= i < |ms| - 1 ==> !Terminal(ms[i])
  {
    OnlyLastIsDone(c, backend, lines);
    MessagesEnd(c, rid, Deltas(c, backend, lines));
  }

  lemma MessagesEnd(c: Codec, rid: RequestId, ds: seq<Delta>)
    requires DoneLast(ds)
    ensures var ms := Messages(c, rid, ds);
            && |ms| > 0 && Terminal(ms[|ms| - 1])
            && forall i :: 0 <= i < |ms| - 1 ==> !Terminal(ms[i])
  {
    var ms := Messages(c, rid, ds);
    forall i | 0 <= i < |ms| - 1
      ensures !Terminal(ms[i])
    {
      assert i < |ds| && ms[i] == ChunkOf(c, rid, ds[i]);
    }
  }

  /** A prefix of the full output, possibly followed by the one error message. */
  ghost predicate PartOf(sent: seq<ProviderMsg>, ms: seq<ProviderMsg>, rid: RequestId) {
    sent <= ms || exists n: nat :: CutAt(sent, ms, rid, n)
  }

  ghost predicate CutAt(sent: seq<ProviderMsg>, ms: seq<ProviderMsg>, rid: RequestId, n: nat) {
    n < |ms| && sent == ms[..n] + [Unexpected(rid)]
  }

  lemma PartOfCons(m: ProviderMsg, sent: seq<ProviderMsg>, ms: seq<ProviderMsg>, rid: RequestId)
    requires PartOf(sent, ms, rid)
    ensures PartOf([m] + sent, [m] + ms, rid)
  {
    if !(sent <= ms) {
      var n: nat :| CutAt(sent, ms, rid, n);
      assert ([m] + ms)[..n + 1] == [m] + ms[..n];
      assert CutAt([m] + sent, [m] + ms, rid, n + 1);
    }
  }

  /** Over any connection, failing writes included, what is delivered is a prefix of the full output,
      possibly followed by the one error message. */
  lemma {:induction false} AnyConnection(c: Codec, backend: Backend, rid: RequestId, lines: seq<string>, link: nat -> Link, k: nat)
    requires SaneCodec(c)
    ensures PartOf(Delivered(c, backend, rid, lines, link, k), Messages(c, rid, Deltas(c, backend, lines)), rid)
    decreases |lines|
  {
    if lines != [] {
      match DecodeLine(c, backend, lines[0]) {
        case Skip =>
          AnyConnection(c, backend, rid, lines[1..], link, k);
        case Sentinel =>
        case Data(d) =>
          if !link(k).WriteOk? {
            OneTerminalMessage(c, backend, rid, lines);
            assert CutAt([Unexpected(rid)], Messages(c, rid, Deltas(c, backend, lines)), rid, 0);
          } else if !d.done {
            AnyConnection(c, backend, rid, lines[1..], link, k + 1);
            MessagesCons(c, rid, d, Deltas(c, backend, lines[1..]));
            PartOfCons(ChunkOf(c, rid, d), Delivered(c, backend, rid, lines[1..], link, k + 1),
                       Messages(c, rid, Deltas(c, backend, lines[1..])), rid);
          }
      }
    }
  }

  /** So whatever the connection does, at most one terminal message is delivered, and nothing follows it. */
  lemma AtMostOneTerminal(c: Codec, backend: Backend, rid: RequestId, lines: seq<string>, link: nat -> Link, i: nat)
    requires SaneCodec(c) && i < |Delivered(c, backend, rid, lines, link, 0)|
    requires Terminal(Delivered(c, backend, rid, lines, link, 0)[i])
    ensures i == |Delivered(c, backend, rid, lines, link, 0)| - 1
  {
    AnyConnection(c, backend, rid, lines, link, 0);
    OneTerminalMessage(c, backend, rid, lines);
  }

  // ----- Record by record -----

  lemma PartAt(c: Codec, rid: RequestId, ds: seq<Delta>, sent: seq<ProviderMsg>, i: nat)
    requires PartOf(sent, Messages(c, rid, ds), rid) && i < |sent|
    ensures (i < |ds| && sent[i] == ChunkOf(c, rid, ds[i])) || (i == |sent| - 1 && sent[i] == Unexpected(rid))
  {
    var ms := Messages(c, rid, ds);
    if sent <= ms {
      assert sent[i] == ms[i];
    } else {
      var n: nat :| CutAt(sent, ms, rid, n);
      if i < n {
        assert sent[i] == ms[i];
      }
    }
  }

  /** Over any connection, each message delivered is about the request; the i-th, if it is a chunk, carries the
      i-th record's content, or its thinking text if it has no content, its tool calls normalised, and its done
      flag; and one that is not a chunk is the error that the stream ended, and comes last. */
  lemma EveryMessage(c: Codec, backend: Backend, rid: RequestId, lines: seq<string>, link: nat -> Link, i: nat)
    requires SaneCodec(c) && i < |Delivered(c, backend, rid, lines, link, 0)|
    ensures var ds := Deltas(c, backend, lines);
            var sent := Delivered(c, backend, rid, lines, link, 0);
            && sent[i].rid == rid && !sent[i].Response?
            && (sent[i].Chunk? ==>
                  && i < |ds|
                  && (ds[i].content != "" ==> sent[i].content == ds[i].content)
                  && (ds[i].content == "" ==> sent[i].content == ds[i].thinking)
                  && sent[i].toolCalls == c.normalizeToolCalls(ds[i].toolCalls)
                  && sent[i].done == ds[i].done)
            && (sent[i].Error? ==> sent[i].code == "internal" && sent[i].message == "stream ended unexpectedly" && i == |sent| - 1)
  {
    AnyConnection(c, backend, rid, lines, link, 0);
    PartAt(c, rid, Deltas(c, backend, lines), Delivered(c, backend, rid, lines, link, 0), i);
  }

  /** Over a working connection nothing is missing: one chunk per record, and then an error exactly if the last
      record was not done. */
  lemma EveryRecord(c: Codec, backend: Backend, rid: RequestId, lines: seq<string>, link: nat -> Link, i: nat)
    requires SaneCodec(c) && forall j :: link(j) == WriteOk
    ensures var ds := Deltas(c, backend, lines);
            var sent := Delivered(c, backend, rid, lines, link, 0);
            && |sent| == |ds| + (if ds != [] && ds[|ds| - 1].done then 0 else 1)
            && (i < |sent| ==> (sent[i].Chunk? <==> i < |ds|))
  {
    WorkingConnection(c, backend, rid, lines, link, 0);
    if i < |Deltas(c, backend, lines)| {
      assert Messages(c, rid, Deltas(c, backend, lines))[i] == ChunkOf(c, rid, Deltas(c, backend, lines)[i]);
    }
  }

  // ----- Which records a stream has -----

  /** A line that says nothing: an empty one, one that does not decode, or, from an OpenAI backend, one that is
      not a data line. */
  predicate Noise(c: Codec, backend: Backend, line: string) {
    || line == ""
    || (backend == Ollama && c.ollama(line) == None)
    || (backend == OpenAI && !("data: " <= line))
    || (backend == OpenAI && "data: " <= line && line != "data: [DONE]" && c.openai(line[6..]) == None)
  }

  /** Noise anywhere in a stream changes neither its records nor, over any connection, what is delivered. */
  lemma {:induction false} NoiseIsSkipped(c: Codec, backend: Backend, rid: RequestId, before: seq<string>, line: string,
                                          after: seq<string>, link: nat -> Link, k: nat)
    requires Noise(c, backend, line)
    ensures Deltas(c, backend, before + [line] + after) == Deltas(c, backend, before + after)
    ensures Delivered(c, backend, rid, before + [line] + after, link, k) == Delivered(c, backend, rid, before + after, link, k)
    decreases |before|
  {
    if before == [] {
      assert [] + [line] + after == [line] + after && [] + after == after;
      assert ([line] + after)[1..] == after;
      NoiseDecodes(c, backend, line);
    } else {
      var rest := before[1..];
      assert (before + [line] + after)[1..] == rest + [line] + after && (before + after)[1..] == rest + after;
      NoiseIsSkipped(c, backend, rid, rest, line, after, link, k);
      NoiseIsSkipped(c, backend, rid, rest, line, after, link, k + 1);
    }
  }

  lemma NoiseDecodes(c: Codec, backend: Backend, line: string)
    requires Noise(c, backend, line)
    ensures DecodeLine(c, backend, line) == Skip
  {
  }

  /** Every line of an Ollama stream that decodes is a record, up to and including the first that is done. */
  lemma {:induction false} NdjsonRecords(c: Codec, lines: seq<string>, ds: seq<Delta>)
    requires |lines| == |ds| && DoneLast(ds)
    requires forall i :: 0 <= i < |ds| ==> lines[i] != "" && c.ollama(lines[i]) == Some(ds[i])
    ensures Deltas(c, Ollama, lines) == ds
    decreases |ds|
  {
    if ds != [] {
      if !ds[0].done {
        NdjsonRecords(c, lines[1..], ds[1..]);
        assert ds == [ds[0]] + ds[1..];
      } else {
        assert ds == [ds[0]];
      }
    }
  }

  /** Every data line of an OpenAI stream that decodes is a record, without a thinking text; `[DONE]` closes a
      stream none of whose records was done with an empty done record. */
  lemma {:induction false} SseRecords(c: Codec, payloads: seq<string>, ds: seq<Delta>)
    requires |payloads| == |ds| && DoneLast(ds)
    requires forall i :: 0 <= i < |ds| ==>
      payloads[i] != "[DONE]" && c.openai(payloads[i]).Some? && ds[i] == c.openai(payloads[i]).value.(thinking := "")
    ensures Deltas(c, OpenAI, SseLines(payloads)) == if EndsDone(ds) then ds else ds + [Delta("", "", "", true)]
    decreases |ds|
  {
    if ds != [] {
      var line, rest := DATA_PREFIX + payloads[0], SseLines(payloads[1..]);
      PayloadLine(c, payloads[0]);
      assert SseLines(payloads)[0] == line && SseLines(payloads)[1..] == [""] + rest;
      assert ([""] + rest)[1..] == rest;
      if !ds[0].done {
        SseRecords(c, payloads[1..], ds[1..]);
        assert ds == [ds[0]] + ds[1..];
      } else {
        assert ds == [ds[0]];
      }
    }
  }

  lemma PayloadLine(c: Codec, payload: string)
    requires payload != "[DONE]" && c.openai(payload).Some?
    ensures DecodeLine(c, OpenAI, DATA_PREFIX + payload) == Data(c.openai(payload).value.(thinking := ""))
  {
    assert (DATA_PREFIX + payload)[|DATA_PREFIX|..] == payload;
    assert DONE_LINE[|DATA_PREFIX|..] == "[DONE]";
  }

  // ----- The two encodings -----

  /** Payloads as server-sent events: a data line and a blank line each, then the sentinel. */
  function SseLines(payloads: seq<string>): seq<string>
    decreases |payloads|
  {
    if payloads == [] then [DONE_LINE]
    else [DATA_PREFIX + payloads[0], ""] + SseLines(payloads[1..])
  }

  /** Both encodings of a record decode to it; the OpenAI one can carry no thinking text. */
  ghost predicate SameRecord(c: Codec, ndjson: string, payload: string, d: Delta) {
    && ndjson != "" && c.ollama(ndjson) == Some(d)
    && payload != "[DONE]" && c.openai(payload) == Some(d) && d.thinking == ""
  }

  /** The same logical stream, ending in a done record, sent as Ollama NDJSON or as OpenAI events yields
      identical messages over a working connection. */
  lemma {:induction false} EncodingsAgree(c: Codec, rid: RequestId, ndjson: seq<string>, payloads: seq<string>,
                                          ds: seq<Delta>, link: nat -> Link, k: nat)
    requires SaneCodec(c)
    requires |ndjson| == |payloads| == |ds| && EndsDone(ds)
    requires forall i :: 0 <= i < |ds| ==> SameRecord(c, ndjson[i], payloads[i], ds[i])
    ensures Delivered(c, Ollama, rid, ndjson, link, k) == Delivered(c, OpenAI, rid, SseLines(payloads), link, k)
    decreases |ds|
  {
    var line := DATA_PREFIX + payloads[0];
    var sse := SseLines(payloads);
    assert SameRecord(c, ndjson[0], payloads[0], ds[0]);
    assert line[|DATA_PREFIX|..] == payloads[0];
    assert DONE_LINE[|DATA_PREFIX|..] == "[DONE]";
    assert line != DONE_LINE;
    assert sse[0] == line;
    assert sse[1..] == [""] + SseLines(payloads[1..]);
    assert sse[1..][1..] == SseLines(payloads[1..]);
    if !ds[0].done && link(k).WriteOk? {
      EncodingsAgree(c, rid, ndjson[1..], payloads[1..], ds[1..], link, k + 1);
    }
  }

  /** Both encodings of a stream whose records are none of them done. */
  ghost predicate SameRunning(c: Codec, ndjson: seq<string>, payloads: seq<string>, ds: seq<Delta>) {
    && |ndjson| == |payloads| == |ds|
    && forall i :: 0 <= i < |ds| ==> SameRecord(c, ndjson[i], payloads[i], ds[i]) && !ds[i].done
  }

  /** An NDJSON line that is done and says nothing else. */
  ghost predicate ClosingLine(c: Codec, line: string) {
    line != "" && c.ollama(line) == Some(Delta("", "", "", true))
  }

  /** The n writes from the k-th on all succeed. */
  predicate Writes(link: nat -> Link, k: nat, n: nat) {
    forall j :: k <= j < k + n ==> link(j).WriteOk?
  }

  lemma RunningCons(c: Codec, rid: RequestId, backend: Backend, line: string, rest: seq<string>, d: Delta, link: nat -> Link, k: nat)
    requires DecodeLine(c, backend, line) == Data(d) && !d.done && link(k).WriteOk?
    ensures Delivered(c, backend, rid, [line] + rest, link, k) == [ChunkOf(c, rid, d)] + Delivered(c, backend, rid, rest, link, k + 1)
  {
    assert ([line] + rest)[1..] == rest;
  }

  lemma SseShape(payloads: seq<string>)
    requires payloads != []
    ensures SseLines(payloads) == [DATA_PREFIX + payloads[0]] + ([""] + SseLines(payloads[1..]))
  {
    assert forall x: string, y: string, rest: seq<string> :: [x, y] + rest == [x] + ([y] + rest);
  }

  lemma BlankIsSkipped(c: Codec, rid: RequestId, rest: seq<string>, link: nat -> Link, k: nat)
    ensures Delivered(c, OpenAI, rid, [""] + rest, link, k) == Delivered(c, OpenAI, rid, rest, link, k)
  {
    assert ([""] + rest)[1..] == rest;
  }

  lemma SseCons(c: Codec, rid: RequestId, payloads: seq<string>, d: Delta, link: nat -> Link, k: nat)
    requires payloads != [] && payloads[0] != "[DONE]" && c.openai(payloads[0]) == Some(d) && d.thinking == "" && !d.done && link(k).WriteOk?
    ensures Delivered(c, OpenAI, rid, SseLines(payloads), link, k)
         == [ChunkOf(c, rid, d)] + Delivered(c, OpenAI, rid, SseLines(payloads[1..]), link, k + 1)
  {
    DataLine(c, payloads[0], d);
    SseShape(payloads);
    RunningCons(c, rid, OpenAI, DATA_PREFIX + payloads[0], [""] + SseLines(payloads[1..]), d, link, k);
    BlankIsSkipped(c, rid, SseLines(payloads[1..]), link, k + 1);
  }

  lemma DataLine(c: Codec, payload: string, d: Delta)
    requires payload != "[DONE]" && c.openai(payload) == Some(d) && d.thinking == ""
    ensures DecodeLine(c, OpenAI, DATA_PREFIX + payload) == Data(d)
  {
    assert (DATA_PREFIX + payload)[|DATA_PREFIX|..] == payload;
    assert DONE_LINE[|DATA_PREFIX|..] == "[DONE]";
  }

  /** A failed write of a chunk ends both streams with the same error. */
  lemma FailureAgrees(c: Codec, rid: RequestId, ndjson: seq<string>, payloads: seq<string>, ds: seq<Delta>, closing: string,
                      link: nat -> Link, k: nat)
    requires SameRunning(c, ndjson, payloads, ds) && ds != [] && !link(k).WriteOk?
    ensures Delivered(c, Ollama, rid, ndjson + [closing], link, k) == Delivered(c, OpenAI, rid, SseLines(payloads), link, k)
  {
    assert SameRecord(c, ndjson[0], payloads[0], ds[0]);
    DataLine(c, payloads[0], ds[0]);
    assert SseLines(payloads)[0] == DATA_PREFIX + payloads[0];
  }

  /** The closing lines alone: where the sentinel's write fails, the agent sends no error, because it has already
      noted that it is done. */
  lemma ClosingAgrees(c: Codec, rid: RequestId, closing: string, link: nat -> Link, k: nat)
    requires SaneCodec(c) && ClosingLine(c, closing)
    ensures Delivered(c, Ollama, rid, [closing], link, k) == Delivered(c, OpenAI, rid, [DONE_LINE], link, k)
       <==> link(k).WriteOk? || !link(k + 1).WriteOk?
  {
  }

  /** A stream without a done record, closed by an empty done record in NDJSON and by `[DONE]` alone in
      server-sent events, yields identical messages exactly if one of its chunks could not be written, or the closing
      message could, or the error after it could not either. So over a failing connection the encodings differ:
      NDJSON reports an error, server-sent events report nothing. */
  lemma {:induction false} SentinelAgreesExactly(c: Codec, rid: RequestId, ndjson: seq<string>, payloads: seq<string>,
                                                  ds: seq<Delta>, closing: string, link: nat -> Link, k: nat)
    requires SaneCodec(c) && SameRunning(c, ndjson, payloads, ds) && ClosingLine(c, closing)
    ensures Delivered(c, Ollama, rid, ndjson + [closing], link, k) == Delivered(c, OpenAI, rid, SseLines(payloads), link, k)
       <==> !Writes(link, k, |ds|) || link(k + |ds|).WriteOk? || !link(k + |ds| + 1).WriteOk?
    decreases |ds|
  {
    if ds == [] {
      ClosingAgrees(c, rid, closing, link, k);
      assert ndjson + [closing] == [closing];
    } else if !link(k).WriteOk? {
      FailureAgrees(c, rid, ndjson, payloads, ds, closing, link, k);
    } else {
      assert SameRecord(c, ndjson[0], payloads[0], ds[0]);
      SentinelAgreesExactly(c, rid, ndjson[1..], payloads[1..], ds[1..], closing, link, k + 1);
      assert ndjson + [closing] == [ndjson[0]] + (ndjson[1..] + [closing]);
      RunningCons(c, rid, Ollama, ndjson[0], ndjson[1..] + [closing], ds[0], link, k);
      SseCons(c, rid, payloads, ds[0], link, k);
      WritesOn(link, k, |ds|);
      SameTails(ChunkOf(c, rid, ds[0]), Delivered(c, Ollama, rid, ndjson[1..] + [closing], link, k + 1),
                Delivered(c, OpenAI, rid, SseLines(payloads[1..]), link, k + 1));
    }
  }

  lemma SameTails(m: ProviderMsg, a: seq<ProviderMsg>, b: seq<ProviderMsg>)
    ensures [m] + a == [m] + b <==> a == b
  {
    assert ([m] + a)[1..] == a && ([m] + b)[1..] == b;
  }

  lemma WritesOn(link: nat -> Link, k: nat, n: nat)
    requires n > 0 && link(k).WriteOk?
    ensures Writes(link, k, n) <==> Writes(link, k + 1, n - 1)
  {
  }
}
