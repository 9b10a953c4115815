/** From the backend's lines to the client's events: the agent's transducer, the relay and the streaming
    handler put together. */
module EndToEnd {
  import opened Wire
  import opened Sse
  import opened RelayProtocol
  import opened HandlerInvariant
  import opened RelayHistory
  import opened RelayTheorems
  import A = AgentStream
  import C = AgentCapacity

  // ----- Text -----

  lemma RelayTextIs(ms: seq<ProviderMsg>, texts: seq<string>)
    requires |ms| == |texts| && forall i :: 0 <= i < |ms| ==> ToRelay(ms[i]).content == texts[i]
    ensures RelayText(ToRelays(ms)) == Concat(texts)
  {
    if ms != [] {
      var n := |ms| - 1;
      assert ToRelays(ms)[..n] == ToRelays(ms[..n]);
      RelayTextIs(ms[..n], texts[..n]);
    }
  }

  /** The text of each record is its content, or its thinking text where it has none. */
  predicate TextsOf(ds: seq<A.Delta>, texts: seq<string>) {
    |texts| == |ds| && forall i :: 0 <= i < |ds| ==> texts[i] == if ds[i].content != "" then ds[i].content else ds[i].thinking
  }

  /** The first n records as the handler receives them, when none of them is done. */
  function Relayed(texts: seq<string>, tools: seq<string>, n: nat): (rs: seq<ChunkRelay>)
    requires n <= |texts| && n <= |tools|
    ensures |rs| == n && forall i :: 0 <= i < n ==> rs[i] == ChunkRelay(texts[i], tools[i], false, "", 0)
  {
    seq(n, i requires 0 <= i < n => ChunkRelay(texts[i], tools[i], false, "", 0))
  }

  lemma ChunksAre(c: A.Codec, rid: RequestId, ds: seq<A.Delta>, texts: seq<string>, tools: seq<string>, n: nat)
    requires TextsOf(ds, texts) && |tools| == |ds| && forall i :: 0 <= i < |ds| ==> tools[i] == c.normalizeToolCalls(ds[i].toolCalls)
    requires n <= |ds| && forall i :: 0 <= i < n ==> !ds[i].done
    ensures ToRelays(A.Chunks(c, rid, ds)[..n]) == Relayed(texts, tools, n)
  {
  }

  // The chunks of the first n records carry the text of the first n records.
  lemma ChunkText(c: A.Codec, rid: RequestId, ds: seq<A.Delta>, texts: seq<string>, n: nat)
    requires TextsOf(ds, texts) && n <= |ds|
    ensures RelayText(ToRelays(A.Chunks(c, rid, ds)[..n])) == Concat(texts[..n])
  {
    RelayTextIs(A.Chunks(c, rid, ds)[..n], texts[..n]);
  }

  // ----- What a completed handler was sent -----

  // A prefix of the agent's output that ends in a done chunk is all of it.
  lemma PrefixEndingDone(c: A.Codec, rid: RequestId, ds: seq<A.Delta>, got: seq<ProviderMsg>)
    requires A.DoneLast(ds) && got <= A.Messages(c, rid, ds)
    requires got != [] && got[|got| - 1].Chunk? && got[|got| - 1].done
    ensures A.EndsDone(ds) && got == A.Chunks(c, rid, ds)
  {
    var n := |got|;
    assert got[n - 1] == A.Messages(c, rid, ds)[n - 1];
    assert got[n - 1] == A.ChunkOf(c, rid, ds[n - 1]);
    assert got == A.Chunks(c, rid, ds)[..n];
  }

  // The same when writes may fail: the error message that follows a failed write is no done chunk.
  lemma PartEndingDone(c: A.Codec, rid: RequestId, ds: seq<A.Delta>, sent: seq<ProviderMsg>, got: seq<ProviderMsg>)
    requires A.DoneLast(ds) && A.PartOf(sent, A.Messages(c, rid, ds), rid) && got <= sent
    requires got != [] && got[|got| - 1].Chunk? && got[|got| - 1].done
    ensures A.EndsDone(ds) && got == A.Chunks(c, rid, ds)
  {
    if !(sent <= A.Messages(c, rid, ds)) {
      var n: nat :| A.CutAt(sent, A.Messages(c, rid, ds), rid, n);
      assert got <= A.Messages(c, rid, ds)[..n] by {
        assert sent[n] == A.Unexpected(rid);
      }
    }
    PrefixEndingDone(c, rid, ds, got);
  }

  /** End to end. Take any run, and a streaming request whose buffer never overflowed and whose handler
      completed, served by an agent that was sending the transducer's output for these backend lines over
      any connection. Then the backend's stream ended in a done record, and the client's delta contents
      concatenate to the records' texts - each the record's content, or its thinking text where it has none -
      followed by one finish reason and [DONE]. */
  lemma CompletedMeansWholeText(ls: seq<Label>, rid: RequestId, c: A.Codec, backend: A.Backend, lines: seq<string>, link: nat -> A.Link,
                                texts: seq<string>)
    requires A.SaneCodec(c)
    requires rid in Reached(ls).handlers && Reached(ls).handlers[rid].id.kind == Streaming
    requires SpokenSince(ls, rid) <= A.Delivered(c, backend, rid, lines, link, 0)
    requires !WasDropped(ls, rid)
    requires Reached(ls).handlers[rid].stream.end == Completed
    requires var ds := A.Deltas(c, backend, lines);
             |texts| == |ds| && forall i :: 0 <= i < |ds| ==> texts[i] == if ds[i].content != "" then ds[i].content else ds[i].thinking
    ensures var out := Reached(ls).handlers[rid].stream.out;
            var ds := A.Deltas(c, backend, lines);
            var n := |out|;
            && ds != [] && ds[|ds| - 1].done && Contents(out) == Concat(texts)
            && n >= 2 && AllNull(out[..n - 2]) && out[n - 2].Delta? && out[n - 2].finish != Null && out[n - 1] == Done
  {
    var h := Reached(ls).handlers[rid];
    CompletedGotAll(ls, rid, c, backend, lines, link);
    CompletedOutput(ls, rid);
    WholeText(c, rid, A.Deltas(c, backend, lines), texts);
  }

  // A completed handler received the chunks of all the records, and nothing else.
  lemma CompletedGotAll(ls: seq<Label>, rid: RequestId, c: A.Codec, backend: A.Backend, lines: seq<string>, link: nat -> A.Link)
    requires A.SaneCodec(c)
    requires rid in Reached(ls).handlers && Reached(ls).handlers[rid].id.kind == Streaming
    requires SpokenSince(ls, rid) <= A.Delivered(c, backend, rid, lines, link, 0)
    requires !WasDropped(ls, rid)
    requires Reached(ls).handlers[rid].stream.end == Completed
    ensures var ds := A.Deltas(c, backend, lines);
            && A.EndsDone(ds) && A.DoneLast(ds) && Reached(ls).handlers[rid].received == ToRelays(A.Chunks(c, rid, ds))
  {
    var h := Reached(ls).handlers[rid];
    var ds := A.Deltas(c, backend, lines);
    HandlerFacts(ls, rid);
    LogIsTheRun(ls, rid);
    CompletedIsPlain(h.log.enqueued, h.received, Reached(ls).net.chans[rid].buf);
    A.AnyConnection(c, backend, rid, lines, link, 0);
    A.OnlyLastIsDone(c, backend, lines);
    PartEndingDone(c, rid, ds, A.Delivered(c, backend, rid, lines, link, 0), h.log.enqueued);
    assert h.received + [] == h.received;
  }

  lemma WholeText(c: A.Codec, rid: RequestId, ds: seq<A.Delta>, texts: seq<string>)
    requires TextsOf(ds, texts)
    ensures RelayText(ToRelays(A.Chunks(c, rid, ds))) == Concat(texts)
  {
    ChunkText(c, rid, ds, texts, |ds|);
    assert texts[..|ds|] == texts;
    assert A.Chunks(c, rid, ds)[..|ds|] == A.Chunks(c, rid, ds);
  }

  lemma SomeTools(rs: seq<ChunkRelay>, tools: seq<string>)
    requires |rs| == |tools| && forall i :: 0 <= i < |rs| ==> rs[i].toolCalls == tools[i]
    ensures AnyTools(rs) <==> exists i :: 0 <= i < |tools| && tools[i] != ""
  {
    if i :| 0 <= i < |tools| && tools[i] != "" {
      assert rs[i].toolCalls != "";
    }
  }

  /** Event by event: the client gets, in order, the text and the normalised tool calls of each record, but for
      empty records before the last; the last one, even if empty, comes with the finish reason, which is by tool
      calls exactly if some record had any; then [DONE]. */
  lemma ClientGetsEveryRecord(ls: seq<Label>, rid: RequestId, c: A.Codec, backend: A.Backend, lines: seq<string>, link: nat -> A.Link,
                              texts: seq<string>, tools: seq<string>)
    requires A.SaneCodec(c)
    requires rid in Reached(ls).handlers && Reached(ls).handlers[rid].id.kind == Streaming
    requires SpokenSince(ls, rid) <= A.Delivered(c, backend, rid, lines, link, 0)
    requires !WasDropped(ls, rid)
    requires Reached(ls).handlers[rid].stream.end == Completed
    requires var ds := A.Deltas(c, backend, lines);
             && |texts| == |tools| == |ds|
             && (forall i :: 0 <= i < |ds| ==> texts[i] == if ds[i].content != "" then ds[i].content else ds[i].thinking)
             && (forall i :: 0 <= i < |ds| ==> tools[i] == c.normalizeToolCalls(ds[i].toolCalls))
    ensures var n := |texts|;
            && n > 0
            && Reached(ls).handlers[rid].stream.out
               == Shown(Relayed(texts, tools, n - 1))
                  + [Delta(texts[n - 1], tools[n - 1], if exists i :: 0 <= i < n && tools[i] != "" then ToolCalls else Stop), Done]
  {
    CompletedGotAll(ls, rid, c, backend, lines, link);
    CompletedSaysAll(ls, rid);
    SaidEvents(c, rid, A.Deltas(c, backend, lines), Reached(ls).handlers[rid].received, texts, tools, Reached(ls).handlers[rid].stream.out);
  }

  lemma CompletedSaysAll(ls: seq<Label>, rid: RequestId)
    requires rid in Reached(ls).handlers && Reached(ls).handlers[rid].id.kind == Streaming
    requires Reached(ls).handlers[rid].stream.end == Completed
    ensures SaysAll(Reached(ls).handlers[rid].received, Reached(ls).handlers[rid].stream.out)
  {
    HandlerFacts(ls, rid);
    CompletedSays(Reached(ls).handlers[rid]);
  }

  /** The output of a handler that completed on these relays. */
  predicate SaysAll(received: seq<ChunkRelay>, out: seq<Event>) {
    && received != []
    && var heard, r := received[..|received| - 1], received[|received| - 1];
       out == Shown(heard) + [Delta(r.content, r.toolCalls, if AnyTools(received) then ToolCalls else Stop), Done]
  }

  lemma SaidEvents(c: A.Codec, rid: RequestId, ds: seq<A.Delta>, received: seq<ChunkRelay>, texts: seq<string>, tools: seq<string>, out: seq<Event>)
    requires A.EndsDone(ds) && A.DoneLast(ds) && received == ToRelays(A.Chunks(c, rid, ds)) && SaysAll(received, out)
    requires TextsOf(ds, texts) && |tools| == |ds| && forall i :: 0 <= i < |ds| ==> tools[i] == c.normalizeToolCalls(ds[i].toolCalls)
    ensures var n := |texts|;
            && n > 0
            && out == Shown(Relayed(texts, tools, n - 1))
                      + [Delta(texts[n - 1], tools[n - 1], if exists i :: 0 <= i < n && tools[i] != "" then ToolCalls else Stop), Done]
  {
    SaidOfRecords(c, rid, ds, received, texts, tools);
  }

  // What a completed handler says of the chunks of some records.
  lemma SaidOfRecords(c: A.Codec, rid: RequestId, ds: seq<A.Delta>, received: seq<ChunkRelay>, texts: seq<string>, tools: seq<string>)
    requires A.EndsDone(ds) && A.DoneLast(ds) && received == ToRelays(A.Chunks(c, rid, ds))
    requires TextsOf(ds, texts) && |tools| == |ds| && forall i :: 0 <= i < |ds| ==> tools[i] == c.normalizeToolCalls(ds[i].toolCalls)
    ensures |received| == |texts| > 0
    ensures var n := |texts|;
            && received[..n - 1] == Relayed(texts, tools, n - 1)
            && received[n - 1].content == texts[n - 1] && received[n - 1].toolCalls == tools[n - 1]
    ensures AnyTools(received) <==> exists i :: 0 <= i < |tools| && tools[i] != ""
  {
    var n := |ds|;
    assert A.Chunks(c, rid, ds)[n - 1] == A.ChunkOf(c, rid, ds[n - 1]);
    assert received[..n - 1] == ToRelays(A.Chunks(c, rid, ds)[..n - 1]);
    ChunksAre(c, rid, ds, texts, tools, n - 1);
    forall i | 0 <= i < n
      ensures received[i].toolCalls == tools[i]
    {
      assert A.Chunks(c, rid, ds)[i] == A.ChunkOf(c, rid, ds[i]);
    }
    SomeTools(received, tools);
  }

  lemma CompletedSays(h: Handler)
    requires OutputOK(h) && h.id.kind == Streaming && h.stream.end == Completed
    ensures SaysAll(h.received, h.stream.out)
  {
    WholeOutputOf(h);
    EndedOutput(h.outcomes);
    assert h.received[..|h.received| - 1] + [h.received[|h.received| - 1]] == h.received;
  }

  /** In particular every record that says anything reaches the client with its own text and its own tool calls,
      after those of the records before it. */
  lemma RecordReachesClient(ls: seq<Label>, rid: RequestId, c: A.Codec, backend: A.Backend, lines: seq<string>, link: nat -> A.Link,
                            texts: seq<string>, tools: seq<string>, i: nat)
    requires A.SaneCodec(c)
    requires rid in Reached(ls).handlers && Reached(ls).handlers[rid].id.kind == Streaming
    requires SpokenSince(ls, rid) <= A.Delivered(c, backend, rid, lines, link, 0)
    requires !WasDropped(ls, rid)
    requires Reached(ls).handlers[rid].stream.end == Completed
    requires var ds := A.Deltas(c, backend, lines);
             && |texts| == |tools| == |ds| && i < |ds| && (texts[i] != "" || tools[i] != "")
             && (forall i :: 0 <= i < |ds| ==> texts[i] == if ds[i].content != "" then ds[i].content else ds[i].thinking)
             && (forall i :: 0 <= i < |ds| ==> tools[i] == c.normalizeToolCalls(ds[i].toolCalls))
    ensures var d := A.Deltas(c, backend, lines)[i];
            var out := Reached(ls).handlers[rid].stream.out;
            var k := |Shown(Relayed(texts, tools, i))|;
            && k < |out| && out[k].Delta?
            && (d.content != "" ==> out[k].content == d.content)
            && (d.content == "" ==> out[k].content == d.thinking)
            && out[k].toolCalls == c.normalizeToolCalls(d.toolCalls)
  {
    ClientGetsEveryRecord(ls, rid, c, backend, lines, link, texts, tools);
    RecordInOutput(texts, tools, i, Reached(ls).handlers[rid].stream.out,
                   if exists i :: 0 <= i < |texts| && tools[i] != "" then ToolCalls else Stop);
  }

  lemma RecordInOutput(texts: seq<string>, tools: seq<string>, i: nat, out: seq<Event>, finish: Finish)
    requires i < |texts| == |tools| && (texts[i] != "" || tools[i] != "")
    requires var n := |texts|; out == Shown(Relayed(texts, tools, n - 1)) + [Delta(texts[n - 1], tools[n - 1], finish), Done]
    ensures var k := |Shown(Relayed(texts, tools, i))|;
            k < |out| && out[k].Delta? && out[k].content == texts[i] && out[k].toolCalls == tools[i]
  {
    var n := |texts|;
    if i < n - 1 {
      var rs := Relayed(texts, tools, n - 1);
      ShownAt(rs, i);
      assert rs[..i] == Relayed(texts, tools, i);
    }
  }

  // ----- While the stream is running, and when it must complete -----

  lemma {:induction false} LiveMetNoEnd(rs: seq<ChunkRelay>)
    requires Feed(rs).end == Live
    ensures PlainStream(rs) && forall i :: 0 <= i < |rs| ==> !rs[i].done
  {
    if rs != [] {
      LiveMetNoEnd(rs[..|rs| - 1]);
      assert forall i :: 0 <= i < |rs| - 1 ==> rs[i] == rs[..|rs| - 1][i];
    }
  }

  lemma {:induction false} FailedAt(rs: seq<ChunkRelay>) returns (i: nat)
    requires Feed(rs).end != Live && Feed(rs).end != Completed
    ensures i < |rs| && rs[i].err != ""
  {
    var before := rs[..|rs| - 1];
    if Feed(before).end == Live {
      i := |rs| - 1;
    } else {
      i := FailedAt(before);
    }
  }

  // Everything received is one of the agent's messages, at its place.
  lemma ReceivedIsChunk(c: A.Codec, rid: RequestId, ds: seq<A.Delta>, received: seq<ChunkRelay>, buf: seq<ChunkRelay>,
                        enqueued: seq<ProviderMsg>, i: nat)
    requires FifoOK(received, buf, enqueued) && enqueued <= A.Messages(c, rid, ds) && i < |received|
    ensures i <= |ds| && (i < |ds| ==> received[i] == ToRelay(A.ChunkOf(c, rid, ds[i])))
    ensures i == |ds| ==> !A.EndsDone(ds) && received[i] == ToRelay(A.Unexpected(rid))
  {
    RelayOf(enqueued, received, buf, i);
    assert enqueued[i] == A.Messages(c, rid, ds)[i];
  }

  // What a live stream received is the chunks of the first records.
  lemma LiveGotChunks(c: A.Codec, rid: RequestId, ds: seq<A.Delta>, received: seq<ChunkRelay>, buf: seq<ChunkRelay>,
                      enqueued: seq<ProviderMsg>)
    requires FifoOK(received, buf, enqueued) && enqueued <= A.Messages(c, rid, ds)
    requires forall i :: 0 <= i < |received| ==> received[i].err == ""
    ensures |received| <= |ds| && received == ToRelays(A.Chunks(c, rid, ds)[..|received|])
  {
    if |received| > |ds| {
      ReceivedIsChunk(c, rid, ds, received, buf, enqueued, |ds|);
      ErrorsShow(A.Unexpected(rid));
    }
    forall i | 0 <= i < |received|
      ensures received[i] == ToRelay(A.ChunkOf(c, rid, ds[i]))
    {
      ReceivedIsChunk(c, rid, ds, received, buf, enqueued, i);
    }
    ReceivedChunks(c, rid, ds, received);
  }

  lemma NoneDone(c: A.Codec, rid: RequestId, ds: seq<A.Delta>, rs: seq<ChunkRelay>)
    requires |rs| <= |ds| && rs == ToRelays(A.Chunks(c, rid, ds)[..|rs|])
    requires forall i :: 0 <= i < |rs| ==> !rs[i].done
    ensures forall i :: 0 <= i < |rs| ==> !ds[i].done
  {
    forall i | 0 <= i < |rs|
      ensures !ds[i].done
    {
      assert rs[i] == ToRelay(A.Chunks(c, rid, ds)[..|rs|][i]);
    }
  }

  lemma LiveText(rs: seq<ChunkRelay>)
    requires Feed(rs).end == Live
    ensures Contents(Feed(rs).out) == RelayText(rs)
    ensures forall i :: 0 <= i < |rs| ==> rs[i].err == "" && !rs[i].done
  {
    LiveMetNoEnd(rs);
    FeedKeepsText(rs);
  }

  /** At every moment of a running stream the client has the text and the tool calls of the records received so
      far. */
  lemma StreamedSoFar(ls: seq<Label>, rid: RequestId, c: A.Codec, ds: seq<A.Delta>, texts: seq<string>, tools: seq<string>)
    requires rid in Reached(ls).handlers && Reached(ls).handlers[rid].id.kind == Streaming
    requires Reached(ls).handlers[rid].waiting && !WasDropped(ls, rid)
    requires SpokenSince(ls, rid) <= A.Messages(c, rid, ds)
    requires |texts| == |tools| == |ds|
    requires forall i :: 0 <= i < |ds| ==> texts[i] == if ds[i].content != "" then ds[i].content else ds[i].thinking
    requires forall i :: 0 <= i < |ds| ==> tools[i] == c.normalizeToolCalls(ds[i].toolCalls)
    ensures var h := Reached(ls).handlers[rid];
            && |h.received| <= |ds| && Contents(h.stream.out) == Concat(texts[..|h.received|])
            && h.stream.out == Shown(Relayed(texts, tools, |h.received|))
  {
    var h := Reached(ls).handlers[rid];
    HandlerFacts(ls, rid);
    LogIsTheRun(ls, rid);
    LiveText(h.received);
    LiveGotChunks(c, rid, ds, h.received, Reached(ls).net.chans[rid].buf, h.log.enqueued);
    ChunkText(c, rid, ds, texts, |h.received|);
    WholeOutputOf(h);
    NoneDone(c, rid, ds, h.received);
    ChunksAre(c, rid, ds, texts, tools, |h.received|);
  }

  lemma ReceivedChunks(c: A.Codec, rid: RequestId, ds: seq<A.Delta>, received: seq<ChunkRelay>)
    requires |received| <= |ds|
    requires forall i :: 0 <= i < |received| ==> received[i] == ToRelay(A.ChunkOf(c, rid, ds[i]))
    ensures received == ToRelays(A.Chunks(c, rid, ds)[..|received|])
  {
  }

  /** Once the agent has sent its whole output, a handler that still waits has something to receive. */
  lemma SomethingToReceive(ls: seq<Label>, rid: RequestId, c: A.Codec, ds: seq<A.Delta>)
    requires rid in Reached(ls).handlers && Reached(ls).handlers[rid].id.kind == Streaming
    requires Reached(ls).handlers[rid].waiting && !WasDropped(ls, rid)
    requires SpokenSince(ls, rid) == A.Messages(c, rid, ds)
    ensures CanReceive(Reached(ls), rid)
  {
    var s := Reached(ls);
    var h := s.handlers[rid];
    HandlerFacts(ls, rid);
    LogIsTheRun(ls, rid);
    var last := A.Messages(c, rid, ds)[|A.Messages(c, rid, ds)| - 1];
    assert Terminal(last);
    if !CanReceive(s, rid) {
      NoResponses(c, rid, ds);
      OnlyWaysToBeStranded(ls, rid);
    }
  }

  lemma NoResponses(c: A.Codec, rid: RequestId, ds: seq<A.Delta>)
    ensures forall m :: m in A.Messages(c, rid, ds) ==> !m.Response?
  {
  }

  /** A handler that met nothing but messages - no timeout, no disconnect, no closed channel - and whose
      buffer never overflowed completes if the backend's stream ends in a done record, with the whole text. */
  lemma UndisturbedCompletes(ls: seq<Label>, rid: RequestId, c: A.Codec, ds: seq<A.Delta>)
    requires rid in Reached(ls).handlers && Reached(ls).handlers[rid].id.kind == Streaming
    requires Reached(ls).handlers[rid].id.begun && !Reached(ls).handlers[rid].waiting
    requires !WasDisturbed(ls, rid)
    requires !WasDropped(ls, rid)
    requires A.EndsDone(ds) && SpokenSince(ls, rid) <= A.Messages(c, rid, ds)
    ensures Reached(ls).handlers[rid].stream.end == Completed
  {
    var h := Reached(ls).handlers[rid];
    HandlerFacts(ls, rid);
    LogIsTheRun(ls, rid);
    OutcomesAreTheRun(ls, rid);
    TurnsOfRelays(h.outcomes);
    if h.stream.end != Completed {
      var i := FailedAt(h.received);
      ReceivedIsChunk(c, rid, ds, h.received, Reached(ls).net.chans[rid].buf, h.log.enqueued, i);
      assert false;
    }
  }

  /** The whole path, for an agent whose connection works: in any run in which the handler met no timeout,
      disconnect or closed channel, its buffer never overflowed and the backend's stream ends in a done
      record, the client gets the backend's text, one finish reason and [DONE]. */
  lemma WorkingRunDeliversTheText(ls: seq<Label>, rid: RequestId, c: A.Codec, backend: A.Backend, lines: seq<string>, link: nat -> A.Link,
                                  texts: seq<string>)
    requires A.SaneCodec(c) && forall k :: link(k) == A.WriteOk
    requires A.EndsDone(A.Deltas(c, backend, lines))
    requires var ds := A.Deltas(c, backend, lines);
             |texts| == |ds| && forall i :: 0 <= i < |ds| ==> texts[i] == if ds[i].content != "" then ds[i].content else ds[i].thinking
    requires rid in Reached(ls).handlers && Reached(ls).handlers[rid].id.kind == Streaming
    requires Reached(ls).handlers[rid].id.begun && !Reached(ls).handlers[rid].waiting
    requires SpokenSince(ls, rid) <= A.Delivered(c, backend, rid, lines, link, 0)
    requires !WasDisturbed(ls, rid)
    requires !WasDropped(ls, rid)
    ensures var out := Reached(ls).handlers[rid].stream.out;
            var n := |out|;
            && Contents(out) == Concat(texts)
            && n >= 2 && AllNull(out[..n - 2]) && out[n - 2].Delta? && out[n - 2].finish != Null && out[n - 1] == Done
  {
    A.WorkingConnection(c, backend, rid, lines, link, 0);
    UndisturbedCompletes(ls, rid, c, A.Deltas(c, backend, lines));
    CompletedMeansWholeText(ls, rid, c, backend, lines, link, texts);
  }

  // ----- Whole responses -----

  /** A non-streaming request served by an agent that sent the backend's whole response: if the attempt got an
      answer, that is the backend's content, or its thinking text if it has none, its tool calls normalised, with
      the finish reason they call for, and the tokens the backend reports. */
  lemma AnswerIsTheBackends(ls: seq<Label>, rid: RequestId, c: A.Codec, record: A.Delta, tokens: int, link: A.Link, cancelled: bool)
    requires rid in Reached(ls).handlers && Reached(ls).handlers[rid].id.kind == Answering
    requires SpokenSince(ls, rid) <= C.Output(rid, C.Whole(c, record, tokens, link), cancelled)
    requires Reached(ls).handlers[rid].result.Some? && Reached(ls).handlers[rid].result.value.Got?
    ensures var answer := Reached(ls).handlers[rid].result.value.answer;
            && (record.content != "" ==> answer.content == record.content)
            && (record.content == "" ==> answer.content == record.thinking)
            && answer.toolCalls == c.normalizeToolCalls(record.toolCalls)
            && (answer.finish == ToolCalls <==> c.normalizeToolCalls(record.toolCalls) != "")
            && answer.tokens == tokens
  {
    AnswersAreSpoken(ls, rid);
  }
}
