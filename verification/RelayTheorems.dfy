/** What the relay protocol promises a client, in every reachable state. */
module RelayTheorems {
  import opened Wire
  import opened RegistryModel
  import opened RegistryFacts
  import opened Sse
  import opened RelayProtocol
  import opened HandlerInvariant
  import opened RelayHistory
  import opened RelayInvariant

  // ----- Channels -----

  /** No channel is closed twice, nothing is sent after a close, and no buffer is over its capacity, through
      every registration, unregistration, eviction and cancellation. */
  lemma ChannelDiscipline(ls: seq<Label>, rid: RequestId)
    requires rid in Reached(ls).net.chans
    ensures var c := Reached(ls).net.chans[rid];
            && c.closes <= 1 && c.late == 0 && |c.buf| <= c.cap
            && rid in Reached(ls).handlers && c.cap == (if Reached(ls).handlers[rid].id.kind == Streaming then 32 else 1)
  {
    ReachedInv(ls);
    HandlerFacts(ls, rid);
  }

  /** No wake-up is lost: a waiting handler's channel is closed, or is hooked on a session still registered,
      or has had its terminal message relayed. */
  lemma NoLostWakeUp(ls: seq<Label>, rid: RequestId)
    requires rid in Reached(ls).handlers && Reached(ls).handlers[rid].waiting
    ensures var s := Reached(ls);
            var h := s.handlers[rid];
            && rid in s.net.chans
            && (|| s.net.chans[rid].closes == 1
                || (s.net.chans[rid].closes == 0 && Attached(s.net, h.id.sid, rid))
                || WasSettled(ls, rid))
  {
    HandlerFacts(ls, rid);
    LogIsTheRun(ls, rid);
  }

  /** The error text of a relayed error is never empty. */
  lemma ErrorsShow(m: ProviderMsg)
    ensures m.Error? ==> ToRelay(m).err != ""
  {
    if m.Error? {
      assert |ToRelay(m).err| >= 2;
    }
  }

  // A streaming handler that got a done chunk or an error is no longer live.
  lemma EndsTheStream(rs: seq<ChunkRelay>, m: ProviderMsg)
    requires rs != [] && rs[|rs| - 1] == ToRelay(m) && Feed(rs).end == Live && Terminal(m)
    ensures m.Response?
  {
    ErrorsShow(m);
  }

  /** A handler is stranded when it waits on a channel that is open, empty and no longer hooked on the session
      registered for its machine. */
  ghost predicate Stranded(s: System, rid: RequestId) {
    && rid in s.handlers && rid in s.net.chans && s.handlers[rid].waiting
    && s.net.chans[rid].buf == [] && s.net.chans[rid].closes == 0
    && !Attached(s.net, s.handlers[rid].id.sid, rid)
  }

  predicate SomeTerminal(ms: seq<ProviderMsg>) {
    exists i :: 0 <= i < |ms| && Terminal(ms[i])
  }

  /** A stranded handler is a streaming one, and has had its terminal message relayed: either that message met
      a full buffer and was dropped, so that no terminal message was enqueued, or it is a whole response. */
  lemma OnlyWaysToBeStranded(ls: seq<Label>, rid: RequestId)
    requires Stranded(Reached(ls), rid)
    ensures var h := Reached(ls).handlers[rid];
            && h.id.kind == Streaming && WasSettled(ls, rid)
            && (|| (WasDropped(ls, rid) && !SomeTerminal(h.log.enqueued))
                || (h.log.enqueued != [] && h.log.enqueued[|h.log.enqueued| - 1].Response?))
  {
    LogIsTheRun(ls, rid);
    HandlerFacts(ls, rid);
    StrandedHandler(Reached(ls).handlers[rid], Reached(ls).net.chans[rid]);
  }

  lemma StrandedHandler(h: Handler, c: Chan)
    requires HandlerOK(h, c, false) && h.waiting && c.buf == [] && c.closes == 0
    ensures h.id.kind == Streaming && h.log.settled
    ensures || (h.log.overflow && !SomeTerminal(h.log.enqueued))
            || (h.log.enqueued != [] && h.log.enqueued[|h.log.enqueued| - 1].Response?)
  {
    assert ToRelays(h.log.enqueued) == h.received;
    StrandedLog(h.log.enqueued, h.log.overflow, h.log.settled);
    if SomeTerminal(h.log.enqueued) {
      EndsTheStream(h.received, h.log.enqueued[|h.log.enqueued| - 1]);
    }
  }

  lemma StrandedLog(enqueued: seq<ProviderMsg>, overflow: bool, settled: bool)
    requires EndOK(enqueued, overflow, settled) && settled
    ensures if SomeTerminal(enqueued) then Terminal(enqueued[|enqueued| - 1]) else overflow
  {
  }

  /** Nothing ever reaches a stranded handler: whatever happens next, its channel stays open and empty. */
  lemma StrandedStep(s: System, l: Label, rid: RequestId)
    requires Inv(s) && rid in s.handlers && !Attached(s.net, s.handlers[rid].id.sid, rid)
    ensures rid in Step(s, l).handlers && Step(s, l).handlers[rid].id == s.handlers[rid].id
    ensures rid in s.net.chans && rid in Step(s, l).net.chans
    ensures !Attached(Step(s, l).net, s.handlers[rid].id.sid, rid)
    ensures Step(s, l).net.chans[rid].closes == s.net.chans[rid].closes
    ensures Step(s, l).net.chans[rid].buf == s.net.chans[rid].buf || (l.Receive? && s.net.chans[rid].buf != [])
  {
    if Enabled(s, l) {
      assert Good(s.net, s.handlers[rid], rid);
      if rid in Touched(s, l) {
        DetachedHere(s, l, rid);
      } else {
        NextElsewhere(s, l, rid);
      }
    }
  }

  lemma DetachedHere(s: System, l: Label, rid: RequestId)
    requires WellFormed(s.net) && Enabled(s, l) && rid in s.handlers && Placed(s.net, s.handlers[rid], rid)
    requires !Attached(s.net, s.handlers[rid].id.sid, rid) && rid in Touched(s, l)
    ensures var s' := Next(s, l);
            && rid in s'.handlers && s'.handlers[rid].id == s.handlers[rid].id && rid in s'.net.chans
            && !Attached(s'.net, s.handlers[rid].id.sid, rid)
            && s'.net.chans[rid].closes == s.net.chans[rid].closes
            && (s'.net.chans[rid].buf == s.net.chans[rid].buf || (l.Receive? && s.net.chans[rid].buf != []))
  {
    var h := s.handlers[rid];
    match l {
      case Retry(other, _, _) => AdmitElsewhere(s.net, h, rid, h.id.mid, other, CapOf(Answering));
      case FromProvider(mid, msg) => RelayHere(s.net, h, msg);
      case Release(_) => DecrementQuiet(s.net, h, rid, h.id.mid);
      case _ =>
    }
  }

  lemma {:induction false} StrandedForGood(s: System, ls: seq<Label>, rid: RequestId)
    requires Inv(s) && Stranded(s, rid)
    ensures rid in Run(s, ls).handlers && rid in Run(s, ls).net.chans && !CanReceive(Run(s, ls), rid)
    ensures Run(s, ls).handlers[rid].waiting ==> Stranded(Run(s, ls), rid)
    ensures Inv(Run(s, ls)) && Run(s, ls).handlers[rid].id == s.handlers[rid].id
    ensures !Attached(Run(s, ls).net, s.handlers[rid].id.sid, rid)
    ensures Run(s, ls).net.chans[rid].buf == [] && Run(s, ls).net.chans[rid].closes == 0
  {
    if ls != [] {
      StrandedForGood(s, ls[..|ls| - 1], rid);
      StrandedStep(Run(s, ls[..|ls| - 1]), ls[|ls| - 1], rid);
      StepKeepsInv(Run(s, ls[..|ls| - 1]), ls[|ls| - 1]);
    }
  }

  lemma Detached(s: System, l: Label, mid: MachineId, rid: RequestId)
    requires WellFormed(s.net) && rid in s.handlers && Placed(s.net, s.handlers[rid], rid) && s.handlers[rid].id.mid == mid
    requires l == Disconnect(mid) || l == CancelRequests(mid)
    ensures Step(s, l).handlers == s.handlers && !Attached(Step(s, l).net, s.handlers[rid].id.sid, rid)
  {
  }

  lemma AwakeUnlessSettled(s: System, rid: RequestId)
    requires rid in s.handlers && Good(s.net, s.handlers[rid], rid) && s.handlers[rid].waiting
    requires !Attached(s.net, s.handlers[rid].id.sid, rid)
    ensures CanReceive(s, rid) || s.handlers[rid].log.settled
  {
  }

  /** Cancelling a machine's requests, or the end of its connection, leaves every handler that waits on the
      machine something to receive, unless its terminal message was relayed before. */
  lemma CancellationWakesAll(s: System, l: Label, mid: MachineId, rid: RequestId)
    requires Inv(s) && rid in s.handlers && s.handlers[rid].waiting && s.handlers[rid].id.mid == mid
    requires l == Disconnect(mid) || l == CancelRequests(mid)
    ensures CanReceive(Step(s, l), rid) || s.handlers[rid].log.settled
  {
    assert Good(s.net, s.handlers[rid], rid);
    Detached(s, l, mid, rid);
    StepKeepsInv(s, l);
    AwakeUnlessSettled(Step(s, l), rid);
  }

  // ----- The channel is a bounded queue pinned to one machine -----

  /** What a handler received and what is still buffered are, in order, some of what its own machine said
      about its own request since the handler began, no matter how sessions came and went; after a terminal
      message nothing more is enqueued; and the buffer is bounded. While no message met a full buffer nothing
      in between is missing, and while the session is still registered nothing at all is. */
  lemma FaithfulQueue(ls: seq<Label>, rid: RequestId)
    requires rid in Reached(ls).handlers
    ensures var s := Reached(ls);
            var h := s.handlers[rid];
            var spoken := SpokenSince(ls, rid);
            && rid in s.net.chans
            && h.received + s.net.chans[rid].buf == ToRelays(h.log.enqueued)
            && Subsequence(h.log.enqueued, spoken)
            && TerminalLast(h.log.enqueued)
            && |s.net.chans[rid].buf| <= (if h.id.kind == Streaming then 32 else 1)
            && (!WasDropped(ls, rid) ==> h.log.enqueued <= spoken)
            && (!WasDropped(ls, rid) && Attached(s.net, h.id.sid, rid) ==> h.log.enqueued == spoken)
  {
    HandlerFacts(ls, rid);
    LogIsTheRun(ls, rid);
  }

  // ----- Slots and output -----

  /** A slot that was taken is released exactly once: never twice, and by the time the handler is done with
      it, once. One that was not taken is never released. */
  lemma SlotReleasedOnce(ls: seq<Label>, rid: RequestId)
    requires rid in Reached(ls).handlers
    ensures var h := Reached(ls).handlers[rid];
            && h.releases <= (if h.id.took then 1 else 0)
            && (!h.holding ==> h.releases == (if h.id.took then 1 else 0))
            && (h.waiting ==> h.holding)
  {
    HandlerFacts(ls, rid);
  }

  /** The output of every streaming handler: the refusal it deserves, or null-finish chunks followed by what
      the way it ended calls for - and by nothing while it is waiting. */
  lemma StreamingOutput(ls: seq<Label>, rid: RequestId)
    requires rid in Reached(ls).handlers && Reached(ls).handlers[rid].id.kind == Streaming
    ensures var h := Reached(ls).handlers[rid];
            && (h.waiting <==> h.stream.end == Live)
            && (if h.id.begun then Grammatical(h.stream)
                else h.stream.out == [ErrorEvent(if h.id.took then MachineOffline else MachineBusy), Done])
  {
    HandlerFacts(ls, rid);
    OutputGrammar(Reached(ls).handlers[rid].outcomes);
  }

  /** Nothing ever follows [DONE], and an error never appears together with a finish reason. */
  lemma DoneIsLast(ls: seq<Label>, rid: RequestId, i: nat, j: nat)
    requires rid in Reached(ls).handlers && Reached(ls).handlers[rid].id.kind == Streaming
    requires var out := Reached(ls).handlers[rid].stream.out; i < |out| && j < |out|
    ensures var out := Reached(ls).handlers[rid].stream.out;
            && (out[i] == Done ==> i == |out| - 1)
            && !(out[i].ErrorEvent? && out[j].Delta? && out[j].finish != Null)
  {
    StreamingOutput(ls, rid);
    var h := Reached(ls).handlers[rid];
    if h.id.begun {
      NothingAfterDone(h.stream, i, j);
    }
  }

  lemma TurnAppends(s: Stream, o: Outcome)
    ensures s.out <= Turn(s, o).out
  {
  }

  /** What was written stays written, and once a handler has ended nothing more is. */
  lemma OutputIsAppendOnly(s: System, l: Label, rid: RequestId)
    requires Inv(s) && rid in s.handlers
    ensures rid in Step(s, l).handlers
    ensures var h, h' := s.handlers[rid], Step(s, l).handlers[rid];
            && h.stream.out <= h'.stream.out
            && (!h.waiting ==> !h'.waiting && h'.stream == h.stream && h'.result == h.result && h'.received == h.received)
  {
    if Enabled(s, l) {
      assert Good(s.net, s.handlers[rid], rid);
      if rid !in Touched(s, l) {
        NextElsewhere(s, l, rid);
      } else {
        TouchedOutput(s, l, rid);
      }
    }
  }

  lemma TouchedOutput(s: System, l: Label, rid: RequestId)
    requires Enabled(s, l) && rid in s.handlers && rid in s.net.chans && rid in Touched(s, l)
    ensures rid in Next(s, l).handlers
    ensures var h, h' := s.handlers[rid], Next(s, l).handlers[rid];
            && h.stream.out <= h'.stream.out
            && (!h.waiting ==> !h'.waiting && h'.stream == h.stream && h'.result == h.result && h'.received == h.received)
  {
    var h := s.handlers[rid];
    match l {
      case Select(_, o) => TurnAppends(h.stream, o);
      case Receive(_) =>
        TurnAppends(h.stream, Closed);
        if s.net.chans[rid].buf != [] {
          TurnAppends(h.stream, Received(s.net.chans[rid].buf[0]));
        }
      case _ =>
    }
  }

  /** After a terminal message was relayed nothing more enters the channel, whatever happens. */
  lemma SettledForGood(s: System, l: Label, rid: RequestId)
    requires Inv(s) && rid in s.handlers && s.handlers[rid].log.settled
    ensures rid in Step(s, l).handlers
    ensures Step(s, l).handlers[rid].log.settled
    ensures Step(s, l).handlers[rid].log.enqueued == s.handlers[rid].log.enqueued
  {
    if Enabled(s, l) {
      assert Good(s.net, s.handlers[rid], rid);
      if rid !in Touched(s, l) {
        NextElsewhere(s, l, rid);
      } else {
        TouchedSettled(s, l, rid);
      }
    }
  }

  lemma TouchedSettled(s: System, l: Label, rid: RequestId)
    requires WellFormed(s.net) && Enabled(s, l) && rid in s.handlers && Good(s.net, s.handlers[rid], rid)
    requires rid in Touched(s, l) && s.handlers[rid].log.settled
    ensures rid in Next(s, l).handlers
    ensures Next(s, l).handlers[rid].log.settled
    ensures Next(s, l).handlers[rid].log.enqueued == s.handlers[rid].log.enqueued
  {
    WaitsWhenLive(s.net, s.handlers[rid], rid);
  }

  // A handler that completed met a done chunk.
  lemma {:induction false} CompletedAt(rs: seq<ChunkRelay>) returns (i: nat)
    requires Feed(rs).end == Completed
    ensures i < |rs| && rs[i].done && rs[i].err == ""
  {
    var before := rs[..|rs| - 1];
    if Feed(before).end == Completed {
      i := CompletedAt(before);
    } else {
      i := |rs| - 1;
    }
  }

  lemma RelayOf(enqueued: seq<ProviderMsg>, received: seq<ChunkRelay>, buf: seq<ChunkRelay>, i: nat)
    requires FifoOK(received, buf, enqueued) && i < |received|
    ensures i < |enqueued| && received[i] == ToRelay(enqueued[i])
    ensures |enqueued| == |received| + |buf|
  {
    assert ToRelays(enqueued)[i] == (received + buf)[i];
    assert |ToRelays(enqueued)| == |received + buf|;
  }

  // Before the last message enqueued there is neither an error nor a done chunk.
  lemma PlainBefore(enqueued: seq<ProviderMsg>, received: seq<ChunkRelay>, buf: seq<ChunkRelay>, i: nat)
    requires FifoOK(received, buf, enqueued) && TerminalLast(enqueued) && i < |received| && i < |enqueued| - 1
    ensures received[i].err == "" && !received[i].done
  {
    RelayOf(enqueued, received, buf, i);
  }

  // What a completed handler received ends in a done chunk, the last message enqueued.
  lemma CompletedEnds(enqueued: seq<ProviderMsg>, received: seq<ChunkRelay>, buf: seq<ChunkRelay>)
    requires FifoOK(received, buf, enqueued) && TerminalLast(enqueued) && Feed(received).end == Completed
    ensures buf == [] && |enqueued| == |received| > 0
    ensures var last := enqueued[|enqueued| - 1]; last.Chunk? && last.done && received[|received| - 1] == ToRelay(last)
  {
    var i := CompletedAt(received);
    RelayOf(enqueued, received, buf, i);
  }

  // What a completed handler received is a plain stream: its only done chunk is the last one.
  lemma CompletedIsPlain(enqueued: seq<ProviderMsg>, received: seq<ChunkRelay>, buf: seq<ChunkRelay>)
    requires FifoOK(received, buf, enqueued) && TerminalLast(enqueued) && Feed(received).end == Completed
    ensures PlainStream(received) && received != [] && received[|received| - 1].done && buf == []
    ensures |enqueued| == |received| && enqueued[|enqueued| - 1].Chunk? && enqueued[|enqueued| - 1].done
  {
    CompletedEnds(enqueued, received, buf);
    forall i | 0 <= i < |received|
      ensures received[i].err == "" && (received[i].done ==> i == |received| - 1)
    {
      if i < |received| - 1 {
        PlainBefore(enqueued, received, buf, i);
      }
    }
  }

  // The last two events of a completed output.
  lemma CompletedTail(s: Stream)
    requires Grammatical(s) && s.end == Completed
    ensures var n := |s.out|;
            && n >= 2 && AllNull(s.out[..n - 2])
            && s.out[n - 2].Delta? && s.out[n - 2].finish == FinishOf(true, s.sawTools) && s.out[n - 1] == Done
  {
    var n: nat :| SplitAt(s, n);
    assert s.out == s.out[..n] + s.out[n..];
  }

  /** On normal completion the delta contents are the contents received, null finishes precede one finish,
      which is "tool_calls" exactly when some received chunk carried tool calls, and [DONE] ends it. */
  lemma CompletedOutput(ls: seq<Label>, rid: RequestId)
    requires rid in Reached(ls).handlers && Reached(ls).handlers[rid].id.kind == Streaming
    requires Reached(ls).handlers[rid].stream.end == Completed
    ensures var h := Reached(ls).handlers[rid];
            var n := |h.stream.out|;
            && Contents(h.stream.out) == RelayText(h.received)
            && n >= 2 && AllNull(h.stream.out[..n - 2]) && h.stream.out[n - 2].Delta?
            && h.stream.out[n - 2].finish == (if AnyTools(h.received) then ToolCalls else Stop)
            && h.stream.out[n - 1] == Done
  {
    var h := Reached(ls).handlers[rid];
    HandlerFacts(ls, rid);
    CompletedIsPlain(h.log.enqueued, h.received, Reached(ls).net.chans[rid].buf);
    FeedKeepsText(h.received);
    StreamingOutput(ls, rid);
    CompletedTail(h.stream);
  }

  // ----- Field by field -----

  /** Each value received carries the fields of the message enqueued at its place: its content and tool calls,
      whether it is a done chunk, a response's tokens, and an error's code and text. */
  lemma RelayedFields(ls: seq<Label>, rid: RequestId, i: nat)
    requires rid in Reached(ls).handlers && i < |Reached(ls).handlers[rid].received|
    ensures var h := Reached(ls).handlers[rid];
            && i < |h.log.enqueued|
            && var r, m := h.received[i], h.log.enqueued[i];
               && (m.Error? ==> r.err == m.code + ": " + m.message && r.content == "" && r.toolCalls == "" && !r.done && r.tokens == 0)
               && (!m.Error? ==> r.err == "" && r.content == m.content && r.toolCalls == m.toolCalls)
               && (m.Chunk? ==> r.done == m.done && r.tokens == 0)
               && (m.Response? ==> !r.done && r.tokens == m.tokens)
  {
    HandlerFacts(ls, rid);
    RelayOf(Reached(ls).handlers[rid].log.enqueued, Reached(ls).handlers[rid].received, Reached(ls).net.chans[rid].buf, i);
  }

  /** The handler ended with this written: what it was shown before, and what the outcome that ended it calls
      for. */
  predicate EndedSaying(h: Handler, out: seq<Event>) {
    && h.outcomes != []
    && var o := h.outcomes[|h.outcomes| - 1];
       if o.Received? then
         h.received != [] && h.received[|h.received| - 1] == o.relay && Says(h.received[..|h.received| - 1], o, out)
       else Says(h.received, o, out)
  }

  lemma WholeOutputOf(h: Handler)
    requires OutputOK(h) && h.id.kind == Streaming && h.id.begun
    ensures if h.waiting then h.stream.out == Shown(h.received) else EndedSaying(h, h.stream.out)
  {
    if h.waiting {
      RunningOutput(h.outcomes);
    } else {
      EndedOutput(h.outcomes);
      LastHeard(h.outcomes);
    }
  }

  lemma LastHeard(os: seq<Outcome>)
    requires os != []
    ensures var o, heard, all := os[|os| - 1], Relays(os[..|os| - 1]), Relays(os);
            if o.Received? then all != [] && all[|all| - 1] == o.relay && all[..|all| - 1] == heard else all == heard
  {
  }

  /** The whole output of a streaming handler, event by event (see `ShownAt` and `ShownFrom`): while it waits, the
      contents and tool calls of all it received, in order, without the empty keepalives; and once it has ended,
      that and what ended it. A timeout ends with "length" if a token had come, the timers and a closed channel
      with their own errors, an error relay with the provider's text, and a done chunk with its own content and
      tool calls and the finish reason. */
  lemma WholeOutput(ls: seq<Label>, rid: RequestId)
    requires rid in Reached(ls).handlers && Reached(ls).handlers[rid].id.kind == Streaming && Reached(ls).handlers[rid].id.begun
    ensures var h := Reached(ls).handlers[rid];
            if h.waiting then h.stream.out == Shown(h.received) else EndedSaying(h, h.stream.out)
  {
    HandlerFacts(ls, rid);
    WholeOutputOf(Reached(ls).handlers[rid]);
  }

  /** A waiting streaming handler can meet its deadline and its client's leaving at any time, the first-token timer
      exactly until something is received, and the inter-token timer exactly from then on. */
  lemma TimersArmed(ls: seq<Label>, rid: RequestId, o: Outcome)
    requires rid in Reached(ls).handlers && Reached(ls).handlers[rid].id.kind == Streaming && Reached(ls).handlers[rid].waiting
    ensures Enabled(Reached(ls), Select(rid, o)) <==>
            var received := Reached(ls).handlers[rid].received;
            (o.TotalTimeout? || o.ClientGone? || (o.FirstTokenTimeout? && received == []) || (o.InterTokenTimeout? && received != []))
  {
    HandlerFacts(ls, rid);
    RunningOutput(Reached(ls).handlers[rid].outcomes);
  }

  /** What a message means for a non-streaming attempt. */
  predicate Reports(result: AttemptResult, m: ProviderMsg) {
    if m.Error? then result == Lost(ProviderFailed(m.code + ": " + m.message))
    else
      && result.Got? && result.answer.content == m.content && result.answer.toolCalls == m.toolCalls
      && result.answer.finish == (if m.toolCalls != "" then ToolCalls else Stop)
      && result.answer.tokens == (if m.Response? then m.tokens else 0)
  }

  /** An attempt that is over reports the one message it received, or received none. */
  predicate ReportsWhatItGot(h: Handler) {
    if h.received == [] then h.result.Some? && h.result.value.Lost? && !h.result.value.why.ProviderFailed?
    else h.result.Some? && h.log.enqueued != [] && h.log.enqueued[0] in h.log.sent && Reports(h.result.value, h.log.enqueued[0])
  }

  lemma AnswerIsReport(h: Handler, c: Chan, live: bool)
    requires HandlerOK(h, c, live) && h.id.kind == Answering && !h.waiting
    ensures ReportsWhatItGot(h)
  {
    if h.received != [] {
      RelayOf(h.log.enqueued, h.received, c.buf, 0);
      ErrorsShow(h.log.enqueued[0]);
      SubsequenceMembers(h.log.enqueued, h.log.sent, h.log.enqueued[0]);
    }
  }

  /** The result of a non-streaming attempt is what one message of the handler's own machine under the handler's
      own id says, field by field: an error loses the attempt with its code and text, anything else answers it;
      an attempt that received nothing was lost for another reason. */
  lemma AnswersAreSpoken(ls: seq<Label>, rid: RequestId)
    requires rid in Reached(ls).handlers && Reached(ls).handlers[rid].id.kind == Answering
    requires Reached(ls).handlers[rid].result.Some?
    ensures var h := Reached(ls).handlers[rid];
            var result := h.result.value;
            && (h.received == [] ==> result.Lost? && !result.why.ProviderFailed?)
            && (h.received != [] ==> h.log.enqueued != [] && h.log.enqueued[0] in SpokenSince(ls, rid))
            && (h.received != [] && h.log.enqueued[0].Error? ==>
                  result == Lost(ProviderFailed(h.log.enqueued[0].code + ": " + h.log.enqueued[0].message)))
            && (h.received != [] && !h.log.enqueued[0].Error? ==>
                  && result.Got? && result.answer.content == h.log.enqueued[0].content
                  && result.answer.toolCalls == h.log.enqueued[0].toolCalls
                  && result.answer.finish == (if h.log.enqueued[0].toolCalls != "" then ToolCalls else Stop))
            && (h.received != [] && h.log.enqueued[0].Response? ==> result.answer.tokens == h.log.enqueued[0].tokens)
  {
    var h := Reached(ls).handlers[rid];
    HandlerFacts(ls, rid);
    LogIsTheRun(ls, rid);
    AnswerIsReport(h, Reached(ls).net.chans[rid], Attached(Reached(ls).net, h.id.sid, rid));
  }

  lemma {:induction false} SubsequenceMembers<T>(a: seq<T>, b: seq<T>, x: T)
    requires Subsequence(a, b) && x in a
    ensures x in b
  {
    if Subsequence(a, b[..|b| - 1]) {
      SubsequenceMembers(a, b[..|b| - 1], x);
    } else if x != a[|a| - 1] {
      SubsequenceMembers(a[..|a| - 1], b[..|b| - 1], x);
    }
  }
}
