/** What holds between one handler, its channel, and the session it was admitted on, and how each kind of
    step keeps it. */
module HandlerInvariant {
  import opened Wire
  import opened RegistryModel
  import opened Sse
  import opened RelayProtocol

  /** `a` is `b` with some entries left out. */
  predicate Subsequence<T(==)>(a: seq<T>, b: seq<T>) {
    if a == [] then true
    else if b == [] then false
    else
      || (a[|a| - 1] == b[|b| - 1] && Subsequence(a[..|a| - 1], b[..|b| - 1]))
      || Subsequence(a, b[..|b| - 1])
  }

  lemma SubsequenceKept<T>(a: seq<T>, b: seq<T>, x: T)
    requires Subsequence(a, b)
    ensures Subsequence(a + [x], b + [x])
  {
    assert (a + [x])[..|a|] == a && (b + [x])[..|b|] == b;
  }

  lemma SubsequenceSkipped<T>(a: seq<T>, b: seq<T>, x: T)
    requires Subsequence(a, b)
    ensures Subsequence(a, b + [x])
  {
    assert (b + [x])[..|b|] == b;
  }

  /** Only the last message of a sequence may be terminal. */
  predicate TerminalLast(ms: seq<ProviderMsg>) {
    forall i :: 0 <= i < |ms| - 1 ==> !Terminal(ms[i])
  }

  // ----- The parts of the invariant; `live` says the channel is hooked on a registered session -----

  predicate ChannelOK(h: Handler, c: Chan, live: bool) {
    && c.closes <= 1 && c.late == 0
    && |c.buf| <= c.cap == CapOf(h.id.kind)
    && (live ==> c.closes == 0 && !h.log.settled)
    && (h.log.overflow ==> |h.log.enqueued| >= c.cap)
  }

  /** A waiting handler's channel is closed, or is hooked on a registered session, or has seen its terminal
      message. */
  predicate WakeOK(h: Handler, c: Chan, live: bool) {
    h.waiting ==> c.closes == 1 || live || h.log.settled
  }

  /** What was received and what is buffered are, in order, what was enqueued. */
  predicate FifoOK(received: seq<ChunkRelay>, buf: seq<ChunkRelay>, enqueued: seq<ProviderMsg>) {
    received + buf == ToRelays(enqueued)
  }

  /** What was enqueued is, in order, what the provider sent: all of it while no message found the channel
      full. */
  predicate LogOK(enqueued: seq<ProviderMsg>, sent: seq<ProviderMsg>, overflow: bool, live: bool) {
    && Subsequence(enqueued, sent)
    && (!overflow ==> enqueued <= sent)
    && (!overflow && live ==> enqueued == sent)
  }

  /** A terminal message is the last one enqueued, and settles the request. */
  predicate EndOK(enqueued: seq<ProviderMsg>, overflow: bool, settled: bool) {
    && TerminalLast(enqueued)
    && (enqueued != [] && Terminal(enqueued[|enqueued| - 1]) ==> settled)
    && (settled && !overflow ==> enqueued != [] && Terminal(enqueued[|enqueued| - 1]))
  }

  /** The output is what the select loop makes of the outcomes it met, each of them ready then; while only
      relays were received it is what they feed. */
  predicate StreamOK(id: Identity, stream: Stream, outcomes: seq<Outcome>, received: seq<ChunkRelay>, waiting: bool) {
    && Met(outcomes)
    && (if id.begun then stream == Turns(outcomes)
        else outcomes == [] && stream == Refused(if id.took then MachineOffline else MachineBusy))
    && received == Relays(outcomes)
    && (waiting <==> stream.end == Live)
    && (waiting || stream.end == Completed ==> stream == Feed(received))
  }

  /** The result is what the one value received means, if any came. */
  predicate AnswerOK(result: Option<AttemptResult>, received: seq<ChunkRelay>, waiting: bool) {
    && (waiting <==> result.None?)
    && |received| <= 1
    && (waiting ==> received == [])
    && (if |received| == 1 then result == Some(OnAnswer(received[0]))
        else result.Some? ==> result.value.Lost? && !result.value.why.ProviderFailed?)
  }

  predicate OutputOK(h: Handler) {
    match h.id.kind
    case Streaming => StreamOK(h.id, h.stream, h.outcomes, h.received, h.waiting)
    case Answering => AnswerOK(h.result, h.received, h.waiting)
  }

  /** A slot that was taken is held or was released, once. */
  predicate SlotOK(h: Handler) {
    && h.releases + (if h.holding then 1 else 0) == (if h.id.took then 1 else 0)
    && (h.waiting ==> h.id.begun && h.holding && h.hooked)
  }

  predicate HandlerOK(h: Handler, c: Chan, live: bool) {
    && ChannelOK(h, c, live) && WakeOK(h, c, live)
    && FifoOK(h.received, c.buf, h.log.enqueued)
    && LogOK(h.log.enqueued, h.log.sent, h.log.overflow, live)
    && EndOK(h.log.enqueued, h.log.overflow, h.log.settled)
    && OutputOK(h) && SlotOK(h)
  }

  // ----- The steps -----

  lemma StartedOK(mid: MachineId, sid: SessionId, kind: Kind, took: bool, sendOk: bool, attempt: nat, after: Option<RequestId>)
    ensures HandlerOK(Started(mid, sid, kind, took, sendOk, attempt, after), Chan(sid, CapOf(kind), [], 0, 0), took)
  {
  }

  /** The session goes away, or its requests are cancelled: the channel is closed once and unhooked. */
  lemma ShutOK(h: Handler, c: Chan)
    requires HandlerOK(h, c, true)
    ensures HandlerOK(h, c.(closes := c.closes + 1), false)
  {
  }

  lemma ToRelaysSnoc(ms: seq<ProviderMsg>, m: ProviderMsg)
    ensures ToRelays(ms + [m]) == ToRelays(ms) + [ToRelay(m)]
  {
  }

  lemma QueueGrows(received: seq<ChunkRelay>, buf: seq<ChunkRelay>, enqueued: seq<ProviderMsg>, m: ProviderMsg)
    requires FifoOK(received, buf, enqueued)
    ensures FifoOK(received, buf + [ToRelay(m)], enqueued + [m])
  {
    ToRelaysSnoc(enqueued, m);
    assert received + (buf + [ToRelay(m)]) == (received + buf) + [ToRelay(m)];
  }

  lemma LogGrows(enqueued: seq<ProviderMsg>, sent: seq<ProviderMsg>, overflow: bool, m: ProviderMsg, live': bool)
    requires LogOK(enqueued, sent, overflow, true)
    ensures LogOK(enqueued + [m], sent + [m], overflow, live')
  {
    SubsequenceKept(enqueued, sent, m);
  }

  lemma LogSkips(enqueued: seq<ProviderMsg>, sent: seq<ProviderMsg>, overflow: bool, live: bool, m: ProviderMsg, live': bool)
    requires LogOK(enqueued, sent, overflow, live)
    ensures LogOK(enqueued, sent + [m], overflow || live, (live && live'))
  {
    SubsequenceSkipped(enqueued, sent, m);
  }

  lemma EndGrows(enqueued: seq<ProviderMsg>, overflow: bool, m: ProviderMsg)
    requires EndOK(enqueued, overflow, false)
    ensures EndOK(enqueued + [m], overflow, Terminal(m))
  {
  }

  /** A message of the machine's providers under this request id. */
  lemma LoggedOK(h: Handler, c: Chan, live: bool, m: ProviderMsg)
    requires HandlerOK(h, c, live)
    ensures HandlerOK(h.(log := Logged(h.log, live, |c.buf| < c.cap, m)),
                      if live then Send(c, ToRelay(m)) else c,
                      live && !Terminal(m))
  {
    if live && |c.buf| < c.cap {
      QueueGrows(h.received, c.buf, h.log.enqueued, m);
      LogGrows(h.log.enqueued, h.log.sent, h.log.overflow, m, !Terminal(m));
      EndGrows(h.log.enqueued, h.log.overflow, m);
    } else {
      LogSkips(h.log.enqueued, h.log.sent, h.log.overflow, live, m, !Terminal(m));
    }
  }

  lemma ReceivedOK(h: Handler, c: Chan, live: bool)
    requires HandlerOK(h, c, live) && h.waiting && c.buf != []
    ensures HandlerOK(AfterReceive(h, c.buf[0]), c.(buf := c.buf[1..]), live)
  {
    var r := c.buf[0];
    assert h.received + [r] + c.buf[1..] == h.received + c.buf;
    if h.id.kind == Streaming {
      OnRelayOutput(h, r);
    }
  }

  lemma TurnsGrow(os: seq<Outcome>, o: Outcome)
    requires Ready(Turns(os), o)
    ensures Turns(os + [o]) == Turn(Turns(os), o)
    ensures Met(os) ==> Met(os + [o])
  {
    assert (os + [o])[..|os|] == os;
  }

  lemma StreamGrows(id: Identity, stream: Stream, outcomes: seq<Outcome>, received: seq<ChunkRelay>, o: Outcome)
    requires StreamOK(id, stream, outcomes, received, true) && id.begun && Ready(stream, o)
    ensures var got := if o.Received? then received + [o.relay] else received;
            StreamOK(id, Turn(stream, o), outcomes + [o], got, Turn(stream, o).end == Live)
  {
    TurnsGrow(outcomes, o);
    RelaysGrow(outcomes, o);
    if o.Received? {
      FeedGrows(received, o.relay);
    }
  }

  lemma OnRelayOutput(h: Handler, r: ChunkRelay)
    requires OutputOK(h) && h.waiting && h.id.begun && h.id.kind == Streaming
    ensures OutputOK(AfterReceive(h, r))
  {
    StreamGrows(h.id, h.stream, h.outcomes, h.received, Received(r));
  }

  lemma FeedGrows(rs: seq<ChunkRelay>, r: ChunkRelay)
    requires Feed(rs).end == Live
    ensures Feed(rs + [r]) == OnRelay(Feed(rs), r)
  {
    assert (rs + [r])[..|rs|] == rs;
  }

  lemma ClosedOK(h: Handler, c: Chan, live: bool)
    requires HandlerOK(h, c, live) && h.waiting
    ensures HandlerOK(AfterClosed(h), c, live)
  {
    if h.id.kind == Streaming {
      StreamGrows(h.id, h.stream, h.outcomes, h.received, Closed);
    }
  }

  lemma SelectedOK(h: Handler, c: Chan, live: bool, o: Outcome)
    requires HandlerOK(h, c, live) && h.waiting
    requires h.id.kind == Streaming ==> Ready(h.stream, o) && !o.Received? && !o.Closed?
    ensures HandlerOK(AfterSelect(h, o), c, live)
  {
    if h.id.kind == Streaming {
      StreamGrows(h.id, h.stream, h.outcomes, h.received, o);
    }
  }

  lemma ReleasedOK(h: Handler, c: Chan, live: bool)
    requires HandlerOK(h, c, live) && !h.waiting && h.holding
    ensures HandlerOK(h.(holding := false, releases := h.releases + 1), c, live)
  {
  }

  lemma UnhookedOK(h: Handler, c: Chan, live: bool)
    requires HandlerOK(h, c, live) && !h.waiting
    ensures HandlerOK(h.(hooked := false), c, false)
  {
  }
}
