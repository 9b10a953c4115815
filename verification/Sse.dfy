/** What a handler makes of what it receives, and the events it writes (internal/coord/api.go,
    `handleStreamingCompletion`, `sendNonStreamingRequest`, `writeSSEError`, `sendSSEDone`). The JSON envelope
    of an event is left out: an event is the delta, the finish reason or the error it carries. */
module Sse {
  import opened Wire

  datatype Finish = Null | Stop | ToolCalls | Length

  /** The error codes of the handler. Their messages are fixed, except that a provider error carries the
      provider's own text. */
  datatype ErrorCode = MachineBusy | MachineOffline | FirstTokenLate | NextTokenLate | ProviderError(err: string)

  datatype Event =
    | Delta(content: string, toolCalls: string, finish: Finish)
    | ErrorEvent(code: ErrorCode)
    | Done

  /** What one turn of the select finds ready. */
  datatype Outcome =
    | TotalTimeout
    | ClientGone
    | FirstTokenTimeout
    | InterTokenTimeout
    | Closed
    | Received(relay: ChunkRelay)

  /** How the handler ended. */
  datatype End = Live | Completed | TimedOut | Disconnected | Failed

  datatype Stream = Stream(first: bool, sawTools: bool, out: seq<Event>, end: End)

  const START := Stream(false, false, [], Live)

  /** A timer channel is ready only while its timer is armed: the first-token timer before the first token,
      the inter-token timer after it. Stopping a timer drops a value it has already sent (Go 1.23 and later). */
  predicate Ready(s: Stream, o: Outcome) {
    && s.end == Live
    && (o.FirstTokenTimeout? ==> !s.first)
    && (o.InterTokenTimeout? ==> s.first)
  }

  function SseError(code: ErrorCode): seq<Event> {
    [ErrorEvent(code), Done]
  }

  function FinishOf(done: bool, sawTools: bool): Finish {
    if !done then Null else if sawTools then ToolCalls else Stop
  }

  function OnRelay(s: Stream, r: ChunkRelay): Stream {
    if r.err != "" then s.(out := s.out + SseError(ProviderError(r.err)), end := Failed)
    else
      var saw := s.sawTools || r.toolCalls != "";
      var got := s.(first := true, sawTools := saw);
      if !r.done && r.content == "" && r.toolCalls == "" then got
      else
        var e := Delta(r.content, r.toolCalls, FinishOf(r.done, saw));
        if r.done then got.(out := s.out + [e, Done], end := Completed) else got.(out := s.out + [e])
  }

  /** One turn of the select loop. */
  function Turn(s: Stream, o: Outcome): Stream {
    match o
    case TotalTimeout =>
      s.(out := s.out + (if s.first then [Delta("", "", Length)] else []) + [Done], end := TimedOut)
    case ClientGone => s.(end := Disconnected)
    case FirstTokenTimeout => s.(out := s.out + SseError(FirstTokenLate), end := Failed)
    case InterTokenTimeout => s.(out := s.out + SseError(NextTokenLate), end := Failed)
    case Closed => s.(out := s.out + SseError(MachineOffline), end := Failed)
    case Received(r) => OnRelay(s, r)
  }

  /** The whole loop over the outcomes its selects meet; outcomes that are not ready are not met. */
  function Turns(os: seq<Outcome>): Stream {
    if os == [] then START
    else
      var s := Turns(os[..|os| - 1]);
      if Ready(s, os[|os| - 1]) then Turn(s, os[|os| - 1]) else s
  }

  // ----- Output grammar -----

  /** Only chunks with a null finish reason. */
  predicate AllNull(es: seq<Event>) {
    forall i :: 0 <= i < |es| ==> es[i].Delta? && es[i].finish == Null
  }

  /** A finish chunk and [DONE], or an error and [DONE], or [DONE] alone, or nothing. */
  predicate Tail(es: seq<Event>) {
    || (|es| == 2 && es[0].Delta? && es[0].finish != Null && es[1] == Done)
    || (|es| == 2 && es[0].ErrorEvent? && es[1] == Done)
    || es == [Done]
    || es == []
  }

  /** Null-finish chunks, followed by the tail that the way the handler ended calls for. */
  ghost predicate Grammatical(s: Stream) {
    exists n: nat :: SplitAt(s, n)
  }

  predicate SplitAt(s: Stream, n: nat) {
    n <= |s.out| && AllNull(s.out[..n]) && Tail(s.out[n..]) && TailFits(s, n, s.out[n..])
  }

  predicate TailFits(s: Stream, n: nat, tail: seq<Event>) {
    match s.end
    case Live => tail == []
    case Disconnected => tail == []
    case Completed => |tail| == 2 && tail[0].Delta? && tail[0].finish == FinishOf(true, s.sawTools)
    case TimedOut => if s.first then tail == [Delta("", "", Length), Done] else tail == [Done] && n == 0
    case Failed => |tail| == 2 && tail[0].ErrorEvent?
  }

  /** Before the first token nothing at all has been written. */
  predicate QuietBeforeFirst(s: Stream) {
    s.end == Live && !s.first ==> s.out == []
  }

  lemma LiveIsAllNull(s: Stream)
    requires Grammatical(s) && s.end == Live
    ensures AllNull(s.out)
  {
    var n: nat :| SplitAt(s, n);
    assert s.out == s.out[..n] + s.out[n..];
  }

  lemma EndsWith(s: Stream, t: Stream, tail: seq<Event>)
    requires AllNull(s.out) && t.out == s.out + tail && Tail(tail) && TailFits(t, |s.out|, tail)
    ensures Grammatical(t)
  {
    assert t.out[..|s.out|] == s.out && t.out[|s.out|..] == tail;
    assert SplitAt(t, |s.out|);
  }

  lemma GoesOn(t: Stream)
    requires AllNull(t.out) && t.end == Live
    ensures Grammatical(t)
  {
    EndsWith(t, t, []);
  }

  lemma OnRelayKeepsGrammar(s: Stream, r: ChunkRelay)
    requires AllNull(s.out) && s.end == Live
    ensures Grammatical(OnRelay(s, r))
  {
    var t := OnRelay(s, r);
    if r.err != "" {
      EndsWith(s, t, SseError(ProviderError(r.err)));
    } else if r.done {
      EndsWith(s, t, [Delta(r.content, r.toolCalls, FinishOf(true, t.sawTools)), Done]);
    } else {
      GoesOn(t);
    }
  }

  lemma ErrorKeepsGrammar(s: Stream, t: Stream, code: ErrorCode)
    requires AllNull(s.out) && t == s.(out := s.out + SseError(code), end := Failed)
    ensures Grammatical(t)
  {
    EndsWith(s, t, SseError(code));
  }

  lemma TimeoutKeepsGrammar(s: Stream)
    requires AllNull(s.out) && s.end == Live && QuietBeforeFirst(s)
    ensures Grammatical(Turn(s, TotalTimeout))
  {
    var t := Turn(s, TotalTimeout);
    if s.first {
      assert t.out == s.out + [Delta("", "", Length), Done];
      EndsWith(s, t, [Delta("", "", Length), Done]);
    } else {
      EndsWith(s, t, [Done]);
    }
  }

  lemma LeavingKeepsGrammar(s: Stream)
    requires AllNull(s.out) && s.end == Live
    ensures Grammatical(Turn(s, ClientGone))
  {
    EndsWith(s, Turn(s, ClientGone), []);
  }

  lemma TurnKeepsGrammar(s: Stream, o: Outcome)
    requires Grammatical(s) && QuietBeforeFirst(s) && Ready(s, o)
    ensures Grammatical(Turn(s, o))
  {
    LiveIsAllNull(s);
    TurnFromNulls(s, o);
  }

  lemma TurnFromNulls(s: Stream, o: Outcome)
    requires AllNull(s.out) && QuietBeforeFirst(s) && Ready(s, o)
    ensures Grammatical(Turn(s, o))
  {
    match o {
      case TotalTimeout => TimeoutKeepsGrammar(s);
      case ClientGone => LeavingKeepsGrammar(s);
      case FirstTokenTimeout => ErrorKeepsGrammar(s, Turn(s, o), FirstTokenLate);
      case InterTokenTimeout => ErrorKeepsGrammar(s, Turn(s, o), NextTokenLate);
      case Closed => ErrorKeepsGrammar(s, Turn(s, o), MachineOffline);
      case Received(r) => OnRelayKeepsGrammar(s, r);
    }
  }

  lemma StaysQuiet(s: Stream, o: Outcome)
    requires QuietBeforeFirst(s) && Ready(s, o)
    ensures QuietBeforeFirst(Turn(s, o))
  {
  }

  lemma OneMoreOutcome(s: Stream, o: Outcome)
    requires Grammatical(s) && QuietBeforeFirst(s)
    ensures var t := if Ready(s, o) then Turn(s, o) else s; Grammatical(t) && QuietBeforeFirst(t)
  {
    if Ready(s, o) {
      TurnKeepsGrammar(s, o);
      StaysQuiet(s, o);
    }
  }

  /** Every output of every run is null-finish chunks followed by exactly one of {finish chunk [DONE],
      error [DONE], [DONE]}, or by nothing while the handler is live or its client has gone. */
  lemma {:induction false} OutputGrammar(os: seq<Outcome>)
    ensures Grammatical(Turns(os)) && QuietBeforeFirst(Turns(os))
  {
    if os == [] {
      GoesOn(START);
    } else {
      OutputGrammar(os[..|os| - 1]);
      OneMoreOutcome(Turns(os[..|os| - 1]), os[|os| - 1]);
    }
  }

  // Where an event stands: among the null-finish chunks, or in the tail.
  lemma Position(s: Stream, n: nat, i: nat)
    requires SplitAt(s, n) && i < |s.out|
    ensures i < n ==> s.out[i].Delta? && s.out[i].finish == Null
    ensures i >= n ==> |s.out| <= n + 2 && s.out[i] == s.out[n..][i - n]
  {
    if i < n {
      assert s.out[i] == s.out[..n][i];
    }
  }

  /** Nothing follows [DONE], and an error and a finish reason never both appear. */
  lemma NothingAfterDone(s: Stream, i: nat, j: nat)
    requires Grammatical(s) && i < |s.out| && j < |s.out|
    ensures s.out[i] == Done ==> i == |s.out| - 1
    ensures !(s.out[i].ErrorEvent? && s.out[j].Delta? && s.out[j].finish != Null)
  {
    var n: nat :| SplitAt(s, n);
    Position(s, n, i);
    Position(s, n, j);
  }

  // ----- What the chunks mean -----

  /** The loop over nothing but received relays. */
  function Feed(rs: seq<ChunkRelay>): Stream {
    if rs == [] then START
    else
      var s := Feed(rs[..|rs| - 1]);
      if s.end == Live then OnRelay(s, rs[|rs| - 1]) else s
  }

  /** The relays among the outcomes. */
  function Relays(os: seq<Outcome>): seq<ChunkRelay> {
    if os == [] then []
    else Relays(os[..|os| - 1]) + if os[|os| - 1].Received? then [os[|os| - 1].relay] else []
  }

  lemma RelaysGrow(os: seq<Outcome>, o: Outcome)
    ensures Relays(os + [o]) == Relays(os) + if o.Received? then [o.relay] else []
  {
    assert (os + [o])[..|os|] == os;
  }

  /** A loop that met nothing but relays is the loop over the relays. */
  lemma {:induction false} TurnsOfRelays(os: seq<Outcome>)
    requires forall i :: 0 <= i < |os| ==> os[i].Received?
    ensures Turns(os) == Feed(Relays(os))
  {
    if os != [] {
      TurnsOfRelays(os[..|os| - 1]);
      TurnIsFeed(os[..|os| - 1], os[|os| - 1].relay, os);
    }
  }

  lemma FeedOneMore(rs: seq<ChunkRelay>, r: ChunkRelay)
    ensures Feed(rs + [r]) == if Feed(rs).end == Live then OnRelay(Feed(rs), r) else Feed(rs)
  {
    assert (rs + [r])[..|rs|] == rs;
  }

  lemma TurnsOneMore(os: seq<Outcome>, r: ChunkRelay)
    ensures Turns(os + [Received(r)]) == if Turns(os).end == Live then OnRelay(Turns(os), r) else Turns(os)
  {
    assert (os + [Received(r)])[..|os|] == os;
  }

  lemma TurnIsFeed(before: seq<Outcome>, r: ChunkRelay, os: seq<Outcome>)
    requires os == before + [Received(r)] && Turns(before) == Feed(Relays(before))
    ensures Turns(os) == Feed(Relays(os))
  {
    RelaysGrow(before, Received(r));
    FeedOneMore(Relays(before), r);
    TurnsOneMore(before, r);
  }

  /** The concatenated contents of the delta events. */
  function Contents(es: seq<Event>): string {
    if es == [] then ""
    else
      var e := es[|es| - 1];
      Contents(es[..|es| - 1]) + if e.Delta? then e.content else ""
  }

  function RelayText(rs: seq<ChunkRelay>): string {
    if rs == [] then "" else RelayText(rs[..|rs| - 1]) + rs[|rs| - 1].content
  }

  lemma ContentsSnoc(es: seq<Event>, e: Event)
    ensures Contents(es + [e]) == Contents(es) + if e.Delta? then e.content else ""
  {
    assert (es + [e])[..|es|] == es;
  }

  /** Relays that are not errors, of which only the last may be done. */
  predicate PlainStream(rs: seq<ChunkRelay>) {
    forall i :: 0 <= i < |rs| ==> rs[i].err == "" && (rs[i].done ==> i == |rs| - 1)
  }

  predicate AnyTools(rs: seq<ChunkRelay>) {
    exists i :: 0 <= i < |rs| && rs[i].toolCalls != ""
  }

  lemma AnyToolsSnoc(rs: seq<ChunkRelay>, r: ChunkRelay)
    ensures AnyTools(rs + [r]) <==> AnyTools(rs) || r.toolCalls != ""
  {
    assert (rs + [r])[|rs|] == r;
    if AnyTools(rs) {
      var i :| 0 <= i < |rs| && rs[i].toolCalls != "";
      assert (rs + [r])[i] == rs[i];
    }
  }

  lemma OnRelayText(s: Stream, r: ChunkRelay)
    requires r.err == ""
    ensures Contents(OnRelay(s, r).out) == Contents(s.out) + r.content
  {
    var e := Delta(r.content, r.toolCalls, FinishOf(r.done, s.sawTools || r.toolCalls != ""));
    ContentsSnoc(s.out, e);
    ContentsSnoc(s.out + [e], Done);
    assert s.out + [e] + [Done] == s.out + [e, Done];
  }

  /** The delta contents of the events concatenate to the contents received, the handler completes exactly
      at a done chunk, and it remembers whether any chunk carried tool calls. */
  lemma {:induction false} FeedKeepsText(rs: seq<ChunkRelay>)
    requires PlainStream(rs)
    ensures Contents(Feed(rs).out) == RelayText(rs)
    ensures Feed(rs).end == if rs != [] && rs[|rs| - 1].done then Completed else Live
    ensures Feed(rs).sawTools <==> AnyTools(rs)
  {
    if rs != [] {
      var before := rs[..|rs| - 1];
      var r := rs[|rs| - 1];
      FeedKeepsText(before);
      FeedSnoc(before, r, rs);
      OnRelayText(Feed(before), r);
      AnyToolsSnoc(before, r);
    }
  }

  lemma FeedSnoc(before: seq<ChunkRelay>, r: ChunkRelay, rs: seq<ChunkRelay>)
    requires rs == before + [r] && Feed(before).end == Live
    ensures Feed(rs) == OnRelay(Feed(before), r)
    ensures RelayText(rs) == RelayText(before) + r.content
  {
    assert rs[..|rs| - 1] == before;
  }

  // ----- The whole output -----

  /** Each outcome was ready when it was met. */
  predicate Met(os: seq<Outcome>) {
    os == [] || (Met(os[..|os| - 1]) && Ready(Turns(os[..|os| - 1]), os[|os| - 1]))
  }

  /** What a client is shown of relays while its stream is running: all but the empty keepalives. */
  function Shown(rs: seq<ChunkRelay>): seq<Event> {
    if rs == [] then []
    else
      var r := rs[|rs| - 1];
      Shown(rs[..|rs| - 1]) + if r.content == "" && r.toolCalls == "" then [] else [Delta(r.content, r.toolCalls, Null)]
  }

  lemma ShownSnoc(rs: seq<ChunkRelay>, r: ChunkRelay)
    ensures Shown(rs + [r]) == Shown(rs) + if r.content == "" && r.toolCalls == "" then [] else [Delta(r.content, r.toolCalls, Null)]
  {
    assert (rs + [r])[..|rs|] == rs;
  }

  /** Each relay that is not empty is shown, field by field, after those received before it... */
  lemma {:induction false} ShownAt(rs: seq<ChunkRelay>, i: nat)
    requires i < |rs| && (rs[i].content != "" || rs[i].toolCalls != "")
    ensures var k := |Shown(rs[..i])|;
            && k < |Shown(rs)| && Shown(rs)[k].Delta? && Shown(rs)[k].finish == Null
            && Shown(rs)[k].content == rs[i].content && Shown(rs)[k].toolCalls == rs[i].toolCalls
  {
    var before := rs[..|rs| - 1];
    if i < |before| {
      ShownAt(before, i);
      assert before[..i] == rs[..i];
    }
  }

  /** ... and nothing else is. */
  lemma {:induction false} ShownFrom(rs: seq<ChunkRelay>, k: nat) returns (i: nat)
    requires k < |Shown(rs)|
    ensures i < |rs| && (rs[i].content != "" || rs[i].toolCalls != "") && k == |Shown(rs[..i])|
  {
    var before := rs[..|rs| - 1];
    if k < |Shown(before)| {
      i := ShownFrom(before, k);
      assert before[..i] == rs[..i];
    } else {
      i := |before|;
    }
  }

  /** Everything a handler wrote that heard these relays and then met this outcome. */
  predicate Says(heard: seq<ChunkRelay>, o: Outcome, out: seq<Event>) {
    match o
    case TotalTimeout => out == Shown(heard) + if heard == [] then [Done] else [Delta("", "", Length), Done]
    case ClientGone => out == Shown(heard)
    case FirstTokenTimeout => heard == [] && out == [ErrorEvent(FirstTokenLate), Done]
    case InterTokenTimeout => heard != [] && out == Shown(heard) + [ErrorEvent(NextTokenLate), Done]
    case Closed => out == Shown(heard) + [ErrorEvent(MachineOffline), Done]
    case Received(r) =>
      if r.err != "" then out == Shown(heard) + [ErrorEvent(ProviderError(r.err)), Done]
      else r.done && out == Shown(heard) + [Delta(r.content, r.toolCalls, if AnyTools(heard + [r]) then ToolCalls else Stop), Done]
  }

  lemma ShowsOne(s: Stream, heard: seq<ChunkRelay>, r: ChunkRelay)
    requires s.end == Live && s.out == Shown(heard) && (s.first <==> heard != []) && (s.sawTools <==> AnyTools(heard))
    requires r.err == "" && !r.done
    ensures var t := OnRelay(s, r);
            t.end == Live && t.out == Shown(heard + [r]) && t.first && (t.sawTools <==> AnyTools(heard + [r]))
  {
    ShownSnoc(heard, r);
    AnyToolsSnoc(heard, r);
  }

  /** While the stream is running. */
  lemma {:induction false} RunningOutput(os: seq<Outcome>)
    requires Met(os) && Turns(os).end == Live
    ensures Turns(os).out == Shown(Relays(os))
    ensures Turns(os).first <==> Relays(os) != []
    ensures Turns(os).sawTools <==> AnyTools(Relays(os))
  {
    if os != [] {
      var before, o := os[..|os| - 1], os[|os| - 1];
      RunningOutput(before);
      ShowsOne(Turns(before), Relays(before), o.relay);
    }
  }

  /** Once it has ended: the last outcome met ended it, and what was written is the relays heard before and what
      that outcome calls for. It completed exactly if that outcome was a relay without an error. */
  lemma EndedOutput(os: seq<Outcome>)
    requires Met(os) && Turns(os).end != Live
    ensures os != [] && Turns(os[..|os| - 1]).end == Live
    ensures Says(Relays(os[..|os| - 1]), os[|os| - 1], Turns(os).out)
    ensures Turns(os).end == Completed <==> os[|os| - 1].Received? && os[|os| - 1].relay.err == ""
  {
    var before, o := os[..|os| - 1], os[|os| - 1];
    RunningOutput(before);
    EndsSaying(Turns(before), Relays(before), o);
  }

  lemma EndsSaying(s: Stream, heard: seq<ChunkRelay>, o: Outcome)
    requires s.out == Shown(heard) && (s.first <==> heard != []) && (s.sawTools <==> AnyTools(heard))
    requires Ready(s, o) && Turn(s, o).end != Live
    ensures Says(heard, o, Turn(s, o).out)
    ensures Turn(s, o).end == Completed <==> o.Received? && o.relay.err == ""
  {
    if o.Received? {
      AnyToolsSnoc(heard, o.relay);
    }
  }

  // ----- The non-streaming handler -----

  datatype Answer = Answer(content: string, toolCalls: string, finish: Finish, tokens: int)

  /** Why one attempt gave no answer. */
  datatype Failure = Busy | SendFailed | AttemptTimeout | Offline | ProviderFailed(err: string)

  datatype AttemptResult = Got(answer: Answer) | Lost(why: Failure)

  /** The single receive of `sendNonStreamingRequest`. */
  function OnAnswer(r: ChunkRelay): AttemptResult {
    if r.err != "" then Lost(ProviderFailed(r.err))
    else Got(Answer(r.content, r.toolCalls, if r.toolCalls != "" then ToolCalls else Stop, r.tokens))
  }
}
