/** The relay protocol as a labelled transition system: the registry, the handlers that wait on it, and what
    providers send (internal/coord/api.go, internal/coord/ws.go, internal/coord/registry.go).

    Granularity. Each registry method is one step. Looking a channel up and sending to it without blocking is
    one step. A handler's start - finding the session, hooking its channel, taking a slot and sending the
    request - is one step; its slot and its channel are given back in two later steps, in either order.
    Request ids and session ids are fresh. The clock never runs backwards. A label that is not enabled
    changes nothing, so every sequence of labels is a run. */
module RelayProtocol {
  import opened Wire
  import opened RegistryModel
  import opened Sse

  datatype Kind = Streaming | Answering

  /** What a handler's start fixes: `took` says that it got a slot, `begun` that its request was sent. A
      retry of a non-streaming request is a new attempt, made `after` another. */
  datatype Identity = Identity(
    mid: MachineId,
    sid: SessionId,
    kind: Kind,
    took: bool,
    begun: bool,
    attempt: nat,
    after: Option<RequestId>)

  /** History: what the machine's providers sent under the request id, which of it went into the channel,
      whether some of it found the channel full, and whether a terminal message found the channel hooked. */
  datatype History = History(sent: seq<ProviderMsg>, enqueued: seq<ProviderMsg>, overflow: bool, settled: bool)

  /** One handler that was given a channel; for non-streaming requests, one attempt. `outcomes` is history
      too: what the selects of a streaming handler met. */
  datatype Handler = Handler(
    id: Identity,
    waiting: bool,
    holding: bool,
    hooked: bool,
    releases: nat,
    retried: bool,
    received: seq<ChunkRelay>,
    stream: Stream,
    result: Option<AttemptResult>,
    outcomes: seq<Outcome>,
    log: History)

  /** `stale` counts, per session, the slots it gave up to handlers admitted on an earlier session. */
  datatype System = System(net: Net, handlers: map<RequestId, Handler>, stale: map<SessionId, nat>, clock: int)

  datatype Label =
    | Connect(sid: SessionId, mid: MachineId, user: int, max: int, now: int)
    | Disconnect(mid: MachineId)
    | Monitor(timeout: int, now: int)
    | CancelRequests(mid: MachineId)
    | Heard(mid: MachineId, now: int)
    | BackendFailed(mid: MachineId, now: int)
    | Begin(rid: RequestId, mid: MachineId, kind: Kind, sendOk: bool)
    | Retry(rid: RequestId, after: RequestId, sendOk: bool)
    | FromProvider(mid: MachineId, msg: ProviderMsg)
    | Receive(rid: RequestId)
    | Select(rid: RequestId, outcome: Outcome)
    | Release(rid: RequestId)
    | GiveUpChannel(rid: RequestId)

  const INIT := System(EMPTY, map[], map[], 0)

  function CapOf(kind: Kind): nat {
    if kind == Streaming then STREAM_BUFFER else ANSWER_BUFFER
  }

  function StaleOf(s: System, sid: SessionId): nat {
    if sid in s.stale then s.stale[sid] else 0
  }

  /** Label times respect the clock. */
  predicate InTime(s: System, l: Label) {
    match l
    case Connect(_, _, _, _, now) => now >= s.clock
    case Monitor(_, now) => now >= s.clock
    case Heard(_, now) => now >= s.clock
    case BackendFailed(_, now) => now >= s.clock
    case _ => true
  }

  predicate CanReceive(s: System, rid: RequestId) {
    && rid in s.handlers && s.handlers[rid].waiting && rid in s.net.chans
    && (s.net.chans[rid].buf != [] || s.net.chans[rid].closes > 0)
  }

  predicate Enabled(s: System, l: Label) {
    && InTime(s, l)
    && match l
       case Connect(sid, _, _, _, _) => sid !in s.net.sessions
       case Begin(rid, mid, _, _) => rid !in s.handlers && Online(s.net, mid) && Current(s.net, mid).backendOK
       case Retry(rid, after, _) =>
         && rid !in s.handlers && after in s.handlers
         && var h := s.handlers[after];
         && h.id.kind == Answering && !h.waiting && !h.holding && !h.hooked && !h.retried
         && h.result.Some? && h.result.value.Lost? && h.id.attempt + 1 < MAX_RETRIES
         && Online(s.net, h.id.mid) && Current(s.net, h.id.mid).backendOK && CanIncrement(s.net, h.id.mid)
       case Receive(rid) => CanReceive(s, rid)
       case Select(rid, outcome) =>
         && rid in s.handlers && s.handlers[rid].waiting
         && (if s.handlers[rid].id.kind == Streaming
             then Ready(s.handlers[rid].stream, outcome) && !outcome.Received? && !outcome.Closed?
             else outcome.TotalTimeout?)
       case Release(rid) => rid in s.handlers && !s.handlers[rid].waiting && s.handlers[rid].holding
       case GiveUpChannel(rid) => rid in s.handlers && !s.handlers[rid].waiting && s.handlers[rid].hooked
       case _ => true
  }

  /** The output of a streaming handler that could not even send its request. */
  function Refused(code: ErrorCode): Stream {
    Stream(false, false, SseError(code), Failed)
  }

  /** A handler as its start leaves it: refused for lack of a slot, failed to send, or waiting. */
  function Started(mid: MachineId, sid: SessionId, kind: Kind, took: bool, sendOk: bool, attempt: nat, after: Option<RequestId>): Handler {
    var id := Identity(mid, sid, kind, took, took && sendOk, attempt, after);
    if took && sendOk then
      Handler(id, true, true, true, 0, false, [], START, None, [], History([], [], false, false))
    else
      Handler(id, false, took, took, 0, false, [],
              Refused(if took then MachineOffline else MachineBusy),
              Some(Lost(if took then SendFailed else Busy)), [], History([], [], false, false))
  }

  function BeginNext(s: System, rid: RequestId, mid: MachineId, kind: Kind, sendOk: bool, attempt: nat, after: Option<RequestId>): System
    requires Online(s.net, mid)
  {
    var h := Started(mid, s.net.machines[mid], kind, CanIncrement(s.net, mid), sendOk, attempt, after);
    s.(net := Admit(s.net, mid, rid, CapOf(kind)), handlers := s.handlers[rid := h])
  }

  /** What a provider message does to the history of the handler it is about. */
  function Logged(g: History, waits: bool, fits: bool, m: ProviderMsg): History {
    History(g.sent + [m],
            if waits && fits then g.enqueued + [m] else g.enqueued,
            g.overflow || (waits && !fits),
            g.settled || (waits && Terminal(m)))
  }

  function ProviderNext(s: System, mid: MachineId, m: ProviderMsg): System {
    var next := s.(net := Relay(s.net, mid, m));
    if m.rid in s.handlers && s.handlers[m.rid].id.mid == mid && m.rid in s.net.chans then
      var c := s.net.chans[m.rid];
      var h := s.handlers[m.rid];
      next.(handlers := s.handlers[m.rid := h.(log := Logged(h.log, Waits(s.net, mid, m.rid), |c.buf| < c.cap, m))])
    else next
  }

  /** The handler is the same attempt, with the same slot and the same hook. */
  predicate SamePlace(h: Handler, h': Handler) {
    && h'.id == h.id && h'.holding == h.holding && h'.hooked == h.hooked
    && h'.releases == h.releases && h'.retried == h.retried && h'.log == h.log
  }

  /** A handler after one value from its channel, or after finding it closed and empty. */
  function AfterReceive(h: Handler, r: ChunkRelay): (h': Handler)
    ensures SamePlace(h, h') && h'.received == h.received + [r]
  {
    var got := h.(received := h.received + [r]);
    match h.id.kind
    case Streaming =>
      var stream := OnRelay(h.stream, r);
      got.(stream := stream, waiting := stream.end == Live, outcomes := h.outcomes + [Received(r)])
    case Answering => got.(result := Some(OnAnswer(r)), waiting := false)
  }

  function AfterClosed(h: Handler): (h': Handler)
    ensures SamePlace(h, h') && h'.received == h.received && !h'.waiting
  {
    match h.id.kind
    case Streaming => h.(stream := Turn(h.stream, Closed), waiting := false, outcomes := h.outcomes + [Closed])
    case Answering => h.(result := Some(Lost(Offline)), waiting := false)
  }

  function AfterSelect(h: Handler, o: Outcome): (h': Handler)
    ensures SamePlace(h, h') && h'.received == h.received && !h'.waiting
  {
    match h.id.kind
    case Streaming => h.(stream := Turn(h.stream, o), waiting := false, outcomes := h.outcomes + [o])
    case Answering => h.(result := Some(Lost(AttemptTimeout)), waiting := false)
  }

  function ReceiveNext(s: System, rid: RequestId): System
    requires CanReceive(s, rid)
  {
    var h := s.handlers[rid];
    var c := s.net.chans[rid];
    if c.buf != [] then s.(net := Take(s.net, rid), handlers := s.handlers[rid := AfterReceive(h, c.buf[0])])
    else s.(handlers := s.handlers[rid := AfterClosed(h)])
  }

  /** The slot is given back by machine id, to whatever session is registered then. */
  function ReleaseNext(s: System, rid: RequestId): System
    requires rid in s.handlers
  {
    var h := s.handlers[rid];
    var robbed := Online(s.net, h.id.mid) && s.net.machines[h.id.mid] != h.id.sid && Current(s.net, h.id.mid).load > 0;
    s.(net := DecrementLoad(s.net, h.id.mid),
       handlers := s.handlers[rid := h.(holding := false, releases := h.releases + 1)],
       stale := if robbed then s.stale[s.net.machines[h.id.mid] := StaleOf(s, s.net.machines[h.id.mid]) + 1] else s.stale)
  }

  function Next(s: System, l: Label): System
    requires Enabled(s, l)
  {
    match l
    case Connect(sid, mid, user, max, now) => s.(net := Register(s.net, sid, mid, user, max, now), clock := now)
    case Disconnect(mid) => s.(net := Unregister(s.net, mid))
    case Monitor(timeout, now) => s.(net := EvictStale(s.net, timeout, now), clock := now)
    case CancelRequests(mid) => s.(net := CancelMachine(s.net, mid))
    case Heard(mid, now) => s.(net := Heartbeat(s.net, mid, now), clock := now)
    case BackendFailed(mid, now) => s.(net := SetBackendOK(s.net, mid, false, now), clock := now)
    case Begin(rid, mid, kind, sendOk) => BeginNext(s, rid, mid, kind, sendOk, 0, None)
    case Retry(rid, after, sendOk) =>
      var h := s.handlers[after];
      var next := BeginNext(s, rid, h.id.mid, Answering, sendOk, h.id.attempt + 1, Some(after));
      next.(handlers := next.handlers[after := h.(retried := true)])
    case FromProvider(mid, msg) => ProviderNext(s, mid, msg)
    case Receive(rid) => ReceiveNext(s, rid)
    case Select(rid, outcome) => s.(handlers := s.handlers[rid := AfterSelect(s.handlers[rid], outcome)])
    case Release(rid) => ReleaseNext(s, rid)
    case GiveUpChannel(rid) =>
      var h := s.handlers[rid];
      s.(net := Unhook(s.net, h.id.sid, rid), handlers := s.handlers[rid := h.(hooked := false)])
  }

  function Step(s: System, l: Label): System {
    if Enabled(s, l) then Next(s, l) else s
  }

  function Run(s: System, ls: seq<Label>): System {
    if ls == [] then s else Step(Run(s, ls[..|ls| - 1]), ls[|ls| - 1])
  }

  /** The state after any sequence of labels: every reachable state is one of these. */
  function Reached(ls: seq<Label>): System {
    Run(INIT, ls)
  }

  lemma RunSnoc(s: System, ls: seq<Label>, l: Label)
    ensures Run(s, ls + [l]) == Step(Run(s, ls), l)
  {
    assert (ls + [l])[..|ls|] == ls;
  }

  lemma {:induction false} RunAppend(s: System, before: seq<Label>, after: seq<Label>)
    ensures Run(s, before + after) == Run(Run(s, before), after)
  {
    if after == [] {
      assert before + after == before;
    } else {
      RunAppend(s, before, after[..|after| - 1]);
      RunSnoc(s, before + after[..|after| - 1], after[|after| - 1]);
      assert before + after == before + after[..|after| - 1] + [after[|after| - 1]];
    }
  }
}
