/** The coordinator's registry as a value, and what each registry method does to it
    (internal/coord/registry.go, and the relay functions of internal/coord/ws.go). Sessions and channels
    outlive their registration, because handlers keep pointers to them. */
module RegistryModel {
  import opened Wire

  type MachineId = string
  type SessionId = string

  /** A bounded Go channel, with the session it was hooked on. A second close, and a send after a close,
      panic in Go; both are counted. */
  datatype Chan = Chan(home: SessionId, cap: nat, buf: seq<ChunkRelay>, closes: nat, late: nat)

  datatype Session = Session(
    mid: MachineId,
    user: int,
    max: int,
    load: int,
    requests: int,
    tokens: int,
    backendOK: bool,
    lastHeartbeat: int,
    failedAt: Option<int>,
    chans: set<RequestId>,
    nilMap: bool)

  datatype Net = Net(
    machines: map<MachineId, SessionId>,
    sessions: map<SessionId, Session>,
    chans: map<RequestId, Chan>)

  const EMPTY := Net(map[], map[], map[])

  predicate Online(n: Net, mid: MachineId) {
    mid in n.machines && n.machines[mid] in n.sessions
  }

  /** The session registered for a machine. */
  function Current(n: Net, mid: MachineId): Session
    requires Online(n, mid)
  {
    n.sessions[n.machines[mid]]
  }

  function WithCurrent(n: Net, mid: MachineId, s: Session): Net
    requires Online(n, mid)
  {
    n.(sessions := n.sessions[n.machines[mid] := s])
  }

  function CloseAll(chans: map<RequestId, Chan>, ids: set<RequestId>): map<RequestId, Chan> {
    map r | r in chans :: if r in ids then chans[r].(closes := chans[r].closes + 1) else chans[r]
  }

  function NewSession(mid: MachineId, user: int, max: int, now: int): Session {
    Session(mid, user, if max <= 0 then 1 else max, 0, 0, 0, true, now, None, {}, false)
  }

  function Register(n: Net, sid: SessionId, mid: MachineId, user: int, max: int, now: int): Net {
    Net(n.machines[mid := sid],
        n.sessions[sid := NewSession(mid, user, max, now)],
        if Online(n, mid) then CloseAll(n.chans, Current(n, mid).chans) else n.chans)
  }

  function Unregister(n: Net, mid: MachineId): Net {
    if !Online(n, mid) then n
    else
      var s := Current(n, mid);
      Net(n.machines - {mid},
          n.sessions[n.machines[mid] := s.(chans := {}, nilMap := true)],
          CloseAll(n.chans, s.chans))
  }

  function Heartbeat(n: Net, mid: MachineId, now: int): Net {
    if !Online(n, mid) then n else WithCurrent(n, mid, Current(n, mid).(lastHeartbeat := now))
  }

  function SetBackendOK(n: Net, mid: MachineId, ok: bool, now: int): Net {
    if !Online(n, mid) then n
    else
      var s := Current(n, mid);
      WithCurrent(n, mid, s.(backendOK := ok, failedAt := if ok then s.failedAt else Some(now)))
  }

  predicate CanIncrement(n: Net, mid: MachineId) {
    Online(n, mid) && Current(n, mid).load < Current(n, mid).max
  }

  function IncrementLoad(n: Net, mid: MachineId): Net {
    if !CanIncrement(n, mid) then n
    else
      var s := Current(n, mid);
      WithCurrent(n, mid, s.(load := s.load + 1, requests := s.requests + 1))
  }

  function DecrementLoad(n: Net, mid: MachineId): Net {
    if !Online(n, mid) then n
    else
      var s := Current(n, mid);
      if s.load > 0 then WithCurrent(n, mid, s.(load := s.load - 1)) else n
  }

  function AddTokens(n: Net, mid: MachineId, tokens: int): Net {
    if !Online(n, mid) then n
    else
      var s := Current(n, mid);
      WithCurrent(n, mid, s.(tokens := s.tokens + tokens))
  }

  /** RegisterChunkChannel with a channel just made. */
  function Hook(n: Net, sid: SessionId, rid: RequestId, cap: nat): Net {
    if sid !in n.sessions then n
    else
      var s := n.sessions[sid];
      n.(sessions := n.sessions[sid := s.(chans := s.chans + {rid})], chans := n.chans[rid := Chan(sid, cap, [], 0, 0)])
  }

  function Unhook(n: Net, sid: SessionId, rid: RequestId): Net {
    if sid !in n.sessions then n
    else
      var s := n.sessions[sid];
      n.(sessions := n.sessions[sid := s.(chans := s.chans - {rid})])
  }

  /** CancelAllRequests on one session. */
  function CancelSession(n: Net, sid: SessionId): Net {
    if sid !in n.sessions then n
    else
      var s := n.sessions[sid];
      n.(sessions := n.sessions[sid := s.(chans := {})], chans := CloseAll(n.chans, s.chans))
  }

  function CancelMachine(n: Net, mid: MachineId): Net {
    if !Online(n, mid) then n else CancelSession(n, n.machines[mid])
  }

  /** The two reasons for which the monitor evicts a session. */
  predicate Stale(s: Session, timeout: int, now: int) {
    || now - s.lastHeartbeat > timeout
    || (!s.backendOK && s.failedAt.Some? && now - s.failedAt.value > BACKEND_UNHEALTHY_EVICTION)
  }

  function Evicted(n: Net, timeout: int, now: int): set<MachineId> {
    set m | m in n.machines && Online(n, m) && Stale(Current(n, m), timeout, now)
  }

  function ChansOf(n: Net, mids: set<MachineId>): set<RequestId> {
    set m, r | m in mids && Online(n, m) && r in Current(n, m).chans :: r
  }

  function EvictSet(n: Net, out: set<MachineId>): Net {
    n.(machines := n.machines - out, chans := CloseAll(n.chans, ChansOf(n, out)))
  }

  function EvictStale(n: Net, timeout: int, now: int): Net {
    EvictSet(n, Evicted(n, timeout, now))
  }

  /** A non-blocking send: dropped when the buffer is full. */
  function Send(c: Chan, r: ChunkRelay): Chan {
    if c.closes > 0 then c.(late := c.late + 1)
    else if |c.buf| < c.cap then c.(buf := c.buf + [r])
    else c
  }

  function TokensOf(m: ProviderMsg): int {
    match m
    case Chunk(_, _, _, _) => 1
    case Response(_, _, _, tokens) => if tokens > 0 then tokens else 0
    case Error(_, _, _) => 0
  }

  /** The session registered for the machine waits for messages about this request. */
  predicate Waits(n: Net, mid: MachineId, rid: RequestId) {
    Online(n, mid) && rid in Current(n, mid).chans && rid in n.chans
  }

  /** relayChunk, relayResponse and relayError: look the channel up, send, and drop the channel after a
      terminal message. */
  function Relay(n: Net, mid: MachineId, m: ProviderMsg): Net {
    if !Waits(n, mid, m.rid) then n
    else
      var s := Current(n, mid);
      var dropped := if Terminal(m) then s.chans - {m.rid} else s.chans;
      n.(sessions := n.sessions[n.machines[mid] := s.(chans := dropped, tokens := s.tokens + TokensOf(m))],
         chans := n.chans[m.rid := Send(n.chans[m.rid], ToRelay(m))])
  }

  /** Taking the next value out of a channel. */
  function Take(n: Net, rid: RequestId): Net
    requires rid in n.chans && n.chans[rid].buf != []
  {
    var c := n.chans[rid];
    n.(chans := n.chans[rid := c.(buf := c.buf[1..])])
  }

  /** What a receive finds. */
  datatype Receipt = Value(relay: ChunkRelay) | ClosedNow | NotReady

  function Receivable(c: Chan): Receipt {
    if c.buf != [] then Value(c.buf[0]) else if c.closes > 0 then ClosedNow else NotReady
  }

  // ----- Admission -----

  const STREAM_BUFFER: nat := 32
  const ANSWER_BUFFER: nat := 1

  /** The part of a handler's start that touches the registry: hook the channel and take a slot, or, when
      the machine is full, unhook it again. */
  function Admit(n: Net, mid: MachineId, rid: RequestId, cap: nat): Net
    requires Online(n, mid)
  {
    var sid := n.machines[mid];
    if CanIncrement(n, mid) then IncrementLoad(Hook(n, sid, rid, cap), mid)
    else Unhook(Hook(n, sid, rid, cap), sid, rid)
  }

  // ----- The provider connection -----

  /** A frame a provider connection reads. A heartbeat re-checks the provider key. */
  datatype Frame = Beat(keyLive: bool, now: int) | About(msg: ProviderMsg, now: int)

  predicate Fatal(f: Frame) {
    f.Beat? && !f.keyLive
  }

  function OnFrame(n: Net, mid: MachineId, f: Frame): Net {
    match f
    case Beat(keyLive, now) => if keyLive then Heartbeat(n, mid, now) else n
    case About(m, now) =>
      var relayed := Relay(n, mid, m);
      if m.Error? && m.code == "backend_unavailable" then SetBackendOK(relayed, mid, false, now) else relayed
  }

  /** The read loop: it stops at a heartbeat whose key is no longer live. */
  function OnFrames(n: Net, mid: MachineId, frames: seq<Frame>): Net
    decreases |frames|
  {
    if frames == [] || Fatal(frames[0]) then n
    else OnFrames(OnFrame(n, mid, frames[0]), mid, frames[1..])
  }

  /** One provider connection: register, read, and unregister the machine when the loop ends. */
  function Connection(n: Net, sid: SessionId, mid: MachineId, user: int, max: int, now: int, frames: seq<Frame>): Net {
    Unregister(OnFrames(Register(n, sid, mid, user, max, now), mid, frames), mid)
  }
}
