/** The registry as the coordinator codes it (internal/coord/registry.go, internal/coord/ws.go,
    internal/coord/invites.go): methods that update its maps step by step. Sessions and channels are shared
    through pointers in the source; here a pointer is a key into the table of sessions or of channels. Each
    method is proved to do to the registry what `RegistryModel` says, closing and feeding open channels
    only. */
module Registry {
  import opened Wire
  import M = RegistryModel
  import F = RegistryFacts

  class Registry {
    var machines: map<M.MachineId, M.SessionId>
    var sessions: map<M.SessionId, M.Session>
    var chans: map<RequestId, M.Chan>

    /** The registry as a value. */
    function Net(): M.Net
      reads this
    {
      M.Net(machines, sessions, chans)
    }

    ghost predicate Valid()
      reads this
    {
      F.WellFormed(Net())
    }

    /** The channels of the session registered for a machine are open; `Valid` implies it. */
    ghost predicate Open(mid: M.MachineId)
      reads this
    {
      M.Online(Net(), mid) ==> OpenAll(M.Current(Net(), mid).chans)
    }

    ghost predicate OpenAll(rids: set<RequestId>)
      reads this
    {
      forall r :: r in rids ==> r in chans && chans[r].closes == 0
    }

    constructor ()
      ensures Valid() && Net() == M.EMPTY
    {
      machines := map[];
      sessions := map[];
      chans := map[];
    }

    function GetSession(mid: M.MachineId): Option<M.SessionId>
      reads this
    {
      if M.Online(Net(), mid) then Some(machines[mid]) else None
    }

    /** `close(ch)`; Go panics when the channel is closed already. */
    method Close(rid: RequestId)
      requires rid in chans && chans[rid].closes == 0
      modifies this`chans
      ensures chans == old(chans)[rid := old(chans)[rid].(closes := 1)]
    {
      chans := chans[rid := chans[rid].(closes := chans[rid].closes + 1)];
    }

    /** `select { case ch <- r: default: }`; Go panics when the channel is closed. */
    method TrySend(rid: RequestId, r: ChunkRelay)
      requires rid in chans && chans[rid].closes == 0
      modifies this`chans
      ensures chans == old(chans)[rid := M.Send(old(chans)[rid], r)]
    {
      if |chans[rid].buf| < chans[rid].cap {
        chans := chans[rid := chans[rid].(buf := chans[rid].buf + [r])];
      }
    }

    /** A receive that does not block: a value, the news that the channel is closed and empty, or nothing. */
    method TryReceive(rid: RequestId) returns (r: M.Receipt)
      requires rid in chans
      modifies this`chans
      ensures r == M.Receivable(old(chans)[rid])
      ensures Net() == if r.Value? then M.Take(old(Net()), rid) else old(Net())
    {
      var c := chans[rid];
      if c.buf != [] {
        chans := chans[rid := c.(buf := c.buf[1..])];
        return M.Value(c.buf[0]);
      }
      return if c.closes > 0 then M.ClosedNow else M.NotReady;
    }

    // The loop that closes every channel of a session.
    method CloseChannels(rids: set<RequestId>)
      requires OpenAll(rids)
      modifies this`chans
      ensures chans == M.CloseAll(old(chans), rids)
    {
      var todo := rids;
      while todo != {}
        invariant todo <= rids
        invariant chans == M.CloseAll(old(chans), rids - todo)
        decreases |todo|
      {
        var r :| r in todo;
        assert rids - (todo - {r}) == (rids - todo) + {r};
        Close(r);
        todo := todo - {r};
      }
      assert rids - {} == rids;
    }

    method Register(sid: M.SessionId, mid: M.MachineId, user: int, max: int, now: int)
      requires Open(mid) && sid !in sessions
      modifies this
      ensures Net() == M.Register(old(Net()), sid, mid, user, max, now)
    {
      var previous := GetSession(mid);
      if previous.Some? {
        CloseChannels(sessions[previous.value].chans);
      }
      var maxConcurrent := max;
      if maxConcurrent <= 0 {
        maxConcurrent := 1;
      }
      sessions := sessions[sid := M.Session(mid, user, maxConcurrent, 0, 0, 0, true, now, None, {}, false)];
      machines := machines[mid := sid];
    }

    method Unregister(mid: M.MachineId) returns (user: int, requests: int, tokens: int)
      requires Open(mid)
      modifies this
      ensures Net() == M.Unregister(old(Net()), mid)
      ensures M.Online(old(Net()), mid) ==>
        var s := M.Current(old(Net()), mid); user == s.user && requests == s.requests && tokens == s.tokens
      ensures !M.Online(old(Net()), mid) ==> user == 0 && requests == 0 && tokens == 0
    {
      var sid := GetSession(mid);
      if sid.None? {
        return 0, 0, 0;
      }
      var s := sessions[sid.value];
      CloseChannels(s.chans);
      sessions := sessions[sid.value := s.(chans := {}, nilMap := true)];
      machines := machines - {mid};
      return s.user, s.requests, s.tokens;
    }

    method UpdateHeartbeat(mid: M.MachineId, now: int)
      modifies this`sessions
      ensures Net() == M.Heartbeat(old(Net()), mid, now)
    {
      var sid := GetSession(mid);
      if sid.Some? {
        sessions := sessions[sid.value := sessions[sid.value].(lastHeartbeat := now)];
      }
    }

    method SetBackendOK(mid: M.MachineId, ok: bool, now: int)
      modifies this`sessions
      ensures Net() == M.SetBackendOK(old(Net()), mid, ok, now)
    {
      var sid := GetSession(mid);
      if sid.Some? {
        sessions := sessions[sid.value := sessions[sid.value].(backendOK := ok)];
        if !ok {
          sessions := sessions[sid.value := sessions[sid.value].(failedAt := Some(now))];
        }
      }
    }

    method IncrementLoad(mid: M.MachineId) returns (ok: bool)
      modifies this`sessions
      ensures Net() == M.IncrementLoad(old(Net()), mid) && ok == M.CanIncrement(old(Net()), mid)
    {
      var sid := GetSession(mid);
      if sid.None? {
        return false;
      }
      var s := sessions[sid.value];
      if s.load >= s.max {
        return false;
      }
      sessions := sessions[sid.value := s.(load := s.load + 1, requests := s.requests + 1)];
      return true;
    }

    method DecrementLoad(mid: M.MachineId)
      modifies this`sessions
      ensures Net() == M.DecrementLoad(old(Net()), mid)
    {
      var sid := GetSession(mid);
      if sid.Some? && sessions[sid.value].load > 0 {
        sessions := sessions[sid.value := sessions[sid.value].(load := sessions[sid.value].load - 1)];
      }
    }

    method AddTokens(mid: M.MachineId, tokens: int)
      modifies this`sessions
      ensures Net() == M.AddTokens(old(Net()), mid, tokens)
    {
      var sid := GetSession(mid);
      if sid.Some? {
        sessions := sessions[sid.value := sessions[sid.value].(tokens := sessions[sid.value].tokens + tokens)];
      }
    }

    /** Hooks a channel just made. Writing to the nil map of an unregistered session would panic. */
    method RegisterChunkChannel(sid: M.SessionId, rid: RequestId, cap: nat)
      requires sid in sessions && !sessions[sid].nilMap
      modifies this`sessions, this`chans
      ensures Net() == M.Hook(old(Net()), sid, rid, cap)
    {
      chans := chans[rid := M.Chan(sid, cap, [], 0, 0)];
      sessions := sessions[sid := sessions[sid].(chans := sessions[sid].chans + {rid})];
    }

    method UnregisterChunkChannel(sid: M.SessionId, rid: RequestId)
      requires sid in sessions
      modifies this`sessions
      ensures Net() == M.Unhook(old(Net()), sid, rid)
    {
      sessions := sessions[sid := sessions[sid].(chans := sessions[sid].chans - {rid})];
    }

    method CancelAllRequests(sid: M.SessionId)
      requires sid in sessions && OpenAll(sessions[sid].chans)
      modifies this`sessions, this`chans
      ensures Net() == M.CancelSession(old(Net()), sid)
    {
      CloseChannels(sessions[sid].chans);
      sessions := sessions[sid := sessions[sid].(chans := {})];
    }

    method CancelMachineRequests(mid: M.MachineId)
      requires Open(mid)
      modifies this`sessions, this`chans
      ensures Net() == M.CancelMachine(old(Net()), mid)
    {
      var sid := GetSession(mid);
      if sid.Some? {
        CancelAllRequests(sid.value);
      }
    }

    /** The monitor's loop over the registry, in any order. */
    method EvictStale(timeout: int, now: int)
      requires Valid()
      modifies this`machines, this`chans
      ensures Net() == M.EvictStale(old(Net()), timeout, now)
    {
      ghost var was := Net();
      ghost var out: set<M.MachineId> := {};
      var todo := machines.Keys;
      F.EvictNobody(was);
      while todo != {}
        invariant F.WellFormed(was) && Net() == M.EvictSet(was, out)
        invariant F.EvictProgress(was, timeout, now, todo, out)
        decreases |todo|
      {
        var mid :| mid in todo;
        out := Visit(mid, timeout, now, was, todo, out);
        todo := todo - {mid};
      }
      F.EvictDone(was, timeout, now, out);
    }

    // One turn of that loop.
    method Visit(mid: M.MachineId, timeout: int, now: int, ghost was: M.Net, ghost todo: set<M.MachineId>, ghost out: set<M.MachineId>)
        returns (ghost gone: set<M.MachineId>)
      requires F.WellFormed(was) && Net() == M.EvictSet(was, out)
      requires F.EvictProgress(was, timeout, now, todo, out) && mid in todo
      modifies this`machines, this`chans
      ensures Net() == M.EvictSet(was, gone)
      ensures F.EvictProgress(was, timeout, now, todo - {mid}, gone)
    {
      F.EvictStep(was, timeout, now, todo, out, mid);
      gone := out;
      var evict := IsStale(sessions[machines[mid]], timeout, now);
      if evict {
        EvictOne(mid);
        gone := out + {mid};
      }
    }

    // Closes the channels of one machine's session and removes the machine.
    method EvictOne(mid: M.MachineId)
      requires M.Online(Net(), mid) && Open(mid)
      modifies this`machines, this`chans
      ensures machines == old(machines) - {mid}
      ensures chans == M.CloseAll(old(chans), old(M.Current(Net(), mid).chans))
    {
      CloseChannels(sessions[machines[mid]].chans);
      machines := machines - {mid};
    }

    method IsStale(s: M.Session, timeout: int, now: int) returns (evict: bool)
      ensures evict == M.Stale(s, timeout, now)
    {
      evict := false;
      if now - s.lastHeartbeat > timeout {
        evict := true;
      }
      if !s.backendOK && s.failedAt.Some? && now - s.failedAt.value > BACKEND_UNHEALTHY_EVICTION {
        evict := true;
      }
    }

    method RelayChunk(mid: M.MachineId, m: ProviderMsg)
      requires Open(mid) && m.Chunk?
      modifies this`sessions, this`chans
      ensures Net() == M.Relay(old(Net()), mid, m)
    {
      var sid := GetSession(mid);
      if sid.None? || m.rid !in sessions[sid.value].chans {
        return;
      }
      TrySend(m.rid, ChunkRelay(m.content, m.toolCalls, m.done, "", 0));
      if m.done {
        UnregisterChunkChannel(sid.value, m.rid);
      }
      AddTokens(mid, 1);
    }

    method RelayResponse(mid: M.MachineId, m: ProviderMsg)
      requires Open(mid) && m.Response?
      modifies this`sessions, this`chans
      ensures Net() == M.Relay(old(Net()), mid, m)
    {
      var sid := GetSession(mid);
      if sid.None? || m.rid !in sessions[sid.value].chans {
        return;
      }
      TrySend(m.rid, ChunkRelay(m.content, m.toolCalls, false, "", m.tokens));
      UnregisterChunkChannel(sid.value, m.rid);
      if m.tokens > 0 {
        AddTokens(mid, m.tokens);
      }
    }

    method RelayError(mid: M.MachineId, m: ProviderMsg)
      requires Open(mid) && m.Error?
      modifies this`sessions, this`chans
      ensures Net() == M.Relay(old(Net()), mid, m)
    {
      var sid := GetSession(mid);
      if sid.Some? && m.rid in sessions[sid.value].chans {
        TrySend(m.rid, ChunkRelay("", "", false, m.code + ": " + m.message, 0));
        UnregisterChunkChannel(sid.value, m.rid);
      }
    }

    /** The start of a handler: hook a channel on the machine's session and take a slot, or undo the hook
        when the machine is full. */
    method Admit(mid: M.MachineId, rid: RequestId, cap: nat) returns (taken: bool)
      requires Valid() && M.Online(Net(), mid)
      modifies this`sessions, this`chans
      ensures Net() == M.Admit(old(Net()), mid, rid, cap) && taken == M.CanIncrement(old(Net()), mid)
    {
      var sid := machines[mid];
      RegisterChunkChannel(sid, rid, cap);
      taken := IncrementLoad(mid);
      if !taken {
        UnregisterChunkChannel(sid, rid);
      }
    }

    // One frame of the read loop.
    method Dispatch(mid: M.MachineId, f: M.Frame)
      requires Open(mid) && !M.Fatal(f)
      modifies this`sessions, this`chans
      ensures Net() == M.OnFrame(old(Net()), mid, f)
    {
      match f
      case Beat(_, now) =>
        UpdateHeartbeat(mid, now);
      case About(m, now) =>
        match m {
          case Chunk(_, _, _, _) => RelayChunk(mid, m);
          case Response(_, _, _, _) => RelayResponse(mid, m);
          case Error(_, code, _) =>
            RelayError(mid, m);
            if code == "backend_unavailable" {
              SetBackendOK(mid, false, now);
            }
        }
    }

    method ReadLoop(mid: M.MachineId, frames: seq<M.Frame>)
      requires Valid()
      modifies this`sessions, this`chans
      ensures Valid() && Net() == M.OnFrames(old(Net()), mid, frames)
    {
      for i := 0 to |frames|
        invariant Valid()
        invariant M.OnFrames(Net(), mid, frames[i..]) == M.OnFrames(old(Net()), mid, frames)
      {
        if M.Fatal(frames[i]) {
          return;
        }
        F.OpenWhenWellFormed(Net(), mid);
        F.FrameWellFormed(Net(), mid, frames[i]);
        assert frames[i..][1..] == frames[i + 1..];
        Dispatch(mid, frames[i]);
      }
    }

    /** One provider connection, alone: register, read until the end, unregister by machine id. */
    method HandleConnection(sid: M.SessionId, mid: M.MachineId, user: int, max: int, now: int, frames: seq<M.Frame>)
      requires Valid() && sid !in sessions
      modifies this
      ensures Valid() && Net() == M.Connection(old(Net()), sid, mid, user, max, now, frames)
    {
      F.OpenWhenWellFormed(Net(), mid);
      F.RegisterWellFormed(Net(), sid, mid, user, max, now);
      Register(sid, mid, user, max, now);
      ReadLoop(mid, frames);
      F.OpenWhenWellFormed(Net(), mid);
      F.UnregisterWellFormed(Net(), mid);
      var _, _, _ := Unregister(mid);
    }
  }
}
