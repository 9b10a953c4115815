/** handleStreamingCompletion as coded, over the registry and with everything else going on meanwhile
    (internal/coord/api.go:226-393). It takes the steps of the protocol, in whatever interleaving, and by the
    time it returns it has given its slot and its channel back. */
module StreamingHandler {
  import opened Wire
  import opened RegistryModel
  import opened RegistryFacts
  import opened Sse
  import opened RelayProtocol
  import opened RelayInvariant
  import opened Environment
  import T = RelayTheorems

  /** The branch the select would take, if it is ready. */
  datatype Branch = TotalDone | ClientDone | TtftTimer | InterTokenTimer | Channel

  /** What happens before the handler's next select, and what that select picks. */
  datatype Turn = Turn(meanwhile: seq<Label>, pick: Branch)

  // ----- One select -----

  /** The outcome is one the channel allows. */
  predicate Found(n: Net, rid: RequestId, o: Outcome) {
    && rid in n.chans
    && (o.Received? ==> n.chans[rid].buf != [] && o.relay == n.chans[rid].buf[0])
    && (o.Closed? ==> n.chans[rid].buf == [] && n.chans[rid].closes > 0)
  }

  function Taken(n: Net, rid: RequestId, o: Outcome): Net
    requires Found(n, rid, o)
  {
    if o.Received? then Take(n, rid) else n
  }

  /** One turn of the loop: if the picked branch is ready it writes what that outcome calls for, and if it ends
      the stream it gives the slot back. */
  method SelectOnce(reg: R.Registry, mid: MachineId, rid: RequestId, st: Stream, pick: Branch)
      returns (st': Stream, met: Option<Outcome>)
    requires rid in reg.chans && st.end == Live
    modifies reg
    ensures met.None? ==> st' == st && reg.Net() == old(reg.Net())
    ensures met.Some? ==> Ready(st, met.value) && Found(old(reg.Net()), rid, met.value) && st' == Sse.Turn(st, met.value)
    ensures met.Some? ==>
      var n := Taken(old(reg.Net()), rid, met.value); reg.Net() == if st'.end == Live then n else DecrementLoad(n, mid)
    ensures met.Some? && met.value.Received? ==>
      var r := met.value.relay;
      st'.out == st.out + (if r.err != "" then [ErrorEvent(ProviderError(r.err)), Done]
                           else if !r.done && r.content == "" && r.toolCalls == "" then []
                           else if !r.done then [Delta(r.content, r.toolCalls, Null)]
                           else [Delta(r.content, r.toolCalls, if st.sawTools || r.toolCalls != "" then ToolCalls else Stop), Done])
    ensures pick == TotalDone ==> met == Some(TotalTimeout) && st'.end == TimedOut
    ensures pick == ClientDone ==> met == Some(ClientGone) && st'.end == Disconnected
    ensures pick == TtftTimer ==> met == if st.first then None else Some(FirstTokenTimeout)
    ensures pick == InterTokenTimer ==> met == if st.first then Some(InterTokenTimeout) else None
    ensures pick == Channel ==> (met.None? <==> old(reg.chans)[rid].buf == [] && old(reg.chans)[rid].closes == 0)
  {
    var firstTokenReceived, sawToolCalls, out := st.first, st.sawTools, st.out;
    match pick {
      case TotalDone =>
        if firstTokenReceived {
          out := out + [Delta("", "", Length)];
        }
        out := out + [Done];
        reg.DecrementLoad(mid);
        return Stream(firstTokenReceived, sawToolCalls, out, TimedOut), Some(TotalTimeout);
      case ClientDone =>
        reg.DecrementLoad(mid);
        return Stream(firstTokenReceived, sawToolCalls, out, Disconnected), Some(ClientGone);
      case TtftTimer =>
        if !firstTokenReceived {
          out := out + SseError(FirstTokenLate);
          reg.DecrementLoad(mid);
          return Stream(firstTokenReceived, sawToolCalls, out, Failed), Some(FirstTokenTimeout);
        }
      case InterTokenTimer =>
        if firstTokenReceived {
          out := out + SseError(NextTokenLate);
          reg.DecrementLoad(mid);
          return Stream(firstTokenReceived, sawToolCalls, out, Failed), Some(InterTokenTimeout);
        }
      case Channel =>
        st', met := ReceiveOnce(reg, mid, rid, st);
        return;
    }
    return st, None;
  }

  // The select's receive.
  method ReceiveOnce(reg: R.Registry, mid: MachineId, rid: RequestId, st: Stream) returns (st': Stream, met: Option<Outcome>)
    requires rid in reg.chans && st.end == Live
    modifies reg
    ensures met.None? <==> old(reg.chans)[rid].buf == [] && old(reg.chans)[rid].closes == 0
    ensures met.None? ==> st' == st && reg.Net() == old(reg.Net())
    ensures met.Some? ==> Ready(st, met.value) && Found(old(reg.Net()), rid, met.value) && st' == Sse.Turn(st, met.value)
    ensures met.Some? ==>
      var n := Taken(old(reg.Net()), rid, met.value); reg.Net() == if st'.end == Live then n else DecrementLoad(n, mid)
    ensures met.Some? && met.value.Received? ==>
      var r := met.value.relay;
      st'.out == st.out + (if r.err != "" then [ErrorEvent(ProviderError(r.err)), Done]
                           else if !r.done && r.content == "" && r.toolCalls == "" then []
                           else if !r.done then [Delta(r.content, r.toolCalls, Null)]
                           else [Delta(r.content, r.toolCalls, if st.sawTools || r.toolCalls != "" then ToolCalls else Stop), Done])
  {
    var firstTokenReceived, sawToolCalls, out := st.first, st.sawTools, st.out;
    var got := reg.TryReceive(rid);
    match got {
      case NotReady => return st, None;
      case ClosedNow =>
        out := out + SseError(MachineOffline);
        reg.DecrementLoad(mid);
        return Stream(firstTokenReceived, sawToolCalls, out, Failed), Some(Closed);
      case Value(cr) =>
        if cr.err != "" {
          out := out + SseError(ProviderError(cr.err));
          reg.DecrementLoad(mid);
          return Stream(firstTokenReceived, sawToolCalls, out, Failed), Some(Received(cr));
        }
        firstTokenReceived := true;
        if cr.toolCalls != "" {
          sawToolCalls := true;
        }
        if !cr.done && cr.content == "" && cr.toolCalls == "" {
          return Stream(firstTokenReceived, sawToolCalls, out, Live), Some(Received(cr));
        }
        var finish := Null;
        if cr.done {
          finish := if sawToolCalls then ToolCalls else Stop;
        }
        out := out + [Delta(cr.content, cr.toolCalls, finish)];
        if cr.done {
          out := out + [Done];
          reg.DecrementLoad(mid);
          return Stream(firstTokenReceived, sawToolCalls, out, Completed), Some(Received(cr));
        }
        return Stream(firstTokenReceived, sawToolCalls, out, Live), Some(Received(cr));
    }
  }

  // ----- The steps of the protocol it takes -----

  function LabelOf(rid: RequestId, o: Outcome): Label {
    if o.Received? || o.Closed? then Receive(rid) else Select(rid, o)
  }

  /** The handler waits, with this much written, holding its slot and its channel. */
  predicate InLoop(s: System, mid: MachineId, sid: SessionId, rid: RequestId, st: Stream) {
    && rid in s.handlers
    && var h := s.handlers[rid];
       && h.waiting && h.id.begun && h.id.kind == Streaming && h.stream == st && st.end == Live
       && h.id.mid == mid && h.id.sid == sid && h.id.took && h.holding && h.hooked && h.releases == 0
  }

  /** The handler has ended with this written, and holds or has released its slot and its channel. */
  predicate Ended(s: System, mid: MachineId, sid: SessionId, rid: RequestId, st: Stream, begun: bool, holding: bool, hooked: bool) {
    && rid in s.handlers
    && var h := s.handlers[rid];
       && !h.waiting && h.id.begun == begun && h.id.kind == Streaming && h.stream == st
       && h.id.mid == mid && h.id.sid == sid && h.id.took
       && h.holding == holding && h.hooked == hooked && h.releases == (if holding then 0 else 1)
  }

  lemma SelectStep(s: System, mid: MachineId, sid: SessionId, rid: RequestId, st: Stream, o: Outcome)
    requires InLoop(s, mid, sid, rid, st) && Ready(st, o) && Found(s.net, rid, o)
    ensures var s' := Step(s, LabelOf(rid, o));
            var st' := Sse.Turn(st, o);
            && s'.net == Taken(s.net, rid, o)
            && (if st'.end == Live then InLoop(s', mid, sid, rid, st') else Ended(s', mid, sid, rid, st', true, true, true))
  {
    assert Enabled(s, LabelOf(rid, o));
  }

  lemma ReleaseStep(s: System, mid: MachineId, sid: SessionId, rid: RequestId, st: Stream, begun: bool)
    requires Ended(s, mid, sid, rid, st, begun, true, true)
    ensures var s' := Step(s, Release(rid)); s'.net == DecrementLoad(s.net, mid) && Ended(s', mid, sid, rid, st, begun, false, true)
  {
  }

  lemma GiveUpStep(s: System, mid: MachineId, sid: SessionId, rid: RequestId, st: Stream, begun: bool)
    requires Ended(s, mid, sid, rid, st, begun, false, true)
    ensures var s' := Step(s, GiveUpChannel(rid)); s'.net == Unhook(s.net, sid, rid) && Ended(s', mid, sid, rid, st, begun, false, false)
  {
  }

  // ----- The start -----

  lemma StartStep(s: System, mid: MachineId, rid: RequestId, sendOk: bool)
    requires Enabled(s, Begin(rid, mid, Streaming, sendOk))
    ensures var s' := Step(s, Begin(rid, mid, Streaming, sendOk));
            var sid := s.net.machines[mid];
            && s'.net == Admit(s.net, mid, rid, STREAM_BUFFER)
            && (if !CanIncrement(s.net, mid) then
                  rid in s'.handlers && s'.handlers[rid] == Started(mid, sid, Streaming, false, sendOk, 0, None)
                else if sendOk then InLoop(s', mid, sid, rid, START)
                else Ended(s', mid, sid, rid, RelayProtocol.Refused(MachineOffline), false, true, true))
  {
    assert s.net.machines[mid] in s.net.sessions;
  }

  lemma AdmitParts(n: Net, mid: MachineId, rid: RequestId, cap: nat)
    requires WellFormed(n) && Online(n, mid) && rid !in n.chans
    ensures var hooked := Hook(n, n.machines[mid], rid, cap);
            && Online(hooked, mid) && CanIncrement(hooked, mid) == CanIncrement(n, mid)
            && hooked.machines == n.machines && n.machines[mid] in hooked.sessions
    ensures CanIncrement(n, mid) ==> Admit(n, mid, rid, cap) == IncrementLoad(Hook(n, n.machines[mid], rid, cap), mid)
    ensures !CanIncrement(n, mid) ==> Admit(n, mid, rid, cap) == Unhook(Hook(n, n.machines[mid], rid, cap), n.machines[mid], rid)
  {
  }

  lemma UnhookTwice(n: Net, sid: SessionId, rid: RequestId)
    requires sid in n.sessions
    ensures Unhook(Unhook(n, sid, rid), sid, rid) == Unhook(n, sid, rid)
  {
    assert n.sessions[sid].chans - {rid} - {rid} == n.sessions[sid].chans - {rid};
  }

  // Hooks the channel and takes the slot, as the code does before it sends.
  method HookAndTake(reg: R.Registry, mid: MachineId, sid: SessionId, rid: RequestId) returns (ok: bool)
    requires reg.Valid() && Online(reg.Net(), mid) && sid == reg.machines[mid] && rid !in reg.chans
    modifies reg
    ensures ok == CanIncrement(old(reg.Net()), mid) && reg.Net() == Admit(old(reg.Net()), mid, rid, STREAM_BUFFER)
  {
    AdmitParts(reg.Net(), mid, rid, STREAM_BUFFER);
    reg.RegisterChunkChannel(sid, rid, STREAM_BUFFER);
    ok := reg.IncrementLoad(mid);
    if !ok {
      reg.UnregisterChunkChannel(sid, rid);
    }
  }

  // ----- The whole handler -----

  /** The handler is over: it has given back its channel and, if it got one, its slot, once. */
  predicate Returned(s: System, mid: MachineId, rid: RequestId, out: seq<Event>, took: bool) {
    && rid in s.handlers
    && var h := s.handlers[rid];
       && h.id.kind == Streaming && h.id.mid == mid && h.id.took == took
       && !h.waiting && !h.holding && !h.hooked && h.releases == (if took then 1 else 0) && h.stream.out == out
  }

  lemma StillInLoop(s: System, s': System, mid: MachineId, sid: SessionId, rid: RequestId, st: Stream)
    requires InLoop(s, mid, sid, rid, st) && Untouched(s, s', {rid}) && Inv(s')
    ensures InLoop(s', mid, sid, rid, st) && rid in s'.net.chans
  {
    assert rid in {rid};
    PlacedHandler(s', rid);
  }

  // What a turn leaves: the handler in its loop, or ended with its slot given back.
  predicate TurnDone(s: System, mid: MachineId, sid: SessionId, rid: RequestId, st: Stream) {
    if st.end == Live then InLoop(s, mid, sid, rid, st) else Ended(s, mid, sid, rid, st, true, false, true)
  }

  // The state after a select that was ready, and after the release if it ended the stream.
  function Selected(s: System, rid: RequestId, o: Outcome, ended: bool): System {
    var s' := Step(s, LabelOf(rid, o));
    if ended then Step(s', Release(rid)) else s'
  }

  lemma SelectLabels(origin: System, s: System, ls: seq<Label>, mid: MachineId, sid: SessionId, rid: RequestId, st: Stream, o: Outcome)
      returns (ls': seq<Label>)
    requires s == Run(origin, ls) && InLoop(s, mid, sid, rid, st) && Ready(st, o) && Found(s.net, rid, o)
    ensures var st' := Sse.Turn(st, o);
            var s' := Selected(s, rid, o, st'.end != Live);
            && s' == Run(origin, ls') && TurnDone(s', mid, sid, rid, st')
            && s'.net == (if st'.end == Live then Taken(s.net, rid, o) else DecrementLoad(Taken(s.net, rid, o), mid))
  {
    SelectStep(s, mid, sid, rid, st, o);
    RunSnoc(origin, ls, LabelOf(rid, o));
    ls' := ls + [LabelOf(rid, o)];
    if Sse.Turn(st, o).end != Live {
      var s1 := Step(s, LabelOf(rid, o));
      ReleaseStep(s1, mid, sid, rid, Sse.Turn(st, o), true);
      RunSnoc(origin, ls', Release(rid));
      ls' := ls' + [Release(rid)];
    }
  }

  // What happens between two selects.
  method Between(reg: R.Registry, ghost origin: System, s: System, ghost ls: seq<Label>,
                 mid: MachineId, sid: SessionId, rid: RequestId, ghost st: Stream, events: seq<Label>)
      returns (s': System, ghost ls': seq<Label>)
    requires Inv(origin) && Tracks(reg, origin, s, ls) && InLoop(s, mid, sid, rid, st)
    modifies reg
    ensures Tracks(reg, origin, s', ls') && InLoop(s', mid, sid, rid, st) && rid in s'.net.chans
  {
    RunKeepsInv(origin, ls);
    s' := Meanwhile(reg, s, events, {rid});
    RunAppend(origin, ls, OthersOf(events, {rid}));
    ls' := ls + OthersOf(events, {rid});
    StillInLoop(s, s', mid, sid, rid, st);
  }

  // One turn of the loop.
  method OneTurn(reg: R.Registry, ghost origin: System, s: System, ghost ls: seq<Label>,
                 mid: MachineId, sid: SessionId, rid: RequestId, st: Stream, turn: Turn)
      returns (s': System, st': Stream, ghost ls': seq<Label>)
    requires Inv(origin) && Tracks(reg, origin, s, ls) && InLoop(s, mid, sid, rid, st)
    modifies reg
    ensures Tracks(reg, origin, s', ls') && TurnDone(s', mid, sid, rid, st')
    ensures turn.pick == TotalDone ==> st'.end != Live
  {
    s', ls' := Between(reg, origin, s, ls, mid, sid, rid, st, turn.meanwhile);
    var met;
    st', met := SelectOnce(reg, mid, rid, st, turn.pick);
    if met.Some? {
      ls' := SelectLabels(origin, s', ls', mid, sid, rid, st, met.value);
      s' := Selected(s', rid, met.value, st'.end != Live);
    }
  }

  // The select loop. When the script is used up, the deadline of the whole request fires.
  method SelectLoop(reg: R.Registry, ghost origin: System, s: System, ghost ls: seq<Label>,
                    mid: MachineId, sid: SessionId, rid: RequestId, script: seq<Turn>)
      returns (s': System, st: Stream, ghost ls': seq<Label>)
    requires Inv(origin) && Tracks(reg, origin, s, ls) && InLoop(s, mid, sid, rid, START)
    modifies reg
    ensures Tracks(reg, origin, s', ls') && Ended(s', mid, sid, rid, st, true, false, true)
  {
    s', st, ls' := s, START, ls;
    var i := 0;
    while st.end == Live
      invariant i <= |script| + 1 && (i == |script| + 1 ==> st.end != Live)
      invariant Tracks(reg, origin, s', ls') && TurnDone(s', mid, sid, rid, st)
      decreases |script| + 1 - i
    {
      var turn := if i < |script| then script[i] else Turn([], TotalDone);
      s', st, ls' := OneTurn(reg, origin, s', ls', mid, sid, rid, st, turn);
      i := i + 1;
    }
  }

  // The deferred UnregisterChunkChannel.
  method LeaveChannel(reg: R.Registry, ghost origin: System, s: System, ghost ls: seq<Label>,
                      mid: MachineId, sid: SessionId, rid: RequestId, ghost st: Stream, ghost begun: bool)
      returns (s': System, ghost ls': seq<Label>)
    requires Inv(origin) && Tracks(reg, origin, s, ls) && Ended(s, mid, sid, rid, st, begun, false, true)
    modifies reg
    ensures Tracks(reg, origin, s', ls') && Ended(s', mid, sid, rid, st, begun, false, false)
  {
    RunKeepsInv(origin, ls);
    PlacedHandler(s, rid);
    GiveUpStep(s, mid, sid, rid, st, begun);
    RunSnoc(origin, ls, GiveUpChannel(rid));
    reg.UnregisterChunkChannel(sid, rid);
    s', ls' := Step(s, GiveUpChannel(rid)), ls + [GiveUpChannel(rid)];
  }

  lemma SaidInTheEnd(origin: System, s: System, ls: seq<Label>, mid: MachineId, sid: SessionId, rid: RequestId, st: Stream)
    requires Inv(origin) && s == Run(origin, ls) && Ended(s, mid, sid, rid, st, true, false, false)
    ensures T.EndedSaying(s.handlers[rid], st.out)
  {
    RunKeepsInv(origin, ls);
    assert Good(s.net, s.handlers[rid], rid);
    T.WholeOutputOf(s.handlers[rid]);
  }

  /** handleStreamingCompletion. However the script of other events and selects goes, what it does to the
      registry is a run of the protocol, and when it returns its handler is over: the channel is unhooked, and
      the slot, if it got one, was released exactly once - never if the machine was busy. What it wrote is the
      refusal, or the contents and tool calls of everything it received, in order, and what ended it. */
  method HandleStreamingCompletion(reg: R.Registry, s: System, mid: MachineId, rid: RequestId, sendOk: bool, script: seq<Turn>)
      returns (s': System, out: seq<Event>, ghost ls: seq<Label>)
    requires reg.Net() == s.net && Inv(s) && Enabled(s, Begin(rid, mid, Streaming, sendOk))
    modifies reg
    ensures Tracks(reg, s, s', ls) && Returned(s', mid, rid, out, CanIncrement(s.net, mid))
    ensures !CanIncrement(s.net, mid) ==> out == [ErrorEvent(MachineBusy), Done]
    ensures CanIncrement(s.net, mid) && !sendOk ==> out == [ErrorEvent(MachineOffline), Done]
    ensures CanIncrement(s.net, mid) && sendOk ==> T.EndedSaying(s'.handlers[rid], out)
  {
    var sid := reg.machines[mid];
    StartStep(s, mid, rid, sendOk);
    RunSnoc(s, [], Begin(rid, mid, Streaming, sendOk));
    ghost var hooked := Hook(s.net, sid, rid, STREAM_BUFFER);
    var ok := HookAndTake(reg, mid, sid, rid);
    s', ls := Step(s, Begin(rid, mid, Streaming, sendOk)), [] + [Begin(rid, mid, Streaming, sendOk)];
    if !ok {
      out := SseError(MachineBusy);
      UnhookTwice(hooked, sid, rid);
      reg.UnregisterChunkChannel(sid, rid);
      return;
    }
    if !sendOk {
      reg.DecrementLoad(mid);
      ReleaseStep(s', mid, sid, rid, RelayProtocol.Refused(MachineOffline), false);
      RunSnoc(s, ls, Release(rid));
      s', ls := Step(s', Release(rid)), ls + [Release(rid)];
      out := SseError(MachineOffline);
      s', ls := LeaveChannel(reg, s, s', ls, mid, sid, rid, RelayProtocol.Refused(MachineOffline), false);
      return;
    }
    var st;
    s', st, ls := SelectLoop(reg, s, s', ls, mid, sid, rid, script);
    s', ls := LeaveChannel(reg, s, s', ls, mid, sid, rid, st, true);
    out := st.out;
    SaidInTheEnd(s, s', ls, mid, sid, rid, st);
  }
}
