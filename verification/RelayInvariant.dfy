/** The invariant of the relay protocol, kept by every step. */
module RelayInvariant {
  import opened Wire
  import opened RegistryModel
  import opened RegistryFacts
  import opened Sse
  import opened RelayProtocol
  import opened HandlerInvariant

  /** The channel of a request is hooked on the session, and the session is the registered one. */
  predicate Attached(n: Net, sid: SessionId, rid: RequestId) {
    && sid in n.sessions && rid in n.sessions[sid].chans
    && n.sessions[sid].mid in n.machines && n.machines[n.sessions[sid].mid] == sid
  }

  /** Every handler has a channel, on an existing session of its machine. */
  ghost predicate Placed(n: Net, h: Handler, rid: RequestId) {
    && rid in n.chans && n.chans[rid].home == h.id.sid
    && h.id.sid in n.sessions && n.sessions[h.id.sid].mid == h.id.mid
  }

  ghost predicate Good(n: Net, h: Handler, rid: RequestId) {
    Placed(n, h, rid) && HandlerOK(h, n.chans[rid], Attached(n, h.id.sid, rid))
  }

  ghost predicate AllGood(s: System) {
    && s.net.chans.Keys == s.handlers.Keys
    && forall r :: r in s.handlers ==> Good(s.net, s.handlers[r], r)
  }

  ghost predicate Inv(s: System) {
    WellFormed(s.net) && AllGood(s)
  }

  // ----- What a registry step does to one channel -----

  /** Sessions keep their machine, and the channel is untouched or, if it was live, shut. */
  ghost predicate Quiet(n: Net, n': Net, sid: SessionId, rid: RequestId)
    requires sid in n.sessions && rid in n.chans
  {
    && sid in n'.sessions && n'.sessions[sid].mid == n.sessions[sid].mid && rid in n'.chans
    && (if Attached(n, sid, rid) && !Attached(n', sid, rid)
        then n'.chans[rid] == n.chans[rid].(closes := n.chans[rid].closes + 1)
        else n'.chans[rid] == n.chans[rid] && Attached(n', sid, rid) == Attached(n, sid, rid))
  }

  lemma QuietIsGood(n: Net, n': Net, h: Handler, rid: RequestId)
    requires Good(n, h, rid) && Quiet(n, n', h.id.sid, rid)
    ensures Good(n', h, rid)
  {
    if Attached(n, h.id.sid, rid) && !Attached(n', h.id.sid, rid) {
      ShutOK(h, n.chans[rid]);
    }
  }

  lemma RegisterQuiet(n: Net, h: Handler, rid: RequestId, sid: SessionId, mid: MachineId, user: int, max: int, now: int)
    requires WellFormed(n) && Placed(n, h, rid) && sid !in n.sessions
    ensures Quiet(n, Register(n, sid, mid, user, max, now), h.id.sid, rid)
  {
  }

  lemma UnregisterQuiet(n: Net, h: Handler, rid: RequestId, mid: MachineId)
    requires WellFormed(n) && Placed(n, h, rid)
    ensures Quiet(n, Unregister(n, mid), h.id.sid, rid)
  {
  }

  lemma CancelQuiet(n: Net, h: Handler, rid: RequestId, mid: MachineId)
    requires WellFormed(n) && Placed(n, h, rid)
    ensures Quiet(n, CancelMachine(n, mid), h.id.sid, rid)
  {
  }

  lemma EvictQuiet(n: Net, h: Handler, rid: RequestId, timeout: int, now: int)
    requires WellFormed(n) && Placed(n, h, rid)
    ensures Quiet(n, EvictStale(n, timeout, now), h.id.sid, rid)
  {
    var out := Evicted(n, timeout, now);
    if Attached(n, h.id.sid, rid) && h.id.mid in out {
      assert rid in ChansOf(n, out);
    }
  }

  // Updates of one session's bookkeeping touch no channel.
  lemma BookkeepingQuiet(n: Net, h: Handler, rid: RequestId, mid: MachineId, was: Session, is': Session)
    requires WellFormed(n) && Placed(n, h, rid) && Online(n, mid) && was == Current(n, mid)
    requires is'.mid == was.mid && is'.chans == was.chans
    ensures Quiet(n, WithCurrent(n, mid, is'), h.id.sid, rid)
  {
  }

  lemma RelayElsewhere(n: Net, h: Handler, rid: RequestId, mid: MachineId, m: ProviderMsg)
    requires WellFormed(n) && Placed(n, h, rid) && (m.rid != rid || mid != h.id.mid)
    ensures Quiet(n, Relay(n, mid, m), h.id.sid, rid)
  {
  }

  lemma AdmitElsewhere(n: Net, h: Handler, rid: RequestId, mid: MachineId, other: RequestId, cap: nat)
    requires WellFormed(n) && Placed(n, h, rid) && Online(n, mid) && other != rid
    ensures Quiet(n, Admit(n, mid, other, cap), h.id.sid, rid)
  {
  }

  lemma UnhookElsewhere(n: Net, h: Handler, rid: RequestId, sid: SessionId, other: RequestId)
    requires WellFormed(n) && Placed(n, h, rid) && other != rid
    ensures Quiet(n, Unhook(n, sid, other), h.id.sid, rid)
  {
  }

  lemma TakeElsewhere(n: Net, h: Handler, rid: RequestId, other: RequestId)
    requires WellFormed(n) && Placed(n, h, rid) && other != rid && other in n.chans && n.chans[other].buf != []
    ensures Quiet(n, Take(n, other), h.id.sid, rid)
  {
  }

  lemma AdmitHere(n: Net, mid: MachineId, rid: RequestId, cap: nat)
    requires WellFormed(n) && Online(n, mid) && rid !in n.chans
    ensures var n' := Admit(n, mid, rid, cap);
            var sid := n.machines[mid];
            && n'.chans.Keys == n.chans.Keys + {rid}
            && n'.chans[rid] == Chan(sid, cap, [], 0, 0)
            && sid in n'.sessions && n'.sessions[sid].mid == mid
            && Attached(n', sid, rid) == CanIncrement(n, mid)
  {
  }

  lemma AdmitWellFormed(n: Net, mid: MachineId, rid: RequestId, cap: nat)
    requires WellFormed(n) && Online(n, mid) && rid !in n.chans
    ensures WellFormed(Admit(n, mid, rid, cap))
  {
    var hooked := Hook(n, n.machines[mid], rid, cap);
    HookWellFormed(n, mid, rid, cap);
    UnhookWellFormed(hooked, n.machines[mid], rid);
    IncrementWellFormed(hooked, mid);
  }

  lemma IncrementWellFormed(n: Net, mid: MachineId)
    requires WellFormed(n)
    ensures WellFormed(IncrementLoad(n, mid))
  {
    if CanIncrement(n, mid) {
      var s := Current(n, mid);
      WithCurrentWellFormed(n, mid, s.(load := s.load + 1, requests := s.requests + 1));
    }
  }

  // For the handler a message is about, the relay's lookup succeeds exactly when its channel is live.
  lemma WaitsWhenLive(n: Net, h: Handler, rid: RequestId)
    requires WellFormed(n) && Placed(n, h, rid)
    ensures Waits(n, h.id.mid, rid) == Attached(n, h.id.sid, rid)
  {
  }

  lemma RelayHere(n: Net, h: Handler, m: ProviderMsg)
    requires WellFormed(n) && Placed(n, h, m.rid)
    ensures var n' := Relay(n, h.id.mid, m);
            && Placed(n', h, m.rid)
            && n'.chans[m.rid] == (if Attached(n, h.id.sid, m.rid) then Send(n.chans[m.rid], ToRelay(m)) else n.chans[m.rid])
            && Attached(n', h.id.sid, m.rid) == (Attached(n, h.id.sid, m.rid) && !Terminal(m))
  {
    WaitsWhenLive(n, h, m.rid);
  }

  lemma DecrementWellFormed(n: Net, mid: MachineId)
    requires WellFormed(n)
    ensures WellFormed(DecrementLoad(n, mid))
  {
    if Online(n, mid) && Current(n, mid).load > 0 {
      WithCurrentWellFormed(n, mid, Current(n, mid).(load := Current(n, mid).load - 1));
    }
  }

  lemma DecrementQuiet(n: Net, h: Handler, rid: RequestId, mid: MachineId)
    requires WellFormed(n) && Placed(n, h, rid)
    ensures DecrementLoad(n, mid).chans == n.chans
    ensures Placed(DecrementLoad(n, mid), h, rid) && Quiet(n, DecrementLoad(n, mid), h.id.sid, rid)
  {
    if Online(n, mid) && Current(n, mid).load > 0 {
      BookkeepingQuiet(n, h, rid, mid, Current(n, mid), Current(n, mid).(load := Current(n, mid).load - 1));
    }
  }

  // ----- The steps -----

  /** The handlers a step changes or adds. */
  function Touched(s: System, l: Label): set<RequestId> {
    match l
    case Begin(rid, _, _, _) => {rid}
    case Retry(rid, after, _) => {rid, after}
    case FromProvider(mid, msg) => if msg.rid in s.handlers && s.handlers[msg.rid].id.mid == mid then {msg.rid} else {}
    case Receive(rid) => {rid}
    case Select(rid, _) => {rid}
    case Release(rid) => {rid}
    case GiveUpChannel(rid) => {rid}
    case _ => {}
  }

  lemma NextWellFormed(s: System, l: Label)
    requires WellFormed(s.net) && s.net.chans.Keys == s.handlers.Keys && Enabled(s, l)
    ensures WellFormed(Next(s, l).net)
  {
    match l {
      case Connect(sid, mid, user, max, now) => RegisterWellFormed(s.net, sid, mid, user, max, now);
      case Disconnect(mid) => UnregisterWellFormed(s.net, mid);
      case Monitor(timeout, now) => EvictWellFormed(s.net, timeout, now);
      case CancelRequests(mid) => CancelWellFormed(s.net, mid);
      case Heard(mid, now) =>
        if Online(s.net, mid) {
          WithCurrentWellFormed(s.net, mid, Current(s.net, mid).(lastHeartbeat := now));
        }
      case BackendFailed(mid, now) =>
        if Online(s.net, mid) {
          WithCurrentWellFormed(s.net, mid, Current(s.net, mid).(backendOK := false, failedAt := Some(now)));
        }
      case Begin(rid, mid, kind, _) => AdmitWellFormed(s.net, mid, rid, CapOf(kind));
      case Retry(rid, after, _) => AdmitWellFormed(s.net, s.handlers[after].id.mid, rid, CapOf(Answering));
      case FromProvider(mid, msg) => RelayWellFormed(s.net, mid, msg);
      case Receive(rid) =>
        if s.net.chans[rid].buf != [] {
          TakeWellFormed(s.net, rid);
        }
      case Select(_, _) =>
      case Release(rid) => DecrementWellFormed(s.net, s.handlers[rid].id.mid);
      case GiveUpChannel(rid) => UnhookWellFormed(s.net, s.handlers[rid].id.sid, rid);
    }
  }

  lemma NextHandlerKeys(s: System, l: Label)
    requires Enabled(s, l)
    ensures Next(s, l).handlers.Keys == s.handlers.Keys + Touched(s, l)
      || (l.FromProvider? && Next(s, l).handlers == s.handlers)
  {
  }

  /** A step of a handler itself, or a message. */
  predicate AboutHandler(l: Label) {
    l.Begin? || l.Retry? || l.FromProvider? || l.Receive? || l.Select? || l.Release? || l.GiveUpChannel?
  }

  lemma MachineChanKeys(s: System, l: Label)
    requires Enabled(s, l) && !AboutHandler(l)
    ensures Next(s, l).net.chans.Keys == s.net.chans.Keys && Touched(s, l) == {}
  {
    match l {
      case Connect(sid, mid, user, max, now) => RegistryChans(s.net, sid, mid, user, max, now, 0);
      case Disconnect(mid) => RegistryChans(s.net, "", mid, 0, 0, 0, 0);
      case Monitor(timeout, now) => RegistryChans(s.net, "", "", 0, 0, now, timeout);
      case CancelRequests(mid) => RegistryChans(s.net, "", mid, 0, 0, 0, 0);
      case Heard(mid, now) => RegistryChans(s.net, "", mid, 0, 0, now, 0);
      case BackendFailed(mid, now) => RegistryChans(s.net, "", mid, 0, 0, now, 0);
    }
  }

  lemma HandlerChanKeys(s: System, l: Label)
    requires WellFormed(s.net) && s.net.chans.Keys == s.handlers.Keys && Enabled(s, l) && AboutHandler(l)
    ensures Next(s, l).net.chans.Keys == s.net.chans.Keys + Touched(s, l)
  {
    match l {
      case Begin(rid, mid, kind, _) => AdmitHere(s.net, mid, rid, CapOf(kind));
      case Retry(rid, after, _) => AdmitHere(s.net, s.handlers[after].id.mid, rid, CapOf(Answering));
      case Release(rid) => RegistryChans(s.net, "", s.handlers[rid].id.mid, 0, 0, 0, 0);
      case _ =>
    }
  }

  lemma NextChanKeys(s: System, l: Label)
    requires WellFormed(s.net) && s.net.chans.Keys == s.handlers.Keys && Enabled(s, l)
    ensures Next(s, l).net.chans.Keys == s.net.chans.Keys + Touched(s, l)
  {
    if AboutHandler(l) {
      HandlerChanKeys(s, l);
    } else {
      MachineChanKeys(s, l);
    }
  }

  lemma RegistryChans(n: Net, sid: SessionId, mid: MachineId, user: int, max: int, now: int, timeout: int)
    ensures Register(n, sid, mid, user, max, now).chans.Keys == n.chans.Keys && Unregister(n, mid).chans.Keys == n.chans.Keys
    ensures EvictStale(n, timeout, now).chans.Keys == n.chans.Keys && CancelMachine(n, mid).chans.Keys == n.chans.Keys
    ensures Heartbeat(n, mid, now).chans == n.chans && SetBackendOK(n, mid, false, now).chans == n.chans
    ensures DecrementLoad(n, mid).chans == n.chans
  {
  }

  lemma NextKeys(s: System, l: Label)
    requires WellFormed(s.net) && s.net.chans.Keys == s.handlers.Keys && Enabled(s, l)
    ensures Next(s, l).handlers.Keys == s.handlers.Keys + Touched(s, l)
    ensures Next(s, l).net.chans.Keys == s.handlers.Keys + Touched(s, l)
  {
    NextHandlerKeys(s, l);
    NextChanKeys(s, l);
  }

  /** A step leaves the handlers it does not touch alone, and at most shuts their channels. */
  ghost predicate Undisturbed(s: System, s': System, r: RequestId)
    requires r in s.handlers && Placed(s.net, s.handlers[r], r)
  {
    r in s'.handlers && s'.handlers[r] == s.handlers[r] && Quiet(s.net, s'.net, s.handlers[r].id.sid, r)
  }

  lemma NextElsewhere(s: System, l: Label, r: RequestId)
    requires WellFormed(s.net) && Enabled(s, l)
    requires r in s.handlers && Placed(s.net, s.handlers[r], r) && r !in Touched(s, l)
    ensures Undisturbed(s, Next(s, l), r)
  {
    var n, h := s.net, s.handlers[r];
    match l {
      case Connect(sid, mid, user, max, now) => RegisterQuiet(n, h, r, sid, mid, user, max, now);
      case Disconnect(mid) => UnregisterQuiet(n, h, r, mid);
      case Monitor(timeout, now) => EvictQuiet(n, h, r, timeout, now);
      case CancelRequests(mid) => CancelQuiet(n, h, r, mid);
      case Heard(mid, now) => HeardElsewhere(n, h, r, mid, now);
      case BackendFailed(mid, now) => FailedElsewhere(n, h, r, mid, now);
      case Begin(rid, mid, kind, _) => AdmitElsewhere(n, h, r, mid, rid, CapOf(kind));
      case Retry(rid, after, _) => AdmitElsewhere(n, h, r, s.handlers[after].id.mid, rid, CapOf(Answering));
      case FromProvider(mid, msg) => RelayElsewhere(n, h, r, mid, msg);
      case Receive(rid) => ReceiveElsewhere(s, r, rid);
      case Select(_, _) =>
      case Release(rid) => DecrementQuiet(n, h, r, s.handlers[rid].id.mid);
      case GiveUpChannel(rid) => UnhookElsewhere(n, h, r, s.handlers[rid].id.sid, rid);
    }
  }

  lemma HeardElsewhere(n: Net, h: Handler, rid: RequestId, mid: MachineId, now: int)
    requires WellFormed(n) && Placed(n, h, rid)
    ensures Quiet(n, Heartbeat(n, mid, now), h.id.sid, rid)
  {
    if Online(n, mid) {
      BookkeepingQuiet(n, h, rid, mid, Current(n, mid), Current(n, mid).(lastHeartbeat := now));
    }
  }

  lemma FailedElsewhere(n: Net, h: Handler, rid: RequestId, mid: MachineId, now: int)
    requires WellFormed(n) && Placed(n, h, rid)
    ensures Quiet(n, SetBackendOK(n, mid, false, now), h.id.sid, rid)
  {
    if Online(n, mid) {
      BookkeepingQuiet(n, h, rid, mid, Current(n, mid), Current(n, mid).(backendOK := false, failedAt := Some(now)));
    }
  }

  lemma ReceiveElsewhere(s: System, r: RequestId, rid: RequestId)
    requires WellFormed(s.net) && CanReceive(s, rid) && r != rid && r in s.handlers && Placed(s.net, s.handlers[r], r)
    ensures Undisturbed(s, ReceiveNext(s, rid), r)
  {
    if s.net.chans[rid].buf != [] {
      TakeElsewhere(s.net, s.handlers[r], r, rid);
    }
  }

  // ----- The touched handlers -----

  lemma BeginGood(s: System, rid: RequestId, mid: MachineId, kind: Kind, sendOk: bool, attempt: nat, after: Option<RequestId>)
    requires WellFormed(s.net) && rid !in s.net.chans && Online(s.net, mid)
    ensures var s' := BeginNext(s, rid, mid, kind, sendOk, attempt, after); Good(s'.net, s'.handlers[rid], rid)
  {
    AdmitHere(s.net, mid, rid, CapOf(kind));
    StartedOK(mid, s.net.machines[mid], kind, CanIncrement(s.net, mid), sendOk, attempt, after);
  }

  lemma RetriedGood(n: Net, n': Net, h: Handler, rid: RequestId)
    requires Good(n, h, rid) && Quiet(n, n', h.id.sid, rid)
    ensures Good(n', h.(retried := true), rid)
  {
    QuietIsGood(n, n', h, rid);
  }

  lemma RetryGood(s: System, rid: RequestId, after: RequestId, sendOk: bool, r: RequestId)
    requires WellFormed(s.net) && s.net.chans.Keys == s.handlers.Keys && Enabled(s, Retry(rid, after, sendOk))
    requires Good(s.net, s.handlers[after], after) && r in {rid, after}
    ensures var s' := Next(s, Retry(rid, after, sendOk)); Good(s'.net, s'.handlers[r], r)
  {
    var h := s.handlers[after];
    RetryHandlers(s, rid, after, sendOk);
    if r == rid {
      BeginGood(s, rid, h.id.mid, Answering, sendOk, h.id.attempt + 1, Some(after));
    } else {
      RetriedElsewhere(s, rid, after, h.id.mid);
    }
  }

  lemma RetryHandlers(s: System, rid: RequestId, after: RequestId, sendOk: bool)
    requires Enabled(s, Retry(rid, after, sendOk))
    ensures var h := s.handlers[after];
            var begun := BeginNext(s, rid, h.id.mid, Answering, sendOk, h.id.attempt + 1, Some(after));
            var s' := Next(s, Retry(rid, after, sendOk));
            && rid != after && s'.net == begun.net && s'.net == Admit(s.net, h.id.mid, rid, CapOf(Answering))
            && s'.handlers[rid] == begun.handlers[rid] && s'.handlers[after] == h.(retried := true)
  {
  }

  lemma RetriedElsewhere(s: System, rid: RequestId, after: RequestId, mid: MachineId)
    requires WellFormed(s.net) && rid !in s.handlers && after in s.handlers && Online(s.net, mid)
    requires Good(s.net, s.handlers[after], after)
    ensures Good(Admit(s.net, mid, rid, CapOf(Answering)), s.handlers[after].(retried := true), after)
  {
    AdmitElsewhere(s.net, s.handlers[after], after, mid, rid, CapOf(Answering));
    RetriedGood(s.net, Admit(s.net, mid, rid, CapOf(Answering)), s.handlers[after], after);
  }

  lemma ProviderGood(s: System, m: ProviderMsg)
    requires WellFormed(s.net) && m.rid in s.handlers && Good(s.net, s.handlers[m.rid], m.rid)
    ensures var s' := ProviderNext(s, s.handlers[m.rid].id.mid, m); Good(s'.net, s'.handlers[m.rid], m.rid)
  {
    var h := s.handlers[m.rid];
    WaitsWhenLive(s.net, h, m.rid);
    RelayHere(s.net, h, m);
    LoggedOK(h, s.net.chans[m.rid], Attached(s.net, h.id.sid, m.rid), m);
  }

  lemma ReceiveGood(s: System, rid: RequestId)
    requires CanReceive(s, rid) && Good(s.net, s.handlers[rid], rid)
    ensures var s' := ReceiveNext(s, rid); Good(s'.net, s'.handlers[rid], rid)
  {
    var h := s.handlers[rid];
    var c := s.net.chans[rid];
    if c.buf != [] {
      ReceivedOK(h, c, Attached(s.net, h.id.sid, rid));
    } else {
      ClosedOK(h, c, Attached(s.net, h.id.sid, rid));
    }
  }

  lemma SelectGood(s: System, rid: RequestId, o: Outcome)
    requires Enabled(s, Select(rid, o)) && Good(s.net, s.handlers[rid], rid)
    ensures Good(s.net, AfterSelect(s.handlers[rid], o), rid)
  {
    SelectedOK(s.handlers[rid], s.net.chans[rid], Attached(s.net, s.handlers[rid].id.sid, rid), o);
  }

  lemma ReleaseGood(s: System, rid: RequestId)
    requires WellFormed(s.net) && Enabled(s, Release(rid)) && Good(s.net, s.handlers[rid], rid)
    ensures var s' := ReleaseNext(s, rid); Good(s'.net, s'.handlers[rid], rid)
  {
    var h := s.handlers[rid];
    ReleasedOK(h, s.net.chans[rid], Attached(s.net, h.id.sid, rid));
    DecrementQuiet(s.net, h, rid, h.id.mid);
  }

  lemma GiveUpGood(s: System, rid: RequestId)
    requires WellFormed(s.net) && Enabled(s, GiveUpChannel(rid)) && Good(s.net, s.handlers[rid], rid)
    ensures var s' := Next(s, GiveUpChannel(rid)); Good(s'.net, s'.handlers[rid], rid)
  {
    UnhookedOK(s.handlers[rid], s.net.chans[rid], Attached(s.net, s.handlers[rid].id.sid, rid));
  }

  lemma NextHere(s: System, l: Label, r: RequestId)
    requires WellFormed(s.net) && s.net.chans.Keys == s.handlers.Keys && Enabled(s, l)
    requires r in Touched(s, l)
    requires l.Retry? ==> Good(s.net, s.handlers[l.after], l.after)
    requires r in s.handlers ==> Good(s.net, s.handlers[r], r)
    ensures r in Next(s, l).handlers && Good(Next(s, l).net, Next(s, l).handlers[r], r)
  {
    match l {
      case Begin(rid, mid, kind, sendOk) => BeginGood(s, rid, mid, kind, sendOk, 0, None);
      case Retry(rid, after, sendOk) => RetryGood(s, rid, after, sendOk, r);
      case FromProvider(mid, msg) => ProviderGood(s, msg);
      case Receive(rid) => ReceiveGood(s, rid);
      case Select(rid, outcome) => SelectGood(s, rid, outcome);
      case Release(rid) => ReleaseGood(s, rid);
      case GiveUpChannel(rid) => GiveUpGood(s, rid);
    }
  }

  lemma NextGood(s: System, l: Label, r: RequestId)
    requires Inv(s) && Enabled(s, l) && r in Next(s, l).handlers
    ensures Good(Next(s, l).net, Next(s, l).handlers[r], r)
  {
    NextKeys(s, l);
    assert forall q :: q in s.handlers ==> Good(s.net, s.handlers[q], q);
    if r in Touched(s, l) {
      NextHere(s, l, r);
    } else {
      NextElsewhere(s, l, r);
      QuietIsGood(s.net, Next(s, l).net, s.handlers[r], r);
    }
  }

  lemma StepKeepsInv(s: System, l: Label)
    requires Inv(s)
    ensures Inv(Step(s, l))
  {
    if Enabled(s, l) {
      NextWellFormed(s, l);
      NextKeys(s, l);
      forall r | r in Next(s, l).handlers
        ensures Good(Next(s, l).net, Next(s, l).handlers[r], r)
      {
        NextGood(s, l, r);
      }
    }
  }

  /** The invariant holds in every reachable state. */
  lemma {:induction false} ReachedInv(ls: seq<Label>)
    ensures Inv(Reached(ls))
  {
    if ls != [] {
      ReachedInv(ls[..|ls| - 1]);
      StepKeepsInv(Reached(ls[..|ls| - 1]), ls[|ls| - 1]);
    }
  }

  lemma {:induction false} RunKeepsInv(s: System, ls: seq<Label>)
    requires Inv(s)
    ensures Inv(Run(s, ls))
  {
    if ls != [] {
      RunKeepsInv(s, ls[..|ls| - 1]);
      StepKeepsInv(Run(s, ls[..|ls| - 1]), ls[|ls| - 1]);
    }
  }
}
