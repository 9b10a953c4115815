/** What rests on the granularity of the protocol model: a handler's start and the cancellation of a
    machine's requests look a session up and use it in two steps (internal/coord/invites.go:290,
    internal/coord/api.go:194-241). The lemmas here say exactly when something may come in between. */
module SplitSteps {
  import opened Wire
  import opened RegistryModel
  import opened RegistryFacts
  import opened RelayProtocol
  import opened RelayInvariant

  predicate IsRegistered(n: Net, sid: SessionId) {
    sid in n.sessions && n.sessions[sid].mid in n.machines && n.machines[n.sessions[sid].mid] == sid
  }

  /** Channels still hooked on a session that is no longer registered are closed. */
  ghost predicate GoneIsClosed(n: Net) {
    forall s, r :: s in n.sessions && r in n.sessions[s].chans && !IsRegistered(n, s) ==> r in n.chans && n.chans[r].closes > 0
  }

  lemma RegisterGone(n: Net, sid: SessionId, mid: MachineId, user: int, max: int, now: int)
    requires WellFormed(n) && GoneIsClosed(n) && sid !in n.sessions
    ensures GoneIsClosed(Register(n, sid, mid, user, max, now))
  {
  }

  lemma UnregisterGone(n: Net, mid: MachineId)
    requires WellFormed(n) && GoneIsClosed(n)
    ensures GoneIsClosed(Unregister(n, mid))
  {
  }

  lemma EvictGone(n: Net, timeout: int, now: int)
    requires WellFormed(n) && GoneIsClosed(n)
    ensures GoneIsClosed(EvictStale(n, timeout, now))
  {
    var n' := EvictStale(n, timeout, now);
    var out := Evicted(n, timeout, now);
    forall s, r | s in n'.sessions && r in n'.sessions[s].chans && !IsRegistered(n', s)
      ensures r in n'.chans && n'.chans[r].closes > 0
    {
      if IsRegistered(n, s) {
        assert n.sessions[s].mid in out;
        assert r in ChansOf(n, out);
      }
    }
  }

  lemma CancelGone(n: Net, mid: MachineId)
    requires WellFormed(n) && GoneIsClosed(n)
    ensures GoneIsClosed(CancelMachine(n, mid))
  {
  }

  lemma AdmitGone(n: Net, mid: MachineId, rid: RequestId, cap: nat)
    requires WellFormed(n) && GoneIsClosed(n) && Online(n, mid) && rid !in n.chans
    ensures GoneIsClosed(Admit(n, mid, rid, cap))
  {
  }

  lemma RelayGone(n: Net, mid: MachineId, m: ProviderMsg)
    requires WellFormed(n) && GoneIsClosed(n)
    ensures GoneIsClosed(Relay(n, mid, m))
  {
  }

  lemma UnhookGone(n: Net, sid: SessionId, rid: RequestId)
    requires GoneIsClosed(n)
    ensures GoneIsClosed(Unhook(n, sid, rid))
  {
  }

  lemma TakeGone(n: Net, rid: RequestId)
    requires GoneIsClosed(n) && rid in n.chans && n.chans[rid].buf != []
    ensures GoneIsClosed(Take(n, rid))
  {
  }

  // Bookkeeping on a registered session.
  lemma WithCurrentGone(n: Net, mid: MachineId, s: Session)
    requires WellFormed(n) && GoneIsClosed(n) && Online(n, mid) && s.mid == mid && s.chans == Current(n, mid).chans
    ensures GoneIsClosed(WithCurrent(n, mid, s))
  {
  }

  lemma DecrementGone(n: Net, mid: MachineId)
    requires WellFormed(n) && GoneIsClosed(n)
    ensures GoneIsClosed(DecrementLoad(n, mid))
  {
    if Online(n, mid) && Current(n, mid).load > 0 {
      WithCurrentGone(n, mid, Current(n, mid).(load := Current(n, mid).load - 1));
    }
  }

  lemma HeardGone(n: Net, mid: MachineId, now: int)
    requires WellFormed(n) && GoneIsClosed(n)
    ensures GoneIsClosed(Heartbeat(n, mid, now)) && GoneIsClosed(SetBackendOK(n, mid, false, now))
  {
    if Online(n, mid) {
      WithCurrentGone(n, mid, Current(n, mid).(lastHeartbeat := now));
      WithCurrentGone(n, mid, Current(n, mid).(backendOK := false, failedAt := Some(now)));
    }
  }

  lemma NextGone(s: System, l: Label)
    requires WellFormed(s.net) && s.net.chans.Keys == s.handlers.Keys && GoneIsClosed(s.net) && Enabled(s, l)
    ensures GoneIsClosed(Next(s, l).net)
  {
    match l {
      case Connect(sid, mid, user, max, now) => RegisterGone(s.net, sid, mid, user, max, now);
      case Disconnect(mid) => UnregisterGone(s.net, mid);
      case Monitor(timeout, now) => EvictGone(s.net, timeout, now);
      case CancelRequests(mid) => CancelGone(s.net, mid);
      case Heard(mid, now) => HeardGone(s.net, mid, now);
      case BackendFailed(mid, now) => HeardGone(s.net, mid, now);
      case Begin(rid, mid, kind, _) => AdmitGone(s.net, mid, rid, CapOf(kind));
      case Retry(rid, after, _) => AdmitGone(s.net, s.handlers[after].id.mid, rid, CapOf(Answering));
      case FromProvider(mid, msg) => RelayGone(s.net, mid, msg);
      case Receive(rid) =>
        if s.net.chans[rid].buf != [] {
          TakeGone(s.net, rid);
        }
      case Select(_, _) =>
      case Release(rid) => DecrementGone(s.net, s.handlers[rid].id.mid);
      case GiveUpChannel(rid) => UnhookGone(s.net, s.handlers[rid].id.sid, rid);
    }
  }

  lemma StepGone(s: System, l: Label)
    requires Inv(s) && GoneIsClosed(s.net)
    ensures GoneIsClosed(Step(s, l).net)
  {
    if Enabled(s, l) {
      NextGone(s, l);
    }
  }

  lemma {:induction false} ReachedGone(ls: seq<Label>)
    ensures GoneIsClosed(Reached(ls).net)
  {
    if ls != [] {
      ReachedInv(ls[..|ls| - 1]);
      ReachedGone(ls[..|ls| - 1]);
      StepGone(Reached(ls[..|ls| - 1]), ls[|ls| - 1]);
    }
  }

  // ----- Cancelling a session looked up earlier -----

  /** CancelAllRequests on a session would close a channel a second time, which panics. */
  ghost predicate CancelPanics(n: Net, sid: SessionId) {
    exists r :: r in CancelSession(n, sid).chans && CancelSession(n, sid).chans[r].closes > 1
  }

  /** In every reachable state, cancelling a session that was looked up earlier panics if and only if the
      session is no longer registered and still has a channel hooked. */
  lemma CancelPanicsExactly(ls: seq<Label>, sid: SessionId)
    requires sid in Reached(ls).net.sessions
    ensures var n := Reached(ls).net;
            CancelPanics(n, sid) <==> !IsRegistered(n, sid) && n.sessions[sid].chans != {}
  {
    var n := Reached(ls).net;
    ReachedInv(ls);
    ReachedGone(ls);
    if !IsRegistered(n, sid) && n.sessions[sid].chans != {} {
      var r :| r in n.sessions[sid].chans;
      assert CancelSession(n, sid).chans[r].closes > 1;
    }
  }

  /** A replacing registration between the look-up and the cancellation brings that about exactly when a
      request is in flight; an unregistration never does. */
  lemma ReplacedThenCancelled(n: Net, mid: MachineId, sid: SessionId, user: int, max: int, now: int)
    requires WellFormed(n) && Online(n, mid) && sid !in n.sessions
    ensures CancelPanics(Register(n, sid, mid, user, max, now), n.machines[mid]) <==> Current(n, mid).chans != {}
    ensures !CancelPanics(Unregister(n, mid), n.machines[mid])
  {
    var n' := Register(n, sid, mid, user, max, now);
    if r :| r in Current(n, mid).chans {
      assert CancelSession(n', n.machines[mid]).chans[r].closes > 1;
    }
  }

  /** So does an eviction. */
  lemma EvictedThenCancelled(n: Net, mid: MachineId, timeout: int, now: int)
    requires WellFormed(n) && Online(n, mid) && Stale(Current(n, mid), timeout, now)
    ensures CancelPanics(EvictStale(n, timeout, now), n.machines[mid]) <==> Current(n, mid).chans != {}
  {
    var n' := EvictStale(n, timeout, now);
    if r :| r in Current(n, mid).chans {
      assert mid in Evicted(n, timeout, now);
      assert r in ChansOf(n, Evicted(n, timeout, now));
      assert CancelSession(n', n.machines[mid]).chans[r].closes > 1;
    }
  }

  // ----- Hooking a channel on a session looked up earlier -----

  /** The step unregisters this very session. */
  predicate Unregisters(s: System, l: Label, sid: SessionId) {
    l.Disconnect? && Online(s.net, l.mid) && s.net.machines[l.mid] == sid
  }

  lemma RegistryNilMaps(n: Net, mid: MachineId, sid: SessionId, timeout: int, now: int)
    requires WellFormed(n) && sid in n.sessions
    ensures Unregister(n, mid).sessions[sid].nilMap == (n.sessions[sid].nilMap || (Online(n, mid) && n.machines[mid] == sid))
    ensures CancelMachine(n, mid).sessions[sid].nilMap == n.sessions[sid].nilMap
    ensures Heartbeat(n, mid, now).sessions[sid].nilMap == n.sessions[sid].nilMap
    ensures SetBackendOK(n, mid, false, now).sessions[sid].nilMap == n.sessions[sid].nilMap
    ensures DecrementLoad(n, mid).sessions[sid].nilMap == n.sessions[sid].nilMap
  {
  }

  lemma HandlerNilMaps(n: Net, mid: MachineId, rid: RequestId, cap: nat, m: ProviderMsg, sid: SessionId, x: SessionId)
    requires WellFormed(n) && sid in n.sessions
    ensures Online(n, mid) ==> sid in Admit(n, mid, rid, cap).sessions
    ensures Online(n, mid) ==> Admit(n, mid, rid, cap).sessions[sid].nilMap == n.sessions[sid].nilMap
    ensures sid in Relay(n, mid, m).sessions && Relay(n, mid, m).sessions[sid].nilMap == n.sessions[sid].nilMap
    ensures sid in Unhook(n, x, rid).sessions && Unhook(n, x, rid).sessions[sid].nilMap == n.sessions[sid].nilMap
  {
  }

  lemma NilMapOfMachine(s: System, l: Label, sid: SessionId)
    requires WellFormed(s.net) && Enabled(s, l) && sid in s.net.sessions && !AboutHandler(l)
    ensures sid in Next(s, l).net.sessions
    ensures Next(s, l).net.sessions[sid].nilMap == (s.net.sessions[sid].nilMap || Unregisters(s, l, sid))
  {
    match l {
      case Disconnect(mid) => RegistryNilMaps(s.net, mid, sid, 0, 0);
      case CancelRequests(mid) => RegistryNilMaps(s.net, mid, sid, 0, 0);
      case Heard(mid, now) => RegistryNilMaps(s.net, mid, sid, 0, now);
      case BackendFailed(mid, now) => RegistryNilMaps(s.net, mid, sid, 0, now);
      case _ =>
    }
  }

  lemma NilMapOfHandler(s: System, l: Label, sid: SessionId)
    requires WellFormed(s.net) && Enabled(s, l) && sid in s.net.sessions && AboutHandler(l)
    ensures sid in Next(s, l).net.sessions && Next(s, l).net.sessions[sid].nilMap == s.net.sessions[sid].nilMap
  {
    var none := Error("", "", "");
    match l {
      case Begin(rid, mid, kind, _) => HandlerNilMaps(s.net, mid, rid, CapOf(kind), none, sid, sid);
      case Retry(rid, after, _) => HandlerNilMaps(s.net, s.handlers[after].id.mid, rid, CapOf(Answering), none, sid, sid);
      case FromProvider(mid, msg) => HandlerNilMaps(s.net, mid, "", 0, msg, sid, sid);
      case Release(rid) => RegistryNilMaps(s.net, s.handlers[rid].id.mid, sid, 0, 0);
      case GiveUpChannel(rid) => HandlerNilMaps(s.net, "", rid, 0, none, sid, s.handlers[rid].id.sid);
      case _ =>
    }
  }

  lemma NilMapNext(s: System, l: Label, sid: SessionId)
    requires WellFormed(s.net) && Enabled(s, l) && sid in s.net.sessions
    ensures sid in Next(s, l).net.sessions
    ensures Next(s, l).net.sessions[sid].nilMap == (s.net.sessions[sid].nilMap || Unregisters(s, l, sid))
  {
    if AboutHandler(l) {
      NilMapOfHandler(s, l, sid);
    } else {
      NilMapOfMachine(s, l, sid);
    }
  }

  lemma NewMapIsNotNil(s: System, l: Label, sid: SessionId)
    requires WellFormed(s.net) && sid !in s.net.sessions && sid in Step(s, l).net.sessions
    ensures !Step(s, l).net.sessions[sid].nilMap && !Unregisters(s, l, sid)
  {
    if Enabled(s, l) && !l.Connect? {
      NoNewSession(s, l);
    }
  }

  lemma NoNewSession(s: System, l: Label)
    requires WellFormed(s.net) && Enabled(s, l) && !l.Connect?
    ensures Next(s, l).net.sessions.Keys == s.net.sessions.Keys
  {
    var none := Error("", "", "");
    match l {
      case Disconnect(mid) => RegistrySessions(s.net, mid, 0, 0);
      case Monitor(timeout, now) => RegistrySessions(s.net, "", timeout, now);
      case CancelRequests(mid) => RegistrySessions(s.net, mid, 0, 0);
      case Heard(mid, now) => RegistrySessions(s.net, mid, 0, now);
      case BackendFailed(mid, now) => RegistrySessions(s.net, mid, 0, now);
      case Begin(rid, mid, kind, _) => HandlerSessions(s.net, mid, rid, CapOf(kind), none, "");
      case Retry(rid, after, _) => HandlerSessions(s.net, s.handlers[after].id.mid, rid, CapOf(Answering), none, "");
      case FromProvider(mid, msg) => HandlerSessions(s.net, mid, "", 0, msg, "");
      case Release(rid) => RegistrySessions(s.net, s.handlers[rid].id.mid, 0, 0);
      case GiveUpChannel(rid) => HandlerSessions(s.net, "", rid, 0, none, s.handlers[rid].id.sid);
      case _ =>
    }
  }

  lemma RegistrySessions(n: Net, mid: MachineId, timeout: int, now: int)
    ensures Unregister(n, mid).sessions.Keys == n.sessions.Keys && EvictStale(n, timeout, now).sessions.Keys == n.sessions.Keys
    ensures CancelMachine(n, mid).sessions.Keys == n.sessions.Keys && DecrementLoad(n, mid).sessions.Keys == n.sessions.Keys
    ensures Heartbeat(n, mid, now).sessions.Keys == n.sessions.Keys && SetBackendOK(n, mid, false, now).sessions.Keys == n.sessions.Keys
  {
  }

  lemma HandlerSessions(n: Net, mid: MachineId, rid: RequestId, cap: nat, m: ProviderMsg, x: SessionId)
    ensures Online(n, mid) ==> Admit(n, mid, rid, cap).sessions.Keys == n.sessions.Keys
    ensures Relay(n, mid, m).sessions.Keys == n.sessions.Keys && Unhook(n, x, rid).sessions.Keys == n.sessions.Keys
  {
  }

  /** Some step of the run unregistered the session. */
  ghost predicate WasUnregistered(ls: seq<Label>, sid: SessionId) {
    exists i :: 0 <= i < |ls| && Unregisters(Reached(ls[..i]), ls[i], sid)
  }

  lemma WasUnregisteredSnoc(before: seq<Label>, l: Label, sid: SessionId)
    ensures WasUnregistered(before + [l], sid) <==> WasUnregistered(before, sid) || Unregisters(Reached(before), l, sid)
  {
    var ls := before + [l];
    assert forall i :: 0 <= i <= |before| ==> ls[..i] == before[..i];
    assert before[..|before|] == before && ls[|before|] == l;
  }

  lemma StepNilMap(s: System, l: Label, sid: SessionId)
    requires Inv(s) && sid in s.net.sessions
    ensures sid in Step(s, l).net.sessions
    ensures Step(s, l).net.sessions[sid].nilMap == (s.net.sessions[sid].nilMap || Unregisters(s, l, sid))
  {
    if Enabled(s, l) {
      NilMapNext(s, l, sid);
    }
  }

  lemma {:induction false} NeverThereNeverUnregistered(ls: seq<Label>, sid: SessionId)
    requires sid !in Reached(ls).net.sessions
    ensures !WasUnregistered(ls, sid)
  {
    if ls != [] {
      var before, l := ls[..|ls| - 1], ls[|ls| - 1];
      assert ls == before + [l];
      ReachedInv(before);
      if sid in Reached(before).net.sessions {
        StepNilMap(Reached(before), l, sid);
      } else {
        NeverThereNeverUnregistered(before, sid);
        WasUnregisteredSnoc(before, l, sid);
      }
    }
  }

  /** In every reachable state RegisterChunkChannel on a session looked up earlier would write to a nil map,
      and panic, if and only if some step of the run unregistered that session. */
  lemma {:induction false} NilMapExactly(ls: seq<Label>, sid: SessionId)
    requires sid in Reached(ls).net.sessions
    ensures Reached(ls).net.sessions[sid].nilMap <==> WasUnregistered(ls, sid)
  {
    var before, l := ls[..|ls| - 1], ls[|ls| - 1];
    assert ls == before + [l];
    ReachedInv(before);
    WasUnregisteredSnoc(before, l, sid);
    if sid in Reached(before).net.sessions {
      NilMapExactly(before, sid);
      StepNilMap(Reached(before), l, sid);
    } else {
      NeverThereNeverUnregistered(before, sid);
      NewMapIsNotNil(Reached(before), l, sid);
    }
  }

  /** A channel hooked on a session that was replaced meanwhile is open, but where no message and no registry
      operation on the machine will find it; on one that was unregistered the hook meets the nil map. */
  lemma HookOnGoneSession(n: Net, mid: MachineId, rid: RequestId, cap: nat, sid': SessionId, user: int, max: int, now: int)
    requires WellFormed(n) && Online(n, mid) && rid !in n.chans && sid' !in n.sessions
    ensures var sid := n.machines[mid];
            var replaced := Hook(Register(n, sid', mid, user, max, now), sid, rid, cap);
            && Unregister(n, mid).sessions[sid].nilMap
            && !replaced.sessions[sid].nilMap
            && replaced.chans[rid].closes == 0 && !Attached(replaced, sid, rid) && !Waits(replaced, mid, rid)
  {
  }
}
