/** Load accounting across reconnects. Slots are released by machine id, not by session
    (internal/coord/registry.go:157), so a handler admitted on an earlier session takes a slot away from the
    session registered now. */
module RelayLoad {
  import opened Wire
  import opened RegistryModel
  import opened RegistryFacts
  import opened RelayProtocol
  import opened RelayInvariant

  /** The handlers that took a slot on a session and have not given it back. */
  function Holders(hs: map<RequestId, Handler>, sid: SessionId): set<RequestId> {
    set r | r in hs && hs[r].holding && hs[r].id.sid == sid
  }

  /** A registered session's load is within its capacity, and short of its holders by no more than the slots
      it lost to handlers of earlier sessions. */
  ghost predicate SessionLoadOK(x: Session, holders: nat, stale: nat) {
    0 <= x.load <= x.max && x.load <= holders <= x.load + stale
  }

  ghost predicate LoadOK(s: System) {
    forall mid :: mid in s.net.machines && Online(s.net, mid) ==>
      SessionLoadOK(Current(s.net, mid), |Holders(s.handlers, s.net.machines[mid])|, StaleOf(s, s.net.machines[mid]))
  }

  // ----- Steps that move no slot -----

  ghost predicate SameLoads(n: Net, n': Net) {
    forall mid :: mid in n'.machines && Online(n', mid) ==>
      && mid in n.machines && Online(n, mid) && n'.machines[mid] == n.machines[mid]
      && Current(n', mid).load == Current(n, mid).load && Current(n', mid).max == Current(n, mid).max
  }

  ghost predicate SameHolding(hs: map<RequestId, Handler>, hs': map<RequestId, Handler>) {
    && hs.Keys == hs'.Keys
    && forall r :: r in hs ==> hs'[r].holding == hs[r].holding && hs'[r].id.sid == hs[r].id.sid
  }

  lemma CalmKeeps(s: System, s': System)
    requires LoadOK(s) && SameLoads(s.net, s'.net) && SameHolding(s.handlers, s'.handlers) && s'.stale == s.stale
    ensures LoadOK(s')
  {
    forall mid | mid in s'.net.machines && Online(s'.net, mid)
      ensures SessionLoadOK(Current(s'.net, mid), |Holders(s'.handlers, s'.net.machines[mid])|, StaleOf(s', s'.net.machines[mid]))
    {
      assert Holders(s'.handlers, s'.net.machines[mid]) == Holders(s.handlers, s.net.machines[mid]);
    }
  }

  predicate MovesSlots(l: Label) {
    l.Connect? || l.Begin? || l.Retry? || l.Release?
  }

  lemma RegistryCalm(n: Net, mid: MachineId, timeout: int, now: int)
    requires WellFormed(n)
    ensures SameLoads(n, Unregister(n, mid)) && SameLoads(n, EvictStale(n, timeout, now)) && SameLoads(n, CancelMachine(n, mid))
  {
  }

  lemma BookkeepingCalm(n: Net, mid: MachineId, now: int)
    requires WellFormed(n)
    ensures SameLoads(n, Heartbeat(n, mid, now)) && SameLoads(n, SetBackendOK(n, mid, false, now))
  {
  }

  lemma HandlersCalm(n: Net, mid: MachineId, m: ProviderMsg, sid: SessionId, rid: RequestId)
    requires WellFormed(n)
    ensures SameLoads(n, Relay(n, mid, m)) && SameLoads(n, Unhook(n, sid, rid))
    ensures rid in n.chans && n.chans[rid].buf != [] ==> SameLoads(n, Take(n, rid))
  {
  }

  lemma CalmLoads(s: System, l: Label)
    requires WellFormed(s.net) && Enabled(s, l) && !MovesSlots(l)
    ensures SameLoads(s.net, Next(s, l).net)
  {
    match l {
      case Disconnect(mid) => RegistryCalm(s.net, mid, 0, 0);
      case Monitor(timeout, now) => RegistryCalm(s.net, "", timeout, now);
      case CancelRequests(mid) => RegistryCalm(s.net, mid, 0, 0);
      case Heard(mid, now) => BookkeepingCalm(s.net, mid, now);
      case BackendFailed(mid, now) => BookkeepingCalm(s.net, mid, now);
      case FromProvider(mid, msg) => HandlersCalm(s.net, mid, msg, "", "");
      case Receive(rid) => HandlersCalm(s.net, "", Error(rid, "", ""), "", rid);
      case GiveUpChannel(rid) => HandlersCalm(s.net, "", Error(rid, "", ""), s.handlers[rid].id.sid, rid);
      case _ =>
    }
  }

  lemma CalmHandler(s: System, l: Label, r: RequestId)
    requires Enabled(s, l) && !MovesSlots(l) && r in s.handlers
    ensures var hs := Next(s, l).handlers;
            r in hs && hs[r].holding == s.handlers[r].holding && hs[r].id.sid == s.handlers[r].id.sid
  {
  }

  lemma CalmKeys(s: System, l: Label)
    requires Enabled(s, l) && !MovesSlots(l)
    ensures Next(s, l).handlers.Keys == s.handlers.Keys && Next(s, l).stale == s.stale
  {
  }

  lemma CalmHolding(s: System, l: Label)
    requires Enabled(s, l) && !MovesSlots(l)
    ensures SameHolding(s.handlers, Next(s, l).handlers) && Next(s, l).stale == s.stale
  {
    CalmKeys(s, l);
    forall r | r in s.handlers
      ensures Next(s, l).handlers[r].holding == s.handlers[r].holding && Next(s, l).handlers[r].id.sid == s.handlers[r].id.sid
    {
      CalmHandler(s, l, r);
    }
  }

  lemma CalmStep(s: System, l: Label)
    requires WellFormed(s.net) && LoadOK(s) && Enabled(s, l) && !MovesSlots(l)
    ensures LoadOK(Next(s, l))
  {
    CalmLoads(s, l);
    CalmHolding(s, l);
    CalmKeeps(s, Next(s, l));
  }

  // ----- Connecting -----

  lemma ConnectLoad(s: System, sid: SessionId, mid: MachineId, user: int, max: int, now: int)
    requires Inv(s) && LoadOK(s) && Enabled(s, Connect(sid, mid, user, max, now))
    ensures LoadOK(Next(s, Connect(sid, mid, user, max, now)))
  {
    var s' := Next(s, Connect(sid, mid, user, max, now));
    forall m | m in s'.net.machines && Online(s'.net, m)
      ensures SessionLoadOK(Current(s'.net, m), |Holders(s'.handlers, s'.net.machines[m])|, StaleOf(s', s'.net.machines[m]))
    {
      if m == mid {
        assert Holders(s.handlers, sid) == {} by {
          forall r | r in s.handlers
            ensures s.handlers[r].id.sid != sid
          {
            assert Good(s.net, s.handlers[r], r);
          }
        }
      } else {
        assert Current(s'.net, m) == Current(s.net, m);
      }
    }
  }

  // ----- Starting -----

  lemma AdmitLoads(n: Net, mid: MachineId, rid: RequestId, cap: nat, m: MachineId)
    requires WellFormed(n) && Online(n, mid) && m in n.machines
    ensures var n' := Admit(n, mid, rid, cap);
            && n'.machines == n.machines && Online(n', m)
            && Current(n', m).max == Current(n, m).max
            && Current(n', m).load == Current(n, m).load + if m == mid && CanIncrement(n, mid) then 1 else 0
  {
  }

  lemma HoldersWith(hs: map<RequestId, Handler>, rid: RequestId, h: Handler, sid: SessionId)
    requires rid !in hs
    ensures |Holders(hs[rid := h], sid)| == |Holders(hs, sid)| + if h.holding && h.id.sid == sid then 1 else 0
  {
    if h.holding && h.id.sid == sid {
      assert Holders(hs[rid := h], sid) == Holders(hs, sid) + {rid};
    } else {
      assert Holders(hs[rid := h], sid) == Holders(hs, sid);
    }
  }

  lemma BeginLoad(s: System, rid: RequestId, mid: MachineId, kind: Kind, sendOk: bool, attempt: nat, after: Option<RequestId>)
    requires WellFormed(s.net) && LoadOK(s) && rid !in s.handlers && Online(s.net, mid)
    ensures LoadOK(BeginNext(s, rid, mid, kind, sendOk, attempt, after))
  {
    var s' := BeginNext(s, rid, mid, kind, sendOk, attempt, after);
    forall m | m in s'.net.machines && Online(s'.net, m)
      ensures SessionLoadOK(Current(s'.net, m), |Holders(s'.handlers, s'.net.machines[m])|, StaleOf(s', s'.net.machines[m]))
    {
      AdmitLoads(s.net, mid, rid, CapOf(kind), m);
      HoldersWith(s.handlers, rid, s'.handlers[rid], s.net.machines[m]);
      MachinesDiffer(s.net, m, mid);
    }
  }

  lemma MachinesDiffer(n: Net, m: MachineId, mid: MachineId)
    requires WellFormed(n) && m in n.machines && mid in n.machines
    ensures m != mid ==> n.machines[m] != n.machines[mid]
  {
  }

  /** The handler that is retried is marked as such. */
  function Retried(s: System, r: RequestId): System
    requires r in s.handlers
  {
    s.(handlers := s.handlers[r := s.handlers[r].(retried := true)])
  }

  lemma RetriedLoad(s: System, r: RequestId)
    requires LoadOK(s) && r in s.handlers
    ensures LoadOK(Retried(s, r))
  {
    CalmKeeps(s, Retried(s, r));
  }

  lemma RetryIsBegin(s: System, rid: RequestId, after: RequestId, sendOk: bool)
    requires Enabled(s, Retry(rid, after, sendOk))
    ensures var h := s.handlers[after];
            var begun := BeginNext(s, rid, h.id.mid, Answering, sendOk, h.id.attempt + 1, Some(after));
            && rid !in s.handlers && after in begun.handlers
            && Next(s, Retry(rid, after, sendOk)) == Retried(begun, after)
  {
  }

  lemma BegunRetriedLoad(s: System, rid: RequestId, after: RequestId, mid: MachineId, sendOk: bool, attempt: nat)
    requires WellFormed(s.net) && LoadOK(s) && rid !in s.handlers && after in s.handlers && Online(s.net, mid)
    requires after in BeginNext(s, rid, mid, Answering, sendOk, attempt, Some(after)).handlers
    ensures LoadOK(Retried(BeginNext(s, rid, mid, Answering, sendOk, attempt, Some(after)), after))
  {
    BeginLoad(s, rid, mid, Answering, sendOk, attempt, Some(after));
    RetriedLoad(BeginNext(s, rid, mid, Answering, sendOk, attempt, Some(after)), after);
  }

  lemma RetryLoad(s: System, rid: RequestId, after: RequestId, sendOk: bool)
    requires WellFormed(s.net) && LoadOK(s) && Enabled(s, Retry(rid, after, sendOk))
    ensures LoadOK(Next(s, Retry(rid, after, sendOk)))
  {
    RetryIsBegin(s, rid, after, sendOk);
    BegunRetriedLoad(s, rid, after, s.handlers[after].id.mid, sendOk, s.handlers[after].id.attempt + 1);
  }

  // ----- Releasing -----

  lemma DecrementLoads(n: Net, mid: MachineId, m: MachineId)
    requires WellFormed(n) && m in n.machines
    ensures var n' := DecrementLoad(n, mid);
            && n'.machines == n.machines && Online(n', m)
            && Current(n', m).max == Current(n, m).max
            && Current(n', m).load == Current(n, m).load - if m == mid && Current(n, m).load > 0 then 1 else 0
  {
  }

  lemma HoldersWithout(hs: map<RequestId, Handler>, rid: RequestId, h: Handler, sid: SessionId)
    requires rid in hs && hs[rid].holding && !h.holding && h.id.sid == hs[rid].id.sid
    ensures |Holders(hs[rid := h], sid)| == |Holders(hs, sid)| - if h.id.sid == sid then 1 else 0
  {
    if h.id.sid == sid {
      assert Holders(hs[rid := h], sid) == Holders(hs, sid) - {rid};
    } else {
      assert Holders(hs[rid := h], sid) == Holders(hs, sid);
    }
  }

  lemma ReleaseLoadAt(s: System, rid: RequestId, m: MachineId)
    requires WellFormed(s.net) && rid in s.handlers && s.handlers[rid].holding && m in s.net.machines && Online(s.net, m)
    requires s.handlers[rid].id.sid in s.net.sessions && s.net.sessions[s.handlers[rid].id.sid].mid == s.handlers[rid].id.mid
    requires SessionLoadOK(Current(s.net, m), |Holders(s.handlers, s.net.machines[m])|, StaleOf(s, s.net.machines[m]))
    ensures var s' := ReleaseNext(s, rid);
            && s'.net.machines == s.net.machines && Online(s'.net, m)
            && SessionLoadOK(Current(s'.net, m), |Holders(s'.handlers, s'.net.machines[m])|, StaleOf(s', s'.net.machines[m]))
  {
    var h := s.handlers[rid];
    DecrementLoads(s.net, h.id.mid, m);
    HoldersWithout(s.handlers, rid, h.(holding := false, releases := h.releases + 1), s.net.machines[m]);
    if h.id.mid in s.net.machines {
      MachinesDiffer(s.net, m, h.id.mid);
    }
    OneSessionPerMachine(s.net, m, h);
  }

  lemma ReleaseLoad(s: System, rid: RequestId)
    requires Inv(s) && LoadOK(s) && Enabled(s, Release(rid))
    ensures LoadOK(ReleaseNext(s, rid))
  {
    var s' := ReleaseNext(s, rid);
    IsPlacedHere(s, rid);
    ReleaseMachines(s, rid);
    forall m | m in s'.net.machines && Online(s'.net, m)
      ensures SessionLoadOK(Current(s'.net, m), |Holders(s'.handlers, s'.net.machines[m])|, StaleOf(s', s'.net.machines[m]))
    {
      ReleaseLoadAt(s, rid, m);
    }
  }

  lemma ReleaseMachines(s: System, rid: RequestId)
    requires WellFormed(s.net) && rid in s.handlers
    ensures ReleaseNext(s, rid).net.machines == s.net.machines
  {
  }

  lemma IsPlacedHere(s: System, rid: RequestId)
    requires Inv(s) && rid in s.handlers
    ensures Placed(s.net, s.handlers[rid], rid)
  {
    assert Good(s.net, s.handlers[rid], rid);
  }

  lemma OneSessionPerMachine(n: Net, m: MachineId, h: Handler)
    requires WellFormed(n) && m in n.machines && h.id.sid in n.sessions && n.sessions[h.id.sid].mid == h.id.mid
    ensures n.machines[m] == h.id.sid ==> m == h.id.mid
  {
  }

  // ----- Every run -----

  lemma StepKeepsLoad(s: System, l: Label)
    requires Inv(s) && LoadOK(s)
    ensures LoadOK(Step(s, l))
  {
    if Enabled(s, l) {
      match l {
        case Connect(sid, mid, user, max, now) => ConnectLoad(s, sid, mid, user, max, now);
        case Begin(rid, mid, kind, sendOk) => BeginLoad(s, rid, mid, kind, sendOk, 0, None);
        case Retry(rid, after, sendOk) => RetryLoad(s, rid, after, sendOk);
        case Release(rid) => ReleaseLoad(s, rid);
        case _ => CalmStep(s, l);
      }
    }
  }

  lemma {:induction false} ReachedLoad(ls: seq<Label>)
    ensures LoadOK(Reached(ls))
  {
    if ls != [] {
      ReachedInv(ls[..|ls| - 1]);
      ReachedLoad(ls[..|ls| - 1]);
      StepKeepsLoad(Reached(ls[..|ls| - 1]), ls[|ls| - 1]);
    }
  }

  /** For the session registered now: 0 <= load <= max and load <= holders <= load + stale. So the machine is
      over-admitted by at most the stale releases, and with none the load is exactly the holders. */
  lemma LoadAccounting(ls: seq<Label>, mid: MachineId)
    requires Online(Reached(ls).net, mid)
    ensures var s := Reached(ls);
            var x := Current(s.net, mid);
            var holders := |Holders(s.handlers, s.net.machines[mid])|;
            var stale := StaleOf(s, s.net.machines[mid]);
            && 0 <= x.load <= x.max && x.load <= holders <= x.load + stale
            && holders <= x.max + stale
            && (stale == 0 ==> x.load == holders)
  {
    ReachedLoad(ls);
  }

  // ----- Sessions and stale slots -----

  /** Sessions are never forgotten, and keep their machine. */
  ghost predicate Remembered(n: Net, n': Net, x: SessionId) {
    x in n.sessions ==> x in n'.sessions && n'.sessions[x].mid == n.sessions[x].mid
  }

  lemma RegistryRemembers(n: Net, mid: MachineId, x: SessionId, timeout: int, now: int)
    requires WellFormed(n)
    ensures Remembered(n, Unregister(n, mid), x) && Remembered(n, EvictStale(n, timeout, now), x)
    ensures Remembered(n, CancelMachine(n, mid), x) && Remembered(n, DecrementLoad(n, mid), x)
    ensures Remembered(n, Heartbeat(n, mid, now), x) && Remembered(n, SetBackendOK(n, mid, false, now), x)
  {
  }

  lemma HandlersRemember(n: Net, mid: MachineId, rid: RequestId, cap: nat, m: ProviderMsg, x: SessionId)
    requires WellFormed(n)
    ensures Online(n, mid) ==> Remembered(n, Admit(n, mid, rid, cap), x)
    ensures Remembered(n, Relay(n, mid, m), x)
  {
  }

  lemma NextRemembers(s: System, l: Label, x: SessionId)
    requires WellFormed(s.net) && Enabled(s, l)
    ensures Remembered(s.net, Next(s, l).net, x)
  {
    match l {
      case Disconnect(mid) => RegistryRemembers(s.net, mid, x, 0, 0);
      case Monitor(timeout, now) => RegistryRemembers(s.net, "", x, timeout, now);
      case CancelRequests(mid) => RegistryRemembers(s.net, mid, x, 0, 0);
      case Heard(mid, now) => RegistryRemembers(s.net, mid, x, 0, now);
      case BackendFailed(mid, now) => RegistryRemembers(s.net, mid, x, 0, now);
      case Begin(rid, mid, kind, _) => HandlersRemember(s.net, mid, rid, CapOf(kind), Error(rid, "", ""), x);
      case Retry(rid, after, _) => HandlersRemember(s.net, s.handlers[after].id.mid, rid, CapOf(Answering), Error(rid, "", ""), x);
      case FromProvider(mid, msg) => HandlersRemember(s.net, mid, "", 0, msg, x);
      case Release(rid) => RegistryRemembers(s.net, s.handlers[rid].id.mid, x, 0, 0);
      case _ =>
    }
  }

  lemma SessionsStay(s: System, l: Label, x: SessionId)
    requires Inv(s)
    ensures Remembered(s.net, Step(s, l).net, x)
  {
    if Enabled(s, l) {
      NextRemembers(s, l, x);
    }
  }

  lemma OnlyReleasesAreStale(s: System, l: Label)
    requires Enabled(s, l) && !l.Release?
    ensures Next(s, l).stale == s.stale
  {
  }
}
