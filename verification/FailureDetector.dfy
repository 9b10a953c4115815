/** The heartbeat monitor over whole runs: when a session is evicted, and when it is not
    (internal/coord/registry.go, `UpdateHeartbeat`, `SetBackendOK`, `evictStale`). */
module FailureDetector {
  import opened Wire
  import opened RegistryModel
  import opened RegistryFacts
  import opened RelayProtocol
  import opened RelayInvariant

  /** What the monitor sees of a machine. */
  datatype Watch = Gone | Watched(sid: SessionId, lastHeartbeat: int, backendOK: bool, failedAt: Option<int>)

  function WatchOf(s: Session, sid: SessionId): Watch {
    Watched(sid, s.lastHeartbeat, s.backendOK, s.failedAt)
  }

  function See(n: Net, mid: MachineId): Watch {
    if Online(n, mid) then WatchOf(Current(n, mid), n.machines[mid]) else Gone
  }

  predicate Overdue(w: Watch, timeout: int, now: int)
    requires w.Watched?
  {
    || now - w.lastHeartbeat > timeout
    || (!w.backendOK && w.failedAt.Some? && now - w.failedAt.value > BACKEND_UNHEALTHY_EVICTION)
  }

  /** The detector by itself: no request, release, cancellation or relayed message matters to it. */
  function Seen(w: Watch, l: Label, mid: MachineId): Watch {
    match l
    case Connect(sid, m, _, _, now) => if m == mid then Watched(sid, now, true, None) else w
    case Disconnect(m) => if m == mid then Gone else w
    case Monitor(timeout, now) => if w.Watched? && Overdue(w, timeout, now) then Gone else w
    case Heard(m, now) => if m == mid && w.Watched? then w.(lastHeartbeat := now) else w
    case BackendFailed(m, now) => if m == mid && w.Watched? then w.(backendOK := false, failedAt := Some(now)) else w
    case _ => w
  }

  lemma ConnectSeen(n: Net, sid: SessionId, m: MachineId, user: int, max: int, now: int, mid: MachineId)
    requires WellFormed(n) && sid !in n.sessions
    ensures See(Register(n, sid, m, user, max, now), mid) == if m == mid then Watched(sid, now, true, None) else See(n, mid)
  {
  }

  lemma MonitorSeen(n: Net, timeout: int, now: int, mid: MachineId)
    requires WellFormed(n)
    ensures See(EvictStale(n, timeout, now), mid)
         == if See(n, mid).Watched? && Overdue(See(n, mid), timeout, now) then Gone else See(n, mid)
  {
  }

  lemma RelaySeen(n: Net, m: MachineId, msg: ProviderMsg, mid: MachineId)
    requires WellFormed(n)
    ensures See(Relay(n, m, msg), mid) == See(n, mid)
  {
  }

  lemma AdmitSeen(n: Net, m: MachineId, rid: RequestId, cap: nat, mid: MachineId)
    requires WellFormed(n) && Online(n, m)
    ensures See(Admit(n, m, rid, cap), mid) == See(n, mid)
  {
  }

  /** The registry's view of a machine moves exactly as the detector says. */
  lemma NextSeen(s: System, l: Label, mid: MachineId)
    requires WellFormed(s.net) && Enabled(s, l)
    ensures See(Next(s, l).net, mid) == Seen(See(s.net, mid), l, mid)
  {
    match l {
      case Connect(sid, m, user, max, now) => ConnectSeen(s.net, sid, m, user, max, now, mid);
      case Monitor(timeout, now) => MonitorSeen(s.net, timeout, now, mid);
      case Begin(rid, m, kind, _) => AdmitSeen(s.net, m, rid, CapOf(kind), mid);
      case Retry(rid, after, _) => AdmitSeen(s.net, s.handlers[after].id.mid, rid, CapOf(Answering), mid);
      case FromProvider(m, msg) => RelaySeen(s.net, m, msg, mid);
      case _ =>
    }
  }

  // ----- Soundness -----

  /** The time of the machine's last heartbeat in a run that starts with one at `t`. */
  function LastHeard(s: System, ls: seq<Label>, mid: MachineId, t: int): int {
    if ls == [] then t
    else
      var before, l := ls[..|ls| - 1], ls[|ls| - 1];
      if l.Heard? && l.mid == mid && Enabled(Run(s, before), l) then l.now else LastHeard(s, before, mid, t)
  }

  predicate About(l: Label, mid: MachineId) {
    (l.Connect? || l.Disconnect? || l.BackendFailed?) && l.mid == mid
  }

  /** At every monitor tick the last heartbeat is at most the timeout old. */
  ghost predicate Timely(s: System, ls: seq<Label>, mid: MachineId, t: int) {
    forall i :: 0 <= i < |ls| && ls[i].Monitor? ==> ls[i].now - LastHeard(s, ls[..i], mid, t) <= ls[i].timeout
  }

  lemma TimelyPrefix(s: System, ls: seq<Label>, mid: MachineId, t: int)
    requires Timely(s, ls, mid, t) && ls != []
    ensures Timely(s, ls[..|ls| - 1], mid, t)
    ensures var l := ls[|ls| - 1]; l.Monitor? ==> l.now - LastHeard(s, ls[..|ls| - 1], mid, t) <= l.timeout
  {
    var before := ls[..|ls| - 1];
    forall i | 0 <= i < |before| && before[i].Monitor?
      ensures before[i].now - LastHeard(s, before[..i], mid, t) <= before[i].timeout
    {
      assert before[..i] == ls[..i];
    }
  }

  lemma SoundStep(s: System, l: Label, mid: MachineId, sid: SessionId, heard: int)
    requires WellFormed(s.net) && See(s.net, mid) == Watched(sid, heard, true, None) && !About(l, mid)
    requires l.Monitor? ==> l.now - heard <= l.timeout
    ensures See(Step(s, l).net, mid)
         == Watched(sid, if l.Heard? && l.mid == mid && Enabled(s, l) then l.now else heard, true, None)
  {
    if Enabled(s, l) {
      NextSeen(s, l, mid);
    }
  }

  /** Soundness: a session whose heartbeats are never more than the timeout old at a tick, whose backend never
      fails and which neither disconnects nor reconnects is never evicted, whatever else happens. */
  lemma {:induction false} TimelyIsKept(s: System, ls: seq<Label>, mid: MachineId, sid: SessionId, t: int)
    requires Inv(s) && See(s.net, mid) == Watched(sid, t, true, None)
    requires forall l :: l in ls ==> !About(l, mid)
    requires Timely(s, ls, mid, t)
    ensures See(Run(s, ls).net, mid) == Watched(sid, LastHeard(s, ls, mid, t), true, None)
  {
    if ls != [] {
      var before := ls[..|ls| - 1];
      TimelyPrefix(s, ls, mid, t);
      TimelyIsKept(s, before, mid, sid, t);
      RunKeepsInv(s, before);
      SoundStep(Run(s, before), ls[|ls| - 1], mid, sid, LastHeard(s, before, mid, t));
    }
  }

  // ----- Latency -----

  /** Gone, or not heard of since `t`. */
  predicate SilentSince(w: Watch, t: int) {
    w.Watched? ==> w.lastHeartbeat <= t
  }

  /** Gone, or failed and not reported again since `t`. */
  predicate FailedSince(w: Watch, t: int) {
    w.Watched? ==> !w.backendOK && w.failedAt.Some? && w.failedAt.value <= t
  }

  lemma {:induction false} StaysSilent(s: System, ls: seq<Label>, mid: MachineId, t: int)
    requires Inv(s) && SilentSince(See(s.net, mid), t)
    requires forall l :: l in ls ==> !((l.Connect? || l.Heard?) && l.mid == mid)
    ensures SilentSince(See(Run(s, ls).net, mid), t)
  {
    if ls != [] {
      var before, l := ls[..|ls| - 1], ls[|ls| - 1];
      StaysSilent(s, before, mid, t);
      RunKeepsInv(s, before);
      if Enabled(Run(s, before), l) {
        NextSeen(Run(s, before), l, mid);
      }
    }
  }

  lemma {:induction false} StaysFailed(s: System, ls: seq<Label>, mid: MachineId, t: int)
    requires Inv(s) && FailedSince(See(s.net, mid), t)
    requires forall l :: l in ls ==> !((l.Connect? || l.BackendFailed?) && l.mid == mid)
    ensures FailedSince(See(Run(s, ls).net, mid), t)
  {
    if ls != [] {
      var before, l := ls[..|ls| - 1], ls[|ls| - 1];
      StaysFailed(s, before, mid, t);
      RunKeepsInv(s, before);
      if Enabled(Run(s, before), l) {
        NextSeen(Run(s, before), l, mid);
      }
    }
  }

  /** Latency: a machine silent since `t` is absent after any tick later than `t + timeout`. */
  lemma SilentIsEvicted(s: System, ls: seq<Label>, mid: MachineId, t: int, timeout: int, now: int)
    requires Inv(s) && SilentSince(See(s.net, mid), t)
    requires forall l :: l in ls ==> !((l.Connect? || l.Heard?) && l.mid == mid)
    requires now > t + timeout && now >= Run(s, ls).clock
    ensures mid !in Step(Run(s, ls), Monitor(timeout, now)).net.machines
  {
    StaysSilent(s, ls, mid, t);
    RunKeepsInv(s, ls);
    StepKeepsInv(Run(s, ls), Monitor(timeout, now));
    NextSeen(Run(s, ls), Monitor(timeout, now), mid);
  }

  /** A machine whose backend failed and has not been reported again since `t` is absent after any tick more
      than five minutes later, however alive its heartbeats. */
  lemma FailedIsEvicted(s: System, ls: seq<Label>, mid: MachineId, t: int, timeout: int, now: int)
    requires Inv(s) && FailedSince(See(s.net, mid), t)
    requires forall l :: l in ls ==> !((l.Connect? || l.BackendFailed?) && l.mid == mid)
    requires now > t + 300_000_000_000 && now >= Run(s, ls).clock
    ensures mid !in Step(Run(s, ls), Monitor(timeout, now)).net.machines
  {
    StaysFailed(s, ls, mid, t);
    RunKeepsInv(s, ls);
    StepKeepsInv(Run(s, ls), Monitor(timeout, now));
    NextSeen(Run(s, ls), Monitor(timeout, now), mid);
  }

  // ----- Backend failure is sticky -----

  predicate Unhealthy(w: Watch) {
    w.Watched? ==> !w.backendOK
  }

  /** Once its backend failed, a machine stays unhealthy until a new registration, and admits no request. */
  lemma {:induction false} FailureIsSticky(s: System, ls: seq<Label>, mid: MachineId)
    requires Inv(s) && Unhealthy(See(s.net, mid))
    requires forall l :: l in ls ==> !(l.Connect? && l.mid == mid)
    ensures Unhealthy(See(Run(s, ls).net, mid))
    ensures forall rid, kind, sendOk :: !Enabled(Run(s, ls), Begin(rid, mid, kind, sendOk))
  {
    if ls != [] {
      var before, l := ls[..|ls| - 1], ls[|ls| - 1];
      FailureIsSticky(s, before, mid);
      RunKeepsInv(s, before);
      if Enabled(Run(s, before), l) {
        NextSeen(Run(s, before), l, mid);
      }
    }
  }

  /** A machine that left the registry stays out until its provider registers again: eviction leaves the old
      connection open, but its heartbeats and messages bring nothing back. */
  lemma {:induction false} GoneUntilReconnect(s: System, ls: seq<Label>, mid: MachineId)
    requires Inv(s) && See(s.net, mid) == Gone
    requires forall l :: l in ls ==> !(l.Connect? && l.mid == mid)
    ensures See(Run(s, ls).net, mid) == Gone
  {
    if ls != [] {
      var before, l := ls[..|ls| - 1], ls[|ls| - 1];
      GoneUntilReconnect(s, before, mid);
      RunKeepsInv(s, before);
      if Enabled(Run(s, before), l) {
        NextSeen(Run(s, before), l, mid);
      }
    }
  }

  /** A tick evicts exactly the machines whose last heartbeat is older than the timeout or whose backend failed more
      than five minutes ago: nothing else leaves the registry, and nobody new enters. */
  lemma TickIsExact(s: System, timeout: int, now: int, mid: MachineId)
    requires Inv(s) && now >= s.clock
    ensures mid in Step(s, Monitor(timeout, now)).net.machines
       <==> Online(s.net, mid) &&
            var c := Current(s.net, mid);
            && now - c.lastHeartbeat <= timeout
            && (c.backendOK || c.failedAt == None || now - c.failedAt.value <= 300_000_000_000)
  {
    NextSeen(s, Monitor(timeout, now), mid);
    StepKeepsInv(s, Monitor(timeout, now));
  }
}
