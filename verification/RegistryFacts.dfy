/** What every registry method keeps (internal/coord/registry.go). The point of the invariant is that no
    channel is ever closed twice, and that nothing is sent on a closed one. */
module RegistryFacts {
  import opened Wire
  import opened RegistryModel

  /** Registered sessions exist and carry their machine's id. */
  ghost predicate Registered(n: Net) {
    forall m :: m in n.machines ==>
      && n.machines[m] in n.sessions
      && n.sessions[n.machines[m]].mid == m
      && !n.sessions[n.machines[m]].nilMap
  }

  /** A hooked channel exists, and is hooked on its home session only. */
  ghost predicate HookedAtHome(n: Net) {
    forall s, r :: s in n.sessions && r in n.sessions[s].chans ==> r in n.chans && n.chans[r].home == s
  }

  /** The channels of a registered session are open. */
  ghost predicate OpenWhileRegistered(n: Net) {
    forall m, r :: m in n.machines && n.machines[m] in n.sessions && r in n.sessions[n.machines[m]].chans && r in n.chans ==>
      n.chans[r].closes == 0
  }

  /** No channel has been closed twice or sent to after its close, and no buffer is over its capacity. */
  ghost predicate ChannelsSafe(n: Net) {
    forall r :: r in n.chans ==> n.chans[r].closes <= 1 && n.chans[r].late == 0 && |n.chans[r].buf| <= n.chans[r].cap
  }

  ghost predicate WellFormed(n: Net) {
    Registered(n) && HookedAtHome(n) && OpenWhileRegistered(n) && ChannelsSafe(n)
  }

  lemma RegisterWellFormed(n: Net, sid: SessionId, mid: MachineId, user: int, max: int, now: int)
    requires WellFormed(n) && sid !in n.sessions
    ensures WellFormed(Register(n, sid, mid, user, max, now))
  {
  }

  lemma UnregisterWellFormed(n: Net, mid: MachineId)
    requires WellFormed(n)
    ensures WellFormed(Unregister(n, mid))
  {
  }

  // Updates that touch no channel.
  lemma WithCurrentWellFormed(n: Net, mid: MachineId, s: Session)
    requires WellFormed(n) && Online(n, mid)
    requires var was := Current(n, mid); s.mid == was.mid && s.nilMap == was.nilMap && s.chans <= was.chans
    ensures WellFormed(WithCurrent(n, mid, s))
  {
  }

  lemma HookWellFormed(n: Net, mid: MachineId, rid: RequestId, cap: nat)
    requires WellFormed(n) && Online(n, mid) && rid !in n.chans
    ensures WellFormed(Hook(n, n.machines[mid], rid, cap))
  {
  }

  lemma UnhookWellFormed(n: Net, sid: SessionId, rid: RequestId)
    requires WellFormed(n)
    ensures WellFormed(Unhook(n, sid, rid))
  {
  }

  lemma CancelWellFormed(n: Net, mid: MachineId)
    requires WellFormed(n)
    ensures WellFormed(CancelMachine(n, mid))
  {
  }

  lemma EvictWellFormed(n: Net, timeout: int, now: int)
    requires WellFormed(n)
    ensures WellFormed(EvictStale(n, timeout, now))
  {
  }

  lemma OpenWhenWellFormed(n: Net, mid: MachineId)
    requires WellFormed(n)
    ensures Online(n, mid) ==> forall r :: r in Current(n, mid).chans ==> r in n.chans && n.chans[r].closes == 0
  {
  }

  // ----- Eviction, one machine at a time -----

  lemma EvictNobody(n: Net)
    ensures EvictSet(n, {}) == n
  {
    assert n.machines - {} == n.machines;
    assert CloseAll(n.chans, ChansOf(n, {})) == n.chans;
  }

  /** Which machines have gone after those outside `todo` were looked at. */
  ghost predicate EvictProgress(n: Net, timeout: int, now: int, todo: set<MachineId>, out: set<MachineId>) {
    && todo <= n.machines.Keys
    && out == Evicted(n, timeout, now) - todo
  }

  lemma EvictDone(n: Net, timeout: int, now: int, out: set<MachineId>)
    requires EvictProgress(n, timeout, now, {}, out)
    ensures out == Evicted(n, timeout, now)
  {
  }

  // Closing the channels of one more machine.
  lemma EvictMore(n: Net, out: set<MachineId>, mid: MachineId)
    requires WellFormed(n) && mid in n.machines && mid !in out && out <= n.machines.Keys && Online(n, mid)
    ensures forall r :: r in Current(n, mid).chans ==> r in n.chans && EvictSet(n, out).chans[r].closes == 0
    ensures EvictSet(n, out + {mid}).chans == CloseAll(EvictSet(n, out).chans, Current(n, mid).chans)
  {
    var mine := Current(n, mid).chans;
    assert ChansOf(n, out + {mid}) == ChansOf(n, out) + mine;
    assert forall r :: r in mine ==> n.chans[r].home == n.machines[mid];
    forall m, r | m in out && Online(n, m) && r in Current(n, m).chans
      ensures r !in mine
    {
      assert Current(n, m).mid != Current(n, mid).mid;
      assert n.chans[r].home == n.machines[m];
    }
    assert ChansOf(n, out) !! mine;
  }

  lemma EvictStep(n: Net, timeout: int, now: int, todo: set<MachineId>, out: set<MachineId>, mid: MachineId)
    requires WellFormed(n) && EvictProgress(n, timeout, now, todo, out) && mid in todo
    ensures Online(n, mid) && mid in EvictSet(n, out).machines && EvictSet(n, out).machines[mid] == n.machines[mid]
    ensures forall r :: r in Current(n, mid).chans ==> r in n.chans && EvictSet(n, out).chans[r].closes == 0
    ensures EvictSet(n, out + {mid}).chans == CloseAll(EvictSet(n, out).chans, Current(n, mid).chans)
    ensures EvictSet(n, out + {mid}).machines == EvictSet(n, out).machines - {mid}
    ensures EvictProgress(n, timeout, now, todo - {mid},
                          if Stale(Current(n, mid), timeout, now) then out + {mid} else out)
  {
    EvictMore(n, out, mid);
  }

  lemma RelayWellFormed(n: Net, mid: MachineId, m: ProviderMsg)
    requires WellFormed(n)
    ensures WellFormed(Relay(n, mid, m))
  {
  }

  lemma TakeWellFormed(n: Net, rid: RequestId)
    requires WellFormed(n) && rid in n.chans && n.chans[rid].buf != []
    ensures WellFormed(Take(n, rid))
  {
  }

  lemma FrameWellFormed(n: Net, mid: MachineId, f: Frame)
    requires WellFormed(n)
    ensures WellFormed(OnFrame(n, mid, f))
  {
    if f.About? {
      RelayWellFormed(n, mid, f.msg);
    }
  }
}
