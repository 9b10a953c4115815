/** The capacity a provider registers is the number of requests its machine serves at once
    (internal/coord/ws.go:95-98, internal/coord/registry.go:140-165). */
module RelayCapacity {
  import opened Wire
  import opened RegistryModel
  import opened RegistryFacts
  import opened RelayProtocol
  import opened RelayInvariant
  import opened RelayLoad
  import opened RelayAdmission

  /** A connection registers a healthy, empty session for its user, with the capacity the provider asked for, or
      one if it asked for none; other machines keep theirs. */
  lemma ConnectOpens(ls: seq<Label>, sid: SessionId, mid: MachineId, user: int, max: int, now: int, other: MachineId)
    requires Enabled(Reached(ls), Connect(sid, mid, user, max, now))
    ensures var n := Step(Reached(ls), Connect(sid, mid, user, max, now)).net;
            && Online(n, mid) && n.machines[mid] == sid
            && var s := Current(n, mid);
               && s.mid == mid && s.user == user && s.load == 0 && s.requests == 0 && s.tokens == 0
               && s.backendOK && s.lastHeartbeat == now && s.chans == {}
               && (max > 0 ==> s.max == max) && (max <= 0 ==> s.max == 1)
    ensures var n, n' := Reached(ls).net, Step(Reached(ls), Connect(sid, mid, user, max, now)).net;
            && (other != mid && Online(n, other) ==> Online(n', other) && Current(n', other) == Current(n, other))
            && (other != mid && !Online(n, other) ==> !Online(n', other))
  {
    ReachedInv(ls);
  }

  /** On the session this connection opened, with this capacity and with exact books. */
  ghost predicate OnSession(s: System, mid: MachineId, sid: SessionId, max: int) {
    Online(s.net, mid) ==>
      s.net.machines[mid] == sid && Current(s.net, mid).max == (if max > 0 then max else 1) && Settled(s, mid)
  }

  lemma StaysOnSession(s: System, l: Label, mid: MachineId, sid: SessionId, max: int)
    requires Inv(s) && OnSession(s, mid, sid, max) && !Connects(l, mid)
    ensures OnSession(Step(s, l), mid, sid, max)
  {
    if Online(Step(s, l).net, mid) {
      StepBooks(s, l, mid);
      SettledStep(s, l, mid);
    }
  }

  lemma {:induction false} SinceIdleConnect(before: seq<Label>, l: Label, after: seq<Label>)
    requires l.Connect? && Enabled(Reached(before), l) && InFlight(Reached(before).handlers, l.mid) == {}
    requires forall x :: x in after ==> !Connects(x, l.mid)
    ensures OnSession(Reached(before + [l] + after), l.mid, l.sid, l.max)
    decreases |after|
  {
    if after == [] {
      assert before + [l] + after == before + [l];
      RunSnoc(INIT, before, l);
      ReachedInv(before);
      ReachedStaleKnown(before);
      SettledAfterConnect(Reached(before), l, l.mid);
      ConnectOpens(before, l.sid, l.mid, l.user, l.max, l.now, l.mid);
    } else {
      var front, last := after[..|after| - 1], after[|after| - 1];
      var ls := before + [l] + front;
      assert before + [l] + after == ls + [last];
      RunSnoc(INIT, ls, last);
      ReachedInv(ls);
      SinceIdleConnect(before, l, front);
      StaysOnSession(Reached(ls), last, l.mid, l.sid, l.max);
    }
  }

  /** On a machine that connected while none of its requests held a slot, however requests have come and gone
      since, a request takes a slot if and only if fewer than the registered capacity hold one; so never more than
      that hold one. */
  lemma AdmitsExactly(before: seq<Label>, l: Label, after: seq<Label>, rid: RequestId, kind: Kind, sendOk: bool)
    requires l.Connect? && Enabled(Reached(before), l) && InFlight(Reached(before).handlers, l.mid) == {}
    requires forall x :: x in after ==> !Connects(x, l.mid)
    requires Enabled(Reached(before + [l] + after), Begin(rid, l.mid, kind, sendOk))
    ensures var s := Reached(before + [l] + after);
            var s' := Step(s, Begin(rid, l.mid, kind, sendOk));
            var inFlight := InFlight(s.handlers, l.mid);
            && (s'.handlers[rid].id.took <==> |inFlight| < if l.max > 0 then l.max else 1)
            && InFlight(s'.handlers, l.mid) == inFlight + (if s'.handlers[rid].id.took then {rid} else {})
            && |inFlight| <= if l.max > 0 then l.max else 1
  {
    var ls := before + [l] + after;
    SinceIdleConnect(before, l, after);
    ReachedInv(ls);
    LoadAccounting(ls, l.mid);
    NoneOlder(Reached(ls), l.mid);
    BeginInFlight(Reached(ls), l.mid, rid, kind, sendOk);
  }

  lemma BeginInFlight(s: System, mid: MachineId, rid: RequestId, kind: Kind, sendOk: bool)
    requires Enabled(s, Begin(rid, mid, kind, sendOk))
    ensures var s' := Step(s, Begin(rid, mid, kind, sendOk));
            && rid in s'.handlers && (s'.handlers[rid].id.took <==> Current(s.net, mid).load < Current(s.net, mid).max)
            && InFlight(s'.handlers, mid) == InFlight(s.handlers, mid) + if s'.handlers[rid].id.took then {rid} else {}
  {
  }

  function Fewer(a: int, b: int): int {
    if a <= b then a else b
  }

  predicate OnlyNew(origin: set<RequestId>, known: set<RequestId>, ids: seq<RequestId>) {
    forall x :: x in known ==> x in origin || x in ids
  }

  /** The machine is up, only these requests are new, and as many of them as it has slots hold one. */
  ghost predicate FilledWith(origin: System, s: System, mid: MachineId, ids: seq<RequestId>, cap: int) {
    && Online(s.net, mid) && Current(s.net, mid).backendOK
    && OnlyNew(origin.handlers.Keys, s.handlers.Keys, ids)
    && |InFlight(s.handlers, mid)| == Fewer(|ids|, cap)
  }

  lemma BeginStays(s: System, mid: MachineId, rid: RequestId)
    requires WellFormed(s.net) && Online(s.net, mid) && Current(s.net, mid).backendOK && rid !in s.handlers
    ensures var s' := Step(s, Begin(rid, mid, Streaming, true));
            && Online(s'.net, mid) && Current(s'.net, mid).backendOK
            && s'.handlers.Keys == s.handlers.Keys + {rid}
  {
    AdmitHealth(s.net, mid, rid, CapOf(Streaming));
  }

  lemma OneMoreFilled(origin: System, s: System, s': System, mid: MachineId, ids: seq<RequestId>, cap: int, rid: RequestId)
    requires ids != [] && FilledWith(origin, s, mid, ids[..|ids| - 1], cap) && rid == ids[|ids| - 1] && rid !in s.handlers && cap > 0
    requires Online(s'.net, mid) && Current(s'.net, mid).backendOK && s'.handlers.Keys == s.handlers.Keys + {rid}
    requires InFlight(s'.handlers, mid) == InFlight(s.handlers, mid) + if |InFlight(s.handlers, mid)| < cap then {rid} else {}
    ensures FilledWith(origin, s', mid, ids, cap)
  {
    OneMoreSlot(InFlight(s.handlers, mid), InFlight(s'.handlers, mid), rid, |ids|, cap);
    OneMoreKnown(origin.handlers.Keys, s.handlers.Keys, ids);
  }

  lemma OneMoreSlot(held: set<RequestId>, held': set<RequestId>, rid: RequestId, n: nat, cap: int)
    requires n > 0 && cap > 0 && |held| == Fewer(n - 1, cap) && rid !in held && held' == held + if |held| < cap then {rid} else {}
    ensures |held'| == Fewer(n, cap)
  {
  }

  lemma OneMoreKnown(origin: set<RequestId>, known: set<RequestId>, ids: seq<RequestId>)
    requires ids != [] && OnlyNew(origin, known, ids[..|ids| - 1])
    ensures OnlyNew(origin, known + {ids[|ids| - 1]}, ids)
  {
  }

  lemma NotYetBegun(origin: System, s: System, mid: MachineId, ids: seq<RequestId>, cap: int)
    requires ids != [] && FilledWith(origin, s, mid, ids[..|ids| - 1], cap) && FreshIds(origin, ids)
    ensures ids[|ids| - 1] !in s.handlers
  {
  }

  lemma BeginsLast(before: seq<Label>, l: Label, mid: MachineId, ids: seq<RequestId>)
    requires ids != []
    ensures Reached(before + [l] + Begins(mid, ids))
         == Step(Reached(before + [l] + Begins(mid, ids[..|ids| - 1])), Begin(ids[|ids| - 1], mid, Streaming, true))
  {
    var ls := before + [l] + Begins(mid, ids[..|ids| - 1]);
    assert before + [l] + Begins(mid, ids) == ls + [Begin(ids[|ids| - 1], mid, Streaming, true)];
    RunSnoc(INIT, ls, Begin(ids[|ids| - 1], mid, Streaming, true));
  }

  lemma {:induction false} FillsUp(before: seq<Label>, l: Label, ids: seq<RequestId>)
    requires l.Connect? && Enabled(Reached(before), l) && InFlight(Reached(before).handlers, l.mid) == {}
    requires FreshIds(Reached(before), ids)
    ensures FilledWith(Reached(before), Reached(before + [l] + Begins(l.mid, ids)), l.mid, ids, if l.max > 0 then l.max else 1)
    decreases |ids|
  {
    if ids == [] {
      assert before + [l] + Begins(l.mid, ids) == before + [l];
      RunSnoc(INIT, before, l);
      ConnectOpens(before, l.sid, l.mid, l.user, l.max, l.now, l.mid);
    } else {
      var front, rid := ids[..|ids| - 1], ids[|ids| - 1];
      var ls := before + [l] + Begins(l.mid, front);
      var cap := if l.max > 0 then l.max else 1;
      FillsUp(before, l, front);
      NotYetBegun(Reached(before), Reached(ls), l.mid, ids, cap);
      ReachedInv(ls);
      AdmitsExactly(before, l, Begins(l.mid, front), rid, Streaming, true);
      BeginStays(Reached(ls), l.mid, rid);
      BeginsLast(before, l, l.mid, ids);
      OneMoreFilled(Reached(before), Reached(ls), Reached(before + [l] + Begins(l.mid, ids)), l.mid, ids, cap, rid);
    }
  }

  /** In particular, of requests that begin one after another on a machine that just connected idle, exactly the
      first `max` take a slot. */
  lemma FirstOnesTakeSlots(before: seq<Label>, l: Label, ids: seq<RequestId>, k: nat)
    requires l.Connect? && Enabled(Reached(before), l) && InFlight(Reached(before).handlers, l.mid) == {}
    requires FreshIds(Reached(before), ids) && k < |ids|
    ensures var s := Reached(before + [l] + Begins(l.mid, ids[..k + 1]));
            && ids[k] in s.handlers
            && (s.handlers[ids[k]].id.took <==> k < if l.max > 0 then l.max else 1)
  {
    FreshPrefix(Reached(before), ids, k);
    LastTakesSlot(before, l, ids[..k + 1]);
  }

  lemma FreshPrefix(s: System, ids: seq<RequestId>, k: nat)
    requires FreshIds(s, ids) && k < |ids|
    ensures FreshIds(s, ids[..k + 1])
  {
  }

  lemma LastTakesSlot(before: seq<Label>, l: Label, ids: seq<RequestId>)
    requires l.Connect? && Enabled(Reached(before), l) && InFlight(Reached(before).handlers, l.mid) == {}
    requires FreshIds(Reached(before), ids) && ids != []
    ensures var s := Reached(before + [l] + Begins(l.mid, ids));
            var rid := ids[|ids| - 1];
            rid in s.handlers && (s.handlers[rid].id.took <==> |ids| - 1 < if l.max > 0 then l.max else 1)
  {
    var front, rid := ids[..|ids| - 1], ids[|ids| - 1];
    FillsUp(before, l, front);
    NotYetBegun(Reached(before), Reached(before + [l] + Begins(l.mid, front)), l.mid, ids, if l.max > 0 then l.max else 1);
    AdmitsExactly(before, l, Begins(l.mid, front), rid, Streaming, true);
    BeginInFlight(Reached(before + [l] + Begins(l.mid, front)), l.mid, rid, Streaming, true);
    BeginsLast(before, l, l.mid, ids);
  }
}
