/** Exactly when a machine is over-admitted. Slots are released by machine id (internal/coord/registry.go:157),
    so what matters is whether a request of the machine still holds a slot at the moment its provider connects
    again. */
module RelayAdmission {
  import opened Wire
  import opened RegistryModel
  import opened RegistryFacts
  import opened Sse
  import opened RelayProtocol
  import opened RelayInvariant
  import opened RelayLoad

  /** The requests of a machine that hold a slot, on whatever session they took it. */
  function InFlight(hs: map<RequestId, Handler>, mid: MachineId): set<RequestId> {
    set r | r in hs && hs[r].holding && hs[r].id.mid == mid
  }

  /** Those that took it on a session other than the one registered now. */
  function Older(s: System, mid: MachineId): set<RequestId>
    requires Online(s.net, mid)
  {
    set r | r in s.handlers && s.handlers[r].holding && s.handlers[r].id.mid == mid && s.handlers[r].id.sid != s.net.machines[mid]
  }

  function HoldersNow(s: System, mid: MachineId): nat
    requires Online(s.net, mid)
  {
    |Holders(s.handlers, s.net.machines[mid])|
  }

  /** The books of a registered machine: its load, who holds a slot on its session and who on earlier ones, and
      how many slots the session lost to the latter. */
  datatype Books = Books(load: int, holders: nat, older: nat, stale: nat)

  function BooksOf(s: System, mid: MachineId): Books
    requires Online(s.net, mid)
  {
    Books(Current(s.net, mid).load, HoldersNow(s, mid), |Older(s, mid)|, StaleOf(s, s.net.machines[mid]))
  }

  /** While the machine is registered, its load is the number of requests that hold a slot, all on its present
      session. */
  predicate Settled(s: System, mid: MachineId) {
    Online(s.net, mid) ==> Older(s, mid) == {} && Current(s.net, mid).load == HoldersNow(s, mid)
  }

  /** More requests hold a slot of the present session than it has. */
  predicate Overbooked(s: System, mid: MachineId) {
    Online(s.net, mid) && HoldersNow(s, mid) > Current(s.net, mid).max
  }

  predicate Connects(l: Label, mid: MachineId) {
    l.Connect? && l.mid == mid
  }

  // ----- What a step does to the books -----

  /** A slot is taken. */
  predicate Took(b: Books, b': Books) {
    b' == b.(load := b.load + 1, holders := b.holders + 1)
  }

  /** A request of the present session gives its slot back. */
  predicate GaveBack(b: Books, b': Books) {
    b.holders > 0 && b' == b.(load := if b.load > 0 then b.load - 1 else b.load, holders := b.holders - 1)
  }

  /** A request of an earlier session gives a slot back, which the present one loses if it has any taken. */
  predicate Robbed(b: Books, b': Books) {
    && b.older > 0
    && b' == (if b.load > 0 then b.(load := b.load - 1, older := b.older - 1, stale := b.stale + 1)
              else b.(older := b.older - 1))
  }

  predicate Entry(b: Books, b': Books) {
    b' == b || Took(b, b') || GaveBack(b, b') || Robbed(b, b')
  }

  /** The machine is still on the same session, and its books have one entry more. */
  ghost predicate Kept(s: System, s': System, mid: MachineId)
    requires Online(s'.net, mid)
  {
    && Online(s.net, mid) && s'.net.machines[mid] == s.net.machines[mid]
    && Current(s'.net, mid).max == Current(s.net, mid).max
    && Entry(BooksOf(s, mid), BooksOf(s', mid))
  }

  lemma CalmIds(s: System, l: Label)
    requires Enabled(s, l) && !MovesSlots(l)
    ensures forall r :: r in s.handlers && r in Next(s, l).handlers ==> Next(s, l).handlers[r].id == s.handlers[r].id
  {
  }

  // The requests that count are the same.
  ghost predicate SameRequests(hs: map<RequestId, Handler>, hs': map<RequestId, Handler>) {
    SameHolding(hs, hs') && forall r :: r in hs && r in hs' ==> hs'[r].id == hs[r].id
  }

  lemma SameBooks(s: System, s': System, mid: MachineId)
    requires Online(s.net, mid) && Online(s'.net, mid) && s'.net.machines[mid] == s.net.machines[mid]
    requires SameRequests(s.handlers, s'.handlers)
    ensures HoldersNow(s', mid) == HoldersNow(s, mid) && Older(s', mid) == Older(s, mid)
  {
    assert Holders(s'.handlers, s.net.machines[mid]) == Holders(s.handlers, s.net.machines[mid]);
  }

  lemma CalmBooks(s: System, l: Label, mid: MachineId)
    requires WellFormed(s.net) && Enabled(s, l) && !MovesSlots(l) && Online(Next(s, l).net, mid)
    ensures Kept(s, Next(s, l), mid)
  {
    CalmLoads(s, l);
    CalmHolding(s, l);
    CalmIds(s, l);
    assert mid in Next(s, l).net.machines;
    SameBooks(s, Next(s, l), mid);
  }

  lemma ConnectBooks(s: System, l: Label, mid: MachineId)
    requires WellFormed(s.net) && Enabled(s, l) && l.Connect? && l.mid != mid && Online(Next(s, l).net, mid)
    ensures Kept(s, Next(s, l), mid)
  {
    SameBooks(s, Next(s, l), mid);
  }

  lemma OlderWith(s: System, s': System, rid: RequestId, h: Handler, mid: MachineId)
    requires Online(s.net, mid) && Online(s'.net, mid) && s'.net.machines[mid] == s.net.machines[mid]
    requires rid !in s.handlers && s'.handlers == s.handlers[rid := h]
    requires h.id.mid == mid ==> h.id.sid == s.net.machines[mid]
    ensures Older(s', mid) == Older(s, mid)
  {
  }

  lemma BeginBooks(s: System, rid: RequestId, m: MachineId, kind: Kind, sendOk: bool, attempt: nat, after: Option<RequestId>, mid: MachineId)
    requires WellFormed(s.net) && rid !in s.handlers && Online(s.net, m)
    requires Online(BeginNext(s, rid, m, kind, sendOk, attempt, after).net, mid)
    ensures Kept(s, BeginNext(s, rid, m, kind, sendOk, attempt, after), mid)
  {
    var s' := BeginNext(s, rid, m, kind, sendOk, attempt, after);
    BeginMachines(s.net, m, rid, CapOf(kind));
    AdmitLoads(s.net, m, rid, CapOf(kind), mid);
    HoldersWith(s.handlers, rid, s'.handlers[rid], s.net.machines[mid]);
    MachinesDiffer(s.net, mid, m);
    OlderWith(s, s', rid, s'.handlers[rid], mid);
  }

  lemma BeginMachines(n: Net, m: MachineId, rid: RequestId, cap: nat)
    requires WellFormed(n) && Online(n, m)
    ensures Admit(n, m, rid, cap).machines == n.machines
    ensures forall x :: Online(Admit(n, m, rid, cap), x) ==> Online(n, x)
  {
  }

  lemma RetriedBooks(s: System, r: RequestId, mid: MachineId)
    requires r in s.handlers && Online(s.net, mid)
    ensures BooksOf(Retried(s, r), mid) == BooksOf(s, mid)
  {
    SameBooks(s, Retried(s, r), mid);
  }

  lemma BegunRetriedBooks(s: System, rid: RequestId, after: RequestId, m: MachineId, sendOk: bool, attempt: nat, mid: MachineId)
    requires WellFormed(s.net) && rid !in s.handlers && Online(s.net, m)
    requires after in BeginNext(s, rid, m, Answering, sendOk, attempt, Some(after)).handlers
    requires Online(BeginNext(s, rid, m, Answering, sendOk, attempt, Some(after)).net, mid)
    ensures Kept(s, Retried(BeginNext(s, rid, m, Answering, sendOk, attempt, Some(after)), after), mid)
  {
    BeginBooks(s, rid, m, Answering, sendOk, attempt, Some(after), mid);
    RetriedBooks(BeginNext(s, rid, m, Answering, sendOk, attempt, Some(after)), after, mid);
  }

  lemma RetryBooks(s: System, rid: RequestId, after: RequestId, sendOk: bool, mid: MachineId)
    requires WellFormed(s.net) && Enabled(s, Retry(rid, after, sendOk)) && Online(Next(s, Retry(rid, after, sendOk)).net, mid)
    ensures Kept(s, Next(s, Retry(rid, after, sendOk)), mid)
  {
    RetryIsBegin(s, rid, after, sendOk);
    BegunRetriedBooks(s, rid, after, s.handlers[after].id.mid, sendOk, s.handlers[after].id.attempt + 1, mid);
  }

  // ----- Releases -----

  lemma OlderWithout(s: System, s': System, rid: RequestId, h: Handler, mid: MachineId)
    requires Online(s.net, mid) && Online(s'.net, mid) && s'.net.machines[mid] == s.net.machines[mid]
    requires rid in s.handlers && s.handlers[rid].holding && !h.holding && s'.handlers == s.handlers[rid := h]
    ensures |Older(s', mid)| == |Older(s, mid)| - if rid in Older(s, mid) then 1 else 0
  {
    assert Older(s', mid) == Older(s, mid) - {rid};
  }

  lemma ReleaseStaleOf(s: System, rid: RequestId, mid: MachineId)
    requires WellFormed(s.net) && rid in s.handlers && Placed(s.net, s.handlers[rid], rid) && s.handlers[rid].holding
    requires Online(s.net, mid)
    ensures StaleOf(ReleaseNext(s, rid), s.net.machines[mid])
         == StaleOf(s, s.net.machines[mid]) + if rid in Older(s, mid) && Current(s.net, mid).load > 0 then 1 else 0
  {
    if s.handlers[rid].id.mid in s.net.machines {
      MachinesDiffer(s.net, mid, s.handlers[rid].id.mid);
    }
  }

  lemma ReleaseBooks(s: System, rid: RequestId, mid: MachineId)
    requires WellFormed(s.net) && rid in s.handlers && Placed(s.net, s.handlers[rid], rid) && s.handlers[rid].holding
    requires Online(ReleaseNext(s, rid).net, mid)
    ensures Kept(s, ReleaseNext(s, rid), mid)
  {
    var h := s.handlers[rid];
    ReleaseMachines(s, rid);
    assert Online(s.net, mid);
    ReleaseStaleOf(s, rid, mid);
    DecrementLoads(s.net, h.id.mid, mid);
    OneSessionPerMachine(s.net, mid, h);
    HoldersReleased(s, rid, mid);
    OlderWithout(s, ReleaseNext(s, rid), rid, h.(holding := false, releases := h.releases + 1), mid);
  }

  lemma HoldersReleased(s: System, rid: RequestId, mid: MachineId)
    requires WellFormed(s.net) && rid in s.handlers && s.handlers[rid].holding && Online(s.net, mid)
    requires Online(ReleaseNext(s, rid).net, mid) && ReleaseNext(s, rid).net.machines == s.net.machines
    ensures HoldersNow(ReleaseNext(s, rid), mid) == HoldersNow(s, mid) - if s.handlers[rid].id.sid == s.net.machines[mid] then 1 else 0
  {
    var h := s.handlers[rid];
    HoldersWithout(s.handlers, rid, h.(holding := false, releases := h.releases + 1), s.net.machines[mid]);
  }

  // ----- Every step but a connection of the machine -----

  lemma NextBooks(s: System, l: Label, mid: MachineId)
    requires WellFormed(s.net) && Enabled(s, l) && !Connects(l, mid) && Online(Next(s, l).net, mid)
    requires l.Release? ==> Placed(s.net, s.handlers[l.rid], l.rid)
    ensures Kept(s, Next(s, l), mid)
  {
    if !MovesSlots(l) {
      CalmBooks(s, l, mid);
    } else {
      match l {
        case Connect(_, _, _, _, _) => ConnectBooks(s, l, mid);
        case Begin(rid, m, kind, sendOk) => BeginBooks(s, rid, m, kind, sendOk, 0, None, mid);
        case Retry(rid, after, sendOk) => RetryBooks(s, rid, after, sendOk, mid);
        case Release(rid) => ReleaseBooks(s, rid, mid);
      }
    }
  }

  lemma StepBooks(s: System, l: Label, mid: MachineId)
    requires Inv(s) && !Connects(l, mid) && Online(Step(s, l).net, mid)
    ensures Kept(s, Step(s, l), mid)
  {
    if Enabled(s, l) {
      if l.Release? {
        IsPlacedHere(s, l.rid);
      }
      NextBooks(s, l, mid);
    }
  }

  // ----- A connection of the machine -----

  /** Only sessions that exist have lost slots. */
  ghost predicate StaleKnown(s: System) {
    forall x :: x in s.stale ==> x in s.net.sessions
  }

  lemma StepStaleKnown(s: System, l: Label)
    requires Inv(s) && StaleKnown(s)
    ensures StaleKnown(Step(s, l))
  {
    if Enabled(s, l) {
      if !l.Release? {
        OnlyReleasesAreStale(s, l);
      }
      forall x | x in Next(s, l).stale
        ensures x in Next(s, l).net.sessions
      {
        SessionsStay(s, l, x);
        if l.Release? && x !in s.stale {
          ReleaseIsKnown(s, l.rid, x);
        }
      }
    }
  }

  lemma ReleaseIsKnown(s: System, rid: RequestId, x: SessionId)
    requires WellFormed(s.net) && rid in s.handlers && x in ReleaseNext(s, rid).stale && x !in s.stale
    ensures x in s.net.sessions
  {
  }

  lemma {:induction false} ReachedStaleKnown(ls: seq<Label>)
    ensures StaleKnown(Reached(ls))
  {
    if ls != [] {
      ReachedInv(ls[..|ls| - 1]);
      ReachedStaleKnown(ls[..|ls| - 1]);
      StepStaleKnown(Reached(ls[..|ls| - 1]), ls[|ls| - 1]);
    }
  }

  /** A new session starts with no load and no holder; all requests of the machine that hold a slot are on
      earlier ones. */
  lemma ConnectOpensBooks(s: System, l: Label, mid: MachineId)
    requires Inv(s) && StaleKnown(s) && Enabled(s, l) && Connects(l, mid)
    ensures var s' := Next(s, l);
            && Online(s'.net, mid) && s'.net.machines[mid] == l.sid && Current(s'.net, mid) == NewSession(mid, l.user, l.max, l.now)
            && BooksOf(s', mid) == Books(0, 0, |InFlight(s.handlers, mid)|, 0)
            && Older(s', mid) == InFlight(s.handlers, mid)
  {
    var s' := Next(s, l);
    forall r | r in s.handlers
      ensures s.handlers[r].id.sid != l.sid
    {
      IsPlacedHere(s, r);
    }
    assert Holders(s'.handlers, l.sid) == {};
    assert Older(s', mid) == InFlight(s.handlers, mid);
  }

  // ----- Every run -----

  lemma KeptSettled(s: System, s': System, mid: MachineId)
    requires Online(s'.net, mid) && Kept(s, s', mid) && Settled(s, mid)
    ensures Settled(s', mid)
  {
    assert BooksOf(s, mid).older == 0;
    assert BooksOf(s', mid).older == 0;
  }

  lemma KeptDebt(s: System, s': System, mid: MachineId)
    requires Online(s'.net, mid) && Kept(s, s', mid)
    ensures var b, b' := BooksOf(s, mid), BooksOf(s', mid); b'.stale + b'.older <= b.stale + b.older
  {
  }

  /** Every step but a connection of the machine keeps it settled... */
  lemma SettledStep(s: System, l: Label, mid: MachineId)
    requires Inv(s) && Settled(s, mid) && !Connects(l, mid)
    ensures Settled(Step(s, l), mid)
  {
    if Online(Step(s, l).net, mid) {
      StepBooks(s, l, mid);
      KeptSettled(s, Step(s, l), mid);
    }
  }

  /** ... and a connection leaves it settled if and only if no request of the machine holds a slot then. */
  lemma SettledAfterConnect(s: System, l: Label, mid: MachineId)
    requires Inv(s) && StaleKnown(s) && Enabled(s, l) && Connects(l, mid)
    ensures Settled(Step(s, l), mid) <==> InFlight(s.handlers, mid) == {}
  {
    ConnectOpensBooks(s, l, mid);
  }

  /** Whenever the machine connected in the course of the run, none of its requests held a slot. */
  ghost predicate ConnectsIdle(ls: seq<Label>, mid: MachineId) {
    forall i :: 0 <= i < |ls| && Connects(ls[i], mid) && Enabled(Reached(ls[..i]), ls[i]) ==>
      InFlight(Reached(ls[..i]).handlers, mid) == {}
  }

  lemma ConnectsIdlePrefix(ls: seq<Label>, mid: MachineId)
    requires ConnectsIdle(ls, mid) && ls != []
    ensures ConnectsIdle(ls[..|ls| - 1], mid)
    ensures var s, l := Reached(ls[..|ls| - 1]), ls[|ls| - 1];
            Connects(l, mid) && Enabled(s, l) ==> InFlight(s.handlers, mid) == {}
  {
    var before := ls[..|ls| - 1];
    assert forall i :: 0 <= i < |before| ==> before[..i] == ls[..i];
  }

  lemma {:induction false} SettledRun(ls: seq<Label>, mid: MachineId)
    requires ConnectsIdle(ls, mid)
    ensures Settled(Reached(ls), mid)
  {
    if ls != [] {
      var s, l := Reached(ls[..|ls| - 1]), ls[|ls| - 1];
      ConnectsIdlePrefix(ls, mid);
      SettledRun(ls[..|ls| - 1], mid);
      ReachedInv(ls[..|ls| - 1]);
      ReachedStaleKnown(ls[..|ls| - 1]);
      if Connects(l, mid) && Enabled(s, l) {
        SettledAfterConnect(s, l, mid);
      } else if Enabled(s, l) {
        SettledStep(s, l, mid);
      }
    }
  }

  lemma NoneOlder(s: System, mid: MachineId)
    requires Inv(s) && Online(s.net, mid) && Older(s, mid) == {}
    ensures Holders(s.handlers, s.net.machines[mid]) == InFlight(s.handlers, mid)
  {
    forall r | r in s.handlers && s.handlers[r].holding
      ensures s.handlers[r].id.sid == s.net.machines[mid] <==> s.handlers[r].id.mid == mid
    {
      IsPlacedHere(s, r);
      OneSessionPerMachine(s.net, mid, s.handlers[r]);
      assert r !in Older(s, mid);
    }
  }

  /** If the machine only ever connected while none of its requests held a slot, however often, then its load
      is exactly the requests in flight, and it is never over-admitted. */
  lemma ExactAfterIdleConnects(ls: seq<Label>, mid: MachineId)
    requires ConnectsIdle(ls, mid) && Online(Reached(ls).net, mid)
    ensures Current(Reached(ls).net, mid).load == HoldersNow(Reached(ls), mid) == |InFlight(Reached(ls).handlers, mid)|
    ensures !Overbooked(Reached(ls), mid)
  {
    SettledRun(ls, mid);
    LoadAccounting(ls, mid);
    ReachedInv(ls);
    NoneOlder(Reached(ls), mid);
  }

  // ----- A machine with one session -----

  /** The machine had no other session. */
  ghost predicate OnlySession(n: Net, sid: SessionId) {
    sid in n.sessions && forall x :: x in n.sessions && n.sessions[x].mid == n.sessions[sid].mid ==> x == sid
  }

  lemma {:induction false} SessionsLast(ls: seq<Label>, i: nat, x: SessionId)
    requires i <= |ls|
    ensures Remembered(Reached(ls[..i]).net, Reached(ls).net, x)
  {
    if i == |ls| {
      assert ls[..i] == ls;
    } else {
      var before := ls[..|ls| - 1];
      assert before[..i] == ls[..i];
      SessionsLast(before, i, x);
      ReachedInv(before);
      SessionsStay(Reached(before), ls[|ls| - 1], x);
    }
  }

  // A new session of a machine that has a request in flight is its second.
  lemma SecondSession(s: System, l: Label, mid: MachineId, r: RequestId)
    requires Inv(s) && Enabled(s, l) && Connects(l, mid) && r in InFlight(s.handlers, mid)
    ensures var x := s.handlers[r].id.sid;
            && x in s.net.sessions && s.net.sessions[x].mid == mid && x != l.sid
            && l.sid in Step(s, l).net.sessions && Step(s, l).net.sessions[l.sid].mid == mid
  {
    IsPlacedHere(s, r);
  }

  lemma CurrentSession(ls: seq<Label>, mid: MachineId)
    requires Online(Reached(ls).net, mid)
    ensures Current(Reached(ls).net, mid).mid == mid
  {
    ReachedInv(ls);
  }

  lemma NextReached(ls: seq<Label>, i: nat)
    requires i < |ls|
    ensures Reached(ls[..i + 1]) == Step(Reached(ls[..i]), ls[i])
  {
    assert ls[..i + 1] == ls[..i] + [ls[i]];
    RunSnoc(INIT, ls[..i], ls[i]);
  }

  lemma SessionLasts(ls: seq<Label>, i: nat, x: SessionId, mid: MachineId)
    requires i <= |ls| && x in Reached(ls[..i]).net.sessions && Reached(ls[..i]).net.sessions[x].mid == mid
    ensures x in Reached(ls).net.sessions && Reached(ls).net.sessions[x].mid == mid
  {
    SessionsLast(ls, i, x);
  }

  // A connection that met a request in flight left the machine with two sessions for the rest of the run.
  lemma BothLast(ls: seq<Label>, i: nat, mid: MachineId, r: RequestId)
    requires i < |ls| && Connects(ls[i], mid) && Enabled(Reached(ls[..i]), ls[i])
    requires r in InFlight(Reached(ls[..i]).handlers, mid)
    ensures var n, x, y := Reached(ls).net, Reached(ls[..i]).handlers[r].id.sid, ls[i].sid;
            && x != y && x in n.sessions && n.sessions[x].mid == mid && y in n.sessions && n.sessions[y].mid == mid
  {
    ReachedInv(ls[..i]);
    SecondSession(Reached(ls[..i]), ls[i], mid, r);
    NextReached(ls, i);
    SessionLasts(ls, i, Reached(ls[..i]).handlers[r].id.sid, mid);
    SessionLasts(ls, i + 1, ls[i].sid, mid);
  }

  lemma ConnectedIdle(ls: seq<Label>, i: nat, mid: MachineId)
    requires i < |ls| && Connects(ls[i], mid) && Enabled(Reached(ls[..i]), ls[i])
    requires Online(Reached(ls).net, mid) && OnlySession(Reached(ls).net, Reached(ls).net.machines[mid])
    ensures InFlight(Reached(ls[..i]).handlers, mid) == {}
  {
    if r :| r in InFlight(Reached(ls[..i]).handlers, mid) {
      CurrentSession(ls, mid);
      BothLast(ls, i, mid, r);
    }
  }

  /** With no reconnect the load is exactly the requests that hold a slot. */
  lemma ExactWithoutReconnect(ls: seq<Label>, mid: MachineId)
    requires Online(Reached(ls).net, mid) && OnlySession(Reached(ls).net, Reached(ls).net.machines[mid])
    ensures Current(Reached(ls).net, mid).load == HoldersNow(Reached(ls), mid) <= Current(Reached(ls).net, mid).max
  {
    forall i | 0 <= i < |ls| && Connects(ls[i], mid) && Enabled(Reached(ls[..i]), ls[i])
      ensures InFlight(Reached(ls[..i]).handlers, mid) == {}
    {
      ConnectedIdle(ls, i, mid);
    }
    ExactAfterIdleConnects(ls, mid);
  }

  // ----- How far over -----

  lemma {:induction false} DebtSinceConnect(before: seq<Label>, l: Label, after: seq<Label>, mid: MachineId)
    requires Connects(l, mid) && Enabled(Reached(before), l)
    requires forall x :: x in after ==> !Connects(x, mid)
    requires Online(Reached(before + [l] + after).net, mid)
    ensures var b := BooksOf(Reached(before + [l] + after), mid); b.stale + b.older <= |InFlight(Reached(before).handlers, mid)|
    decreases |after|
  {
    if after == [] {
      assert before + [l] + after == before + [l];
      assert (before + [l])[..|before|] == before;
      ReachedInv(before);
      ReachedStaleKnown(before);
      ConnectOpensBooks(Reached(before), l, mid);
    } else {
      var front, last := after[..|after| - 1], after[|after| - 1];
      var ls := before + [l] + front;
      assert (before + [l] + after)[..|before + [l] + after| - 1] == ls;
      ReachedInv(ls);
      StepBooks(Reached(ls), last, mid);
      KeptDebt(Reached(ls), Step(Reached(ls), last), mid);
      DebtSinceConnect(before, l, front, mid);
    }
  }

  /** The slots a machine may be over-admitted by are no more than the requests of the machine that held one
      when it last connected; that bounds `stale` too. */
  lemma OverAdmissionBound(before: seq<Label>, l: Label, after: seq<Label>, mid: MachineId)
    requires Connects(l, mid) && Enabled(Reached(before), l)
    requires forall x :: x in after ==> !Connects(x, mid)
    requires Online(Reached(before + [l] + after).net, mid)
    ensures var s := Reached(before + [l] + after);
            var owed := |InFlight(Reached(before).handlers, mid)|;
            && StaleOf(s, s.net.machines[mid]) + |Older(s, mid)| <= owed
            && Current(s.net, mid).load <= HoldersNow(s, mid) <= Current(s.net, mid).load + owed
            && HoldersNow(s, mid) <= Current(s.net, mid).max + owed
  {
    DebtSinceConnect(before, l, after, mid);
    LoadAccounting(before + [l] + after, mid);
  }

  // ----- An older request really is what it takes -----

  /** A machine, its session, and how much of it is taken. */
  datatype Spot = Spot(mid: MachineId, sid: SessionId, max: nat, load: nat, holders: nat)

  /** The machine is on that session, healthy, with this load and this many holders. */
  ghost predicate At(s: System, p: Spot) {
    && Online(s.net, p.mid) && s.net.machines[p.mid] == p.sid
    && s.net.sessions[p.sid].max == p.max && s.net.sessions[p.sid].load == p.load && s.net.sessions[p.sid].backendOK
    && |Holders(s.handlers, p.sid)| == p.holders
  }

  /** A request of the machine that holds a slot of an earlier session. */
  predicate OldHolder(s: System, p: Spot, r: RequestId) {
    r in s.handlers && s.handlers[r].holding && s.handlers[r].id.mid == p.mid && s.handlers[r].id.sid != p.sid
  }

  lemma SameNetAt(s: System, s': System, p: Spot)
    requires At(s, p) && s'.net == s.net && SameHolding(s.handlers, s'.handlers)
    ensures At(s', p)
  {
    assert Holders(s'.handlers, p.sid) == Holders(s.handlers, p.sid);
  }

  lemma TakeSlot(s: System, p: Spot, rid: RequestId)
    requires Inv(s) && At(s, p) && p.load < p.max && rid !in s.handlers
    ensures var s' := Step(s, Begin(rid, p.mid, Streaming, true));
            && At(s', p.(load := p.load + 1, holders := p.holders + 1))
            && s'.handlers == s.handlers[rid := Started(p.mid, p.sid, Streaming, true, true, 0, None)]
  {
    SlotTaken(s, p.mid, rid);
    AdmitLoads(s.net, p.mid, rid, CapOf(Streaming), p.mid);
    AdmitHealth(s.net, p.mid, rid, CapOf(Streaming));
    HoldersWith(s.handlers, rid, Started(p.mid, p.sid, Streaming, true, true, 0, None), p.sid);
  }

  lemma SlotTaken(s: System, mid: MachineId, rid: RequestId)
    requires rid !in s.handlers && CanIncrement(s.net, mid) && Current(s.net, mid).backendOK
    ensures var s' := Step(s, Begin(rid, mid, Streaming, true));
            && s'.net == Admit(s.net, mid, rid, CapOf(Streaming))
            && s'.handlers == s.handlers[rid := Started(mid, s.net.machines[mid], Streaming, true, true, 0, None)]
  {
  }

  lemma AdmitHealth(n: Net, mid: MachineId, rid: RequestId, cap: nat)
    requires WellFormed(n) && Online(n, mid)
    ensures var n' := Admit(n, mid, rid, cap); Online(n', mid) && Current(n', mid).backendOK == Current(n, mid).backendOK
  {
  }

  lemma StillLive(s: System, r: RequestId)
    requires Inv(s) && r in s.handlers && s.handlers[r].waiting
    ensures Enabled(s, Select(r, TotalTimeout))
  {
    assert Good(s.net, s.handlers[r], r);
  }

  lemma TimesOut(s: System, r: RequestId)
    requires Enabled(s, Select(r, TotalTimeout))
    ensures var s' := Step(s, Select(r, TotalTimeout));
            && s'.net == s.net && s'.handlers.Keys == s.handlers.Keys && SameHolding(s.handlers, s'.handlers)
            && SamePlace(s.handlers[r], s'.handlers[r]) && !s'.handlers[r].waiting
  {
  }

  lemma StopWaiting(s: System, p: Spot, r: RequestId)
    requires Inv(s) && At(s, p) && OldHolder(s, p, r)
    ensures var s' := Step(s, Select(r, TotalTimeout));
            At(s', p) && OldHolder(s', p, r) && !s'.handlers[r].waiting && s'.handlers.Keys == s.handlers.Keys
  {
    if s.handlers[r].waiting {
      StillLive(s, r);
      TimesOut(s, r);
      SameNetAt(s, Step(s, Select(r, TotalTimeout)), p);
    }
  }

  lemma DecrementHealth(n: Net, mid: MachineId)
    requires WellFormed(n) && Online(n, mid)
    ensures var n' := DecrementLoad(n, mid); Online(n', mid) && Current(n', mid).backendOK == Current(n, mid).backendOK
  {
  }

  lemma LeavesSlot(s: System, r: RequestId)
    requires r in s.handlers && !s.handlers[r].waiting && s.handlers[r].holding
    ensures var h := s.handlers[r];
            var s' := Step(s, Release(r));
            && s'.net == DecrementLoad(s.net, h.id.mid)
            && s'.handlers == s.handlers[r := h.(holding := false, releases := h.releases + 1)]
  {
  }

  lemma RobSlot(s: System, p: Spot, r: RequestId)
    requires Inv(s) && At(s, p) && p.load > 0 && OldHolder(s, p, r) && !s.handlers[r].waiting
    ensures var s' := Step(s, Release(r)); At(s', p.(load := p.load - 1)) && s'.handlers.Keys == s.handlers.Keys
  {
    LeavesSlot(s, r);
    DecrementLoads(s.net, p.mid, p.mid);
    DecrementHealth(s.net, p.mid);
    HoldersWithout(s.handlers, r, s.handlers[r].(holding := false, releases := s.handlers[r].releases + 1), p.sid);
  }

  /** Fresh ids for the requests to come. */
  predicate FreshIds(s: System, ids: seq<RequestId>) {
    && (forall i :: 0 <= i < |ids| ==> ids[i] !in s.handlers)
    && (forall i, j :: 0 <= i < j < |ids| ==> ids[i] != ids[j])
  }

  function Begins(mid: MachineId, ids: seq<RequestId>): seq<Label> {
    seq(|ids|, i requires 0 <= i < |ids| => Begin(ids[i], mid, Streaming, true))
  }

  // Only these requests are new, and the older one still holds its slot.
  ghost predicate Joined(s: System, s': System, p: Spot, ids: seq<RequestId>, r: RequestId) {
    OldHolder(s', p, r) && forall x :: x in s'.handlers ==> x in s.handlers || x in ids
  }

  lemma JoinOne(s: System, before: System, after: System, p: Spot, ids: seq<RequestId>, id: RequestId, h: Handler, r: RequestId)
    requires Joined(s, before, p, ids, r) && after.handlers == before.handlers[id := h] && id !in before.handlers
    ensures Joined(s, after, p, ids + [id], r)
  {
  }

  lemma FillOne(s: System, before: System, after: System, p: Spot, front: seq<RequestId>, id: RequestId, r: RequestId)
    requires Inv(before) && At(before, p.(load := |front|, holders := |front|)) && |front| < p.max
    requires Joined(s, before, p, front, r) && id !in before.handlers
    requires after == Step(before, Begin(id, p.mid, Streaming, true))
    ensures At(after, p.(load := |front| + 1, holders := |front| + 1)) && Joined(s, after, p, front + [id], r)
  {
    TakeSlot(before, p.(load := |front|, holders := |front|), id);
    JoinOne(s, before, after, p, front, id, Started(p.mid, p.sid, Streaming, true, true, 0, None), r);
  }

  lemma LastIsFresh(s: System, before: System, p: Spot, ids: seq<RequestId>, r: RequestId)
    requires FreshIds(s, ids) && ids != [] && Joined(s, before, p, ids[..|ids| - 1], r)
    ensures ids[|ids| - 1] !in before.handlers
  {
  }

  lemma LastSplit(ids: seq<RequestId>)
    requires ids != []
    ensures ids[..|ids| - 1] + [ids[|ids| - 1]] == ids
  {
  }

  lemma BeginsRun(s: System, mid: MachineId, ids: seq<RequestId>)
    requires ids != []
    ensures Run(s, Begins(mid, ids))
         == Step(Run(s, Begins(mid, ids[..|ids| - 1])), Begin(ids[|ids| - 1], mid, Streaming, true))
  {
    assert Begins(mid, ids)[..|ids| - 1] == Begins(mid, ids[..|ids| - 1]);
  }

  /** These requests are in, each with a slot. */
  ghost predicate AllIn(s: System, s': System, p: Spot, ids: seq<RequestId>, r: RequestId) {
    At(s', p.(load := |ids|, holders := |ids|)) && Joined(s, s', p, ids, r)
  }

  lemma FillStep(s: System, before: System, after: System, p: Spot, ids: seq<RequestId>, r: RequestId)
    requires Inv(before) && FreshIds(s, ids) && 0 < |ids| <= p.max && AllIn(s, before, p, ids[..|ids| - 1], r)
    requires after == Step(before, Begin(ids[|ids| - 1], p.mid, Streaming, true))
    ensures AllIn(s, after, p, ids, r)
  {
    LastIsFresh(s, before, p, ids, r);
    FillOne(s, before, after, p, ids[..|ids| - 1], ids[|ids| - 1], r);
    LastSplit(ids);
  }

  lemma FillNone(s: System, p: Spot, r: RequestId)
    requires At(s, p.(load := 0, holders := 0)) && OldHolder(s, p, r)
    ensures AllIn(s, Run(s, Begins(p.mid, [])), p, [], r)
  {
  }

  /** Requests take slots until the session is full. */
  lemma {:induction false} Fill(s: System, p: Spot, ids: seq<RequestId>, r: RequestId)
    requires Inv(s) && At(s, p.(load := 0, holders := 0)) && FreshIds(s, ids) && |ids| <= p.max && OldHolder(s, p, r)
    ensures AllIn(s, Run(s, Begins(p.mid, ids)), p, ids, r)
  {
    if ids == [] {
      FillNone(s, p, r);
    } else {
      Fill(s, p, ids[..|ids| - 1], r);
      RunKeepsInv(s, Begins(p.mid, ids[..|ids| - 1]));
      BeginsRun(s, p.mid, ids);
      FillStep(s, Run(s, Begins(p.mid, ids[..|ids| - 1])), Run(s, Begins(p.mid, ids)), p, ids, r);
    }
  }

  /** From a full session, one older request that leaves lets one more in. */
  lemma OneTooMany(s: System, p: Spot, r: RequestId, rid: RequestId)
    requires Inv(s) && At(s, p) && p.load == p.max > 0 && OldHolder(s, p, r) && rid !in s.handlers
    ensures var s' := Step(Step(Step(s, Select(r, TotalTimeout)), Release(r)), Begin(rid, p.mid, Streaming, true));
            At(s', p.(holders := p.holders + 1))
  {
    StopWaiting(s, p, r);
    StepKeepsInv(s, Select(r, TotalTimeout));
    RobSlot(Step(s, Select(r, TotalTimeout)), p, r);
    StepKeepsInv(Step(s, Select(r, TotalTimeout)), Release(r));
    OneMoreFits(Step(Step(s, Select(r, TotalTimeout)), Release(r)), p, rid);
  }

  lemma OneMoreFits(s: System, p: Spot, rid: RequestId)
    requires Inv(s) && p.load == p.max > 0 && At(s, p.(load := p.load - 1)) && rid !in s.handlers
    ensures At(Step(s, Begin(rid, p.mid, Streaming, true)), p.(holders := p.holders + 1))
  {
    TakeSlot(s, p.(load := p.load - 1), rid);
  }

  /** The continuation that over-admits: fill the session, let an older request leave, admit one more. */
  function Overbooking(mid: MachineId, ids: seq<RequestId>, r: RequestId): seq<Label>
    requires |ids| > 0
  {
    Begins(mid, ids[..|ids| - 1]) + [Select(r, TotalTimeout)] + [Release(r)] + [Begin(ids[|ids| - 1], mid, Streaming, true)]
  }

  lemma OverbookingRun(s: System, mid: MachineId, ids: seq<RequestId>, r: RequestId)
    requires |ids| > 0
    ensures var full := Run(s, Begins(mid, ids[..|ids| - 1]));
            Run(s, Overbooking(mid, ids, r))
            == Step(Step(Step(full, Select(r, TotalTimeout)), Release(r)), Begin(ids[|ids| - 1], mid, Streaming, true))
  {
    var ls := Begins(mid, ids[..|ids| - 1]);
    RunSnoc(s, ls, Select(r, TotalTimeout));
    RunSnoc(s, ls + [Select(r, TotalTimeout)], Release(r));
    RunSnoc(s, ls + [Select(r, TotalTimeout)] + [Release(r)], Begin(ids[|ids| - 1], mid, Streaming, true));
  }

  lemma OverbooksWith(s: System, p: Spot, ids: seq<RequestId>, r: RequestId)
    requires Inv(s) && At(s, p.(load := 0, holders := 0)) && OldHolder(s, p, r) && p.max > 0
    requires FreshIds(s, ids) && |ids| == p.max + 1
    ensures Overbooked(Run(s, Overbooking(p.mid, ids, r)), p.mid)
  {
    var front := ids[..p.max];
    Fill(s, p, front, r);
    RunKeepsInv(s, Begins(p.mid, front));
    OverbookingRun(s, p.mid, ids, r);
    LastIsFresh(s, Run(s, Begins(p.mid, front)), p, ids, r);
    OneTooMany(Run(s, Begins(p.mid, front)), p.(load := p.max, holders := p.max), r, ids[p.max]);
  }

  /** A continuation, without another connection of the machine, over-admits it. */
  ghost predicate CanOverbook(s: System, mid: MachineId) {
    exists ls :: (forall l :: l in ls ==> !Connects(l, mid)) && Overbooked(Run(s, ls), mid)
  }

  lemma {:induction false} SettledIsNeverOverbooked(s: System, ls: seq<Label>, mid: MachineId)
    requires Inv(s) && LoadOK(s) && Settled(s, mid) && forall l :: l in ls ==> !Connects(l, mid)
    ensures Inv(Run(s, ls)) && LoadOK(Run(s, ls)) && Settled(Run(s, ls), mid) && !Overbooked(Run(s, ls), mid)
  {
    if ls != [] {
      SettledIsNeverOverbooked(s, ls[..|ls| - 1], mid);
      StepKeepsInv(Run(s, ls[..|ls| - 1]), ls[|ls| - 1]);
      StepKeepsLoad(Run(s, ls[..|ls| - 1]), ls[|ls| - 1]);
      SettledStep(Run(s, ls[..|ls| - 1]), ls[|ls| - 1], mid);
    }
    SettledIsWithin(Run(s, ls), mid);
  }

  lemma SettledIsWithin(s: System, mid: MachineId)
    requires WellFormed(s.net) && LoadOK(s) && Settled(s, mid)
    ensures !Overbooked(s, mid)
  {
  }

  /** Exactly when a machine can be over-admitted after its provider connects: if and only if at that moment a
      request of the machine holds a slot. */
  lemma OverAdmissionExactly(before: seq<Label>, l: Label, mid: MachineId, ids: seq<RequestId>)
    requires Connects(l, mid) && Enabled(Reached(before), l)
    requires FreshIds(Reached(before), ids) && |ids| == (if l.max > 0 then l.max else 1) + 1
    ensures CanOverbook(Step(Reached(before), l), mid) <==> InFlight(Reached(before).handlers, mid) != {}
  {
    var s := Reached(before);
    var s' := Step(s, l);
    ReachedInv(before);
    ReachedLoad(before);
    ReachedStaleKnown(before);
    StepKeepsInv(s, l);
    StepKeepsLoad(s, l);
    ConnectOpensBooks(s, l, mid);
    if r :| r in InFlight(s.handlers, mid) {
      assert r in Older(s', mid);
      OlderCanOverbook(s', Spot(mid, l.sid, Current(s'.net, mid).max, 0, 0), ids, r);
    } else {
      NeverOverbooked(s', mid);
    }
  }

  lemma OlderCanOverbook(s: System, p: Spot, ids: seq<RequestId>, r: RequestId)
    requires Inv(s) && At(s, p.(load := 0, holders := 0)) && OldHolder(s, p, r) && p.max > 0
    requires FreshIds(s, ids) && |ids| == p.max + 1
    ensures CanOverbook(s, p.mid)
  {
    OverbooksWith(s, p, ids, r);
    OverbookingConnectsNot(p.mid, ids, r);
  }

  lemma OverbookingConnectsNot(mid: MachineId, ids: seq<RequestId>, r: RequestId)
    requires |ids| > 0
    ensures forall l :: l in Overbooking(mid, ids, r) ==> !Connects(l, mid)
  {
  }

  lemma NeverOverbooked(s: System, mid: MachineId)
    requires Inv(s) && LoadOK(s) && Settled(s, mid)
    ensures !CanOverbook(s, mid)
  {
    forall ls | forall l :: l in ls ==> !Connects(l, mid)
      ensures !Overbooked(Run(s, ls), mid)
    {
      SettledIsNeverOverbooked(s, ls, mid);
    }
  }
}
