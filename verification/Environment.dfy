/** Everything else that goes on in the server while a handler runs: each step of the protocol, done to the
    registry by its own methods. */
module Environment {
  import opened Wire
  import opened RegistryModel
  import opened RegistryFacts
  import opened RelayProtocol
  import opened RelayInvariant
  import R = Registry

  /** The labels about these requests are those of their own handlers. */
  predicate Mine(l: Label, rids: set<RequestId>) {
    match l
    case Begin(rid, _, _, _) => rid in rids
    case Retry(rid, after, _) => rid in rids || after in rids
    case Receive(rid) => rid in rids
    case Select(rid, _) => rid in rids
    case Release(rid) => rid in rids
    case GiveUpChannel(rid) => rid in rids
    case _ => false
  }

  // One enabled step, done by the registry's method for it.
  method Act(reg: R.Registry, s: System, l: Label)
    requires reg.Net() == s.net && Inv(s) && Enabled(s, l)
    modifies reg
    ensures reg.Net() == Next(s, l).net
  {
    if l.Begin? || l.Retry? || l.Receive? || l.Select? || l.Release? || l.GiveUpChannel? {
      if l.GiveUpChannel? {
        PlacedHandler(s, l.rid);
      }
      ActForHandler(reg, s, l);
    } else {
      ActForMachine(reg, s, l);
    }
  }

  // A connection, its messages, the monitor, or a cancellation.
  method ActForMachine(reg: R.Registry, s: System, l: Label)
    requires reg.Net() == s.net && WellFormed(s.net) && Enabled(s, l)
    requires l.Connect? || l.Disconnect? || l.Monitor? || l.CancelRequests? || l.Heard? || l.BackendFailed? || l.FromProvider?
    modifies reg
    ensures reg.Net() == Next(s, l).net
  {
    match l {
      case Connect(sid, mid, user, max, now) =>
        OpenWhenWellFormed(s.net, mid);
        reg.Register(sid, mid, user, max, now);
      case Disconnect(mid) =>
        OpenWhenWellFormed(s.net, mid);
        var _, _, _ := reg.Unregister(mid);
      case Monitor(timeout, now) => reg.EvictStale(timeout, now);
      case CancelRequests(mid) =>
        OpenWhenWellFormed(s.net, mid);
        reg.CancelMachineRequests(mid);
      case Heard(mid, now) => reg.UpdateHeartbeat(mid, now);
      case BackendFailed(mid, now) => reg.SetBackendOK(mid, false, now);
      case FromProvider(mid, msg) => Deliver(reg, mid, msg);
    }
  }

  // A handler's own step.
  method ActForHandler(reg: R.Registry, s: System, l: Label)
    requires reg.Net() == s.net && WellFormed(s.net) && Enabled(s, l)
    requires l.GiveUpChannel? ==> Placed(s.net, s.handlers[l.rid], l.rid)
    requires l.Begin? || l.Retry? || l.Receive? || l.Select? || l.Release? || l.GiveUpChannel?
    modifies reg
    ensures reg.Net() == Next(s, l).net
  {
    match l {
      case Begin(rid, mid, kind, _) => var _ := reg.Admit(mid, rid, CapOf(kind));
      case Retry(rid, after, _) => var _ := reg.Admit(s.handlers[after].id.mid, rid, CapOf(Answering));
      case Receive(rid) => var _ := reg.TryReceive(rid);
      case Select(_, _) =>
      case Release(rid) => reg.DecrementLoad(s.handlers[rid].id.mid);
      case GiveUpChannel(rid) => reg.UnregisterChunkChannel(s.handlers[rid].id.sid, rid);
    }
  }

  method Deliver(reg: R.Registry, mid: MachineId, m: ProviderMsg)
    requires reg.Valid()
    modifies reg
    ensures reg.Net() == Relay(old(reg.Net()), mid, m)
  {
    OpenWhenWellFormed(reg.Net(), mid);
    match m {
      case Chunk(_, _, _, _) => reg.RelayChunk(mid, m);
      case Response(_, _, _, _) => reg.RelayResponse(mid, m);
      case Error(_, _, _) => reg.RelayError(mid, m);
    }
  }

  lemma PlacedHandler(s: System, rid: RequestId)
    requires Inv(s) && rid in s.handlers
    ensures Placed(s.net, s.handlers[rid], rid)
  {
    assert Good(s.net, s.handlers[rid], rid);
  }

  /** The labels that do not concern these requests. */
  function OthersOf(ls: seq<Label>, rids: set<RequestId>): seq<Label> {
    if ls == [] then []
    else OthersOf(ls[..|ls| - 1], rids) + if Mine(ls[|ls| - 1], rids) then [] else [ls[|ls| - 1]]
  }

  /** These requests are as they were, or still unknown. */
  ghost predicate Untouched(s: System, s': System, rids: set<RequestId>) {
    forall r :: r in rids ==> (r in s'.handlers <==> r in s.handlers) && (r in s.handlers ==> SameHandler(s.handlers[r], s'.handlers[r]))
  }

  /** Only the log, which records the provider's messages, may have moved. */
  predicate SameHandler(h: Handler, h': Handler) {
    h' == h.(log := h'.log)
  }

  lemma NotMine(s: System, l: Label, r: RequestId, rids: set<RequestId>)
    requires Enabled(s, l) && !Mine(l, rids) && r in rids
    ensures r in Next(s, l).handlers <==> r in s.handlers
    ensures r in s.handlers ==> SameHandler(s.handlers[r], Next(s, l).handlers[r])
  {
  }

  lemma StepNotMine(s: System, l: Label, rids: set<RequestId>)
    requires !Mine(l, rids)
    ensures Untouched(s, Step(s, l), rids)
  {
    if Enabled(s, l) {
      forall r | r in rids
        ensures r in Next(s, l).handlers <==> r in s.handlers
        ensures r in s.handlers ==> SameHandler(s.handlers[r], Next(s, l).handlers[r])
      {
        NotMine(s, l, r, rids);
      }
    }
  }

  lemma UntouchedOn(a: System, b: System, c: System, rids: set<RequestId>)
    requires Untouched(a, b, rids) && Untouched(b, c, rids)
    ensures Untouched(a, c, rids)
  {
  }

  lemma OthersSnoc(ls: seq<Label>, i: nat, rids: set<RequestId>)
    requires i < |ls|
    ensures Mine(ls[i], rids) ==> OthersOf(ls[..i + 1], rids) == OthersOf(ls[..i], rids)
    ensures !Mine(ls[i], rids) ==> OthersOf(ls[..i + 1], rids) == OthersOf(ls[..i], rids) + [ls[i]]
  {
    assert ls[..i + 1][..i] == ls[..i];
  }

  /** What else happens, step by step, leaving these requests to their handlers. */
  method Meanwhile(reg: R.Registry, s: System, ls: seq<Label>, rids: set<RequestId>) returns (s': System)
    requires reg.Net() == s.net && Inv(s)
    modifies reg
    ensures reg.Net() == s'.net && Inv(s') && s' == Run(s, OthersOf(ls, rids)) && Untouched(s, s', rids)
  {
    s' := s;
    for i := 0 to |ls|
      invariant reg.Net() == s'.net && Inv(s') && Untouched(s, s', rids)
      invariant s' == Run(s, OthersOf(ls[..i], rids))
    {
      OthersSnoc(ls, i, rids);
      if !Mine(ls[i], rids) {
        RunSnoc(s, OthersOf(ls[..i], rids), ls[i]);
        assert Run(s, OthersOf(ls[..i + 1], rids)) == Step(s', ls[i]);
        s' := One(reg, s, s', ls[i], rids);
      }
    }
    assert ls[..|ls|] == ls;
  }

  method One(reg: R.Registry, ghost origin: System, s: System, l: Label, rids: set<RequestId>) returns (s': System)
    requires reg.Net() == s.net && Inv(s) && !Mine(l, rids) && Untouched(origin, s, rids)
    modifies reg
    ensures s' == Step(s, l) && reg.Net() == s'.net && Inv(s') && Untouched(origin, s', rids)
  {
    StepKeepsInv(s, l);
    StepNotMine(s, l, rids);
    UntouchedOn(origin, s, Step(s, l), rids);
    if Enabled(s, l) {
      Act(reg, s, l);
    }
    s' := Step(s, l);
  }

  /** What was done to the registry since `origin` is what the labels say. */
  ghost predicate Tracks(reg: R.Registry, origin: System, s: System, ls: seq<Label>)
    reads reg
  {
    reg.Net() == s.net && s == Run(origin, ls)
  }
}
