/** What a session counts for its owner's statistics: the requests it admitted and the tokens relayed through it
    (internal/coord/registry.go:140-182, internal/coord/ws.go:228-304). */
module SessionCounters {
  import opened Wire
  import opened RegistryModel
  import opened RegistryFacts
  import opened RelayProtocol
  import opened RelayInvariant
  import opened RelayLoad
  import C = RetryChain

  /** The requests that ever took a slot of the session. */
  function Admitted(hs: map<RequestId, Handler>, sid: SessionId): set<RequestId> {
    set r | r in hs && hs[r].id.took && hs[r].id.sid == sid
  }

  /** What a step adds to the tokens of a session: one for a chunk and the reported number, if positive, for a response, if its
      machine is on that session and the request is hooked there. */
  function TokensOfStep(s: System, l: Label, sid: SessionId): int {
    if l.FromProvider? && Waits(s.net, l.mid, l.msg.rid) && s.net.machines[l.mid] == sid then
      if l.msg.Chunk? then 1 else if l.msg.Response? && l.msg.tokens > 0 then l.msg.tokens else 0
    else 0
  }

  function TokensOver(ls: seq<Label>, sid: SessionId): int {
    if ls == [] then 0
    else TokensOver(ls[..|ls| - 1], sid) + TokensOfStep(Reached(ls[..|ls| - 1]), ls[|ls| - 1], sid)
  }

  /** The session still counts what it did, and these more. */
  predicate Counts(n: Net, n': Net, sid: SessionId, requests: int, tokens: int)
    requires sid in n.sessions
  {
    && sid in n'.sessions
    && n'.sessions[sid].requests == n.sessions[sid].requests + requests
    && n'.sessions[sid].tokens == n.sessions[sid].tokens + tokens
  }

  lemma CalmCounts(s: System, l: Label, sid: SessionId)
    requires WellFormed(s.net) && Enabled(s, l) && sid in s.net.sessions && !l.Begin? && !l.Retry? && !l.FromProvider?
    ensures Counts(s.net, Next(s, l).net, sid, 0, 0)
  {
  }

  lemma RelayCounts(s: System, l: Label, sid: SessionId)
    requires WellFormed(s.net) && Enabled(s, l) && sid in s.net.sessions && l.FromProvider?
    ensures Counts(s.net, Next(s, l).net, sid, 0, TokensOfStep(s, l, sid))
  {
  }

  lemma AdmitCounts(n: Net, mid: MachineId, rid: RequestId, cap: nat, sid: SessionId)
    requires WellFormed(n) && Online(n, mid) && sid in n.sessions
    ensures Counts(n, Admit(n, mid, rid, cap), sid, if CanIncrement(n, mid) && n.machines[mid] == sid then 1 else 0, 0)
  {
  }

  lemma AdmittedWith(hs: map<RequestId, Handler>, rid: RequestId, h: Handler, sid: SessionId)
    requires rid !in hs
    ensures |Admitted(hs[rid := h], sid)| == |Admitted(hs, sid)| + if h.id.took && h.id.sid == sid then 1 else 0
  {
    assert Admitted(hs[rid := h], sid) == Admitted(hs, sid) + if h.id.took && h.id.sid == sid then {rid} else {};
  }

  // ----- Every step -----

  lemma SameAdmitted(s: System, l: Label, sid: SessionId)
    requires Enabled(s, l) && !l.Begin? && !l.Retry?
    ensures Admitted(Next(s, l).handlers, sid) == Admitted(s.handlers, sid)
  {
    C.NextKeepsKeys(s, l);
    forall r | r in s.handlers
      ensures Next(s, l).handlers[r].id == s.handlers[r].id
    {
      C.NextMoves(s, l, r);
    }
    SameIdsSameAdmitted(s.handlers, Next(s, l).handlers, sid);
  }

  lemma SameIdsSameAdmitted(hs: map<RequestId, Handler>, hs': map<RequestId, Handler>, sid: SessionId)
    requires hs'.Keys == hs.Keys && forall r :: r in hs ==> hs'[r].id == hs[r].id
    ensures Admitted(hs', sid) == Admitted(hs, sid)
  {
  }

  /** The session counts these requests and these tokens. */
  ghost predicate CountsAre(s: System, sid: SessionId, tokens: int) {
    sid in s.net.sessions && s.net.sessions[sid].requests == |Admitted(s.handlers, sid)| && s.net.sessions[sid].tokens == tokens
  }

  lemma BeginCounts(s: System, rid: RequestId, mid: MachineId, kind: Kind, sendOk: bool, attempt: nat, after: Option<RequestId>,
                    sid: SessionId, tokens: int)
    requires WellFormed(s.net) && Online(s.net, mid) && rid !in s.handlers && CountsAre(s, sid, tokens)
    ensures CountsAre(BeginNext(s, rid, mid, kind, sendOk, attempt, after), sid, tokens)
  {
    AdmitCounts(s.net, mid, rid, CapOf(kind), sid);
    AdmittedWith(s.handlers, rid, Started(mid, s.net.machines[mid], kind, CanIncrement(s.net, mid), sendOk, attempt, after), sid);
  }

  lemma MarkedCounts(s: System, after: RequestId, sid: SessionId, tokens: int)
    requires after in s.handlers && CountsAre(s, sid, tokens)
    ensures CountsAre(s.(handlers := s.handlers[after := s.handlers[after].(retried := true)]), sid, tokens)
  {
    var hs := s.handlers[after := s.handlers[after].(retried := true)];
    assert Admitted(hs, sid) == Admitted(s.handlers, sid);
  }

  lemma RetryCounts(s: System, rid: RequestId, after: RequestId, sendOk: bool, sid: SessionId, tokens: int)
    requires WellFormed(s.net) && Enabled(s, Retry(rid, after, sendOk)) && CountsAre(s, sid, tokens)
    ensures CountsAre(Next(s, Retry(rid, after, sendOk)), sid, tokens)
  {
    var h := s.handlers[after];
    BeginCounts(s, rid, h.id.mid, Answering, sendOk, h.id.attempt + 1, Some(after), sid, tokens);
    MarkedCounts(BeginNext(s, rid, h.id.mid, Answering, sendOk, h.id.attempt + 1, Some(after)), after, sid, tokens);
  }

  lemma NextCounts(s: System, l: Label, sid: SessionId, tokens: int)
    requires WellFormed(s.net) && Enabled(s, l) && CountsAre(s, sid, tokens)
    ensures CountsAre(Next(s, l), sid, tokens + TokensOfStep(s, l, sid))
  {
    match l {
      case Begin(rid, mid, kind, sendOk) => BeginCounts(s, rid, mid, kind, sendOk, 0, None, sid, tokens);
      case Retry(rid, after, sendOk) => RetryCounts(s, rid, after, sendOk, sid, tokens);
      case FromProvider(_, _) =>
        SameAdmitted(s, l, sid);
        RelayCounts(s, l, sid);
      case _ =>
        SameAdmitted(s, l, sid);
        CalmCounts(s, l, sid);
    }
  }

  // ----- Every run -----

  lemma OnlyConnectsOpen(s: System, l: Label, sid: SessionId)
    requires WellFormed(s.net) && Enabled(s, l) && sid !in s.net.sessions && sid in Next(s, l).net.sessions
    ensures l.Connect? && l.sid == sid && Next(s, l).net.sessions[sid].requests == 0 && Next(s, l).net.sessions[sid].tokens == 0
  {
  }

  lemma NobodyOnUnknown(s: System, sid: SessionId)
    requires Inv(s) && sid !in s.net.sessions
    ensures Admitted(s.handlers, sid) == {}
  {
    forall r | r in s.handlers
      ensures s.handlers[r].id.sid != sid
    {
      assert Good(s.net, s.handlers[r], r);
    }
  }

  lemma {:induction false} UnknownHasNoTokens(ls: seq<Label>, sid: SessionId)
    requires sid !in Reached(ls).net.sessions
    ensures TokensOver(ls, sid) == 0
  {
    if ls != [] {
      var before, l := ls[..|ls| - 1], ls[|ls| - 1];
      ReachedInv(before);
      SessionsStay(Reached(before), l, sid);
      UnknownHasNoTokens(before, sid);
    }
  }

  /** In every reachable state each session has counted exactly the requests that took a slot of it, whether they
      are still under way or not, and a token for each chunk relayed through it and a response's own number for
      each response; so what Unregister returns for the owner is what the session served. */
  lemma {:induction false} CountersAreTheRun(ls: seq<Label>, sid: SessionId)
    requires sid in Reached(ls).net.sessions
    ensures var s := Reached(ls).net.sessions[sid];
            s.requests == |Admitted(Reached(ls).handlers, sid)| && s.tokens == TokensOver(ls, sid)
  {
    var before, l := ls[..|ls| - 1], ls[|ls| - 1];
    ReachedInv(before);
    if sid in Reached(before).net.sessions {
      CountersAreTheRun(before, sid);
      if Enabled(Reached(before), l) {
        NextCounts(Reached(before), l, sid, TokensOver(before, sid));
      } else {
        NothingRelayed(Reached(before), l, sid);
      }
    } else {
      UnknownHasNoTokens(before, sid);
      OnlyConnectsOpen(Reached(before), l, sid);
      NobodyOnUnknown(Reached(before), sid);
      SameAdmitted(Reached(before), l, sid);
    }
  }

  lemma NothingRelayed(s: System, l: Label, sid: SessionId)
    requires !Enabled(s, l)
    ensures TokensOfStep(s, l, sid) == 0
  {
  }
}
