/** The attempts of one non-streaming request: at most three, one after another, on one machine
    (internal/coord/api.go, `handleNonStreamingCompletion`). */
module RetryChain {
  import opened Wire
  import opened RegistryModel
  import opened RelayProtocol

  /** The attempt has given back its slot and its channel. */
  predicate Over(h: Handler) {
    !h.waiting && !h.holding && !h.hooked
  }

  /** `p` is the attempt before this one: on the same machine, over, lost, and marked as retried. */
  predicate Follows(h: Handler, p: Handler) {
    && h.id.kind == Answering && p.id.kind == Answering && h.id.mid == p.id.mid
    && h.id.attempt == p.id.attempt + 1
    && Over(p) && p.retried && p.result.Some? && p.result.value.Lost?
  }

  predicate LinkOK(hs: map<RequestId, Handler>, r: RequestId)
    requires r in hs
  {
    && hs[r].id.attempt < MAX_RETRIES
    && match hs[r].id.after
       case None => hs[r].id.attempt == 0
       case Some(p) => p in hs && Follows(hs[r], hs[p])
  }

  predicate After(hs: map<RequestId, Handler>, r: RequestId, p: RequestId) {
    r in hs && hs[r].id.after == Some(p)
  }

  /** Every attempt is well linked, only marked attempts were retried, and each of them once. */
  ghost predicate ChainOK(hs: map<RequestId, Handler>) {
    && (forall r :: r in hs ==> LinkOK(hs, r))
    && (forall r, q, p :: After(hs, r, p) && After(hs, q, p) ==> r == q)
  }

  /** What any step does to an attempt. */
  predicate Moves(h: Handler, h': Handler) {
    && h'.id == h.id && (h.retried ==> h'.retried)
    && (Over(h) ==> Over(h') && h'.result == h.result)
  }

  lemma NextMoves(s: System, l: Label, r: RequestId)
    requires Enabled(s, l) && r in s.handlers
    ensures r in Next(s, l).handlers && Moves(s.handlers[r], Next(s, l).handlers[r])
  {
  }

  // A step that adds no attempt.
  lemma MovesKeepChain(hs: map<RequestId, Handler>, hs': map<RequestId, Handler>)
    requires ChainOK(hs) && hs.Keys == hs'.Keys
    requires forall r :: r in hs ==> Moves(hs[r], hs'[r])
    ensures ChainOK(hs')
  {
    forall r | r in hs'
      ensures LinkOK(hs', r)
    {
      assert LinkOK(hs, r);
    }
    assert forall r, p :: After(hs', r, p) ==> After(hs, r, p);
  }

  lemma NextKeepsKeys(s: System, l: Label)
    requires Enabled(s, l) && !l.Begin? && !l.Retry?
    ensures Next(s, l).handlers.Keys == s.handlers.Keys
  {
  }

  lemma QuietChain(s: System, l: Label)
    requires ChainOK(s.handlers) && Enabled(s, l) && !l.Begin? && !l.Retry?
    ensures ChainOK(Next(s, l).handlers)
  {
    NextKeepsKeys(s, l);
    forall r | r in s.handlers
      ensures Moves(s.handlers[r], Next(s, l).handlers[r])
    {
      NextMoves(s, l, r);
    }
    MovesKeepChain(s.handlers, Next(s, l).handlers);
  }

  // A first attempt.
  lemma BeginChain(hs: map<RequestId, Handler>, rid: RequestId, h: Handler)
    requires ChainOK(hs) && rid !in hs && h.id.after == None && h.id.attempt == 0
    ensures ChainOK(hs[rid := h])
  {
    var hs' := hs[rid := h];
    forall r | r in hs'
      ensures LinkOK(hs', r)
    {
      assert r != rid ==> LinkOK(hs, r);
    }
    assert forall r, p :: After(hs', r, p) ==> After(hs, r, p);
  }

  // A later attempt; nobody follows an attempt that is not marked.
  lemma RetryChainOK(hs: map<RequestId, Handler>, rid: RequestId, h: Handler, p: RequestId)
    requires ChainOK(hs) && rid !in hs && p in hs && !hs[p].retried
    requires h.id.after == Some(p) && Follows(h, hs[p].(retried := true)) && h.id.attempt < MAX_RETRIES
    ensures ChainOK(hs[rid := h][p := hs[p].(retried := true)])
  {
    var hs' := hs[rid := h][p := hs[p].(retried := true)];
    forall r | r in hs'
      ensures LinkOK(hs', r)
    {
      assert r != rid ==> LinkOK(hs, r);
    }
    forall r, q, x | After(hs', r, x) && After(hs', q, x)
      ensures r == q
    {
      assert r != rid ==> After(hs, r, x) && LinkOK(hs, r);
      assert q != rid ==> After(hs, q, x) && LinkOK(hs, q);
    }
  }

  // The attempt that a retry adds, and the one it marks.
  function Repeated(s: System, rid: RequestId, after: RequestId, sendOk: bool): Handler
    requires Enabled(s, Retry(rid, after, sendOk))
  {
    var p := s.handlers[after];
    Started(p.id.mid, s.net.machines[p.id.mid], Answering, CanIncrement(s.net, p.id.mid), sendOk, p.id.attempt + 1, Some(after))
  }

  lemma RetryHandlers(s: System, rid: RequestId, after: RequestId, sendOk: bool)
    requires Enabled(s, Retry(rid, after, sendOk))
    ensures Next(s, Retry(rid, after, sendOk)).handlers
         == s.handlers[rid := Repeated(s, rid, after, sendOk)][after := s.handlers[after].(retried := true)]
  {
  }

  lemma RepeatedFollows(s: System, rid: RequestId, after: RequestId, sendOk: bool)
    requires Enabled(s, Retry(rid, after, sendOk))
    ensures var h := Repeated(s, rid, after, sendOk);
            h.id.after == Some(after) && Follows(h, s.handlers[after].(retried := true)) && h.id.attempt < MAX_RETRIES
  {
  }

  lemma RetryStep(s: System, rid: RequestId, after: RequestId, sendOk: bool)
    requires ChainOK(s.handlers) && Enabled(s, Retry(rid, after, sendOk))
    ensures ChainOK(Next(s, Retry(rid, after, sendOk)).handlers)
  {
    RepeatedFollows(s, rid, after, sendOk);
    RetryChainOK(s.handlers, rid, Repeated(s, rid, after, sendOk), after);
    RetryHandlers(s, rid, after, sendOk);
  }

  lemma StepKeepsChain(s: System, l: Label)
    requires ChainOK(s.handlers)
    ensures ChainOK(Step(s, l).handlers)
  {
    if Enabled(s, l) {
      match l {
        case Begin(rid, mid, kind, sendOk) => BeginChain(s.handlers, rid, Next(s, l).handlers[rid]);
        case Retry(rid, after, sendOk) => RetryStep(s, rid, after, sendOk);
        case _ => QuietChain(s, l);
      }
    }
  }

  lemma {:induction false} ReachedChain(ls: seq<Label>)
    ensures ChainOK(Reached(ls).handlers)
  {
    if ls != [] {
      ReachedChain(ls[..|ls| - 1]);
      StepKeepsChain(Reached(ls[..|ls| - 1]), ls[|ls| - 1]);
    }
  }

  // ----- The attempts of one request -----

  /** The first attempt of the request an attempt belongs to. */
  function Origin(hs: map<RequestId, Handler>, r: RequestId): RequestId
    requires r in hs
    decreases hs[r].id.attempt
  {
    match hs[r].id.after
    case None => r
    case Some(p) => if p in hs && hs[p].id.attempt < hs[r].id.attempt then Origin(hs, p) else r
  }

  lemma {:induction false} SameAttemptIsSame(hs: map<RequestId, Handler>, a: RequestId, b: RequestId)
    requires ChainOK(hs) && a in hs && b in hs && Origin(hs, a) == Origin(hs, b)
    requires hs[a].id.attempt == hs[b].id.attempt
    ensures a == b
    decreases hs[a].id.attempt
  {
    assert LinkOK(hs, a) && LinkOK(hs, b);
    if hs[a].id.after.Some? {
      SameAttemptIsSame(hs, hs[a].id.after.value, hs[b].id.after.value);
      assert After(hs, a, hs[a].id.after.value) && After(hs, b, hs[a].id.after.value);
    }
  }

  lemma {:induction false} EarlierIsOver(hs: map<RequestId, Handler>, a: RequestId, b: RequestId)
    requires ChainOK(hs) && a in hs && b in hs && Origin(hs, a) == Origin(hs, b)
    requires hs[a].id.attempt < hs[b].id.attempt
    ensures Over(hs[a]) && hs[a].result.Some? && hs[a].result.value.Lost?
    decreases hs[b].id.attempt
  {
    assert LinkOK(hs, b);
    var p := hs[b].id.after.value;
    if hs[a].id.attempt == hs[p].id.attempt {
      SameAttemptIsSame(hs, a, p);
    } else {
      EarlierIsOver(hs, a, p);
    }
  }

  lemma {:induction false} OriginMachine(hs: map<RequestId, Handler>, r: RequestId)
    requires ChainOK(hs) && r in hs
    ensures Origin(hs, r) in hs && hs[Origin(hs, r)].id.mid == hs[r].id.mid
    decreases hs[r].id.attempt
  {
    assert LinkOK(hs, r);
    if hs[r].id.after.Some? {
      OriginMachine(hs, hs[r].id.after.value);
    }
  }

  /** In every reachable state the attempts of one request all go to one machine, are fewer than four, and
      at most one of them is not over: a retry never overlaps the attempt it repeats, and never follows an
      attempt that got an answer. */
  lemma AttemptsOfOneRequest(ls: seq<Label>, a: RequestId, b: RequestId)
    requires a in Reached(ls).handlers && b in Reached(ls).handlers
    requires Origin(Reached(ls).handlers, a) == Origin(Reached(ls).handlers, b)
    ensures var x, y := Reached(ls).handlers[a], Reached(ls).handlers[b];
            && x.id.mid == y.id.mid && x.id.attempt < 3
            && (x.id.attempt == y.id.attempt ==> a == b)
            && (!Over(x) && !Over(y) ==> a == b)
            && (x.id.attempt < y.id.attempt ==> x.result.Some? && x.result.value.Lost?)
  {
    var hs := Reached(ls).handlers;
    ReachedChain(ls);
    OriginMachine(hs, a);
    OriginMachine(hs, b);
    assert LinkOK(hs, a) && LinkOK(hs, b);
    if hs[a].id.attempt == hs[b].id.attempt {
      SameAttemptIsSame(hs, a, b);
    } else if hs[a].id.attempt < hs[b].id.attempt {
      EarlierIsOver(hs, a, b);
    } else {
      EarlierIsOver(hs, b, a);
    }
  }
}
