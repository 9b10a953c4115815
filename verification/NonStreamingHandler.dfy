/** handleNonStreamingCompletion and sendNonStreamingRequest as coded, over the registry and with everything
    else going on meanwhile (internal/coord/api.go:396-492). */
module NonStreamingHandler {
  import opened Wire
  import opened RegistryModel
  import opened RegistryFacts
  import opened Sse
  import opened RelayProtocol
  import opened RelayInvariant
  import opened Environment
  import T = RelayTheorems

  /** What happens before the attempt looks again, and whether its deadline has passed then. */
  datatype Wait = Wait(meanwhile: seq<Label>, deadline: bool)

  /** What one attempt goes through: what happens before it, its request id, whether its request could be sent,
      and its waits. */
  datatype Script = Script(before: seq<Label>, rid: RequestId, sendOk: bool, waits: seq<Wait>)

  // ----- The steps of the protocol an attempt takes -----

  /** The label that starts an attempt: a first one, or a retry of a lost one. */
  function StartLabel(mid: MachineId, a: Script, after: Option<RequestId>): Label {
    match after
    case None => Begin(a.rid, mid, Answering, a.sendOk)
    case Some(p) => Retry(a.rid, p, a.sendOk)
  }

  predicate StartEnabled(s: System, mid: MachineId, a: Script, after: Option<RequestId>) {
    Enabled(s, StartLabel(mid, a, after)) && (after.Some? ==> s.handlers[after.value].id.mid == mid)
  }

  function AttemptOf(s: System, after: Option<RequestId>): nat
    requires after.Some? ==> after.value in s.handlers
  {
    if after.Some? then s.handlers[after.value].id.attempt + 1 else 0
  }

  /** Where an attempt stands: what it is, whether it waits, and what it holds. */
  datatype Place = Place(mid: MachineId, sid: SessionId, attempt: nat, after: Option<RequestId>)

  predicate At(s: System, rid: RequestId, p: Place) {
    && rid in s.handlers
    && var h := s.handlers[rid];
       h.id.kind == Answering && h.id.mid == p.mid && h.id.sid == p.sid && h.id.attempt == p.attempt && h.id.after == p.after && h.id.took
  }

  predicate Waiting(s: System, rid: RequestId, p: Place) {
    && At(s, rid, p)
    && var h := s.handlers[rid]; h.waiting && h.holding && h.hooked && !h.retried && h.releases == 0
  }

  predicate Answered(s: System, rid: RequestId, p: Place, result: AttemptResult, holding: bool, hooked: bool) {
    && At(s, rid, p)
    && var h := s.handlers[rid];
       && !h.waiting && h.result == Some(result) && !h.retried
       && h.holding == holding && h.hooked == hooked && h.releases == (if holding then 0 else 1)
  }

  lemma StartStep(s: System, mid: MachineId, a: Script, after: Option<RequestId>)
    requires StartEnabled(s, mid, a, after) && CanIncrement(s.net, mid)
    ensures var s' := Step(s, StartLabel(mid, a, after));
            var p := Place(mid, s.net.machines[mid], AttemptOf(s, after), after);
            && s'.net == Admit(s.net, mid, a.rid, ANSWER_BUFFER)
            && (if a.sendOk then Waiting(s', a.rid, p) else Answered(s', a.rid, p, Lost(SendFailed), true, true))
  {
  }

  lemma AdmitParts(n: Net, mid: MachineId, rid: RequestId, cap: nat)
    requires WellFormed(n) && CanIncrement(n, mid) && rid !in n.chans
    ensures Admit(n, mid, rid, cap) == Hook(IncrementLoad(n, mid), n.machines[mid], rid, cap)
    ensures var n' := IncrementLoad(n, mid); n.machines[mid] in n'.sessions && !n'.sessions[n.machines[mid]].nilMap
  {
    var sid := n.machines[mid];
    var s := n.sessions[sid];
    assert Hook(n, sid, rid, cap).sessions[sid] == s.(chans := s.chans + {rid});
  }

  lemma ReceiveStep(s: System, rid: RequestId, p: Place)
    requires Waiting(s, rid, p) && rid in s.net.chans && Receivable(s.net.chans[rid]) != NotReady
    ensures var s' := Step(s, Receive(rid));
            match Receivable(s.net.chans[rid])
            case Value(r) => s'.net == Take(s.net, rid) && Answered(s', rid, p, OnAnswer(r), true, true)
            case ClosedNow => s'.net == s.net && Answered(s', rid, p, Lost(Offline), true, true)
            case NotReady => true
  {
    assert CanReceive(s, rid);
  }

  lemma DeadlineStep(s: System, rid: RequestId, p: Place)
    requires Waiting(s, rid, p)
    ensures var s' := Step(s, Select(rid, TotalTimeout));
            s'.net == s.net && Answered(s', rid, p, Lost(AttemptTimeout), true, true)
  {
  }

  lemma GiveUpStep(s: System, rid: RequestId, p: Place, result: AttemptResult)
    requires Answered(s, rid, p, result, true, true)
    ensures var s' := Step(s, GiveUpChannel(rid)); s'.net == Unhook(s.net, p.sid, rid) && Answered(s', rid, p, result, true, false)
  {
  }

  lemma ReleaseStep(s: System, rid: RequestId, p: Place, result: AttemptResult)
    requires Answered(s, rid, p, result, true, false)
    ensures var s' := Step(s, Release(rid)); s'.net == DecrementLoad(s.net, p.mid) && Answered(s', rid, p, result, false, false)
  {
  }

  // ----- What they leave alone -----

  predicate Own(l: Label, rid: RequestId) {
    (l.Receive? || l.Select? || l.GiveUpChannel? || l.Release?) && l.rid == rid
  }

  lemma OwnStep(s: System, l: Label, rid: RequestId, rids: set<RequestId>)
    requires Own(l, rid) && rid !in rids
    ensures Untouched(s, Step(s, l), rids)
  {
  }

  lemma UntouchedPart(s: System, s': System, rids: set<RequestId>, part: set<RequestId>)
    requires Untouched(s, s', rids) && part <= rids
    ensures Untouched(s, s', part)
  {
  }

  // One label of the attempt, after others.
  lemma OwnLabel(origin: System, before: System, s: System, ls: seq<Label>, l: Label, rid: RequestId, others: set<RequestId>)
    requires s == Run(origin, ls) && Own(l, rid) && rid !in others && Untouched(before, s, others)
    ensures Step(s, l) == Run(origin, ls + [l]) && Untouched(before, Step(s, l), others)
  {
    RunSnoc(origin, ls, l);
    OwnStep(s, l, rid, others);
    UntouchedOn(before, s, Step(s, l), others);
  }

  lemma StillWaiting(s: System, s': System, rid: RequestId, p: Place, rids: set<RequestId>)
    requires Waiting(s, rid, p) && Untouched(s, s', rids) && rid in rids && Inv(s')
    ensures Waiting(s', rid, p) && rid in s'.net.chans
  {
    PlacedHandler(s', rid);
  }

  // ----- The attempt -----

  // What goes on before the attempt looks again.
  method Between(reg: R.Registry, ghost origin: System, ghost before: System, s: System, ghost ls: seq<Label>,
                 rid: RequestId, ghost p: Place, events: seq<Label>, mine: set<RequestId>)
      returns (s': System, ghost ls': seq<Label>)
    requires Inv(origin) && Tracks(reg, origin, s, ls) && Waiting(s, rid, p) && rid in mine && Untouched(before, s, mine - {rid})
    modifies reg
    ensures Tracks(reg, origin, s', ls') && Waiting(s', rid, p) && rid in s'.net.chans && Untouched(before, s', mine - {rid})
  {
    RunKeepsInv(origin, ls);
    s' := Meanwhile(reg, s, events, mine);
    RunAppend(origin, ls, OthersOf(events, mine));
    ls' := ls + OthersOf(events, mine);
    StillWaiting(s, s', rid, p, mine);
    UntouchedPart(s, s', mine, mine - {rid});
    UntouchedOn(before, s, s', mine - {rid});
  }

  // The select: one receive, or the deadline.
  method Look(reg: R.Registry, ghost origin: System, ghost before: System, s: System, ghost ls: seq<Label>,
              rid: RequestId, ghost p: Place, deadline: bool, ghost others: set<RequestId>)
      returns (result: Option<AttemptResult>, s': System, ghost ls': seq<Label>)
    requires Inv(origin) && Tracks(reg, origin, s, ls) && Waiting(s, rid, p) && rid in s.net.chans && rid !in others && Untouched(before, s, others)
    modifies reg
    ensures Tracks(reg, origin, s', ls') && Untouched(before, s', others)
    ensures if result.Some? then Answered(s', rid, p, result.value, true, true) else Waiting(s', rid, p)
    ensures deadline ==> result.Some?
  {
    if deadline {
      DeadlineStep(s, rid, p);
      OwnLabel(origin, before, s, ls, Select(rid, TotalTimeout), rid, others);
      return Some(Lost(AttemptTimeout)), Step(s, Select(rid, TotalTimeout)), ls + [Select(rid, TotalTimeout)];
    }
    var got := reg.TryReceive(rid);
    if got.NotReady? {
      return None, s, ls;
    }
    ReceiveStep(s, rid, p);
    OwnLabel(origin, before, s, ls, Receive(rid), rid, others);
    s', ls' := Step(s, Receive(rid)), ls + [Receive(rid)];
    match got {
      case ClosedNow => result := Some(Lost(Offline));
      case Value(cr) =>
        if cr.err != "" {
          result := Some(Lost(ProviderFailed(cr.err)));
        } else {
          var finish := Stop;
          if cr.toolCalls != "" {
            finish := ToolCalls;
          }
          result := Some(Got(Answer(cr.content, cr.toolCalls, finish, cr.tokens)));
        }
    }
  }

  // Waiting for the answer; when the script is used up the deadline has passed.
  method Await(reg: R.Registry, ghost origin: System, ghost before: System, s: System, ghost ls: seq<Label>,
               rid: RequestId, ghost p: Place, waits: seq<Wait>, mine: set<RequestId>)
      returns (result: AttemptResult, s': System, ghost ls': seq<Label>)
    requires Inv(origin) && Tracks(reg, origin, s, ls) && Waiting(s, rid, p) && rid in mine && Untouched(before, s, mine - {rid})
    modifies reg
    ensures Tracks(reg, origin, s', ls') && Answered(s', rid, p, result, true, true) && Untouched(before, s', mine - {rid})
  {
    s', ls' := s, ls;
    var i := 0;
    while true
      invariant i <= |waits|
      invariant Tracks(reg, origin, s', ls') && Waiting(s', rid, p) && Untouched(before, s', mine - {rid})
      decreases |waits| - i
    {
      var wait := if i < |waits| then waits[i] else Wait([], true);
      var found;
      s', ls' := Between(reg, origin, before, s', ls', rid, p, wait.meanwhile, mine);
      found, s', ls' := Look(reg, origin, before, s', ls', rid, p, wait.deadline, mine - {rid});
      if found.Some? {
        return found.value, s', ls';
      }
      i := i + 1;
    }
  }

  // The deferred calls, last one first.
  method Leave(reg: R.Registry, ghost origin: System, ghost before: System, s: System, ghost ls: seq<Label>,
               rid: RequestId, p: Place, ghost result: AttemptResult, ghost others: set<RequestId>)
      returns (s': System, ghost ls': seq<Label>)
    requires Inv(origin) && Tracks(reg, origin, s, ls) && Answered(s, rid, p, result, true, true) && rid !in others && Untouched(before, s, others)
    modifies reg
    ensures Tracks(reg, origin, s', ls') && Answered(s', rid, p, result, false, false) && Untouched(before, s', others)
  {
    RunKeepsInv(origin, ls);
    PlacedHandler(s, rid);
    GiveUpStep(s, rid, p, result);
    OwnLabel(origin, before, s, ls, GiveUpChannel(rid), rid, others);
    reg.UnregisterChunkChannel(p.sid, rid);
    s', ls' := Step(s, GiveUpChannel(rid)), ls + [GiveUpChannel(rid)];
    ReleaseStep(s', rid, p, result);
    OwnLabel(origin, before, s', ls', Release(rid), rid, others);
    reg.DecrementLoad(p.mid);
    s', ls' := Step(s', Release(rid)), ls' + [Release(rid)];
  }

  // Takes the slot and then hooks the channel, as the code does before it sends.
  method TakeAndHook(reg: R.Registry, mid: MachineId, sid: SessionId, rid: RequestId) returns (ok: bool)
    requires reg.Valid() && Online(reg.Net(), mid) && sid == reg.machines[mid]
    requires CanIncrement(reg.Net(), mid) ==> rid !in reg.chans
    modifies reg
    ensures ok == CanIncrement(old(reg.Net()), mid)
    ensures reg.Net() == if ok then Admit(old(reg.Net()), mid, rid, ANSWER_BUFFER) else old(reg.Net())
  {
    if CanIncrement(reg.Net(), mid) {
      AdmitParts(reg.Net(), mid, rid, ANSWER_BUFFER);
    }
    ok := reg.IncrementLoad(mid);
    if ok {
      reg.RegisterChunkChannel(sid, rid, ANSWER_BUFFER);
    }
  }

  // From the slot on: send, await, leave.
  method SendAndAwait(reg: R.Registry, ghost origin: System, s: System, ghost ls: seq<Label>, a: Script, p: Place, mine: set<RequestId>)
      returns (result: AttemptResult, s': System, ghost ls': seq<Label>)
    requires Inv(origin) && Tracks(reg, origin, s, ls) && a.rid in mine
    requires if a.sendOk then Waiting(s, a.rid, p) else Answered(s, a.rid, p, Lost(SendFailed), true, true)
    modifies reg
    ensures Tracks(reg, origin, s', ls') && Answered(s', a.rid, p, result, false, false) && Untouched(s, s', mine - {a.rid})
  {
    s', ls' := s, ls;
    if !a.sendOk {
      result := Lost(SendFailed);
    } else {
      result, s', ls' := Await(reg, origin, s, s', ls', a.rid, p, a.waits, mine);
    }
    s', ls' := Leave(reg, origin, s, s', ls', a.rid, p, result, mine - {a.rid});
  }

  lemma Begun(s: System, mid: MachineId, a: Script, after: Option<RequestId>)
    requires Inv(s) && StartEnabled(s, mid, a, after)
    ensures a.rid !in s.net.chans
    ensures var l := StartLabel(mid, a, after); Step(s, l) == Run(s, [] + [l])
  {
    UnknownHasNoChannel(s, a.rid);
    NotKnown(s, mid, a, after);
    RunSnoc(s, [], StartLabel(mid, a, after));
  }

  lemma UnknownHasNoChannel(s: System, rid: RequestId)
    requires Inv(s)
    ensures rid in s.net.chans <==> rid in s.handlers
  {
  }

  lemma NotKnown(s: System, mid: MachineId, a: Script, after: Option<RequestId>)
    requires StartEnabled(s, mid, a, after)
    ensures a.rid !in s.handlers
  {
  }

  /** sendNonStreamingRequest. On a full machine it changes nothing. Otherwise, whatever happens meanwhile, what
      it does to the registry is a run of the protocol, and when it returns the attempt is over with that
      result: channel unhooked, slot released exactly once. The result reports the message it received, or that
      it received none. */
  method SendNonStreamingRequest(reg: R.Registry, s: System, mid: MachineId, a: Script, after: Option<RequestId>, mine: set<RequestId>)
      returns (result: AttemptResult, s': System, ghost ls: seq<Label>)
    requires reg.Net() == s.net && Inv(s) && Online(s.net, mid) && a.rid in mine
    requires after.Some? ==> after.value in s.handlers
    requires CanIncrement(s.net, mid) ==> StartEnabled(s, mid, a, after)
    modifies reg
    ensures Tracks(reg, s, s', ls)
    ensures !CanIncrement(s.net, mid) ==> result == Lost(Busy) && s' == s
    ensures CanIncrement(s.net, mid) ==>
      && Answered(s', a.rid, Place(mid, s.net.machines[mid], AttemptOf(s, after), after), result, false, false)
      && Untouched(Step(s, StartLabel(mid, a, after)), s', mine - {a.rid})
      && T.ReportsWhatItGot(s'.handlers[a.rid])
  {
    var p := Place(mid, reg.machines[mid], AttemptOf(s, after), after);
    if CanIncrement(s.net, mid) {
      StartStep(s, mid, a, after);
      Begun(s, mid, a, after);
    }
    var ok := TakeAndHook(reg, mid, p.sid, a.rid);
    if !ok {
      return Lost(Busy), s, [];
    }
    result, s', ls := SendAndAwait(reg, s, Step(s, StartLabel(mid, a, after)), [] + [StartLabel(mid, a, after)], a, p, mine);
    ReportedInTheEnd(s, s', ls, a.rid);
  }

  lemma ReportedInTheEnd(origin: System, s: System, ls: seq<Label>, rid: RequestId)
    requires Inv(origin) && s == Run(origin, ls) && rid in s.handlers && s.handlers[rid].id.kind == Answering && !s.handlers[rid].waiting
    ensures T.ReportsWhatItGot(s.handlers[rid])
  {
    RunKeepsInv(origin, ls);
    assert Good(s.net, s.handlers[rid], rid);
    T.AnswerIsReport(s.handlers[rid], s.net.chans[rid], Attached(s.net, s.handlers[rid].id.sid, rid));
  }

  // ----- The retry loop -----

  datatype Reply = Replied(answer: Answer) | MachineFailed

  /** The k-th attempt: on this machine, after the one before it, over, with its slot released once. */
  predicate AttemptDone(hs: map<RequestId, Handler>, tries: seq<Script>, k: nat, mid: MachineId)
    requires k < |tries|
  {
    && tries[k].rid in hs
    && var h := hs[tries[k].rid];
       && h.id.kind == Answering && h.id.mid == mid && h.id.attempt == k && h.id.took
       && h.id.after == (if k == 0 then None else Some(tries[k - 1].rid))
       && !h.waiting && !h.holding && !h.hooked && h.releases == 1 && h.result.Some?
  }

  predicate LostOne(hs: map<RequestId, Handler>, rid: RequestId) {
    rid in hs && hs[rid].result.Some? && hs[rid].result.value.Lost?
  }

  /** n attempts were made, each after the one before was lost; the others are unknown. */
  ghost predicate Made(hs: map<RequestId, Handler>, tries: seq<Script>, n: nat, mid: MachineId) {
    && n <= |tries|
    && (forall k :: 0 <= k < n ==> AttemptDone(hs, tries, k, mid))
    && (forall k :: 0 <= k < n - 1 ==> LostOne(hs, tries[k].rid))
    && (n > 0 ==> tries[n - 1].rid in hs && !hs[tries[n - 1].rid].retried)
    && (forall k :: n <= k < |tries| ==> tries[k].rid !in hs)
  }

  predicate Distinct(tries: seq<Script>) {
    forall j, k :: 0 <= j < k < |tries| ==> tries[j].rid != tries[k].rid
  }

  function Rids(tries: seq<Script>): set<RequestId> {
    set k | 0 <= k < |tries| :: tries[k].rid
  }

  lemma MadeStays(s: System, s': System, tries: seq<Script>, n: nat, mid: MachineId)
    requires Made(s.handlers, tries, n, mid) && Untouched(s, s', Rids(tries))
    ensures Made(s'.handlers, tries, n, mid)
  {
    forall k | 0 <= k < |tries|
      ensures tries[k].rid in s'.handlers <==> tries[k].rid in s.handlers
      ensures tries[k].rid in s.handlers ==> SameHandler(s.handlers[tries[k].rid], s'.handlers[tries[k].rid])
    {
      assert tries[k].rid in Rids(tries);
    }
    forall k | 0 <= k < n
      ensures AttemptDone(s'.handlers, tries, k, mid)
    {
      assert AttemptDone(s.handlers, tries, k, mid);
    }
    forall k | 0 <= k < n - 1
      ensures LostOne(s'.handlers, tries[k].rid)
    {
      assert LostOne(s.handlers, tries[k].rid);
    }
  }

  /** The machine admits a retry. */
  predicate Admits(n: Net, mid: MachineId) {
    Online(n, mid) && Current(n, mid).backendOK && CanIncrement(n, mid)
  }

  function Previous(tries: seq<Script>, n: nat): Option<RequestId>
    requires n < |tries|
  {
    if n == 0 then None else Some(tries[n - 1].rid)
  }

  // What the code knows when it tries again is all that a retry of the protocol asks for.
  lemma RetryIsEnabled(s: System, tries: seq<Script>, n: nat, mid: MachineId)
    requires Made(s.handlers, tries, n, mid) && n < |tries| <= MAX_RETRIES && Admits(s.net, mid)
    requires n > 0 ==> LostOne(s.handlers, tries[n - 1].rid)
    ensures StartEnabled(s, mid, tries[n], Previous(tries, n))
    ensures n > 0 ==> AttemptOf(s, Previous(tries, n)) == n
  {
    if n > 0 {
      assert AttemptDone(s.handlers, tries, n - 1, mid);
    }
  }

  /** The attempt is the same, but for its log and for being marked as retried. */
  predicate SameAttempt(h: Handler, h': Handler) {
    h' == h.(log := h'.log, retried := h'.retried)
  }

  lemma StartLeaves(s: System, mid: MachineId, a: Script, after: Option<RequestId>, r: RequestId)
    requires StartEnabled(s, mid, a, after) && r != a.rid
    ensures var s' := Step(s, StartLabel(mid, a, after));
            (r in s'.handlers <==> r in s.handlers) && (r in s.handlers ==> SameAttempt(s.handlers[r], s'.handlers[r]))
  {
  }

  lemma OthersKept(s: System, s': System, tries: seq<Script>, n: nat, mid: MachineId, k: nat)
    requires n < |tries| && k < |tries| && k != n && Distinct(tries)
    requires StartEnabled(s, mid, tries[n], Previous(tries, n))
    requires Untouched(Step(s, StartLabel(mid, tries[n], Previous(tries, n))), s', Rids(tries) - {tries[n].rid})
    ensures tries[k].rid in s'.handlers <==> tries[k].rid in s.handlers
    ensures tries[k].rid in s.handlers ==> SameAttempt(s.handlers[tries[k].rid], s'.handlers[tries[k].rid])
  {
    StartLeaves(s, mid, tries[n], Previous(tries, n), tries[k].rid);
    assert tries[k].rid in Rids(tries);
  }

  lemma OneMoreMade(s: System, s': System, tries: seq<Script>, n: nat, mid: MachineId, p: Place, result: AttemptResult)
    requires Made(s.handlers, tries, n, mid) && n < |tries| && Distinct(tries)
    requires n > 0 ==> LostOne(s.handlers, tries[n - 1].rid)
    requires StartEnabled(s, mid, tries[n], Previous(tries, n))
    requires Untouched(Step(s, StartLabel(mid, tries[n], Previous(tries, n))), s', Rids(tries) - {tries[n].rid})
    requires Answered(s', tries[n].rid, p, result, false, false)
    requires p.mid == mid && p.attempt == n && p.after == Previous(tries, n)
    ensures Made(s'.handlers, tries, n + 1, mid) && s'.handlers[tries[n].rid].result == Some(result)
  {
    forall k | 0 <= k < |tries| && k != n
      ensures tries[k].rid in s'.handlers <==> tries[k].rid in s.handlers
      ensures tries[k].rid in s.handlers ==> SameAttempt(s.handlers[tries[k].rid], s'.handlers[tries[k].rid])
    {
      OthersKept(s, s', tries, n, mid, k);
    }
    forall k | 0 <= k < n + 1
      ensures AttemptDone(s'.handlers, tries, k, mid)
    {
      if k < n {
        assert AttemptDone(s.handlers, tries, k, mid);
      }
    }
    forall k | 0 <= k < n
      ensures LostOne(s'.handlers, tries[k].rid)
    {
      assert LostOne(s.handlers, tries[k].rid);
    }
  }

  // The look at the session before a retry.
  method StillAdmits(reg: R.Registry, mid: MachineId) returns (ok: bool)
    ensures ok == Admits(reg.Net(), mid)
  {
    var sess := reg.GetSession(mid);
    if sess.None? || !reg.sessions[sess.value].backendOK {
      return false;
    }
    if reg.sessions[sess.value].load >= reg.sessions[sess.value].max {
      return false;
    }
    return true;
  }

  // What goes on between two attempts.
  method Pause(reg: R.Registry, ghost origin: System, s: System, ghost ls: seq<Label>, mid: MachineId,
               tries: seq<Script>, n: nat)
      returns (s': System, ghost ls': seq<Label>)
    requires Inv(origin) && Tracks(reg, origin, s, ls) && Made(s.handlers, tries, n, mid) && 0 < n < |tries| && LostOne(s.handlers, tries[n - 1].rid)
    modifies reg
    ensures Tracks(reg, origin, s', ls') && Made(s'.handlers, tries, n, mid) && LostOne(s'.handlers, tries[n - 1].rid)
  {
    RunKeepsInv(origin, ls);
    s' := Meanwhile(reg, s, tries[n].before, Rids(tries));
    RunAppend(origin, ls, OthersOf(tries[n].before, Rids(tries)));
    ls' := ls + OthersOf(tries[n].before, Rids(tries));
    MadeStays(s, s', tries, n, mid);
    assert tries[n - 1].rid in Rids(tries);
  }

  // One attempt that the machine admits.
  method Attempt(reg: R.Registry, ghost origin: System, s: System, ghost ls: seq<Label>, mid: MachineId,
                 tries: seq<Script>, n: nat)
      returns (result: AttemptResult, s': System, ghost ls': seq<Label>)
    requires Inv(origin) && Tracks(reg, origin, s, ls) && Made(s.handlers, tries, n, mid) && n < |tries| <= MAX_RETRIES && Distinct(tries)
    requires n > 0 ==> LostOne(s.handlers, tries[n - 1].rid)
    requires Admits(s.net, mid)
    modifies reg
    ensures Tracks(reg, origin, s', ls') && Made(s'.handlers, tries, n + 1, mid)
    ensures s'.handlers[tries[n].rid].result == Some(result)
  {
    RunKeepsInv(origin, ls);
    RetryIsEnabled(s, tries, n, mid);
    assert tries[n].rid in Rids(tries);
    ghost var own;
    result, s', own := SendNonStreamingRequest(reg, s, mid, tries[n], Previous(tries, n), Rids(tries));
    RunAppend(origin, ls, own);
    ls' := ls + own;
    OneMoreMade(s, s', tries, n, mid, Place(mid, s.net.machines[mid], AttemptOf(s, Previous(tries, n)), Previous(tries, n)), result);
  }

  // One turn of the loop; later turns look at the session first, and may find that the machine no longer admits.
  method TryOnce(reg: R.Registry, ghost origin: System, s: System, ghost ls: seq<Label>, mid: MachineId,
                 tries: seq<Script>, n: nat)
      returns (result: Option<AttemptResult>, s': System, ghost ls': seq<Label>)
    requires Inv(origin) && Tracks(reg, origin, s, ls) && Made(s.handlers, tries, n, mid) && n < |tries| <= MAX_RETRIES && Distinct(tries)
    requires if n == 0 then Admits(s.net, mid) else LostOne(s.handlers, tries[n - 1].rid)
    modifies reg
    ensures Tracks(reg, origin, s', ls')
    ensures result.None? ==> n > 0 && Made(s'.handlers, tries, n, mid) && LostOne(s'.handlers, tries[n - 1].rid) && !Admits(s'.net, mid)
    ensures result.Some? ==> Made(s'.handlers, tries, n + 1, mid) && s'.handlers[tries[n].rid].result == result
  {
    s', ls' := s, ls;
    if n > 0 {
      s', ls' := Pause(reg, origin, s, ls, mid, tries, n);
      var ok := StillAdmits(reg, mid);
      if !ok {
        return None, s', ls';
      }
    }
    var got;
    got, s', ls' := Attempt(reg, origin, s', ls', mid, tries, n);
    result := Some(got);
  }

  /** The reply is the last attempt's answer; or the last attempt was lost, and no other is allowed. */
  predicate Concludes(reply: Reply, s: System, tries: seq<Script>, n: nat, mid: MachineId)
    requires 0 < n <= |tries|
  {
    match reply
    case Replied(answer) => tries[n - 1].rid in s.handlers && s.handlers[tries[n - 1].rid].result == Some(Got(answer))
    case MachineFailed => LostOne(s.handlers, tries[n - 1].rid) && (n == 3 || !Admits(s.net, mid))
  }

  /** handleNonStreamingCompletion, called on a machine that was just found to admit a request. What it does to
      the registry is a run of the protocol. It makes at most three attempts, all on this machine, each over
      before the next begins and with its slot released once, all but the last lost. It replies with the last
      one's answer if that got one, which is what the message it received says, and otherwise stopped because three were made or the machine no longer
      admitted one. */
  method HandleNonStreamingCompletion(reg: R.Registry, s: System, mid: MachineId, tries: seq<Script>)
      returns (reply: Reply, n: nat, s': System, ghost ls: seq<Label>)
    requires reg.Net() == s.net && Inv(s) && Admits(s.net, mid)
    requires |tries| == MAX_RETRIES && Distinct(tries) && forall k :: 0 <= k < |tries| ==> tries[k].rid !in s.handlers
    modifies reg
    ensures Tracks(reg, s, s', ls) && 0 < n <= 3 && Made(s'.handlers, tries, n, mid)
    ensures Concludes(reply, s', tries, n, mid)
    ensures reply.Replied? ==> T.ReportsWhatItGot(s'.handlers[tries[n - 1].rid])
  {
    s', ls, n := s, [], 0;
    while n < MAX_RETRIES
      invariant n <= MAX_RETRIES
      invariant Tracks(reg, s, s', ls) && Made(s'.handlers, tries, n, mid)
      invariant if n == 0 then s' == s else LostOne(s'.handlers, tries[n - 1].rid)
    {
      var result;
      result, s', ls := TryOnce(reg, s, s', ls, mid, tries, n);
      if result.None? {
        return MachineFailed, n, s', ls;
      }
      n := n + 1;
      if result.value.Got? {
        assert AttemptDone(s'.handlers, tries, n - 1, mid);
        ReportedInTheEnd(s, s', ls, tries[n - 1].rid);
        return Replied(result.value.answer), n, s', ls;
      }
    }
    reply := MachineFailed;
  }
}
