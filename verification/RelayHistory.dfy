/** The history kept in a handler's log is what the labels of the run say: what its machine said about the
    request since the handler began, whether any of it met a full buffer, and whether a terminal message was
    relayed. */
module RelayHistory {
  import opened Wire
  import opened RegistryModel
  import opened RegistryFacts
  import opened Sse
  import opened RelayProtocol
  import opened RelayInvariant

  lemma HandlerFacts(ls: seq<Label>, rid: RequestId)
    requires rid in Reached(ls).handlers
    ensures Good(Reached(ls).net, Reached(ls).handlers[rid], rid)
  {
    ReachedInv(ls);
  }

  // ----- What was said -----

  /** What a step has a machine's provider say about a request. */
  function Said(l: Label, mid: MachineId, rid: RequestId): seq<ProviderMsg> {
    if l.FromProvider? && l.mid == mid && l.msg.rid == rid then [l.msg] else []
  }

  function Spoken(ls: seq<Label>, mid: MachineId, rid: RequestId): seq<ProviderMsg> {
    if ls == [] then [] else Spoken(ls[..|ls| - 1], mid, rid) + Said(ls[|ls| - 1], mid, rid)
  }

  /** The step of the run at which the handler began. */
  function StartOf(ls: seq<Label>, rid: RequestId): (k: nat)
    requires rid in Reached(ls).handlers
    ensures k < |ls|
  {
    var before := ls[..|ls| - 1];
    if rid in Reached(before).handlers then StartOf(before, rid) else |before|
  }

  /** What the handler's own machine said about its own request from then on. */
  function SpokenSince(ls: seq<Label>, rid: RequestId): seq<ProviderMsg>
    requires rid in Reached(ls).handlers
  {
    Spoken(ls[StartOf(ls, rid) + 1..], Reached(ls).handlers[rid].id.mid, rid)
  }

  // ----- What became of it -----

  /** The step relays a message to the handler's channel, which its machine's session still has. */
  predicate Arrives(s: System, l: Label, rid: RequestId) {
    && l.FromProvider? && l.msg.rid == rid && rid in s.handlers && l.mid == s.handlers[rid].id.mid
    && Waits(s.net, l.mid, rid)
  }

  /** A message meets a full buffer and is dropped. */
  predicate Drops(s: System, l: Label, rid: RequestId) {
    Arrives(s, l, rid) && |s.net.chans[rid].buf| >= s.net.chans[rid].cap
  }

  /** A terminal message is relayed, dropped or not: the channel is unhooked. */
  predicate Settles(s: System, l: Label, rid: RequestId) {
    Arrives(s, l, rid) && Terminal(l.msg)
  }

  ghost predicate WasDropped(ls: seq<Label>, rid: RequestId) {
    exists i :: 0 <= i < |ls| && Drops(Reached(ls[..i]), ls[i], rid)
  }

  ghost predicate WasSettled(ls: seq<Label>, rid: RequestId) {
    exists i :: 0 <= i < |ls| && Settles(Reached(ls[..i]), ls[i], rid)
  }

  // ----- One step -----

  /** What a step adds to the log. */
  predicate LogMoves(s: System, l: Label, h: Handler, h': Handler, rid: RequestId) {
    && h'.id == h.id
    && h'.log.sent == h.log.sent + Said(l, h.id.mid, rid)
    && h'.log.overflow == (h.log.overflow || Drops(s, l, rid))
    && h'.log.settled == (h.log.settled || Settles(s, l, rid))
  }

  lemma NextLogHere(s: System, l: Label, rid: RequestId)
    requires Enabled(s, l) && rid in s.handlers && rid in s.net.chans && rid in Touched(s, l)
    ensures rid in Next(s, l).handlers && LogMoves(s, l, s.handlers[rid], Next(s, l).handlers[rid], rid)
  {
  }

  lemma NextLog(s: System, l: Label, rid: RequestId)
    requires WellFormed(s.net) && Enabled(s, l) && rid in s.handlers && Placed(s.net, s.handlers[rid], rid)
    ensures rid in Next(s, l).handlers && LogMoves(s, l, s.handlers[rid], Next(s, l).handlers[rid], rid)
  {
    if rid in Touched(s, l) {
      NextLogHere(s, l, rid);
    } else {
      NextElsewhere(s, l, rid);
    }
  }

  lemma StepLog(s: System, l: Label, rid: RequestId)
    requires Inv(s) && rid in s.handlers
    ensures rid in Step(s, l).handlers && LogMoves(s, l, s.handlers[rid], Step(s, l).handlers[rid], rid)
  {
    HandlerPlaced(s, rid);
    if Enabled(s, l) {
      NextLog(s, l, rid);
    } else {
      LogRests(s, l, rid);
    }
  }

  lemma HandlerPlaced(s: System, rid: RequestId)
    requires Inv(s) && rid in s.handlers
    ensures WellFormed(s.net) && Placed(s.net, s.handlers[rid], rid)
  {
    assert Good(s.net, s.handlers[rid], rid);
  }

  // A label that is not enabled is not a message.
  lemma LogRests(s: System, l: Label, rid: RequestId)
    requires !Enabled(s, l) && rid in s.handlers
    ensures LogMoves(s, l, s.handlers[rid], s.handlers[rid], rid)
  {
    assert !l.FromProvider?;
  }

  lemma NewLog(s: System, l: Label, rid: RequestId)
    requires rid !in s.handlers && rid in Step(s, l).handlers
    ensures (l.Begin? || l.Retry?) && l.rid == rid
    ensures Step(s, l).handlers[rid].log == History([], [], false, false)
  {
  }

  // ----- The run -----

  lemma SpokenGrows(before: seq<Label>, l: Label, k: nat, mid: MachineId, rid: RequestId)
    requires k <= |before|
    ensures Spoken((before + [l])[k..], mid, rid) == Spoken(before[k..], mid, rid) + Said(l, mid, rid)
  {
    assert (before + [l])[k..] == before[k..] + [l];
    assert (before[k..] + [l])[..|before[k..]|] == before[k..];
  }

  lemma WasDroppedSnoc(before: seq<Label>, l: Label, rid: RequestId)
    ensures WasDropped(before + [l], rid) <==> WasDropped(before, rid) || Drops(Reached(before), l, rid)
  {
    var ls := before + [l];
    assert forall i :: 0 <= i <= |before| ==> ls[..i] == before[..i];
    assert before[..|before|] == before && ls[|before|] == l;
  }

  lemma WasSettledSnoc(before: seq<Label>, l: Label, rid: RequestId)
    ensures WasSettled(before + [l], rid) <==> WasSettled(before, rid) || Settles(Reached(before), l, rid)
  {
    var ls := before + [l];
    assert forall i :: 0 <= i <= |before| ==> ls[..i] == before[..i];
    assert before[..|before|] == before && ls[|before|] == l;
  }

  lemma {:induction false} HandlersStay(ls: seq<Label>, i: nat, rid: RequestId)
    requires i <= |ls| && rid in Reached(ls[..i]).handlers
    ensures rid in Reached(ls).handlers
  {
    if i == |ls| {
      assert ls[..i] == ls;
    } else {
      var before := ls[..|ls| - 1];
      assert before[..i] == ls[..i];
      HandlersStay(before, i, rid);
      ReachedInv(before);
      StepLog(Reached(before), ls[|ls| - 1], rid);
    }
  }

  lemma NothingBefore(ls: seq<Label>, rid: RequestId)
    requires rid !in Reached(ls).handlers
    ensures !WasDropped(ls, rid) && !WasSettled(ls, rid)
  {
    forall i | 0 <= i < |ls|
      ensures !Arrives(Reached(ls[..i]), ls[i], rid)
    {
      if rid in Reached(ls[..i]).handlers {
        HandlersStay(ls, i, rid);
      }
    }
  }

  /** The handler began with a Begin or a Retry of its id, which nobody had before. */
  lemma {:induction false} StartIsABeginning(ls: seq<Label>, rid: RequestId)
    requires rid in Reached(ls).handlers
    ensures var k := StartOf(ls, rid);
            (ls[k].Begin? || ls[k].Retry?) && ls[k].rid == rid && rid !in Reached(ls[..k]).handlers
  {
    var before := ls[..|ls| - 1];
    if rid in Reached(before).handlers {
      StartIsABeginning(before, rid);
      assert before[..StartOf(before, rid)] == ls[..StartOf(before, rid)];
    } else {
      NewLog(Reached(before), ls[|ls| - 1], rid);
    }
  }

  /** The log says what the labels say. */
  ghost predicate LogSays(g: History, said: seq<ProviderMsg>, dropped: bool, settled: bool) {
    g.sent == said && g.overflow == dropped && g.settled == settled
  }

  lemma SinceGrows(before: seq<Label>, l: Label, rid: RequestId)
    requires rid in Reached(before).handlers && rid in Reached(before + [l]).handlers
    requires Reached(before + [l]).handlers[rid].id == Reached(before).handlers[rid].id
    ensures SpokenSince(before + [l], rid) == SpokenSince(before, rid) + Said(l, Reached(before).handlers[rid].id.mid, rid)
  {
    assert (before + [l])[..|before|] == before;
    SpokenGrows(before, l, StartOf(before, rid) + 1, Reached(before).handlers[rid].id.mid, rid);
  }

  lemma SinceStarts(before: seq<Label>, l: Label, rid: RequestId)
    requires rid !in Reached(before).handlers && rid in Reached(before + [l]).handlers
    ensures SpokenSince(before + [l], rid) == []
  {
    assert (before + [l])[..|before|] == before;
    assert (before + [l])[|before| + 1..] == [];
  }

  /** The log is the run: exactly what the handler's machine said about the request since the handler began,
      whether any of it was dropped, and whether a terminal message was relayed. */
  lemma {:induction false} LogIsTheRun(ls: seq<Label>, rid: RequestId)
    requires rid in Reached(ls).handlers
    ensures LogSays(Reached(ls).handlers[rid].log, SpokenSince(ls, rid), WasDropped(ls, rid), WasSettled(ls, rid))
  {
    var before, l := ls[..|ls| - 1], ls[|ls| - 1];
    assert ls == before + [l];
    RunSnoc(INIT, before, l);
    WasDroppedSnoc(before, l, rid);
    WasSettledSnoc(before, l, rid);
    if rid in Reached(before).handlers {
      LogIsTheRun(before, rid);
      ReachedInv(before);
      StepLog(Reached(before), l, rid);
      SinceGrows(before, l, rid);
    } else {
      NewLog(Reached(before), l, rid);
      NothingBefore(before, rid);
      NobodyYet(Reached(before), l, rid);
      SinceStarts(before, l, rid);
    }
  }

  lemma NobodyYet(s: System, l: Label, rid: RequestId)
    requires rid !in s.handlers
    ensures !Drops(s, l, rid) && !Settles(s, l, rid)
  {
  }

  // ----- What a streaming handler met -----

  /** The handler's select finds a timer, a client gone or a closed channel. */
  predicate Disturbs(s: System, l: Label, rid: RequestId) {
    && Enabled(s, l)
    && ((l.Select? && l.rid == rid) || (l.Receive? && l.rid == rid && rid in s.net.chans && s.net.chans[rid].buf == []))
  }

  ghost predicate WasDisturbed(ls: seq<Label>, rid: RequestId) {
    exists i :: 0 <= i < |ls| && Disturbs(Reached(ls[..i]), ls[i], rid)
  }

  lemma WasDisturbedSnoc(before: seq<Label>, l: Label, rid: RequestId)
    ensures WasDisturbed(before + [l], rid) <==> WasDisturbed(before, rid) || Disturbs(Reached(before), l, rid)
  {
    var ls := before + [l];
    assert forall i :: 0 <= i <= |before| ==> ls[..i] == before[..i];
    assert before[..|before|] == before && ls[|before|] == l;
  }

  predicate OnlyRelays(os: seq<Outcome>) {
    forall o :: o in os ==> o.Received?
  }

  predicate OutcomesMove(s: System, l: Label, h: Handler, h': Handler, rid: RequestId) {
    h'.id == h.id && (h.id.kind == Streaming ==> OnlyRelays(h'.outcomes) == (OnlyRelays(h.outcomes) && !Disturbs(s, l, rid)))
  }

  lemma OutcomeAdded(os: seq<Outcome>, o: Outcome)
    ensures OnlyRelays(os + [o]) <==> OnlyRelays(os) && o.Received?
  {
    assert forall x :: x in os + [o] <==> x in os || x == o;
  }

  lemma NextOutcomesHere(s: System, l: Label, rid: RequestId)
    requires Enabled(s, l) && rid in s.handlers && rid in s.net.chans && rid in Touched(s, l)
    ensures rid in Next(s, l).handlers && OutcomesMove(s, l, s.handlers[rid], Next(s, l).handlers[rid], rid)
  {
    var h := s.handlers[rid];
    match l {
      case Select(_, o) => OutcomeAdded(h.outcomes, o);
      case Receive(_) =>
        if s.net.chans[rid].buf == [] {
          OutcomeAdded(h.outcomes, Closed);
        } else {
          OutcomeAdded(h.outcomes, Received(s.net.chans[rid].buf[0]));
        }
      case _ =>
    }
  }

  lemma StepOutcomes(s: System, l: Label, rid: RequestId)
    requires Inv(s) && rid in s.handlers
    ensures rid in Step(s, l).handlers && OutcomesMove(s, l, s.handlers[rid], Step(s, l).handlers[rid], rid)
  {
    HandlerPlaced(s, rid);
    if Enabled(s, l) {
      NextOutcomes(s, l, rid);
    } else {
      assert !Disturbs(s, l, rid);
    }
  }

  lemma NextOutcomes(s: System, l: Label, rid: RequestId)
    requires WellFormed(s.net) && Enabled(s, l) && rid in s.handlers && Placed(s.net, s.handlers[rid], rid)
    ensures rid in Next(s, l).handlers && OutcomesMove(s, l, s.handlers[rid], Next(s, l).handlers[rid], rid)
  {
    if rid in Touched(s, l) {
      NextOutcomesHere(s, l, rid);
    } else {
      NextElsewhere(s, l, rid);
      NotTouchedNotDisturbed(s, l, rid);
    }
  }

  lemma NotTouchedNotDisturbed(s: System, l: Label, rid: RequestId)
    requires rid !in Touched(s, l)
    ensures !Disturbs(s, l, rid)
  {
  }

  lemma NothingMet(ls: seq<Label>, rid: RequestId)
    requires rid !in Reached(ls).handlers
    ensures !WasDisturbed(ls, rid)
  {
    forall i | 0 <= i < |ls|
      ensures !Disturbs(Reached(ls[..i]), ls[i], rid)
    {
      if rid in Reached(ls[..i]).handlers {
        HandlersStay(ls, i, rid);
      }
    }
  }

  lemma NewOutcomes(s: System, l: Label, rid: RequestId)
    requires rid !in s.handlers && rid in Step(s, l).handlers
    ensures Step(s, l).handlers[rid].outcomes == [] && !Disturbs(s, l, rid)
  {
  }

  /** A streaming handler's selects met nothing but relays if and only if no step of the run disturbed it. */
  lemma {:induction false} OutcomesAreTheRun(ls: seq<Label>, rid: RequestId)
    requires rid in Reached(ls).handlers && Reached(ls).handlers[rid].id.kind == Streaming
    ensures OnlyRelays(Reached(ls).handlers[rid].outcomes) <==> !WasDisturbed(ls, rid)
  {
    var before, l := ls[..|ls| - 1], ls[|ls| - 1];
    assert ls == before + [l];
    RunSnoc(INIT, before, l);
    WasDisturbedSnoc(before, l, rid);
    if rid in Reached(before).handlers {
      ReachedInv(before);
      StepOutcomes(Reached(before), l, rid);
      OutcomesAreTheRun(before, rid);
    } else {
      NewOutcomes(Reached(before), l, rid);
      NothingMet(before, rid);
    }
  }
}
