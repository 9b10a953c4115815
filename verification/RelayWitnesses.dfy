/** Runs that show the bounds are tight and the exceptions real. */
module RelayWitnesses {
  import opened Wire
  import opened RegistryModel
  import opened Sse
  import opened RelayProtocol
  import opened RelayInvariant
  import opened RelayAdmission
  import opened RelayStranding
  import opened RelayTheorems

  // ----- Over-admission -----

  const M: MachineId := "m"

  const CONNECT_OLD := Connect("s", M, 7, 1, 0)
  const CONNECT_NEW := Connect("t", M, 7, 1, 0)
  const OPENING: seq<Label> := [] + [CONNECT_OLD] + [Begin("r", M, Streaming, true)]

  lemma Opened()
    ensures var s := Reached(OPENING);
            && Backlog(s, 0) && Hooked(s.net) && s.handlers.Keys == {"r"} && s.handlers["r"].holding
            && s.net.sessions.Keys == {"s"} && s.clock == 0
  {
    RunSnoc(INIT, [], CONNECT_OLD);
    RunSnoc(INIT, [] + [CONNECT_OLD], Begin("r", M, Streaming, true));
    var s1 := Step(INIT, CONNECT_OLD);
    assert s1.net.machines == map[M := "s"] && s1.net.sessions == map["s" := NewSession(M, 7, 1, 0)] && s1.net.chans == map[];
  }

  lemma Reopened()
    ensures CanOverbook(Step(Reached(OPENING), CONNECT_NEW), M)
  {
    Opened();
    assert "r" in InFlight(Reached(OPENING).handlers, M);
    OverAdmissionExactly(OPENING, CONNECT_NEW, M, ["b", "c"]);
  }

  // What a state can come to, the run that reached it can.
  lemma OverbooksLater(before: seq<Label>, l: Label, mid: MachineId) returns (ls: seq<Label>)
    requires CanOverbook(Step(Reached(before), l), mid)
    ensures Overbooked(Reached(ls), mid)
  {
    RunSnoc(INIT, before, l);
    var more :| Overbooked(Run(Step(Reached(before), l), more), mid);
    RunAppend(INIT, before + [l], more);
    ls := before + [l] + more;
  }

  /** A machine with one slot and one request in flight: after a reconnect it can be over-admitted. */
  lemma OverAdmission() returns (ls: seq<Label>)
    ensures Overbooked(Reached(ls), M)
  {
    Reopened();
    ls := OverbooksLater(OPENING, CONNECT_NEW, M);
  }

  // ----- A dropped terminal message -----

  const TOKEN := Chunk("r", "a", "", false)
  const LAST := Chunk("r", "", "", true)

  /** One waiting handler, with k unread tokens in its channel. */
  ghost predicate Backlog(s: System, k: nat) {
    && "r" in s.handlers && "r" in s.net.chans
    && var h, c := s.handlers["r"], s.net.chans["r"];
    && h.id.mid == M && h.id.sid == "s" && h.id.kind == Streaming && h.waiting && h.stream.end == Live
    && c.cap == 32 && c.closes == 0 && |c.buf| == k && forall i :: 0 <= i < k ==> c.buf[i] == ToRelay(TOKEN)
  }

  ghost predicate Hooked(n: Net) {
    n.machines == map[M := "s"] && "s" in n.sessions && n.sessions["s"].mid == M && "r" in n.sessions["s"].chans
  }

  lemma TokenArrives(s: System, k: nat)
    requires Backlog(s, k) && Hooked(s.net) && k < 32
    ensures var s' := Step(s, FromProvider(M, TOKEN)); Backlog(s', k + 1) && Hooked(s'.net)
  {
  }

  /** The handler is stranded, and no continuation of the run ever gives it anything to receive. */
  ghost predicate StrandedForEver(ls: seq<Label>, rid: RequestId) {
    Stranded(Reached(ls), rid) && forall more :: !CanReceive(Reached(ls + more), rid)
  }

  lemma StrandedIsForEver(ls: seq<Label>, rid: RequestId)
    requires Stranded(Reached(ls), rid)
    ensures StrandedForEver(ls, rid)
  {
    ReachedInv(ls);
    forall more
      ensures !CanReceive(Reached(ls + more), rid)
    {
      RunAppend(INIT, ls, more);
      StrandedForGood(Reached(ls), more, rid);
    }
  }

  lemma MachinesStay(s: System, l: Label)
    requires l.Receive? || l.FromProvider?
    ensures Step(s, l).net.machines == s.net.machines
  {
  }

  lemma {:induction false} MachinesStayAll(s: System, rid: RequestId, n: nat)
    ensures Run(s, Receives(rid, n)).net.machines == s.net.machines
  {
    if n > 0 {
      MachinesStayAll(s, rid, n - 1);
      RunReceives(s, rid, n - 1);
      MachinesStay(Run(s, Receives(rid, n - 1)), Receive(rid));
    }
  }

  lemma BacklogStrands(s: System, k: nat, m: ProviderMsg)
    requires Inv(s) && Backlog(s, k) && Hooked(s.net) && m.rid == "r" && Terminal(m)
    requires k == 32 || m.Response?
    ensures Stranded(ReadToTheEnd(s, m), "r") && ReadToTheEnd(s, m).net.machines == map[M := "s"]
  {
    StrandedExactly(s, m);
    MachinesStay(s, FromProvider(M, m));
    MachinesStayAll(Step(s, FromProvider(M, m)), "r", |After(s.net.chans["r"], m)|);
  }

  // From a backlog, relay a terminal message and read to the end.
  lemma StrandBy(ls: seq<Label>, k: nat, m: ProviderMsg) returns (whole: seq<Label>)
    requires Inv(Reached(ls)) && Backlog(Reached(ls), k) && Hooked(Reached(ls).net) && m.rid == "r" && Terminal(m)
    requires k == 32 || m.Response?
    ensures StrandedForEver(whole, "r") && Reached(whole).net.machines == map[M := "s"]
  {
    BacklogStrands(Reached(ls), k, m);
    var read := Receives("r", |After(Reached(ls).net.chans["r"], m)|);
    whole := ls + [FromProvider(M, m)] + read;
    ReachedBy(ls, m, read);
    StrandedIsForEver(whole, "r");
  }

  lemma ReachedBy(ls: seq<Label>, m: ProviderMsg, read: seq<Label>)
    ensures Reached(ls + [FromProvider(M, m)] + read) == Run(Step(Reached(ls), FromProvider(M, m)), read)
  {
    RunSnoc(INIT, ls, FromProvider(M, m));
    RunAppend(INIT, ls + [FromProvider(M, m)], read);
  }

  /** A run in which the done chunk is dropped by a full buffer: the handler reads every token, its machine is
      still registered, and it waits on an empty open channel that nothing will ever write to or close. */
  lemma DroppedTerminalStrands() returns (ls: seq<Label>)
    ensures StrandedForEver(ls, "r") && Reached(ls).net.machines == map[M := "s"]
  {
    var filled := OPENING;
    Opened();
    for k := 0 to 32
      invariant Backlog(Reached(filled), k) && Hooked(Reached(filled).net)
    {
      TokenArrives(Reached(filled), k);
      RunSnoc(INIT, filled, FromProvider(M, TOKEN));
      filled := filled + [FromProvider(M, TOKEN)];
    }
    ReachedInv(filled);
    ls := StrandBy(filled, 32, LAST);
  }

  /** A run in which a streaming request is answered by a whole response: the handler writes its content and
      then waits in the same way. */
  lemma ResponseStrands() returns (ls: seq<Label>)
    ensures StrandedForEver(ls, "r") && Reached(ls).net.machines == map[M := "s"]
  {
    Opened();
    ReachedInv(OPENING);
    ls := StrandBy(OPENING, 0, Response("r", "a", "", 1));
  }
}
