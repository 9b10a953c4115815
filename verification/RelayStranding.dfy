/** Exactly when the end of a stream is lost: a streaming handler is left waiting for a timer if and only if
    its terminal message meets a full buffer, or is a whole response (internal/coord/ws.go:228-304). */
module RelayStranding {
  import opened Wire
  import opened RegistryModel
  import opened RegistryFacts
  import opened Sse
  import opened RelayProtocol
  import opened HandlerInvariant
  import opened RelayInvariant
  import opened RelayTheorems

  /** The handler receives n times. */
  function Receives(rid: RequestId, n: nat): seq<Label> {
    seq(n, _ => Receive(rid))
  }

  /** A relay that does not end a stream. */
  predicate Plain(r: ChunkRelay) {
    r.err == "" && !r.done
  }

  /** A streaming handler with a live stream, and what its channel holds. */
  ghost predicate Reading(s: System, rid: RequestId, buf: seq<ChunkRelay>) {
    && rid in s.handlers && rid in s.net.chans && s.net.chans[rid].buf == buf
    && s.handlers[rid].waiting && s.handlers[rid].id.kind == Streaming && s.handlers[rid].stream.end == Live
  }

  /** The two states differ at most in the handler and in its channel's buffer. */
  ghost predicate SameSurroundings(s: System, s': System, rid: RequestId)
    requires rid in s.handlers && rid in s.net.chans
  {
    && rid in s'.handlers && s'.handlers[rid].id == s.handlers[rid].id && rid in s'.net.chans
    && s'.net.chans[rid].closes == s.net.chans[rid].closes
    && s'.net.machines == s.net.machines && s'.net.sessions == s.net.sessions
  }

  lemma ReadOne(s: System, rid: RequestId, buf: seq<ChunkRelay>)
    requires Reading(s, rid, buf) && buf != []
    ensures var s' := Step(s, Receive(rid));
            && SameSurroundings(s, s', rid) && s'.net.chans[rid].buf == buf[1..]
            && (if Plain(buf[0]) then Reading(s', rid, buf[1..]) else !s'.handlers[rid].waiting)
  {
    assert CanReceive(s, rid);
  }

  lemma RunReceives(s: System, rid: RequestId, n: nat)
    ensures Run(s, Receives(rid, n + 1)) == Step(Run(s, Receives(rid, n)), Receive(rid))
  {
    assert Receives(rid, n + 1)[..n] == Receives(rid, n);
  }

  lemma {:induction false} ReadPlain(s: System, rid: RequestId, buf: seq<ChunkRelay>, n: nat)
    requires Reading(s, rid, buf) && n <= |buf|
    requires forall i :: 0 <= i < n ==> Plain(buf[i])
    ensures var s' := Run(s, Receives(rid, n)); Reading(s', rid, buf[n..]) && SameSurroundings(s, s', rid)
  {
    if n > 0 {
      ReadPlain(s, rid, buf, n - 1);
      RunReceives(s, rid, n - 1);
      ReadOne(Run(s, Receives(rid, n - 1)), rid, buf[n - 1..]);
      assert buf[n - 1..][1..] == buf[n..];
    }
  }

  // What is buffered before the terminal message is plain.
  lemma BufferIsPlain(h: Handler, c: Chan)
    requires HandlerOK(h, c, true)
    ensures forall i :: 0 <= i < |c.buf| ==> Plain(c.buf[i])
  {
    assert !SomeTerminal(h.log.enqueued);
    forall i | 0 <= i < |c.buf|
      ensures Plain(c.buf[i])
    {
      assert (h.received + c.buf)[|h.received| + i] == c.buf[i];
      assert c.buf[i] == ToRelay(h.log.enqueued[|h.received| + i]);
    }
  }

  lemma TerminalIsPlain(m: ProviderMsg)
    requires Terminal(m)
    ensures Plain(ToRelay(m)) <==> m.Response?
  {
    ErrorsShow(m);
  }

  /** The buffer once the message was relayed. */
  function After(c: Chan, m: ProviderMsg): seq<ChunkRelay> {
    if |c.buf| < c.cap then c.buf + [ToRelay(m)] else c.buf
  }

  lemma ProviderStep(s: System, m: ProviderMsg)
    requires m.rid in s.handlers && m.rid in s.net.chans
    ensures var h := s.handlers[m.rid];
            var s' := Step(s, FromProvider(h.id.mid, m));
            && s'.net == Relay(s.net, h.id.mid, m)
            && m.rid in s'.handlers && s'.handlers[m.rid] == h.(log := s'.handlers[m.rid].log)
  {
  }

  lemma TerminalRelayed(s: System, m: ProviderMsg)
    requires WellFormed(s.net) && m.rid in s.handlers && Good(s.net, s.handlers[m.rid], m.rid)
    requires Attached(s.net, s.handlers[m.rid].id.sid, m.rid) && Terminal(m)
    requires Reading(s, m.rid, s.net.chans[m.rid].buf)
    ensures var h := s.handlers[m.rid];
            var s' := Step(s, FromProvider(h.id.mid, m));
            && Reading(s', m.rid, After(s.net.chans[m.rid], m)) && s'.handlers[m.rid].id == h.id
            && s'.net.chans[m.rid].closes == 0 && !Attached(s'.net, h.id.sid, m.rid)
  {
    ProviderStep(s, m);
    RelayHere(s.net, s.handlers[m.rid], m);
  }

  /** The handler, in the state its machine's terminal message leaves, after reading all there is. */
  ghost function ReadToTheEnd(s: System, m: ProviderMsg): System
    requires m.rid in s.handlers && m.rid in s.net.chans
  {
    Run(Step(s, FromProvider(s.handlers[m.rid].id.mid, m)), Receives(m.rid, |After(s.net.chans[m.rid], m)|))
  }

  /** When the terminal message of a streaming request is relayed, the handler that then reads its channel to
      the end is left stranded if the message met a full buffer or is a whole response, and has ended
      otherwise. */
  lemma StrandedExactly(s: System, m: ProviderMsg)
    requires Inv(s) && m.rid in s.handlers && s.handlers[m.rid].id.kind == Streaming && s.handlers[m.rid].waiting
    requires Attached(s.net, s.handlers[m.rid].id.sid, m.rid) && Terminal(m)
    ensures m.rid in s.net.chans && m.rid in ReadToTheEnd(s, m).handlers
    ensures Stranded(ReadToTheEnd(s, m), m.rid) <==> |s.net.chans[m.rid].buf| == s.net.chans[m.rid].cap || m.Response?
    ensures !Stranded(ReadToTheEnd(s, m), m.rid) ==> !ReadToTheEnd(s, m).handlers[m.rid].waiting
  {
    assert Good(s.net, s.handlers[m.rid], m.rid);
    BufferIsPlain(s.handlers[m.rid], s.net.chans[m.rid]);
    TerminalRelayed(s, m);
    TerminalIsPlain(m);
    ReadsToTheEnd(Step(s, FromProvider(s.handlers[m.rid].id.mid, m)), m, s.net.chans[m.rid]);
  }

  lemma ReadsToTheEnd(s: System, m: ProviderMsg, c: Chan)
    requires Reading(s, m.rid, After(c, m)) && s.net.chans[m.rid].closes == 0
    requires !Attached(s.net, s.handlers[m.rid].id.sid, m.rid)
    requires |c.buf| <= c.cap && forall i :: 0 <= i < |c.buf| ==> Plain(c.buf[i])
    requires Plain(ToRelay(m)) <==> m.Response?
    ensures var s' := Run(s, Receives(m.rid, |After(c, m)|));
            && m.rid in s'.handlers
            && (Stranded(s', m.rid) <==> |c.buf| == c.cap || m.Response?)
            && (!Stranded(s', m.rid) ==> !s'.handlers[m.rid].waiting)
  {
    if |c.buf| == c.cap || m.Response? {
      ReadPlain(s, m.rid, After(c, m), |After(c, m)|);
    } else {
      ReadPlain(s, m.rid, After(c, m), |c.buf|);
      RunReceives(s, m.rid, |c.buf|);
      ReadOne(Run(s, Receives(m.rid, |c.buf|)), m.rid, After(c, m)[|c.buf|..]);
    }
  }
}
