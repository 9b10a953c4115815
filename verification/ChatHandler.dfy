/** The admission of a chat completion, after the access check and the rate limit
    (internal/coord/api.go:194-218). The look at the session and the handler's start are one step. */
module ChatHandler {
  import opened Wire
  import opened RegistryModel
  import opened RelayProtocol
  import opened RelayInvariant
  import opened Environment
  import S = StreamingHandler
  import N = NonStreamingHandler
  import T = RelayTheorems

  datatype Reply =
    | MachineOffline
    | BackendUnavailable
    | MachineBusy
    | ModelNotFound
    | Streamed(out: seq<Sse.Event>)
    | Whole(reply: N.Reply)

  /** The machine is registered and its backend healthy. */
  predicate Serving(n: Net, mid: MachineId) {
    Online(n, mid) && Current(n, mid).backendOK
  }

  /** The request is refused for exactly the reasons of the code's checks, in their order. A refused request
      touches nothing; an admitted one takes a slot, and when the call returns every slot it
      took has been released once and every channel it hooked is unhooked. */
  method HandleMachineChatCompletions(reg: R.Registry, s: System, mid: MachineId, hasModel: bool, stream: bool,
                                      rid: RequestId, sendOk: bool, script: seq<S.Turn>, tries: seq<N.Script>)
      returns (reply: Reply, s': System, ghost ls: seq<Label>)
    requires reg.Net() == s.net && Inv(s) && rid !in s.handlers
    requires |tries| == MAX_RETRIES && N.Distinct(tries) && forall k :: 0 <= k < |tries| ==> tries[k].rid !in s.handlers
    modifies reg
    ensures Tracks(reg, s, s', ls)
    ensures reply == MachineOffline <==> !Online(s.net, mid)
    ensures reply == BackendUnavailable <==> Online(s.net, mid) && !Current(s.net, mid).backendOK
    ensures reply == MachineBusy <==> Serving(s.net, mid) && Current(s.net, mid).load >= Current(s.net, mid).max
    ensures reply == ModelNotFound <==> Serving(s.net, mid) && Current(s.net, mid).load < Current(s.net, mid).max && !hasModel
    ensures !reply.Streamed? && !reply.Whole? ==> s' == s
    ensures reply.Streamed? ==> stream && S.Returned(s', mid, rid, reply.out, true)
    ensures reply.Streamed? && sendOk ==> T.EndedSaying(s'.handlers[rid], reply.out)
    ensures reply.Whole? ==> !stream && exists n ::
      0 < n <= |tries| && N.Made(s'.handlers, tries, n, mid) && N.Concludes(reply.reply, s', tries, n, mid)
  {
    var sess := reg.GetSession(mid);
    if sess.None? {
      return MachineOffline, s, [];
    }
    if !reg.sessions[sess.value].backendOK {
      return BackendUnavailable, s, [];
    }
    if reg.sessions[sess.value].load >= reg.sessions[sess.value].max {
      return MachineBusy, s, [];
    }
    if !hasModel {
      return ModelNotFound, s, [];
    }
    if stream {
      var out;
      s', out, ls := S.HandleStreamingCompletion(reg, s, mid, rid, sendOk, script);
      reply := Streamed(out);
    } else {
      var answer, n;
      answer, n, s', ls := N.HandleNonStreamingCompletion(reg, s, mid, tries);
      reply := Whole(answer);
    }
  }
}
