/** The provider agent's capacity counter and cancel map under any interleaving of requests
    (internal/provider/agent.go, `handleRequest` and the read loop's cancel handling). Each critical section
    under a lock is one step; a request's backend call and its writes are one step of their own. */
module AgentCapacity {
  import opened Wire
  import A = AgentStream

  type ActId = nat

  /** The agent's shared fields: `requests` maps a request id to the activation its cancel function stops. */
  datatype Shared = Shared(max: int, load: int, requests: map<RequestId, ActId>)

  /** NewAgent's default. */
  function NewShared(max: int): Shared {
    Shared(if max <= 0 then 1 else max, 0, map[])
  }

  predicate Full(s: Shared) {
    s.load >= s.max
  }

  function Enrolled(s: Shared, rid: RequestId, act: ActId): Shared {
    s.(requests := s.requests[rid := act])
  }

  function Forgotten(s: Shared, rid: RequestId): Shared {
    s.(requests := s.requests - {rid})
  }

  /** What became of a request at the backend, and of the writes about it. A whole response is one record and the
      number of tokens the backend reports. */
  datatype Service =
    | Unreachable(code: string, message: string, link: A.Link)
    | BadStatus(message: string, link: A.Link)
    | Streamed(codec: A.Codec, backend: A.Backend, lines: seq<string>, writes: nat -> A.Link)
    | Whole(codec: A.Codec, record: A.Delta, tokens: int, link: A.Link)
    | Unreadable

  /** The messages one activation delivers. A cancelled request reports no backend failure. */
  function Output(rid: RequestId, v: Service, cancelled: bool): seq<ProviderMsg> {
    match v
    case Unreachable(code, message, link) => if cancelled then [] else A.Deliver(link, Error(rid, code, message))
    case BadStatus(message, link) => A.Deliver(link, Error(rid, "internal", message))
    case Streamed(codec, backend, lines, writes) => A.Delivered(codec, backend, rid, lines, writes, 0)
    case Whole(codec, record, tokens, link) =>
      A.Deliver(link, Response(rid, A.Text(record), codec.normalizeToolCalls(record.toolCalls), tokens))
    case Unreadable => []
  }

  function Overloaded(rid: RequestId): ProviderMsg {
    Error(rid, "overloaded", "donor at max capacity")
  }

  /** The agent's fields, updated in place by the methods that run under its locks. */
  class Agent {
    var maxConcurrent: int
    var currentLoad: int
    var requests: map<RequestId, ActId>

    constructor (max: int)
      ensures State() == NewShared(max)
      ensures maxConcurrent == (if max >= 1 then max else 1) && currentLoad == 0 && requests == map[]
    {
      maxConcurrent := max;
      if max <= 0 {
        maxConcurrent := 1;
      }
      currentLoad := 0;
      requests := map[];
    }

    ghost function State(): Shared
      reads this
    {
      Shared(maxConcurrent, currentLoad, requests)
    }

    method TakeSlot() returns (ok: bool)
      modifies this
      ensures ok <==> old(currentLoad) < old(maxConcurrent)
      ensures State() == if ok then old(State()).(load := old(State()).load + 1) else old(State())
    {
      if currentLoad >= maxConcurrent {
        return false;
      }
      currentLoad := currentLoad + 1;
      return true;
    }

    method Enroll(rid: RequestId, act: ActId)
      modifies this
      ensures State() == Enrolled(old(State()), rid, act)
    {
      requests := requests[rid := act];
    }

    /** The read loop's handling of a cancel message: which activation it stops, if any. */
    method Cancel(rid: RequestId) returns (stopped: Option<ActId>)
      modifies this
      ensures stopped == if rid in old(requests) then Some(old(requests)[rid]) else None
      ensures State() == Forgotten(old(State()), rid)
    {
      stopped := None;
      if rid in requests {
        stopped := Some(requests[rid]);
        requests := requests - {rid};
      } else {
        assert requests - {rid} == requests;
      }
    }

    method GiveSlotBack()
      modifies this
      ensures State() == old(State()).(load := old(State()).load - 1)
    {
      currentLoad := currentLoad - 1;
    }

    method Forget(rid: RequestId)
      modifies this
      ensures State() == Forgotten(old(State()), rid)
    {
      requests := requests - {rid};
    }

    /** One activation, undisturbed: what it delivers, and that it leaves the counter as it found it. */
    method HandleRequest(rid: RequestId, act: ActId, v: Service, refusal: A.Link) returns (sent: seq<ProviderMsg>)
      modifies this
      ensures old(currentLoad) >= old(maxConcurrent) ==>
        && State() == old(State())
        && sent == if refusal.WriteOk? then [Error(rid, "overloaded", "donor at max capacity")] else []
      ensures old(currentLoad) < old(maxConcurrent) ==>
        && sent == Output(rid, v, false)
        && currentLoad == old(currentLoad) && maxConcurrent == old(maxConcurrent) && requests == old(requests) - {rid}
    {
      var ok := TakeSlot();
      if !ok {
        sent := A.Deliver(refusal, Overloaded(rid));
        return;
      }
      Enroll(rid, act);
      match v {
        case Unreachable(code, message, link) => sent := A.Deliver(link, Error(rid, code, message));
        case BadStatus(message, link) => sent := A.Deliver(link, Error(rid, "internal", message));
        case Streamed(codec, backend, lines, writes) => sent := A.HandleStreamingResponse(codec, backend, rid, lines, writes);
        case Whole(codec, record, tokens, link) =>
          var content := record.content;
          if content == "" && record.thinking != "" {
            content := record.thinking;
          }
          sent := A.Deliver(link, Response(rid, content, codec.normalizeToolCalls(record.toolCalls), tokens));
        case Unreadable => sent := [];
      }
      GiveSlotBack();
      Forget(rid);
    }
  }

  // ----- Interleavings -----

  /** Where an activation is: past the capacity check, in the cancel map, answered, out of its slot, gone. */
  datatype Phase = Checked | Running | Answered | Leaving | Ended

  datatype Activation = Activation(rid: RequestId, phase: Phase, cancelled: bool, sent: seq<ProviderMsg>)

  datatype System = System(shared: Shared, acts: map<ActId, Activation>)

  datatype Label =
    | Arrive(act: ActId, rid: RequestId, refusal: A.Link)
    | Enrol(act: ActId)
    | CancelMsg(rid: RequestId)
    | Serve(act: ActId, service: Service)
    | Leave(act: ActId)
    | Finish(act: ActId)

  predicate In(s: System, act: ActId, phase: Phase) {
    act in s.acts && s.acts[act].phase == phase
  }

  predicate Enabled(s: System, l: Label) {
    match l
    case Arrive(act, _, _) => act !in s.acts
    case Enrol(act) => In(s, act, Checked)
    case CancelMsg(_) => true
    case Serve(act, service) => In(s, act, Running) && (service.Streamed? ==> A.SaneCodec(service.codec))
    case Leave(act) => In(s, act, Answered)
    case Finish(act) => In(s, act, Leaving)
  }

  function Moved(s: System, act: ActId, phase: Phase): map<ActId, Activation>
    requires act in s.acts
  {
    s.acts[act := s.acts[act].(phase := phase)]
  }

  function Next(s: System, l: Label): System
    requires Enabled(s, l)
  {
    match l
    case Arrive(act, rid, refusal) =>
      if Full(s.shared) then s.(acts := s.acts[act := Activation(rid, Ended, false, A.Deliver(refusal, Overloaded(rid)))])
      else System(s.shared.(load := s.shared.load + 1), s.acts[act := Activation(rid, Checked, false, [])])
    case Enrol(act) => System(Enrolled(s.shared, s.acts[act].rid, act), Moved(s, act, Running))
    case CancelMsg(rid) =>
      if rid !in s.shared.requests then s
      else
        var act := s.shared.requests[rid];
        System(Forgotten(s.shared, rid), if act in s.acts then s.acts[act := s.acts[act].(cancelled := true)] else s.acts)
    case Serve(act, service) =>
      var a := s.acts[act];
      s.(acts := s.acts[act := a.(phase := Answered, sent := Output(a.rid, service, a.cancelled))])
    case Leave(act) => System(s.shared.(load := s.shared.load - 1), Moved(s, act, Leaving))
    case Finish(act) => System(Forgotten(s.shared, s.acts[act].rid), Moved(s, act, Ended))
  }

  function Step(s: System, l: Label): System {
    if Enabled(s, l) then Next(s, l) else s
  }

  function Run(max: int, ls: seq<Label>): System {
    if ls == [] then System(NewShared(max), map[]) else Step(Run(max, ls[..|ls| - 1]), ls[|ls| - 1])
  }

  /** The activations past the capacity check that still have their slot. */
  predicate HasSlot(a: Activation) {
    a.phase == Checked || a.phase == Running || a.phase == Answered
  }

  function Slots(acts: map<ActId, Activation>): set<ActId> {
    set i | i in acts && HasSlot(acts[i])
  }

  predicate InMap(a: Activation) {
    a.phase == Running || a.phase == Answered || a.phase == Leaving
  }

  predicate CountOK(s: System) {
    s.shared.max >= 1 && 0 <= s.shared.load <= s.shared.max && s.shared.load == |Slots(s.acts)|
  }

  /** The cancel map holds only activations that are under way, under their own ids. */
  predicate MapOK(s: System) {
    forall r :: r in s.shared.requests ==>
      var act := s.shared.requests[r]; act in s.acts && s.acts[act].rid == r && InMap(s.acts[act])
  }

  /** A terminal message is the last one of an activation. */
  predicate SentOK(sent: seq<ProviderMsg>) {
    forall i :: 0 <= i < |sent| && Terminal(sent[i]) ==> i == |sent| - 1
  }

  ghost predicate AllSentOK(s: System) {
    forall i :: i in s.acts ==> SentOK(s.acts[i].sent)
  }

  // ----- The counter -----

  lemma SlotsWith(acts: map<ActId, Activation>, i: ActId, a: Activation)
    ensures |Slots(acts[i := a])|
         == |Slots(acts)| - (if i in acts && HasSlot(acts[i]) then 1 else 0) + (if HasSlot(a) then 1 else 0)
  {
    SlotsBut(acts, i, a);
    var rest := Slots(acts) - {i};
    assert |Slots(acts[i := a])| == |rest| + if HasSlot(a) then 1 else 0;
  }

  lemma SlotsBut(acts: map<ActId, Activation>, i: ActId, a: Activation)
    ensures Slots(acts[i := a]) == (Slots(acts) - {i}) + if HasSlot(a) then {i} else {}
    ensures i in Slots(acts) <==> i in acts && HasSlot(acts[i])
  {
  }

  lemma StepCount(s: System, l: Label)
    requires CountOK(s)
    ensures CountOK(Step(s, l))
  {
    if Enabled(s, l) {
      var s' := Next(s, l);
      match l {
        case Arrive(act, rid, refusal) => SlotsWith(s.acts, act, s'.acts[act]);
        case Enrol(act) => SlotsWith(s.acts, act, s'.acts[act]);
        case CancelMsg(rid) =>
          if rid in s.shared.requests && s.shared.requests[rid] in s.acts {
            SlotsWith(s.acts, s.shared.requests[rid], s'.acts[s.shared.requests[rid]]);
          }
        case Serve(act, _) => SlotsWith(s.acts, act, s'.acts[act]);
        case Leave(act) => SlotsWith(s.acts, act, s'.acts[act]);
        case Finish(act) => SlotsWith(s.acts, act, s'.acts[act]);
      }
    }
  }

  lemma StepMap(s: System, l: Label)
    requires MapOK(s)
    ensures MapOK(Step(s, l))
  {
  }

  lemma OutputOK(rid: RequestId, v: Service, cancelled: bool)
    requires v.Streamed? ==> A.SaneCodec(v.codec)
    ensures SentOK(Output(rid, v, cancelled))
  {
    if v.Streamed? {
      var sent := Output(rid, v, cancelled);
      forall i | 0 <= i < |sent| && Terminal(sent[i])
        ensures i == |sent| - 1
      {
        A.AtMostOneTerminal(v.codec, v.backend, rid, v.lines, v.writes, i);
      }
    }
  }

  lemma StepSent(s: System, l: Label)
    requires AllSentOK(s)
    ensures AllSentOK(Step(s, l))
  {
    if Enabled(s, l) && l.Serve? {
      OutputOK(s.acts[l.act].rid, l.service, s.acts[l.act].cancelled);
    }
  }

  lemma {:induction false} RunOK(max: int, ls: seq<Label>)
    ensures CountOK(Run(max, ls)) && MapOK(Run(max, ls)) && AllSentOK(Run(max, ls))
  {
    if ls != [] {
      RunOK(max, ls[..|ls| - 1]);
      StepCount(Run(max, ls[..|ls| - 1]), ls[|ls| - 1]);
      StepMap(Run(max, ls[..|ls| - 1]), ls[|ls| - 1]);
      StepSent(Run(max, ls[..|ls| - 1]), ls[|ls| - 1]);
    }
  }

  /** Under every interleaving: the counter is the number of activations past the check and lies between zero
      and the capacity; the cancel map holds only activations under way; once none is, both are empty; and
      each activation delivers at most one terminal message, as its last. */
  lemma Capacity(max: int, ls: seq<Label>)
    ensures var s := Run(max, ls);
            && s.shared.load == |Slots(s.acts)| && 0 <= s.shared.load <= s.shared.max
            && (forall r :: r in s.shared.requests ==>
                  s.shared.requests[r] in s.acts && s.acts[s.shared.requests[r]].rid == r && InMap(s.acts[s.shared.requests[r]]))
            && ((forall i :: i in s.acts ==> s.acts[i].phase == Ended) ==> s.shared.load == 0 && s.shared.requests == map[])
            && forall i, k :: i in s.acts && 0 <= k < |s.acts[i].sent| && Terminal(s.acts[i].sent[k]) ==> k == |s.acts[i].sent| - 1
  {
    RunOK(max, ls);
    var s := Run(max, ls);
    if forall i :: i in s.acts ==> s.acts[i].phase == Ended {
      assert Slots(s.acts) == {};
    }
  }

  // ----- What an activation delivers -----

  lemma {:induction false} CapacityIs(max: int, ls: seq<Label>)
    ensures Run(max, ls).shared.max == if max >= 1 then max else 1
  {
    if ls != [] {
      CapacityIs(max, ls[..|ls| - 1]);
    }
  }

  /** In every reachable state a request that arrives is refused, with the one error "overloaded", if and only if as
      many activations as the configured capacity (or one, if that is not positive) have a slot. */
  lemma RefusedExactly(max: int, ls: seq<Label>, act: ActId, rid: RequestId, refusal: A.Link)
    requires act !in Run(max, ls).acts
    ensures var s := Run(max, ls);
            var s' := Step(s, Arrive(act, rid, refusal));
            && act in s'.acts && s'.acts[act].rid == rid
            && (s'.acts[act].phase == Ended <==> |Slots(s.acts)| >= if max >= 1 then max else 1)
            && (s'.acts[act].phase == Ended ==>
                  s' == s.(acts := s'.acts)
                  && s'.acts[act].sent == if refusal.WriteOk? then [Error(rid, "overloaded", "donor at max capacity")] else [])
            && (s'.acts[act].phase != Ended ==> Slots(s'.acts) == Slots(s.acts) + {act} && s'.acts[act].sent == [])
  {
    CapacityIs(max, ls);
    RunOK(max, ls);
  }

  lemma {:induction false} SentIsKept(max: int, before: seq<Label>, after: seq<Label>, act: ActId)
    requires act in Run(max, before).acts
    requires var p := Run(max, before).acts[act].phase; p == Answered || p == Leaving || p == Ended
    ensures act in Run(max, before + after).acts
    ensures var a, a' := Run(max, before).acts[act], Run(max, before + after).acts[act];
            a'.sent == a.sent && (a'.phase == Answered || a'.phase == Leaving || a'.phase == Ended)
  {
    if after == [] {
      assert before + after == before;
    } else {
      var ls := before + after[..|after| - 1];
      assert (before + after)[..|before + after| - 1] == ls;
      SentIsKept(max, before, after[..|after| - 1], act);
      SentStep(Run(max, ls), after[|after| - 1], act);
    }
  }

  lemma SentStep(s: System, l: Label, act: ActId)
    requires act in s.acts && (s.acts[act].phase == Answered || s.acts[act].phase == Leaving || s.acts[act].phase == Ended)
    ensures act in Step(s, l).acts
    ensures var a, a' := s.acts[act], Step(s, l).acts[act];
            a'.sent == a.sent && (a'.phase == Answered || a'.phase == Leaving || a'.phase == Ended)
  {
  }

  /** Whatever goes on before and after, an activation delivers what its backend call came to and nothing else: a
      whole response with its content, or its thinking text if it has none, and its tool calls normalised; the failure to reach the backend, unless the request was cancelled; a bad
      status as an internal error, cancelled or not; nothing for an unreadable response; and each of these only if
      its write succeeds. */
  lemma DeliversItsService(max: int, before: seq<Label>, act: ActId, v: Service, after: seq<Label>)
    requires Enabled(Run(max, before), Serve(act, v))
    ensures var was := Run(max, before).acts[act];
            var s := Run(max, before + [Serve(act, v)] + after);
            && act in s.acts
            && var sent := s.acts[act].sent;
               && (v.Whole? ==>
                     var text := if v.record.content != "" then v.record.content else v.record.thinking;
                     var tools := v.codec.normalizeToolCalls(v.record.toolCalls);
                     sent == if v.link.WriteOk? then [Response(was.rid, text, tools, v.tokens)] else [])
               && (v.Unreachable? ==> sent == if v.link.WriteOk? && !was.cancelled then [Error(was.rid, v.code, v.message)] else [])
               && (v.BadStatus? ==> sent == if v.link.WriteOk? then [Error(was.rid, "internal", v.message)] else [])
               && (v.Unreadable? ==> sent == [])
               && (v.Streamed? ==> sent == A.Delivered(v.codec, v.backend, was.rid, v.lines, v.writes, 0))
  {
    var served := before + [Serve(act, v)];
    assert served[..|served| - 1] == before;
    SentIsKept(max, served, after, act);
  }

  // ----- Who can be cancelled -----

  ghost predicate UniqueIds(s: System) {
    forall i, j :: i in s.acts && j in s.acts && s.acts[i].rid == s.acts[j].rid ==> i == j
  }

  /** Every activation at the backend that was not cancelled can be. */
  ghost predicate Cancellable(s: System) {
    forall i :: i in s.acts && s.acts[i].phase == Running && !s.acts[i].cancelled ==>
      s.acts[i].rid in s.shared.requests && s.shared.requests[s.acts[i].rid] == i
  }

  lemma EarlierIdsUnique(s: System, l: Label)
    requires UniqueIds(Step(s, l))
    ensures UniqueIds(s)
  {
    var s' := Step(s, l);
    forall i, j | i in s.acts && j in s.acts && s.acts[i].rid == s.acts[j].rid
      ensures i == j
    {
      assert i in s'.acts && j in s'.acts && s'.acts[i].rid == s.acts[i].rid && s'.acts[j].rid == s.acts[j].rid;
    }
  }

  lemma StepCancellable(s: System, l: Label)
    requires UniqueIds(s) && MapOK(s) && Cancellable(s)
    ensures Cancellable(Step(s, l))
  {
  }

  /** As long as request ids are not reused, every request at the backend that was not cancelled is the one
      its id stops. */
  lemma {:induction false} FreshIdsCancellable(max: int, ls: seq<Label>)
    requires UniqueIds(Run(max, ls))
    ensures Cancellable(Run(max, ls))
  {
    if ls != [] {
      var before := ls[..|ls| - 1];
      EarlierIdsUnique(Run(max, before), ls[|ls| - 1]);
      FreshIdsCancellable(max, before);
      RunOK(max, before);
      StepCancellable(Run(max, before), ls[|ls| - 1]);
    }
  }

  /** With a reused id it fails: the first activation to finish removes the other one's cancel function. */
  lemma ReusedIdNotCancellable(s: System, i: ActId, j: ActId)
    requires In(s, i, Leaving) && In(s, j, Running) && !s.acts[j].cancelled && s.acts[i].rid == s.acts[j].rid
    ensures !Cancellable(Step(s, Finish(i)))
  {
    assert j in Step(s, Finish(i)).acts;
  }
}
