/** What a provider connection does to its machine's session while it is read (internal/coord/ws.go,
    `handleWS`, `readLoop`). */
module ProviderConnection {
  import opened Wire
  import opened RegistryModel
  import opened RegistryFacts

  /** The time of the last heartbeat among the frames. */
  function LastBeat(frames: seq<Frame>, was: int): int {
    if frames == [] then was
    else if frames[|frames| - 1].Beat? then frames[|frames| - 1].now
    else LastBeat(frames[..|frames| - 1], was)
  }

  /** The frame is an error that says that the provider's backend is gone. */
  predicate ReportsBackend(f: Frame) {
    f.About? && f.msg.Error? && f.msg.code == "backend_unavailable"
  }

  /** The loop reads the first k frames: the next one, if there is one, is a heartbeat whose key is no longer
      live, and none before it is. */
  predicate ReadsUpTo(frames: seq<Frame>, k: nat) {
    && k <= |frames|
    && (forall i :: 0 <= i < k && frames[i].Beat? ==> frames[i].keyLive)
    && (k < |frames| ==> frames[k].Beat? && !frames[k].keyLive)
  }

  lemma FrameEffect(n: Net, mid: MachineId, f: Frame)
    requires WellFormed(n) && Online(n, mid) && (f.Beat? ==> f.keyLive)
    ensures var n' := OnFrame(n, mid, f);
            && Online(n', mid) && n'.machines == n.machines
            && Current(n', mid).backendOK == (Current(n, mid).backendOK && !ReportsBackend(f))
            && Current(n', mid).lastHeartbeat == (if f.Beat? then f.now else Current(n, mid).lastHeartbeat)
            && Current(n', mid).failedAt == (if ReportsBackend(f) then Some(f.now) else Current(n, mid).failedAt)
            && Current(n', mid).max == Current(n, mid).max && Current(n', mid).load == Current(n, mid).load
  {
  }

  lemma {:induction false} LastBeatCons(f: Frame, rest: seq<Frame>, was: int)
    ensures LastBeat([f] + rest, was) == LastBeat(rest, if f.Beat? then f.now else was)
  {
    if rest == [] {
      assert [f] + rest == [f];
    } else {
      LastBeatCons(f, rest[..|rest| - 1], was);
      assert ([f] + rest)[..|rest|] == [f] + rest[..|rest| - 1];
    }
  }

  /** After the loop the machine is still registered, with the time of the last heartbeat that was read, healthy
      exactly if it was and no error read said that its backend is gone, and with its slots as they were: no frame
      after one with a revoked key counts. */
  lemma {:induction false} ReadLoopEffects(n: Net, mid: MachineId, frames: seq<Frame>, k: nat)
    requires WellFormed(n) && Online(n, mid) && ReadsUpTo(frames, k)
    ensures var n' := OnFrames(n, mid, frames);
            && Online(n', mid) && n'.machines == n.machines
            && (Current(n', mid).backendOK <==> Current(n, mid).backendOK && forall i :: 0 <= i < k ==> !ReportsBackend(frames[i]))
            && Current(n', mid).lastHeartbeat == LastBeat(frames[..k], Current(n, mid).lastHeartbeat)
            && Current(n', mid).max == Current(n, mid).max && Current(n', mid).load == Current(n, mid).load
    decreases |frames|
  {
    if k > 0 {
      var rest := frames[1..];
      FrameEffect(n, mid, frames[0]);
      FrameWellFormed(n, mid, frames[0]);
      assert forall i :: 0 <= i < k - 1 ==> rest[i] == frames[i + 1];
      ReadLoopEffects(OnFrame(n, mid, frames[0]), mid, rest, k - 1);
      assert frames[..k] == [frames[0]] + rest[..k - 1];
      LastBeatCons(frames[0], rest[..k - 1], Current(n, mid).lastHeartbeat);
      NoneReports(frames, k);
    }
  }

  lemma NoneReports(frames: seq<Frame>, k: nat)
    requires 0 < k <= |frames|
    ensures (forall i :: 0 <= i < k ==> !ReportsBackend(frames[i]))
       <==> !ReportsBackend(frames[0]) && forall i :: 0 <= i < k - 1 ==> !ReportsBackend(frames[1..][i])
  {
    if forall i :: 0 <= i < k - 1 ==> !ReportsBackend(frames[1..][i]) {
      assert forall i :: 1 <= i < k ==> frames[i] == frames[1..][i - 1];
    }
  }

  /** A whole connection, with nothing else going on, leaves its machine unregistered. */
  lemma ConnectionEnds(n: Net, sid: SessionId, mid: MachineId, user: int, max: int, now: int, frames: seq<Frame>, k: nat)
    requires WellFormed(n) && sid !in n.sessions && ReadsUpTo(frames, k)
    ensures var n' := Connection(n, sid, mid, user, max, now, frames);
            mid !in n'.machines && forall m :: m != mid ==> (m in n'.machines <==> m in n.machines)
  {
    RegisterWellFormed(n, sid, mid, user, max, now);
    ReadLoopEffects(Register(n, sid, mid, user, max, now), mid, frames, k);
  }
}
