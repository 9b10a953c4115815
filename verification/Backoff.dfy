/** The reconnect schedule of the provider agent (internal/provider/agent.go, `Run`).
    Durations are nanoseconds in a Go `int64`. */
module Backoff {

  const INT64_LIMIT: int := 0x8000_0000_0000_0000

  /** Two's complement reduction of a sum or doubling of int64 values. */
  function Wrap64(x: int): (w: int)
    requires -INT64_LIMIT <= x < 3 * INT64_LIMIT
    ensures -INT64_LIMIT <= w < INT64_LIMIT
  {
    if x < INT64_LIMIT then x else x - 2 * INT64_LIMIT
  }

  /** The wait in force, or a panic: `rand.Int64N(backoff / 4)` panics unless its argument is positive. */
  datatype Wait = Panicked | Nanos(ns: int)

  /** `rand.Int64N(backoff / 4)` for the random draw `draw`. */
  function Jitter(backoff: int, draw: nat): (j: int)
    requires backoff >= 4
    ensures 0 <= j < backoff / 4
  {
    draw % (backoff / 4)
  }

  /** The wait after one more failure, with `draw` the random draw the jitter is reduced from. */
  function Next(wait: Wait, max: int, draw: nat): Wait
    requires max < INT64_LIMIT && (wait.Nanos? ==> wait.ns < INT64_LIMIT)
  {
    if wait.Panicked? || wait.ns < 4 then Panicked
    else
      var grown := Wrap64(Wrap64(wait.ns * 2) + Jitter(wait.ns, draw));
      Nanos(if grown > max then max else grown)
  }

  /** The wait after the given failures in a row, oldest first. */
  function After(min: int, max: int, draws: seq<nat>): (w: Wait)
    requires min <= max < INT64_LIMIT
    ensures w.Nanos? ==> w.ns <= max
  {
    if draws == [] then Nanos(min)
    else Next(After(min, max, draws[..|draws| - 1]), max, draws[|draws| - 1])
  }

  /** No jitter can make the doubling of a wait up to `max` leave the int64 range. */
  predicate FitsInt64(max: int) {
    2 * max + max / 4 - 1 < INT64_LIMIT
  }

  function Pow2(n: nat): (p: int)
    ensures p >= 1
  {
    if n == 0 then 1 else 2 * Pow2(n - 1)
  }

  function Min(a: int, b: int): int {
    if a <= b then a else b
  }

  lemma NextInRange(b: int, max: int, draw: nat)
    requires 4 <= b <= max && FitsInt64(max)
    ensures Next(Nanos(b), max, draw).Nanos?
    ensures Min(max, 2 * b) <= Next(Nanos(b), max, draw).ns <= Min(max, 2 * b + b / 4 - 1)
  {
    assert 0 <= Jitter(b, draw) < b / 4 <= max / 4;
  }

  lemma GrowsTo(b: int, p: int, min: int, max: int, next: int)
    requires Min(max, p * min) <= b && Min(max, 2 * b) <= next && 0 < min <= max && p >= 1 && 0 <= b
    ensures Min(max, (2 * p) * min) <= next
  {
    assert (2 * p) * min == 2 * (p * min);
  }

  /** After n consecutive failures the wait is at least min(Max, 2^n * Min) and at most Max, and the
      jitter argument was positive every time. */
  lemma {:induction false} BackoffBounds(min: int, max: int, draws: seq<nat>)
    requires 4 <= min <= max && FitsInt64(max)
    ensures After(min, max, draws).Nanos?
    ensures 4 <= After(min, max, draws).ns <= max
    ensures Min(max, Pow2(|draws|) * min) <= After(min, max, draws).ns
  {
    if draws != [] {
      var before := draws[..|draws| - 1];
      BackoffBounds(min, max, before);
      var b := After(min, max, before).ns;
      NextInRange(b, max, draws[|draws| - 1]);
      GrowsTo(b, Pow2(|before|), min, max, After(min, max, draws).ns);
    }
  }

  /** The waits never shrink between two resets. */
  lemma {:induction false} BackoffNonDecreasing(min: int, max: int, draws: seq<nat>, k: nat)
    requires 4 <= min <= max && FitsInt64(max) && k <= |draws|
    ensures After(min, max, draws[..k]).Nanos? && After(min, max, draws).Nanos?
    ensures After(min, max, draws[..k]).ns <= After(min, max, draws).ns
  {
    BackoffBounds(min, max, draws[..k]);
    if k == |draws| {
      assert draws[..k] == draws;
    } else {
      var before := draws[..|draws| - 1];
      BackoffNonDecreasing(min, max, before, k);
      assert before[..k] == draws[..k];
      BackoffBounds(min, max, before);
      NextInRange(After(min, max, before).ns, max, draws[|draws| - 1]);
    }
  }

  /** Max is reached as soon as 2^n * Min is at least Max, that is within ceil(log2(Max/Min)) failures,
      and is then kept. */
  lemma MaxReached(min: int, max: int, draws: seq<nat>)
    requires 4 <= min <= max && FitsInt64(max)
    requires Pow2(|draws|) * min >= max
    ensures After(min, max, draws) == Nanos(max)
  {
    BackoffBounds(min, max, draws);
  }

  // With zero jitter the wait doubles until it overflows or sits at Max.
  lemma {:induction false} ReachMaxOrPanic(min: int, max: int, n: nat) returns (draws: seq<nat>)
    requires 4 <= min <= max < INT64_LIMIT
    ensures After(min, max, draws).Panicked? || After(min, max, draws).ns >= Min(max, n)
    decreases n
  {
    if n == 0 {
      draws := [];
    } else {
      draws := ReachMaxOrPanic(min, max, n - 1);
      var w := After(min, max, draws);
      if w.Nanos? {
        var once, twice := draws + [0], draws + [0, 0];
        assert once[..|once| - 1] == draws && twice[..|twice| - 1] == once;
        ZeroJitter(w.ns);
        draws := if w.ns * 2 >= INT64_LIMIT || w.ns < 4 then twice else once;
      }
    }
  }

  lemma ZeroJitter(b: int)
    ensures b >= 4 ==> Jitter(b, 0) == 0
  {
  }

  // The draw that overflows from b: none if doubling alone does, the largest otherwise.
  function FatalDraw(b: int): nat {
    if 2 * b < INT64_LIMIT && b >= 4 then b / 4 - 1 else 0
  }

  lemma Overflows(b: int, max: int)
    requires 4 <= b < INT64_LIMIT && !FitsInt64(b) && 4 <= max < INT64_LIMIT
    ensures Next(Nanos(b), max, FatalDraw(b)).Nanos? && Next(Nanos(b), max, FatalDraw(b)).ns < 4
  {
    SmallModulus(FatalDraw(b), b / 4);
  }

  lemma SmallModulus(x: int, m: int)
    requires 0 <= x < m
    ensures x % m == x
  {
  }

  lemma PanicsAfter(min: int, max: int, draws: seq<nat>, draw: nat)
    requires min <= max < INT64_LIMIT
    requires After(min, max, draws) == Nanos(max)
    requires var next := Next(Nanos(max), max, draw); next.Nanos? && next.ns < 4
    ensures After(min, max, draws + [draw] + [0]).Panicked?
  {
    var once := draws + [draw];
    var twice := once + [0];
    assert once[..|once| - 1] == draws && twice[..|twice| - 1] == once;
  }

  // With a larger Max some run of failures overflows, and the next jitter argument is not positive.
  lemma SomeRunPanics(min: int, max: int) returns (draws: seq<nat>)
    requires 4 <= min <= max < INT64_LIMIT && !FitsInt64(max)
    ensures After(min, max, draws).Panicked?
  {
    draws := ReachMaxOrPanic(min, max, max);
    if After(min, max, draws).Nanos? {
      Overflows(max, max);
      PanicsAfter(min, max, draws, FatalDraw(max));
      draws := draws + [FatalDraw(max)] + [0];
    }
  }

  /** How one connection attempt ended: the read loop returned cleanly, or it failed and a jitter was drawn. */
  datatype Attempt = Clean | Failed(draw: nat)

  /** The draws of the failures since the last clean disconnect. */
  function SinceReset(attempts: seq<Attempt>): seq<nat> {
    if attempts == [] then []
    else match attempts[|attempts| - 1]
      case Clean => []
      case Failed(draw) => SinceReset(attempts[..|attempts| - 1]) + [draw]
  }

  /** The loop after some attempts: the waits slept so far, and the wait in force. */
  datatype Loop = Loop(waits: seq<int>, wait: Wait)

  predicate IsInt64(x: int) {
    -INT64_LIMIT <= x < INT64_LIMIT
  }

  /** A failed attempt sleeps the wait in force and then computes the next one; a clean disconnect resets it;
      nothing happens after a panic. */
  function LoopOver(min: int, max: int, attempts: seq<Attempt>): (l: Loop)
    requires IsInt64(min) && IsInt64(max)
    ensures l.wait.Nanos? ==> IsInt64(l.wait.ns)
  {
    if attempts == [] then Loop([], Nanos(min))
    else
      var l := LoopOver(min, max, attempts[..|attempts| - 1]);
      if l.wait.Panicked? then l
      else match attempts[|attempts| - 1]
        case Clean => Loop(l.waits, Nanos(min))
        case Failed(draw) => Loop(l.waits + [l.wait.ns], Next(l.wait, max, draw))
  }

  /** Whatever the history of its connections, the agent never panics, its wait is the one reached since the
      last clean disconnect, and every wait it slept lies between Min and Max. */
  lemma {:induction false} WaitsBounded(min: int, max: int, attempts: seq<Attempt>)
    requires 4 <= min <= max && FitsInt64(max)
    ensures var l := LoopOver(min, max, attempts);
            && l.wait == After(min, max, SinceReset(attempts)) && l.wait.Nanos?
            && forall k :: 0 <= k < |l.waits| ==> min <= l.waits[k] <= max
  {
    var draws := SinceReset(attempts);
    BackoffBounds(min, max, draws);
    if attempts != [] {
      var before := attempts[..|attempts| - 1];
      WaitsBounded(min, max, before);
      AtLeastMin(min, max, SinceReset(before));
      if attempts[|attempts| - 1].Failed? {
        assert draws[..|draws| - 1] == SinceReset(before);
      }
    }
  }

  lemma AtLeastMin(min: int, max: int, draws: seq<nat>)
    requires 4 <= min <= max && FitsInt64(max)
    ensures After(min, max, draws).Nanos? && min <= After(min, max, draws).ns <= max
  {
    BackoffBounds(min, max, draws);
    BackoffNonDecreasing(min, max, draws, 0);
    assert draws[..0] == [];
  }

  // ----- What is slept -----

  function FailuresIn(attempts: seq<Attempt>): nat {
    if attempts == [] then 0
    else FailuresIn(attempts[..|attempts| - 1]) + if attempts[|attempts| - 1].Failed? then 1 else 0
  }

  /** How many failures in a row the attempts end in. */
  function Streak(attempts: seq<Attempt>): nat {
    if attempts == [] || attempts[|attempts| - 1].Clean? then 0 else Streak(attempts[..|attempts| - 1]) + 1
  }

  /** One wait is slept per failure. The first after a clean disconnect is Min; the one that follows n failures
      in a row lies between min(Max, 2^n * Min) and Max; and each is at least twice the one before and less than
      two and a quarter times it, unless Max cuts it off. */
  ghost predicate OnSchedule(min: int, max: int, attempts: seq<Attempt>, waits: seq<int>) {
    && |waits| == FailuresIn(attempts)
    && forall i :: 0 <= i < |attempts| && attempts[i].Failed? ==>
         SleptAt(min, max, waits, FailuresIn(attempts[..i]), Streak(attempts[..i]))
  }

  predicate SleptAt(min: int, max: int, waits: seq<int>, k: nat, n: nat) {
    && k < |waits| && Min(max, Pow2(n) * min) <= waits[k] <= max
    && (n == 0 ==> waits[k] == min)
    && (n > 0 ==> k > 0 && waits[k - 1] <= waits[k]
                  && Min(max, 2 * waits[k - 1]) <= waits[k] <= Min(max, 2 * waits[k - 1] + waits[k - 1] / 4 - 1))
  }

  lemma {:induction false} StreakIsDraws(attempts: seq<Attempt>)
    ensures Streak(attempts) == |SinceReset(attempts)|
  {
    if attempts != [] {
      StreakIsDraws(attempts[..|attempts| - 1]);
    }
  }

  // The wait slept for a failure that comes after these attempts.
  lemma SleepsNext(min: int, max: int, before: seq<Attempt>, waits: seq<int>)
    requires 4 <= min <= max && FitsInt64(max)
    requires LoopOver(min, max, before).waits == waits && |waits| == FailuresIn(before) && LoopOver(min, max, before).wait.Nanos?
    ensures SleptAt(min, max, waits + [LoopOver(min, max, before).wait.ns], |waits|, Streak(before))
  {
    var draws := SinceReset(before);
    WaitsBounded(min, max, before);
    StreakIsDraws(before);
    BackoffBounds(min, max, draws);
    if Streak(before) > 0 {
      var earlier := before[..|before| - 1];
      WaitsBounded(min, max, earlier);
      AtLeastMin(min, max, SinceReset(earlier));
      NextInRange(LoopOver(min, max, earlier).wait.ns, max, before[|before| - 1].draw);
    }
  }

  lemma MoreWaits(min: int, max: int, attempts: seq<Attempt>, waits: seq<int>, w: int)
    requires OnSchedule(min, max, attempts, waits)
    ensures forall i :: 0 <= i < |attempts| && attempts[i].Failed? ==>
              SleptAt(min, max, waits + [w], FailuresIn(attempts[..i]), Streak(attempts[..i]))
  {
    forall i | 0 <= i < |attempts| && attempts[i].Failed?
      ensures SleptAt(min, max, waits + [w], FailuresIn(attempts[..i]), Streak(attempts[..i]))
    {
      assert SleptAt(min, max, waits, FailuresIn(attempts[..i]), Streak(attempts[..i]));
    }
  }

  /** Whatever the history of its connections, what the loop sleeps is on schedule. */
  lemma {:induction false} WaitsOnSchedule(min: int, max: int, attempts: seq<Attempt>)
    requires 4 <= min <= max && FitsInt64(max)
    ensures OnSchedule(min, max, attempts, LoopOver(min, max, attempts).waits)
  {
    if attempts != [] {
      var before := attempts[..|attempts| - 1];
      var l := LoopOver(min, max, before);
      assert forall i :: 0 <= i <= |before| ==> attempts[..i] == before[..i];
      assert before[..|before|] == before;
      WaitsOnSchedule(min, max, before);
      WaitsBounded(min, max, before);
      if attempts[|attempts| - 1].Failed? {
        MoreWaits(min, max, before, l.waits, l.wait.ns);
        SleepsNext(min, max, before, l.waits);
      }
    }
  }

  // ----- Exactly when the loop can panic -----

  function Larger(a: int, b: int): int {
    if a >= b then a else b
  }

  /** Failures alone, with these draws. */
  function Failures(draws: seq<nat>): (attempts: seq<Attempt>)
    ensures |attempts| == |draws| && forall i :: 0 <= i < |draws| ==> attempts[i] == Failed(draws[i])
  {
    seq(|draws|, i requires 0 <= i < |draws| => Failed(draws[i]))
  }

  lemma {:induction false} LoopOverFailures(min: int, max: int, draws: seq<nat>)
    requires min <= max && IsInt64(min) && IsInt64(max)
    ensures LoopOver(min, max, Failures(draws)).wait == After(min, max, draws)
  {
    if draws != [] {
      LoopOverFailures(min, max, draws[..|draws| - 1]);
      assert Failures(draws)[..|draws| - 1] == Failures(draws[..|draws| - 1]);
    } else {
      assert Failures(draws) == [];
    }
  }

  lemma LoopOverOne(min: int, max: int, attempts: seq<Attempt>, draw: nat)
    requires IsInt64(min) && IsInt64(max) && LoopOver(min, max, attempts).wait.Nanos?
    ensures LoopOver(min, max, attempts + [Failed(draw)]).wait == Next(LoopOver(min, max, attempts).wait, max, draw)
  {
    assert (attempts + [Failed(draw)])[..|attempts|] == attempts;
  }

  // The wait after one failure is too short for a jitter.
  lemma SecondFailurePanics(min: int, max: int, draw: nat) returns (attempts: seq<Attempt>)
    requires IsInt64(min) && IsInt64(max) && min >= 4
    requires Next(Nanos(min), max, draw).Nanos? && Next(Nanos(min), max, draw).ns < 4
    ensures LoopOver(min, max, attempts).wait.Panicked?
  {
    LoopOverOne(min, max, [], draw);
    LoopOverOne(min, max, [] + [Failed(draw)], 0);
    attempts := [] + [Failed(draw)] + [Failed(0)];
  }

  lemma CanPanic(min: int, max: int) returns (attempts: seq<Attempt>)
    requires IsInt64(min) && IsInt64(max) && !(min >= 4 && max >= 4 && FitsInt64(Larger(min, max)))
    ensures LoopOver(min, max, attempts).wait.Panicked?
  {
    if min < 4 {
      LoopOverOne(min, max, [], 0);
      attempts := [] + [Failed(0)];
    } else if max < 4 {
      attempts := SecondFailurePanics(min, max, 0);
    } else if min <= max {
      var draws := SomeRunPanics(min, max);
      LoopOverFailures(min, max, draws);
      attempts := Failures(draws);
    } else {
      Overflows(min, max);
      attempts := SecondFailurePanics(min, max, FatalDraw(min));
    }
  }

  lemma NextStaysLong(b: int, max: int, draw: nat)
    requires 4 <= b && 4 <= max && FitsInt64(Larger(b, max))
    ensures Next(Nanos(b), max, draw).Nanos? && 4 <= Next(Nanos(b), max, draw).ns <= max
  {
    assert 0 <= Jitter(b, draw) < b / 4;
  }

  lemma {:induction false} NeverPanics(min: int, max: int, attempts: seq<Attempt>)
    requires IsInt64(min) && IsInt64(max) && min >= 4 && max >= 4 && FitsInt64(Larger(min, max))
    ensures var w := LoopOver(min, max, attempts).wait; w.Nanos? && 4 <= w.ns <= Larger(min, max)
  {
    if attempts != [] {
      var before := attempts[..|attempts| - 1];
      NeverPanics(min, max, before);
      match attempts[|attempts| - 1] {
        case Clean =>
        case Failed(draw) => NextStaysLong(LoopOver(min, max, before).wait.ns, max, draw);
      }
    }
  }

  /** For any int64 Min and Max the loop is panic-free, whatever its connections do and whatever jitter is drawn,
      if and only if both are at least 4 ns and twice the larger plus a quarter of it, less one, fits an
      int64. */
  lemma PanicFreeExactly(min: int, max: int)
    requires IsInt64(min) && IsInt64(max)
    ensures (forall attempts :: LoopOver(min, max, attempts).wait.Nanos?)
       <==> min >= 4 && max >= 4 && FitsInt64(Larger(min, max))
  {
    if min >= 4 && max >= 4 && FitsInt64(Larger(min, max)) {
      forall attempts
        ensures LoopOver(min, max, attempts).wait.Nanos?
      {
        NeverPanics(min, max, attempts);
      }
    } else {
      var attempts := CanPanic(min, max);
    }
  }

  /** The connection loop, driven by the outcomes of its attempts. */
  method Run(min: int, max: int, attempts: seq<Attempt>) returns (waits: seq<int>, panicked: bool)
    requires IsInt64(min) && IsInt64(max)
    ensures waits == LoopOver(min, max, attempts).waits
    ensures panicked == LoopOver(min, max, attempts).wait.Panicked?
    ensures 4 <= min <= max && FitsInt64(max) ==> !panicked && OnSchedule(min, max, attempts, waits)
  {
    var backoff := min;
    waits, panicked := [], false;
    for i := 0 to |attempts|
      invariant LoopOver(min, max, attempts[..i]) == Loop(waits, if panicked then Panicked else Nanos(backoff))
      invariant IsInt64(backoff)
    {
      assert attempts[..i + 1][..i] == attempts[..i];
      if !panicked {
        match attempts[i]
        case Clean =>
          backoff := min;
        case Failed(draw) =>
          waits := waits + [backoff];
          if backoff < 4 {
            panicked := true;
          } else {
            backoff := Wrap64(Wrap64(backoff * 2) + Jitter(backoff, draw));
            if backoff > max {
              backoff := max;
            }
          }
      }
    }
    assert attempts[..|attempts|] == attempts;
    if 4 <= min <= max && FitsInt64(max) {
      WaitsBounded(min, max, attempts);
      WaitsOnSchedule(min, max, attempts);
    }
  }
}
