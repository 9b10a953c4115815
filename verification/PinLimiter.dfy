/** The sliding-window limiter for PIN redeem attempts (internal/coord/invites.go, `pinLimiter`).
    Times are nanoseconds of a clock that never runs backwards. */
module PinLimiter {

  const FIFTEEN_MINUTES: int := 15 * 60 * 1_000_000_000

  type Log = map<string, seq<int>>

  function Get(log: Log, key: string): seq<int> {
    if key in log then log[key] else []
  }

  /** The attempts strictly later than `cutoff`, in order. */
  function Recent(times: seq<int>, cutoff: int): seq<int> {
    if times == [] then []
    else
      var front := Recent(times[..|times| - 1], cutoff);
      if times[|times| - 1] > cutoff then front + [times[|times| - 1]] else front
  }

  /** First pass of `allow`: compact the log of each key in turn, and stop at the first full one. */
  function Screen(log: Log, keys: seq<string>, cutoff: int, limit: int): (Log, bool)
    decreases |keys|
  {
    if keys == [] then (log, true)
    else if keys[0] == "" then Screen(log, keys[1..], cutoff, limit)
    else
      var kept := Recent(Get(log, keys[0]), cutoff);
      var next := log[keys[0] := kept];
      if |kept| >= limit then (next, false) else Screen(next, keys[1..], cutoff, limit)
  }

  /** Second pass: record the attempt under every key. */
  function Charge(log: Log, keys: seq<string>, now: int): Log
    decreases |keys|
  {
    if keys == [] then log
    else if keys[0] == "" then Charge(log, keys[1..], now)
    else Charge(log[keys[0] := Get(log, keys[0]) + [now]], keys[1..], now)
  }

  function AllowNext(log: Log, keys: seq<string>, limit: int, window: int, now: int): (Log, bool) {
    var (screened, ok) := Screen(log, keys, now - window, limit);
    (if ok then Charge(screened, keys, now) else screened, ok)
  }

  predicate DistinctKeys(keys: seq<string>) {
    forall i, j :: 0 <= i < j < |keys| && keys[i] != "" ==> keys[i] != keys[j]
  }

  // ----- Facts about one call -----

  lemma {:induction false} RecentOfRecent(times: seq<int>, low: int, high: int)
    requires low <= high
    ensures Recent(Recent(times, low), high) == Recent(times, high)
  {
    if times != [] {
      RecentOfRecent(times[..|times| - 1], low, high);
      var kept := Recent(times, low);
      if times[|times| - 1] > low {
        assert kept[..|kept| - 1] == Recent(times[..|times| - 1], low);
      }
    }
  }

  /** The first pass accepts exactly when every non-empty key has fewer than `limit` recent attempts. */
  lemma {:induction false} ScreenAccepts(log: Log, keys: seq<string>, cutoff: int, limit: int)
    ensures Screen(log, keys, cutoff, limit).1 <==>
              forall k :: k in keys && k != "" ==> |Recent(Get(log, k), cutoff)| < limit
    decreases |keys|
  {
    if keys != [] {
      var next := if keys[0] == "" then log else log[keys[0] := Recent(Get(log, keys[0]), cutoff)];
      ScreenAccepts(next, keys[1..], cutoff, limit);
      RecentOfRecent(Get(log, keys[0]), cutoff, cutoff);
      assert forall k :: k != keys[0] ==> Get(next, k) == Get(log, k);
      assert forall k :: k in keys <==> k == keys[0] || k in keys[1..];
    }
  }

  /** The first pass only ever drops attempts that are no longer recent. */
  lemma {:induction false} ScreenKeeps(log: Log, keys: seq<string>, cutoff: int, limit: int, k: string)
    ensures var kept := Get(Screen(log, keys, cutoff, limit).0, k);
            kept == Get(log, k) || kept == Recent(Get(log, k), cutoff)
    decreases |keys|
  {
    if keys != [] {
      var next := if keys[0] == "" then log else log[keys[0] := Recent(Get(log, keys[0]), cutoff)];
      ScreenKeeps(next, keys[1..], cutoff, limit, k);
      RecentOfRecent(Get(log, k), cutoff, cutoff);
    }
  }

  lemma {:induction false} ChargeExactly(log: Log, keys: seq<string>, now: int, k: string)
    requires DistinctKeys(keys)
    ensures Get(Charge(log, keys, now), k) == Get(log, k) + if k in keys && k != "" then [now] else []
    decreases |keys|
  {
    if keys != [] {
      var next := if keys[0] == "" then log else log[keys[0] := Get(log, keys[0]) + [now]];
      ChargeExactly(next, keys[1..], now, k);
      assert k in keys <==> k == keys[0] || k in keys[1..];
      assert keys[0] != "" ==> keys[0] !in keys[1..];
    }
  }

  // ----- Histories -----

  datatype Call = Call(keys: seq<string>, now: int)

  function Run(limit: int, window: int, calls: seq<Call>): Log {
    if calls == [] then map[]
    else
      var c := calls[|calls| - 1];
      AllowNext(Run(limit, window, calls[..|calls| - 1]), c.keys, limit, window, c.now).0
  }

  predicate IsAllowed(limit: int, window: int, past: seq<Call>, c: Call) {
    AllowNext(Run(limit, window, past), c.keys, limit, window, c.now).1
  }

  /** When the allowed attempts of `key` happened. */
  function Granted(limit: int, window: int, calls: seq<Call>, key: string): seq<int> {
    if calls == [] then []
    else
      var before := calls[..|calls| - 1];
      var c := calls[|calls| - 1];
      Granted(limit, window, before, key) + Added(limit, window, before, c, key)
  }

  /** Calls in the order of a monotone clock, none later than `end`, each with distinct keys. */
  predicate Orderly(calls: seq<Call>, end: int) {
    if calls == [] then true
    else
      var c := calls[|calls| - 1];
      c.now <= end && DistinctKeys(c.keys) && Orderly(calls[..|calls| - 1], c.now)
  }

  ghost predicate Sorted(s: seq<int>) {
    forall i, j :: 0 <= i <= j < |s| ==> s[i] <= s[j]
  }

  /** Any `limit + 1` consecutive entries span at least the window. */
  ghost predicate Spaced(s: seq<int>, limit: int, window: int) {
    forall i, j :: 0 <= i < |s| && 0 <= j < |s| && j == i + limit ==> s[j] - s[i] >= window
  }

  lemma {:induction false} RecentOfSorted(s: seq<int>, cutoff: int)
    requires Sorted(s)
    ensures |Recent(s, cutoff)| <= |s|
    ensures forall i :: 0 <= i < |s| ==> (s[i] > cutoff <==> i >= |s| - |Recent(s, cutoff)|)
  {
    if s != [] {
      RecentOfSorted(s[..|s| - 1], cutoff);
    }
  }

  /** Two logs no cutoff from `cutoff0` on can tell apart. */
  ghost predicate SameRecent(a: seq<int>, b: seq<int>, cutoff0: int) {
    forall cutoff :: cutoff >= cutoff0 ==> Recent(a, cutoff) == Recent(b, cutoff)
  }

  /** The log of a key forgets nothing a present or later cutoff could still see of its allowed attempts,
      and those are spaced. */
  ghost predicate Faithful(limit: int, window: int, log: seq<int>, granted: seq<int>, now: int) {
    && SameRecent(log, granted, now - window)
    && Sorted(granted)
    && (forall i :: 0 <= i < |granted| ==> granted[i] <= now)
    && Spaced(granted, limit, window)
  }

  lemma RecentAppend(s: seq<int>, x: int, cutoff: int)
    ensures Recent(s + [x], cutoff) == Recent(s, cutoff) + if x > cutoff then [x] else []
  {
    assert (s + [x])[..|s|] == s;
  }

  // The spacing survives a new attempt when fewer than `limit` attempts are recent.
  lemma SpacedAppend(s: seq<int>, x: int, limit: int, window: int)
    requires Sorted(s) && Spaced(s, limit, window) && limit > 0
    requires |Recent(s, x - window)| < limit
    ensures Spaced(s + [x], limit, window)
  {
    RecentOfSorted(s, x - window);
  }

  lemma SameRecentStep(log: seq<int>, kept: seq<int>, granted: seq<int>, added: seq<int>, cutoff0: int)
    requires SameRecent(log, granted, cutoff0) && |added| <= 1
    requires kept == log || kept == Recent(log, cutoff0)
    ensures SameRecent(kept + added, granted + added, cutoff0)
  {
    forall cutoff | cutoff >= cutoff0
      ensures Recent(kept + added, cutoff) == Recent(granted + added, cutoff)
    {
      RecentOfRecent(log, cutoff0, cutoff);
      if added == [] {
        assert kept + added == kept && granted + added == granted;
      } else {
        RecentAppend(kept, added[0], cutoff);
        RecentAppend(granted, added[0], cutoff);
        assert added == [added[0]];
      }
    }
  }

  /** What one call adds to the log of `key` and to its allowed attempts. */
  function Added(limit: int, window: int, before: seq<Call>, c: Call, key: string): seq<int> {
    if key in c.keys && IsAllowed(limit, window, before, c) then [c.now] else []
  }

  lemma GrantedSnoc(limit: int, window: int, before: seq<Call>, c: Call, key: string)
    ensures Granted(limit, window, before + [c], key)
         == Granted(limit, window, before, key) + Added(limit, window, before, c, key)
  {
    assert (before + [c])[..|before|] == before;
  }

  lemma RunSnoc(limit: int, window: int, before: seq<Call>, c: Call, key: string)
    requires key != "" && DistinctKeys(c.keys)
    ensures var screened := Screen(Run(limit, window, before), c.keys, c.now - window, limit).0;
            Get(Run(limit, window, before + [c]), key) == Get(screened, key) + Added(limit, window, before, c, key)
  {
    assert (before + [c])[..|before|] == before;
    var (screened, ok) := Screen(Run(limit, window, before), c.keys, c.now - window, limit);
    if ok {
      ChargeExactly(screened, c.keys, c.now, key);
    }
  }

  lemma AddedMeansRoom(limit: int, window: int, before: seq<Call>, c: Call, key: string)
    requires key != "" && Added(limit, window, before, c, key) != []
    ensures |Recent(Get(Run(limit, window, before), key), c.now - window)| < limit
  {
    ScreenAccepts(Run(limit, window, before), c.keys, c.now - window, limit);
  }

  // The value-level step: compact or not, then perhaps append the present instant.
  lemma StepIsFaithful(limit: int, window: int, log: seq<int>, kept: seq<int>, granted: seq<int>, added: seq<int>, now: int)
    requires limit > 0 && window >= 0 && Faithful(limit, window, log, granted, now)
    requires kept == log || kept == Recent(log, now - window)
    requires added == [] || (added == [now] && |Recent(log, now - window)| < limit)
    ensures Faithful(limit, window, kept + added, granted + added, now)
  {
    SameRecentStep(log, kept, granted, added, now - window);
    if added == [] {
      assert granted + added == granted;
    } else {
      SpacedAppend(granted, now, limit, window);
    }
  }

  lemma {:induction false} RunIsFaithful(limit: int, window: int, calls: seq<Call>, key: string, now: int)
    requires limit > 0 && window >= 0 && key != "" && Orderly(calls, now)
    ensures Faithful(limit, window, Get(Run(limit, window, calls), key), Granted(limit, window, calls, key), now)
  {
    if calls != [] {
      var before := calls[..|calls| - 1];
      var c := calls[|calls| - 1];
      assert calls == before + [c];
      RunIsFaithful(limit, window, before, key, c.now);
      var log := Run(limit, window, before);
      var screened := Screen(log, c.keys, c.now - window, limit).0;
      var added := Added(limit, window, before, c, key);
      GrantedSnoc(limit, window, before, c, key);
      RunSnoc(limit, window, before, c, key);
      if added != [] {
        AddedMeansRoom(limit, window, before, c, key);
      }
      ScreenKeeps(log, c.keys, c.now - window, limit, key);
      StepIsFaithful(limit, window, Get(log, key), Get(screened, key), Granted(limit, window, before, key), added, c.now);
    }
  }

  /** Entries of `s` in the half-open window (end - window, end]. */
  function CountWithin(s: seq<int>, window: int, end: int): nat {
    if s == [] then 0
    else
      var front := CountWithin(s[..|s| - 1], window, end);
      if end - window < s[|s| - 1] <= end then front + 1 else front
  }

  lemma SortedPair(s: seq<int>, i: nat)
    requires Sorted(s) && i < |s|
    ensures s[i] <= s[|s| - 1]
  {
  }

  // In a sorted sequence the entries of a window are the last ones of a prefix.
  lemma {:induction false} WindowIsRun(s: seq<int>, window: int, end: int) returns (hi: nat)
    requires Sorted(s)
    ensures CountWithin(s, window, end) <= hi <= |s|
    ensures forall i :: hi - CountWithin(s, window, end) <= i < hi ==> end - window < s[i] <= end
    ensures hi < |s| ==> s[hi] > end
  {
    if s == [] {
      hi := 0;
    } else {
      var front := s[..|s| - 1];
      hi := WindowIsRun(front, window, end);
      if s[|s| - 1] <= end {
        assert hi == |front|;
        if CountWithin(front, window, end) > 0 {
          SortedPair(s, hi - 1);
        }
        hi := |s|;
      }
    }
  }

  /** At most `limit` attempts of any key are allowed in any window, wherever the window ends. */
  lemma SlidingWindowBound(limit: int, window: int, calls: seq<Call>, key: string, now: int, end: int)
    requires limit > 0 && window > 0 && key != "" && Orderly(calls, now)
    ensures CountWithin(Granted(limit, window, calls, key), window, end) <= limit
  {
    RunIsFaithful(limit, window, calls, key, now);
    var granted := Granted(limit, window, calls, key);
    var hi := WindowIsRun(granted, window, end);
    assert hi - 1 - limit >= 0 ==> granted[hi - 1] - granted[hi - 1 - limit] >= window;
  }

  lemma {:induction false} RecentIsCount(s: seq<int>, window: int, now: int)
    requires forall i :: 0 <= i < |s| ==> s[i] <= now
    ensures |Recent(s, now - window)| == CountWithin(s, window, now)
  {
    if s != [] {
      RecentIsCount(s[..|s| - 1], window, now);
    }
  }

  // What the log of a key shows at `now` is the number of its allowed attempts in the window.
  lemma LogCountsWindow(limit: int, window: int, past: seq<Call>, key: string, now: int)
    requires limit > 0 && window > 0 && key != "" && Orderly(past, now)
    ensures |Recent(Get(Run(limit, window, past), key), now - window)|
         == CountWithin(Granted(limit, window, past, key), window, now)
  {
    RunIsFaithful(limit, window, past, key, now);
    RecentIsCount(Granted(limit, window, past, key), window, now);
  }

  /** A call is allowed only if each of its keys has fewer than `limit` allowed attempts in the window
      ending now... */
  lemma AllowedMeansRoom(limit: int, window: int, past: seq<Call>, c: Call, key: string)
    requires limit > 0 && window > 0 && Orderly(past, c.now)
    requires IsAllowed(limit, window, past, c) && key in c.keys && key != ""
    ensures CountWithin(Granted(limit, window, past, key), window, c.now) < limit
  {
    AddedMeansRoom(limit, window, past, c, key);
    LogCountsWindow(limit, window, past, key, c.now);
  }

  /** ... and denied only if one of them really has `limit` allowed attempts in that window. */
  lemma DeniedMeansFull(limit: int, window: int, past: seq<Call>, c: Call) returns (key: string)
    requires limit > 0 && window > 0 && Orderly(past, c.now)
    requires !IsAllowed(limit, window, past, c)
    ensures key in c.keys && key != ""
    ensures CountWithin(Granted(limit, window, past, key), window, c.now) == limit
  {
    var log := Run(limit, window, past);
    ScreenAccepts(log, c.keys, c.now - window, limit);
    key :| key in c.keys && key != "" && |Recent(Get(log, key), c.now - window)| >= limit;
    LogCountsWindow(limit, window, past, key, c.now);
    SlidingWindowBound(limit, window, past, key, c.now, c.now);
  }

  /** A denied call charges no key: whatever is asked of any key from now on sees the same attempts. */
  lemma DenialChargesNothing(log: Log, keys: seq<string>, limit: int, window: int, now: int, k: string, cutoff: int)
    requires !AllowNext(log, keys, limit, window, now).1
    requires cutoff >= now - window
    ensures Recent(Get(AllowNext(log, keys, limit, window, now).0, k), cutoff) == Recent(Get(log, k), cutoff)
  {
    ScreenKeeps(log, keys, now - window, limit, k);
    RecentOfRecent(Get(log, k), now - window, cutoff);
  }

  // ----- The limiter as it is coded: slices compacted in place -----

  /** A Go slice starting at the head of its backing array. */
  datatype Slice = Slice(backing: array<int>, len: nat)

  /** `filtered := times[:0]` and the appends that follow: survivors are written over the same array. */
  method CompactInPlace(a: array<int>, len: nat, cutoff: int) returns (kept: nat)
    requires len <= a.Length
    modifies a
    ensures kept <= len
    ensures a[..kept] == Recent(old(a[..len]), cutoff)
  {
    kept := 0;
    for i := 0 to len
      invariant kept <= i
      invariant a[..kept] == Recent(old(a[..i]), cutoff)
      invariant forall j :: i <= j < len ==> a[j] == old(a[j])
    {
      assert old(a[..i + 1])[..i] == old(a[..i]);
      var t := a[i];
      if t > cutoff {
        a[kept] := t;
        kept := kept + 1;
        assert a[..kept] == a[..kept - 1] + [t];
      }
    }
  }

  /** Go's `append`: in place while there is room, otherwise into a new and larger array. */
  method Append(s: Slice, x: int) returns (r: Slice)
    requires s.len <= s.backing.Length
    modifies s.backing
    ensures r.len == s.len + 1 <= r.backing.Length
    ensures r.backing == s.backing || fresh(r.backing)
    ensures r.backing[..r.len] == old(s.backing[..s.len]) + [x]
  {
    if s.len < s.backing.Length {
      s.backing[s.len] := x;
      r := Slice(s.backing, s.len + 1);
    } else {
      var bigger := new int[2 * s.len + 1];
      for i := 0 to s.len
        invariant forall j :: 0 <= j < i ==> bigger[j] == s.backing[j]
        invariant s.backing[..s.len] == old(s.backing[..s.len])
      {
        bigger[i] := s.backing[i];
      }
      bigger[s.len] := x;
      r := Slice(bigger, s.len + 1);
    }
  }

  class Limiter {
    const limit: int
    const window: int
    var attempts: map<string, Slice>
    ghost var contents: Log             // what the slices hold
    ghost var backings: set<array<int>> // their backing arrays

    ghost predicate Owns(key: string, s: Slice)
      reads this, s.backing
    {
      s.backing in backings && s.len <= s.backing.Length && key in contents && contents[key] == s.backing[..s.len]
    }

    /** No two keys share a backing array. */
    ghost predicate Valid()
      reads this, backings
    {
      && limit > 0
      && contents.Keys == attempts.Keys
      && (forall k :: k in attempts ==> attempts[k].backing in backings && Owns(k, attempts[k]))
      && (forall k, l :: k in attempts && l in attempts && k != l ==> attempts[k].backing != attempts[l].backing)
    }

    constructor (configured: int)
      ensures Valid() && backings == {} && contents == map[]
      ensures window == 900_000_000_000
      ensures limit == if configured <= 0 then 10 else configured
    {
      limit := if configured <= 0 then 10 else configured;
      window := FIFTEEN_MINUTES;
      attempts := map[];
      contents := map[];
      backings := {};
    }

    // Reading an absent key of a Go map yields an empty slice.
    method SliceOf(key: string) returns (s: Slice)
      requires Valid()
      ensures s.len <= s.backing.Length && s.backing[..s.len] == Get(contents, key)
      ensures key in attempts ==> s == attempts[key]
      ensures key !in attempts ==> fresh(s.backing)
    {
      if key in attempts {
        s := attempts[key];
      } else {
        var empty := new int[0];
        s := Slice(empty, 0);
      }
    }

    // Stores a slice under a key, over an array no other key uses.
    method Store(key: string, s: Slice)
      requires limit > 0 && contents.Keys == attempts.Keys
      requires forall k :: k in attempts && k != key ==> attempts[k].backing in backings && Owns(k, attempts[k])
      requires forall k, l :: k in attempts && l in attempts && k != l ==> attempts[k].backing != attempts[l].backing
      requires s.len <= s.backing.Length
      requires forall k :: k in attempts && k != key ==> attempts[k].backing != s.backing
      modifies this
      ensures Valid() && backings == old(backings) + {s.backing}
      ensures contents == old(contents)[key := s.backing[..s.len]]
    {
      attempts := attempts[key := s];
      contents := contents[key := s.backing[..s.len]];
      backings := backings + {s.backing};
    }

    // Compacts the slice of one key, or stores an empty one.
    method CompactKey(key: string, cutoff: int) returns (n: nat)
      requires Valid()
      modifies this, backings
      ensures Valid() && fresh(backings - old(backings))
      ensures contents == old(contents)[key := Recent(Get(old(contents), key), cutoff)]
      ensures n == |contents[key]|
    {
      var s := SliceOf(key);
      n := CompactInPlace(s.backing, s.len, cutoff);
      Store(key, Slice(s.backing, n));
    }

    method AppendKey(key: string, now: int)
      requires Valid()
      modifies this, backings
      ensures Valid() && fresh(backings - old(backings))
      ensures contents == old(contents)[key := Get(old(contents), key) + [now]]
    {
      var s := SliceOf(key);
      var longer := Append(s, now);
      Store(key, longer);
    }

    // First loop of `allow`.
    method ScreenKeys(keys: seq<string>, cutoff: int) returns (ok: bool)
      requires Valid()
      modifies this, backings
      ensures Valid() && fresh(backings - old(backings))
      ensures (contents, ok) == Screen(old(contents), keys, cutoff, limit)
    {
      for i := 0 to |keys|
        invariant Valid() && fresh(backings - old(backings))
        invariant Screen(contents, keys[i..], cutoff, limit) == Screen(old(contents), keys, cutoff, limit)
      {
        assert keys[i..][1..] == keys[i + 1..];
        if keys[i] != "" {
          var n := CompactKey(keys[i], cutoff);
          if n >= limit {
            return false;
          }
        }
      }
      return true;
    }

    // Second loop of `allow`.
    method ChargeKeys(keys: seq<string>, now: int)
      requires Valid()
      modifies this, backings
      ensures Valid() && fresh(backings - old(backings))
      ensures contents == Charge(old(contents), keys, now)
    {
      for i := 0 to |keys|
        invariant Valid() && fresh(backings - old(backings))
        invariant Charge(contents, keys[i..], now) == Charge(old(contents), keys, now)
      {
        assert keys[i..][1..] == keys[i + 1..];
        if keys[i] != "" {
          AppendKey(keys[i], now);
        }
      }
    }

    method Allow(keys: seq<string>, now: int) returns (ok: bool)
      requires Valid()
      modifies this, backings
      ensures Valid() && fresh(backings - old(backings))
      ensures (contents, ok) == AllowNext(old(contents), keys, limit, window, now)
    {
      ok := ScreenKeys(keys, now - window);
      if ok {
        ChargeKeys(keys, now);
      }
    }
  }
}
