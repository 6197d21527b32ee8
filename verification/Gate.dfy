/** The admission gate in front of the vision API (`apps/_davo/engine/gate.go`).

    The gate keeps only what it must remember: recent calls, compacted in place, and recently seen
    keys. It is proved against the history of everything it ever admitted. Times are nanoseconds.

    A call reads the clock before it takes the lock, so its reading may be older than that of a call
    served before it. `clock` is the latest reading so far, `lag` the most any reading has been behind
    it. Whatever the lag, a call is admitted only if it may be as at the latest reading; as long as no
    reading is more than ten minutes behind, that is also enough.
 */
module Gate {
  import Timeline

  const DEDUPE_TTL: int := 600_000_000_000
  const RATE_WINDOW: int := 3600_000_000_000
  const MAX_CALLS: nat := 300

  datatype Admission = Admission(key: string, at: int)

  function Times(h: seq<Admission>): seq<int> {
    if h == [] then [] else Times(h[..|h| - 1]) + [h[|h| - 1].at]
  }

  /** The times strictly after `cutoff`, in order. */
  function After(ts: seq<int>, cutoff: int): seq<int> {
    if ts == [] then []
    else
      var rest := After(ts[..|ts| - 1], cutoff);
      if ts[|ts| - 1] > cutoff then rest + [ts[|ts| - 1]] else rest
  }

  /** How many admissions lie in the hour up to `now`. */
  function CallsInLastHour(h: seq<Admission>, now: int): nat {
    |After(Times(h), now - RATE_WINDOW)|
  }

  ghost predicate SeenRecently(h: seq<Admission>, key: string, now: int) {
    exists i :: 0 <= i < |h| && h[i].key == key && now - h[i].at <= DEDUPE_TTL
  }

  /** What the gate must answer, judged on the full history. */
  ghost predicate Admissible(h: seq<Admission>, key: string, now: int) {
    !SeenRecently(h, key, now) && CallsInLastHour(h, now) < MAX_CALLS
  }

  function Max(a: int, b: int): int {
    if a < b then b else a
  }

  /** Repeats of a key are more than ten minutes apart, and no admission had 300 before it within the
      hour, both up to the lag. */
  ghost predicate Limited(h: seq<Admission>, lag: int) {
    && (forall i, j :: 0 <= i < j < |h| && h[i].key == h[j].key ==> h[j].at - h[i].at > DEDUPE_TTL - lag)
    && (forall j :: 0 <= j < |h| ==> RoomBefore(h, j, lag))
  }

  predicate RoomBefore(h: seq<Admission>, j: nat, lag: int)
    requires j < |h|
  {
    |After(Times(h[..j]), h[j].at + lag - RATE_WINDOW)| < MAX_CALLS
  }

  /** The seen map holds every key admitted in the last ten minutes, with its time, and only admissions. */
  ghost predicate Remembers(seen: map<string, int>, h: seq<Admission>, now: int) {
    && (forall k :: k in seen ==> Admission(k, seen[k]) in h)
    && (forall i :: 0 <= i < |h| && now - h[i].at <= DEDUPE_TTL ==> h[i].key in seen && seen[h[i].key] == h[i].at)
  }

  ghost predicate AllRecent(seen: map<string, int>, now: int) {
    forall k :: k in seen ==> now - seen[k] <= DEDUPE_TTL
  }

  /** What the gate keeps against the full history. It never forgets what still matters; it keeps no
      call longer than it must while no reading is an hour behind, and no key while none is ten minutes. */
  ghost predicate Kept(calls: seq<int>, seen: map<string, int>, h: seq<Admission>, clock: int, lag: int) {
    && After(calls, clock - RATE_WINDOW) == After(Times(h), clock - RATE_WINDOW)
    && Remembers(seen, h, clock)
    && Limited(h, lag)
    && (lag < RATE_WINDOW ==> calls == After(Times(h), clock - RATE_WINDOW))
    && (lag <= DEDUPE_TTL ==> AllRecent(seen, clock))
  }

  // ----- what a call does to the gate's memory

  datatype Memory = Memory(seen: map<string, int>, calls: seq<int>)

  function Forgotten(m: Memory, now: int): Memory {
    Memory(Fresh(m.seen, now), After(m.calls, now - RATE_WINDOW))
  }

  predicate Passes(m: Memory, key: string) {
    key !in m.seen && |m.calls| < MAX_CALLS
  }

  /** The memory after a call, and whether the key is admitted. */
  function Judged(m: Memory, key: string, now: int): (Memory, bool) {
    var f := Forgotten(m, now);
    if Passes(f, key) then (Memory(f.seen[key := now], f.calls + [now]), true) else (f, false)
  }

  class VisionGate {
    var seen: map<string, int>
    var calls: array<int>
    var len: nat
    ghost var history: seq<Admission>
    ghost var clock: int
    ghost var lag: nat

    ghost predicate Valid()
      reads this, calls
    {
      len <= calls.Length && Kept(calls[..len], seen, history, clock, lag)
    }

    function Held(): Memory
      requires len <= calls.Length
      reads this, calls
    {
      Memory(seen, calls[..len])
    }

    constructor (start: int)
      ensures Valid() && history == [] && clock == start && lag == 0 && fresh(calls)
    {
      seen := map[];
      calls := new int[0];
      len := 0;
      history := [];
      clock := start;
      lag := 0;
    }

    /** Drops expired keys and calls that have aged out, as of a reading of the clock. */
    method Prune(now: int)
      requires Valid()
      modifies this`seen, this`len, this`clock, this`lag, calls
      ensures Valid() && clock == Max(old(clock), now) && lag == Max(old(lag), old(clock) - now)
      ensures Held() == Forgotten(old(Held()), now)
    {
      PrunedStaysKept(calls[..len], seen, history, clock, lag, now);
      Discard(now);
      lag, clock := Max(lag, clock - now), Max(clock, now);
    }

    method Discard(now: int)
      requires len <= calls.Length
      modifies this`seen, this`len, calls
      ensures len <= calls.Length && seen == Fresh(old(seen), now)
      ensures calls[..len] == After(old(calls[..len]), now - RATE_WINDOW)
    {
      PruneSeen(now);
      Compact(now - RATE_WINDOW);
    }

    method PruneSeen(now: int)
      modifies this`seen
      ensures seen == Fresh(old(seen), now)
    {
      var keys := seen.Keys;
      while keys != {}
        invariant keys <= seen.Keys
        invariant seen.Keys <= old(seen).Keys && forall k :: k in seen ==> seen[k] == old(seen)[k]
        invariant forall k :: k in old(seen) && k !in keys ==> (k in seen <==> now - old(seen)[k] <= DEDUPE_TTL)
        decreases keys
      {
        var k :| k in keys;
        if now - seen[k] > DEDUPE_TTL {
          seen := seen - {k};
        }
        keys := keys - {k};
      }
    }

    /** Keeps the calls after `cutoff`, moved down in place. */
    method Compact(cutoff: int)
      requires len <= calls.Length
      modifies this`len, calls
      ensures len <= calls.Length
      ensures calls[..len] == After(old(calls[..len]), cutoff)
    {
      ghost var was := calls[..len];
      var kept := 0;
      var i := 0;
      while i < len
        invariant 0 <= kept <= i <= len == |was|
        invariant forall k :: i <= k < len ==> calls[k] == was[k]
        invariant calls[..kept] == After(was[..i], cutoff)
      {
        assert was[..i + 1][..i] == was[..i];
        if calls[i] > cutoff {
          calls[kept] := calls[i];
          kept := kept + 1;
        }
        i := i + 1;
      }
      assert was[..i] == was;
      len := kept;
    }

    method Append(at: int)
      requires len <= calls.Length
      modifies this`calls, this`len, calls
      ensures len <= calls.Length && (calls == old(calls) || fresh(calls))
      ensures calls[..len] == old(calls[..len]) + [at]
    {
      if len == calls.Length {
        var grown := new int[2 * len + 1];
        forall i | 0 <= i < len {
          grown[i] := calls[i];
        }
        calls := grown;
      }
      calls[len] := at;
      len := len + 1;
    }

    /** Admits a key only if the full history, judged as at the latest reading, says so, and records it
        under the call's own reading. With no reading over ten minutes behind it admits every such key;
        with none an hour behind it refuses others only for a key it has admitted before. */
    method Admit(key: string, now: int) returns (ok: bool)
      requires Valid()
      modifies this, calls
      ensures Valid() && (calls == old(calls) || fresh(calls))
      ensures clock == Max(old(clock), now) && lag == Max(old(lag), old(clock) - now)
      ensures (Held(), ok) == Judged(old(Held()), key, now)
      ensures ok ==> Admissible(old(history), key, clock)
      ensures lag <= DEDUPE_TTL && Admissible(old(history), key, clock) ==> ok
      ensures lag < RATE_WINDOW && CallsInLastHour(old(history), clock) < MAX_CALLS && !EverAdmitted(old(history), key) ==> ok
      ensures history == if ok then old(history) + [Admission(key, now)] else old(history)
      ensures lag <= DEDUPE_TTL ==> history == Served(old(history), old(clock), key, now)
    {
      Prune(now);
      KeptDecides(calls[..len], seen, history, clock, lag, key);
      if key in seen {
        return false;
      }
      if len >= MAX_CALLS {
        return false;
      }
      Take(key, now);
      return true;
    }

    /** Records an admission. */
    method Take(key: string, now: int)
      requires Valid() && key !in seen && len < MAX_CALLS && clock - lag <= now
      modifies this`seen, this`calls, this`len, this`history, calls
      ensures Valid() && (calls == old(calls) || fresh(calls))
      ensures history == old(history) + [Admission(key, now)]
      ensures Held() == Memory(old(seen)[key := now], old(calls[..len]) + [now])
    {
      ghost var wasSeen, wasCalls := seen, calls[..len];
      seen := seen[key := now];
      Append(now);
      RecordedStaysKept(wasCalls, wasSeen, history, clock, lag, key, now);
      history := history + [Admission(key, now)];
    }
  }

  // ----- the gate's memory against the full history

  /** Pruning at one cutoff and then another is pruning at the later one. */
  lemma {:induction false} Pruned(ts: seq<int>, c: int, d: int)
    ensures After(After(ts, c), d) == After(ts, Max(c, d))
  {
    if ts != [] {
      var n := |ts| - 1;
      Pruned(ts[..n], c, d);
      var rest := After(ts[..n], c);
      assert (rest + [ts[n]])[..|rest|] == rest;
    }
  }

  function Fresh(seen: map<string, int>, now: int): map<string, int> {
    map k | k in seen && now - seen[k] <= DEDUPE_TTL :: seen[k]
  }

  ghost predicate EverAdmitted(h: seq<Admission>, key: string) {
    exists i :: 0 <= i < |h| && h[i].key == key
  }

  lemma PrunedKeepsMemory(seen: map<string, int>, h: seq<Admission>, clock: int, now: int)
    requires Remembers(seen, h, clock)
    ensures Remembers(Fresh(seen, now), h, Max(clock, now))
    ensures AllRecent(seen, clock) ==> AllRecent(Fresh(seen, now), Max(clock, now))
  {}

  lemma SeenDecides(seen: map<string, int>, h: seq<Admission>, key: string, now: int)
    requires Remembers(seen, h, now)
    ensures SeenRecently(h, key, now) ==> key in seen
    ensures key in seen ==> EverAdmitted(h, key) && (AllRecent(seen, now) ==> SeenRecently(h, key, now))
  {
    if key in seen {
      var i :| 0 <= i < |h| && h[i] == Admission(key, seen[key]);
    }
  }

  lemma RecordedKeepsMemory(seen: map<string, int>, h: seq<Admission>, key: string, now: int, clock: int)
    requires Remembers(seen, h, clock) && key !in seen
    ensures Remembers(seen[key := now], h + [Admission(key, now)], clock)
    ensures AllRecent(seen, clock) && clock - now <= DEDUPE_TTL ==> AllRecent(seen[key := now], clock)
  {}

  lemma RecordedKeepsLimits(h: seq<Admission>, key: string, now: int, clock: int, lag: int)
    requires Limited(h, lag) && Admissible(h, key, clock) && clock - lag <= now
    ensures Limited(h + [Admission(key, now)], lag)
  {
    var h' := h + [Admission(key, now)];
    forall j | 0 <= j < |h'| ensures RoomBefore(h', j, lag) {
      if j < |h| {
        assert RoomBefore(h, j, lag) && h'[..j] == h[..j];
      } else {
        assert h'[..j] == h;
        LaterCutoff(Times(h), clock - RATE_WINDOW, now + lag - RATE_WINDOW);
      }
    }
  }

  lemma MoreLag(h: seq<Admission>, lag: int, lag': int)
    requires Limited(h, lag) && lag <= lag'
    ensures Limited(h, lag')
  {
    forall j | 0 <= j < |h| ensures RoomBefore(h, j, lag') {
      assert RoomBefore(h, j, lag);
      LaterCutoff(Times(h[..j]), h[j].at + lag - RATE_WINDOW, h[j].at + lag' - RATE_WINDOW);
    }
  }

  lemma TimesOneMore(h: seq<Admission>, key: string, now: int)
    ensures Times(h + [Admission(key, now)]) == Times(h) + [now]
  {
    assert (h + [Admission(key, now)])[..|h|] == h;
  }

  lemma AfterOneMore(ts: seq<int>, at: int, cutoff: int)
    ensures After(ts + [at], cutoff) == After(ts, cutoff) + if at > cutoff then [at] else []
  {
    assert (ts + [at])[..|ts|] == ts;
  }

  lemma {:induction false} LaterCutoff(ts: seq<int>, c: int, d: int)
    requires c <= d
    ensures |After(ts, d)| <= |After(ts, c)| <= |ts|
  {
    if ts != [] {
      LaterCutoff(ts[..|ts| - 1], c, d);
    }
  }

  lemma PrunedStaysKept(calls: seq<int>, seen: map<string, int>, h: seq<Admission>, clock: int, lag: int, now: int)
    requires Kept(calls, seen, h, clock, lag)
    ensures Kept(After(calls, now - RATE_WINDOW), Fresh(seen, now), h, Max(clock, now), Max(lag, clock - now))
  {
    PrunedKeepsMemory(seen, h, clock, now);
    MoreLag(h, lag, Max(lag, clock - now));
    PrunedCalls(calls, Times(h), clock - RATE_WINDOW, now - RATE_WINDOW);
  }

  lemma PrunedCalls(calls: seq<int>, ts: seq<int>, c: int, d: int)
    requires After(calls, c) == After(ts, c)
    ensures After(After(calls, d), Max(c, d)) == After(ts, Max(c, d))
    ensures calls == After(ts, c) ==> After(calls, d) == After(ts, Max(c, d))
  {
    Pruned(calls, d, Max(c, d));
    Pruned(calls, c, Max(c, d));
    Pruned(ts, c, Max(c, d));
    Pruned(ts, c, d);
  }

  lemma KeptDecides(calls: seq<int>, seen: map<string, int>, h: seq<Admission>, clock: int, lag: int, key: string)
    requires Kept(calls, seen, h, clock, lag)
    ensures Passes(Memory(seen, calls), key) ==> Admissible(h, key, clock)
    ensures lag <= DEDUPE_TTL && Admissible(h, key, clock) ==> Passes(Memory(seen, calls), key)
    ensures lag < RATE_WINDOW && CallsInLastHour(h, clock) < MAX_CALLS && !EverAdmitted(h, key) ==>
              Passes(Memory(seen, calls), key)
  {
    SeenDecides(seen, h, key, clock);
    LaterCutoff(calls, clock - RATE_WINDOW, clock - RATE_WINDOW);
  }

  lemma RecordedStaysKept(
      calls: seq<int>, seen: map<string, int>, h: seq<Admission>, clock: int, lag: int, key: string, now: int)
    requires Kept(calls, seen, h, clock, lag) && Passes(Memory(seen, calls), key) && clock - lag <= now
    ensures Kept(calls + [now], seen[key := now], h + [Admission(key, now)], clock, lag)
  {
    KeptDecides(calls, seen, h, clock, lag, key);
    RecordedKeepsMemory(seen, h, key, now, clock);
    RecordedKeepsLimits(h, key, now, clock, lag);
    TimesOneMore(h, key, now);
    AfterOneMore(calls, now, clock - RATE_WINDOW);
    AfterOneMore(Times(h), now, clock - RATE_WINDOW);
  }

  // ----- what this means for any hour of the clock

  lemma {:induction false} WindowIsRecent(ts: seq<int>, lo: int, hi: int, cutoff: int)
    requires cutoff < lo
    ensures Timeline.CountIn(ts, lo, hi) <= |After(ts, cutoff)|
  {
    if ts != [] {
      WindowIsRecent(ts[..|ts| - 1], lo, hi, cutoff);
    }
  }

  lemma {:induction false} TimesInit(h: seq<Admission>)
    requires h != []
    ensures |Times(h)| == |h| && Times(h)[..|h| - 1] == Times(h[..|h| - 1]) && Times(h)[|h| - 1] == h[|h| - 1].at
  {
    if |h| > 1 {
      TimesInit(h[..|h| - 1]);
    }
  }

  lemma LimitedBefore(h: seq<Admission>, n: nat, lag: int)
    requires n <= |h| && Limited(h, lag)
    ensures Limited(h[..n], lag)
  {
    forall j | 0 <= j < n ensures RoomBefore(h[..n], j, lag) {
      assert RoomBefore(h, j, lag) && h[..n][..j] == h[..j];
    }
  }

  lemma CountInit(h: seq<Admission>, lo: int, hi: int)
    requires h != []
    ensures var n := |h| - 1;
            Timeline.CountIn(Times(h), lo, hi) == Timeline.CountIn(Times(h[..n]), lo, hi) + if lo <= h[n].at < hi then 1 else 0
  {
    TimesInit(h);
  }

  /** No half-open hour less the lag, wherever it starts, holds more than 300 admissions. */
  lemma {:induction false} NoHourExceedsLimit(h: seq<Admission>, lag: int, t: int)
    requires Limited(h, lag)
    ensures Timeline.CountIn(Times(h), t, t + RATE_WINDOW - lag) <= MAX_CALLS
  {
    if h != [] {
      var n := |h| - 1;
      CountInit(h, t, t + RATE_WINDOW - lag);
      if t <= h[n].at < t + RATE_WINDOW - lag {
        assert RoomBefore(h, n, lag);
        WindowIsRecent(Times(h[..n]), t, t + RATE_WINDOW - lag, h[n].at + lag - RATE_WINDOW);
      } else {
        LimitedBefore(h, n, lag);
        NoHourExceedsLimit(h[..n], lag, t);
      }
    }
  }

  // ----- what a stale reading changes

  /** Judging a call as at a later reading than its own only ever admits more. */
  lemma StaleAdmitsMore(h: seq<Admission>, key: string, now: int, clock: int)
    requires now <= clock && Admissible(h, key, now)
    ensures Admissible(h, key, clock)
  {
    LaterCutoff(Times(h), now - RATE_WINDOW, clock - RATE_WINDOW);
  }

  /** Few admissions so far, and none of this key within ten minutes. */
  ghost predicate Quiet(h: seq<Admission>, key: string, now: int) {
    |h| < MAX_CALLS && !SeenRecently(h, key, now)
  }

  lemma QuietIsAdmissible(h: seq<Admission>, key: string, now: int)
    requires Quiet(h, key, now)
    ensures Admissible(h, key, now)
  {
    LaterCutoff(Times(h), now - RATE_WINDOW, now - RATE_WINDOW);
    if h != [] {
      TimesInit(h);
    }
  }

  /** The history after a call, by the full history alone. */
  ghost function Served(h: seq<Admission>, clock: int, key: string, now: int): seq<Admission> {
    if Admissible(h, key, Max(clock, now)) then h + [Admission(key, now)] else h
  }

  /** And it can: a key is admitted twice within ten minutes by its own readings, because a call with
      a later reading was served in between. */
  lemma StaleRun(a: string, b: string)
    requires a != b
    ensures var first := Served([], 0, a, 0);
            var second := Served(first, 0, b, DEDUPE_TTL + 1);
            var third := Served(second, DEDUPE_TTL + 1, a, DEDUPE_TTL);
            && third == [Admission(a, 0), Admission(b, DEDUPE_TTL + 1), Admission(a, DEDUPE_TTL)]
            && SeenRecently(second, a, DEDUPE_TTL)
  {
    var one, two := [Admission(a, 0)], [Admission(a, 0), Admission(b, DEDUPE_TTL + 1)];
    QuietIsAdmissible([], a, 0);
    QuietIsAdmissible(one, b, DEDUPE_TTL + 1);
    QuietIsAdmissible(two, a, DEDUPE_TTL + 1);
    assert Served([], 0, a, 0) == one && Served(one, 0, b, DEDUPE_TTL + 1) == two;
    assert two[0] == Admission(a, 0);
  }

  /** Ten minutes is the most a reading may be behind: past that, a key already as good as forgotten is
      still held against a call with a reading as stale as its own. */
  lemma TooStaleIsRefused(a: string, b: string)
    requires a != b
    ensures var late := DEDUPE_TTL + 2;
            var one := Judged(Memory(map[], []), b, late);
            var two := Judged(one.0, a, 0);
            var three := Judged(two.0, a, 0);
            && one.1 && two.1 && !three.1
            && Admissible([Admission(b, late), Admission(a, 0)], a, late)
  {
    var late := DEDUPE_TTL + 2;
    QuietIsAdmissible([Admission(b, late), Admission(a, 0)], a, late);
    LaterCutoff([], late - RATE_WINDOW, late - RATE_WINDOW);
    LaterCutoff([late], -RATE_WINDOW, -RATE_WINDOW);
    var one := Judged(Memory(map[], []), b, late).0;
    assert one == Memory(map[b := late], [late]);
    var two := Judged(one, a, 0).0;
    assert two.seen == map[b := late, a := 0];
    assert a in Fresh(two.seen, 0);
  }

  // ----- the limits in minutes and calls

  const MINUTE: int := 60_000_000_000

  /** What the gate must answer, by the clock: the key not admitted in the last ten minutes, and fewer than
      300 calls in the last hour, counted one by one. */
  lemma AdmissibleSpelledOut(h: seq<Admission>, key: string, now: int)
    ensures Admissible(h, key, now) <==>
              && (forall i :: 0 <= i < |h| && h[i].key == key ==> now - h[i].at > 10 * MINUTE)
              && |CallsAfter(h, now - 60 * MINUTE)| < 300
  {
    CallsAreCounted(h, now - 60 * MINUTE);
  }

  /** The admissions after a time. */
  function CallsAfter(h: seq<Admission>, cutoff: int): set<nat> {
    set i: nat | i < |h| && h[i].at > cutoff
  }

  lemma {:induction false} CallsAreCounted(h: seq<Admission>, cutoff: int)
    ensures |After(Times(h), cutoff)| == |CallsAfter(h, cutoff)|
  {
    if h != [] {
      TimesInit(h);
      CallsAreCounted(h[..|h| - 1], cutoff);
      OneMoreCall(h, cutoff);
    }
  }

  lemma OneMoreCall(h: seq<Admission>, cutoff: int)
    requires h != []
    ensures var n := |h| - 1;
            |CallsAfter(h, cutoff)| == |CallsAfter(h[..n], cutoff)| + if h[n].at > cutoff then 1 else 0
  {
    var n := |h| - 1;
    assert CallsAfter(h, cutoff) == if h[n].at > cutoff then CallsAfter(h[..n], cutoff) + {n} else CallsAfter(h[..n], cutoff);
  }
}
