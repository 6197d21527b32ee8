/** The race tracker of the TPD feed (`apps/pegasus/tpd/update.go`).

    Timestamps and clocks are nanoseconds since the zero time of the program's clock type, so a
    fresh race state carries the timestamp 0; a timestamp that does not parse is `None`. Whether a
    sharecode resolves (parseable, known course, listed race) is an input of each call.
 */
module Tracker {
  import opened Racing
  import opened Wrappers

  const OFF_MARGIN := 5.0
  const RACE_EXPIRY: int := 600_000_000_000

  /** One packet; the two warning flags are bits 2 and 3 of its warning word, and a place in the
      running order that is not a number is `None`. */
  datatype Progress = Progress(
    id: string, timestamp: Option<int>, runningTime: real, progress: real,
    order: seq<Option<int>>, warnStart: bool, warnAssignment: bool)

  datatype RaceState = RaceState(
    ref: RaceRef, officialDistance: real, finished: bool, timestamp: int, touchedAt: int)

  function Max(x: real, y: real): real {
    if x < y then y else x
  }

  function StatusOf(r: RaceState, p: Progress): RaceStatus {
    var distance := if r.ref.distance == 0.0 then r.officialDistance else r.ref.distance;
    if r.finished then Finished
    else if p.runningTime > 0.0 then Running
    else if distance > 0.0 && p.progress < distance - OFF_MARGIN then Running
    else PreOff
  }

  type Races = map<string, RaceState>

  datatype Input =
    | Packet(p: Progress, listed: Option<RaceRef>, now: int)
    | Sweep(now: int)

  /** The state an accepted packet leaves behind. */
  function Updated(r: RaceState, p: Progress, ts: int, now: int): RaceState {
    r.(timestamp := ts, touchedAt := now,
       officialDistance := Max(r.officialDistance, p.progress), finished := r.finished || p.progress <= 0.0)
  }

  function Published(r: RaceState, p: Progress): RaceRef {
    r.ref.(status := StatusOf(r, p), distance := if r.ref.distance == 0.0 then r.officialDistance else r.ref.distance)
  }

  function Opened(races: Races, p: Progress, listed: Option<RaceRef>, now: int): Races {
    if p.id in races || listed.None? then races
    else races[p.id := RaceState(listed.value.(key := p.id), 0.0, false, 0, now)]
  }

  predicate Accepts(races: Races, input: Input) {
    && input.Packet? && input.p.timestamp.Some?
    && var held := Opened(races, input.p, input.listed, input.now);
    && input.p.id in held && held[input.p.id].timestamp < input.p.timestamp.value
  }

  function Next(races: Races, input: Input): Races {
    match input
    case Packet(p, listed, now) =>
      if p.timestamp.None? then races
      else
        var held := Opened(races, p, listed, now);
        if p.id in held && held[p.id].timestamp < p.timestamp.value then
          held[p.id := Updated(held[p.id], p, p.timestamp.value, now)]
        else held
    case Sweep(now) =>
      map k | k in races && now - races[k].touchedAt <= RACE_EXPIRY :: races[k]
  }

  function Out(races: Races, input: Input): Option<RaceRef> {
    if Accepts(races, input) then Some(Published(Next(races, input)[input.p.id], input.p)) else None
  }

  function After(inputs: seq<Input>): Races {
    if inputs == [] then map[] else Next(After(inputs[..|inputs| - 1]), inputs[|inputs| - 1])
  }

  class Tracker {
    var races: Races

    constructor ()
      ensures races == map[]
    {
      races := map[];
    }

    method Ref(p: Progress, listed: Option<RaceRef>, now: int) returns (r: Option<RaceRef>)
      modifies this
      ensures races == Next(old(races), Packet(p, listed, now))
      ensures r == Out(old(races), Packet(p, listed, now))
    {
      if p.timestamp.None? {
        return None;
      }
      if p.id !in races {
        if listed.None? {
          return None;
        }
        races := races[p.id := RaceState(listed.value.(key := p.id), 0.0, false, 0, now)];
      }
      var race := races[p.id];
      if p.timestamp.value <= race.timestamp {
        return None;
      }
      race := race.(timestamp := p.timestamp.value);
      race := race.(touchedAt := now);
      race := race.(officialDistance := Max(race.officialDistance, p.progress));
      race := race.(finished := race.finished || p.progress <= 0.0);
      races := races[p.id := race];

      var ref := race.ref;
      ref := ref.(status := StatusOf(race, p));
      if ref.distance == 0.0 {
        ref := ref.(distance := race.officialDistance);
      }
      return Some(ref);
    }

    /** One tick of the sweeper. */
    method SweepExpired(now: int)
      modifies this
      ensures races == Next(old(races), Sweep(now))
    {
      var keys := races.Keys;
      while keys != {}
        invariant keys <= races.Keys <= old(races).Keys
        invariant forall k :: k in races ==> races[k] == old(races)[k]
        invariant forall k :: k in old(races) && k !in keys ==> (k in races <==> now - old(races)[k].touchedAt <= RACE_EXPIRY)
        decreases keys
      {
        var k :| k in keys;
        keys := keys - {k};
        if now - races[k].touchedAt > RACE_EXPIRY {
          races := races - {k};
        }
      }
    }
  }

  // ----- what is published

  /** The distance of a race: the listed one, or else the longest distance to go seen so far. */
  function DistanceKnown(races: Races, key: string): real
    requires key in races
  {
    if races[key].ref.distance != 0.0 then races[key].ref.distance else races[key].officialDistance
  }

  /** What is published of an accepted packet: the listed race under the packet's key, at the distance
      known; finished once it is, running by the feed's clock or, failing that, by more than five metres
      covered, and before the off otherwise. */
  lemma PublishedSpelledOut(races: Races, p: Progress, listed: Option<RaceRef>, now: int)
    requires Out(races, Packet(p, listed, now)).Some?
    ensures var out := Out(races, Packet(p, listed, now)).value;
            var after := Next(races, Packet(p, listed, now));
            && p.id in after
            && out.distance == DistanceKnown(after, p.id)
            && out == after[p.id].ref.(status := out.status, distance := out.distance)
            && (p.id !in races ==> listed.Some? && after[p.id].ref == listed.value.(key := p.id))
            && (p.id in races ==> after[p.id].ref == races[p.id].ref)
            && (out.status == Finished <==> p.progress <= 0.0 || HasFinished(races, p.id))
            && (!(p.progress <= 0.0 || HasFinished(races, p.id)) ==>
                 (out.status == Running <==>
                   p.runningTime > 0.0 || (out.distance > 0.0 && out.distance - p.progress > 5.0)))
  {}

  /** What a packet leaves of its race: tracked from its first packet that resolves, with nothing known;
      and the time of an accepted one is the time the race was last touched. */
  lemma TrackedSpelledOut(races: Races, p: Progress, listed: Option<RaceRef>, now: int)
    ensures var after := Next(races, Packet(p, listed, now));
            && (p.id in after <==> p.id in races || (p.timestamp.Some? && listed.Some?))
            && (p.id in after && p.id !in races ==>
                 after[p.id].touchedAt == now && (after[p.id].timestamp == 0 || p.timestamp == Some(after[p.id].timestamp)))
            && (Accepts(races, Packet(p, listed, now)) ==>
                 && after[p.id].touchedAt == now && p.timestamp == Some(after[p.id].timestamp)
                 && var known := if p.id in races then races[p.id].officialDistance else 0.0;
                    after[p.id].officialDistance == if p.progress > known then p.progress else known)
            && (!Accepts(races, Packet(p, listed, now)) && p.id in races ==> after[p.id] == races[p.id])
            && forall k :: k != p.id ==> (k in after <==> k in races) && (k in races ==> after[k] == races[k])
  {}

  /** A sweep drops exactly the races untouched for more than ten minutes. */
  lemma SweepSpelledOut(races: Races, now: int, key: string)
    ensures key in Next(races, Sweep(now)) <==> key in races && now - races[key].touchedAt <= 600 * 1_000_000_000
    ensures key in Next(races, Sweep(now)) ==> Next(races, Sweep(now))[key] == races[key]
  {}

  // ----- which packets are accepted

  predicate About(input: Input, key: string) {
    input.Packet? && input.p.id == key
  }

  /** No sweep, and the race resolves whenever a packet of it arrives. */
  predicate Steady(inputs: seq<Input>, key: string) {
    forall i :: 0 <= i < |inputs| ==> inputs[i].Packet? && (inputs[i].p.id == key ==> inputs[i].listed.Some?)
  }

  function Latest(races: Races, key: string): int {
    if key in races then races[key].timestamp else 0
  }

  /** The packets of a race the tracker accepted. */
  function Accepted(inputs: seq<Input>, key: string): seq<Progress> {
    if inputs == [] then []
    else
      var n := |inputs| - 1;
      Accepted(inputs[..n], key) +
      if About(inputs[n], key) && Accepts(After(inputs[..n]), inputs[n]) then [inputs[n].p] else []
  }

  predicate Newer(earlier: Input, key: string, ts: int) {
    About(earlier, key) && earlier.p.timestamp.Some? ==> earlier.p.timestamp.value < ts
  }

  /** A timestamp after the zero time and after every readable one of the race so far. */
  predicate NewerThanAll(inputs: seq<Input>, key: string, ts: int) {
    0 < ts && forall j :: 0 <= j < |inputs| ==> Newer(inputs[j], key, ts)
  }

  lemma {:induction false} LatestIsMaximum(inputs: seq<Input>, key: string, ts: int)
    requires Steady(inputs, key)
    ensures 0 <= Latest(After(inputs), key)
    ensures Latest(After(inputs), key) < ts <==> NewerThanAll(inputs, key, ts)
  {
    if inputs != [] {
      var n := |inputs| - 1;
      LatestIsMaximum(inputs[..n], key, ts);
      LatestStep(After(inputs[..n]), inputs[n], key, ts);
      assert NewerThanAll(inputs, key, ts) <==> NewerThanAll(inputs[..n], key, ts) && Newer(inputs[n], key, ts);
    }
  }

  lemma LatestStep(races: Races, input: Input, key: string, ts: int)
    requires input.Packet? && (input.p.id == key ==> input.listed.Some?) && 0 <= Latest(races, key)
    ensures Latest(Next(races, input), key) < ts <==> Latest(races, key) < ts && Newer(input, key, ts)
    ensures About(input, key) ==>
              (Accepts(races, input) <==> input.p.timestamp.Some? && Latest(races, key) < input.p.timestamp.value)
    ensures Latest(Next(races, input), key) ==
            if About(input, key) && Accepts(races, input) then input.p.timestamp.value else Latest(races, key)
  {}

  /** A packet is accepted exactly when its timestamp is readable and later than all before it. */
  lemma AcceptedIffStrictMaximum(inputs: seq<Input>, i: nat, key: string)
    requires Steady(inputs, key) && i < |inputs| && About(inputs[i], key)
    ensures Out(After(inputs[..i]), inputs[i]).Some? <==>
              inputs[i].p.timestamp.Some? && NewerThanAll(inputs[..i], key, inputs[i].p.timestamp.value)
  {
    var ts := if inputs[i].p.timestamp.Some? then inputs[i].p.timestamp.value else 0;
    LatestIsMaximum(inputs[..i], key, ts);
    LatestStep(After(inputs[..i]), inputs[i], key, ts);
  }

  /** The longest distance to go among some packets, and whether any of them reached the finish. */
  function Longest(ps: seq<Progress>): real {
    if ps == [] then 0.0 else Max(Longest(ps[..|ps| - 1]), ps[|ps| - 1].progress)
  }

  predicate AnyFinished(ps: seq<Progress>) {
    exists i :: 0 <= i < |ps| && ps[i].progress <= 0.0
  }

  function Official(races: Races, key: string): real {
    if key in races then races[key].officialDistance else 0.0
  }

  predicate HasFinished(races: Races, key: string) {
    key in races && races[key].finished
  }

  lemma StateStep(races: Races, input: Input, key: string)
    requires input.Packet?
    ensures var took := About(input, key) && Accepts(races, input);
            && Official(Next(races, input), key) ==
                 (if took then Max(Official(races, key), input.p.progress) else Official(races, key))
            && HasFinished(Next(races, input), key) == (HasFinished(races, key) || (took && input.p.progress <= 0.0))
  {}

  lemma AccumulatesOne(ps: seq<Progress>, p: Progress)
    ensures Longest(ps + [p]) == Max(Longest(ps), p.progress)
    ensures AnyFinished(ps + [p]) <==> AnyFinished(ps) || p.progress <= 0.0
  {
    assert (ps + [p])[..|ps|] == ps;
    assert (ps + [p])[|ps|] == p;
    assert forall i :: 0 <= i < |ps| ==> (ps + [p])[i] == ps[i];
  }

  /** Until a sweep, what the tracker knows of a race is determined by the packets it accepted. */
  lemma {:induction false} StateFromAccepted(inputs: seq<Input>, key: string)
    requires forall i :: 0 <= i < |inputs| ==> inputs[i].Packet?
    ensures Official(After(inputs), key) == Longest(Accepted(inputs, key))
    ensures HasFinished(After(inputs), key) == AnyFinished(Accepted(inputs, key))
  {
    if inputs != [] {
      var n := |inputs| - 1;
      StateFromAccepted(inputs[..n], key);
      StateStep(After(inputs[..n]), inputs[n], key);
      AccumulatesOne(Accepted(inputs[..n], key), inputs[n].p);
      assert Accepted(inputs[..n], key) + [] == Accepted(inputs[..n], key);
    }
  }

  // ----- a stream delivered by several feeds

  /** How often a feed has delivered; an entry without a feed is a packet of some other race. */
  function Times(schedule: seq<Option<nat>>, feed: nat): nat {
    if schedule == [] then 0
    else Times(schedule[..|schedule| - 1], feed) + if schedule[|schedule| - 1] == Some(feed) then 1 else 0
  }

  /** How far the feed that is furthest ahead has come. */
  function Reach(schedule: seq<Option<nat>>): nat {
    if schedule == [] then 0
    else
      var n := |schedule| - 1;
      if schedule[n].None? then Reach(schedule[..n])
      else
        var here := Times(schedule[..n], schedule[n].value) + 1;
        if here > Reach(schedule[..n]) then here else Reach(schedule[..n])
  }

  /** The arrivals of one race are copies of one stream, packets of other races in between:
      `schedule` says which feed delivers its next packet. */
  predicate Replays(inputs: seq<Input>, stream: seq<Progress>, schedule: seq<Option<nat>>, key: string) {
    && |inputs| == |schedule|
    && forall t :: 0 <= t < |inputs| ==> Arrives(inputs[t], stream, schedule[..t], schedule[t], key)
  }

  predicate Arrives(input: Input, stream: seq<Progress>, before: seq<Option<nat>>, feed: Option<nat>, key: string) {
    && input.Packet?
    && if feed.None? then input.p.id != key
       else
         && input.listed.Some?
         && Times(before, feed.value) < |stream| && input.p == stream[Times(before, feed.value)]
  }

  predicate Increasing(stream: seq<Progress>, key: string) {
    && (forall i :: 0 <= i < |stream| ==>
         stream[i].id == key && stream[i].timestamp.Some? && 0 < stream[i].timestamp.value)
    && (forall i, j :: 0 <= i < j < |stream| ==> stream[i].timestamp.value < stream[j].timestamp.value)
  }

  lemma {:induction false} NoFeedBeyondReach(schedule: seq<Option<nat>>, feed: nat)
    ensures Times(schedule, feed) <= Reach(schedule)
  {
    if schedule != [] {
      NoFeedBeyondReach(schedule[..|schedule| - 1], feed);
    }
  }

  lemma ReplaysPrefix(inputs: seq<Input>, stream: seq<Progress>, schedule: seq<Option<nat>>, key: string)
    requires Replays(inputs, stream, schedule, key) && inputs != []
    ensures var n := |inputs| - 1;
            && Replays(inputs[..n], stream, schedule[..n], key)
            && Arrives(inputs[n], stream, schedule[..n], schedule[n], key)
  {
    var n := |inputs| - 1;
    forall t | 0 <= t < n ensures schedule[..n][..t] == schedule[..t] {}
  }

  /** However any number of in-order copies of one stream interleave, among packets of any other
      races, what is accepted of this race is that stream, each packet once, as far as the furthest
      feed has brought it. */
  lemma {:induction false} FeedsMerge(inputs: seq<Input>, stream: seq<Progress>, schedule: seq<Option<nat>>, key: string)
    requires Replays(inputs, stream, schedule, key) && Increasing(stream, key)
    ensures Reach(schedule) <= |stream|
    ensures Accepted(inputs, key) == stream[..Reach(schedule)]
    ensures Latest(After(inputs), key) == LastOf(stream, Reach(schedule))
  {
    if inputs != [] {
      var n := |inputs| - 1;
      ReplaysPrefix(inputs, stream, schedule, key);
      FeedsMerge(inputs[..n], stream, schedule[..n], key);
      assert Accepted(inputs[..n], key) + [] == Accepted(inputs[..n], key);
      if schedule[n].None? {
        LatestStep(After(inputs[..n]), inputs[n], key, 0);
      } else {
        var feed := schedule[n].value;
        NoFeedBeyondReach(schedule[..n], feed);
        MergeStep(After(inputs[..n]), inputs[n], stream, Times(schedule[..n], feed), Reach(schedule[..n]), key);
      }
    }
  }

  function LastOf(stream: seq<Progress>, r: nat): int {
    if 0 < r <= |stream| && stream[r - 1].timestamp.Some? then stream[r - 1].timestamp.value else 0
  }

  lemma MergeStep(races: Races, input: Input, stream: seq<Progress>, c: nat, r: nat, key: string)
    requires Increasing(stream, key) && c <= r <= |stream| && c < |stream|
    requires input.Packet? && input.listed.Some? && input.p == stream[c]
    requires Latest(races, key) == LastOf(stream, r)
    ensures About(input, key) && (Accepts(races, input) <==> c == r)
    ensures Latest(Next(races, input), key) == if c == r then LastOf(stream, r + 1) else LastOf(stream, r)
    ensures c == r ==> stream[..r] + [input.p] == stream[..r + 1]
  {
    LatestStep(races, input, key, 0);
    if c < r {
      assert stream[c].timestamp.value <= stream[r - 1].timestamp.value;
    }
  }
}
