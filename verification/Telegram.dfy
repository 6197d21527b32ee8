/** The Telegram sink (`logger/telegram/telegram.go`): a token bucket per channel and a window that
    folds repeats of a line into one summary.

    The clock is an input: reading it may find any later time, and sleeping for `d` ends at least
    `d` later. The API's answer to a post is an input. Times are nanoseconds, tokens are reals.
    Ghost fields keep what the sink itself forgets: every turn taken on a channel, for every key what
    became of the records dispatched, whether a sweep was ever forced, and whether a record ever came
    late, after its key's window had closed but before the sweep.
 */
module Telegram {
  import Timeline

  const SECOND: int := 1_000_000_000
  const MILLISECOND: int := 1_000_000
  const RATE := 18.0 / 60.0
  const BURST := 18.0
  const HAIR := 0.000001

  function Seconds(ns: int): real {
    ns as real / SECOND as real
  }

  // ----- pacing

  datatype Bucket = Bucket(tokens: real, last: int)

  /** The turns taken so far leave at most what the burst and the elapsed time allow, the tokens
      still in hand included. */
  ghost predicate Paced(turns: seq<int>, b: Bucket) {
    && 0.0 <= b.tokens <= BURST
    && Timeline.Ascending(turns)
    && (forall i :: 0 <= i < |turns| ==> turns[i] <= b.last)
    && Covered(turns, b)
    && RateBounded(turns)
  }

  /** From every turn on, the turns and the tokens left are within burst plus rate. */
  ghost predicate Covered(turns: seq<int>, b: Bucket) {
    forall i :: 0 <= i < |turns| ==>
      (|turns| - i) as real * (1.0 - HAIR) + b.tokens <= BURST + RATE * Seconds(b.last - turns[i])
  }

  /** Between any two turns, no more turns than the burst plus the rate times the time between. */
  ghost predicate RateBounded(turns: seq<int>) {
    forall i, j :: 0 <= i <= j < |turns| ==>
      (j - i + 1) as real * (1.0 - HAIR) <= BURST + RATE * Seconds(turns[j] - turns[i])
  }

  function Refilled(b: Bucket, now: int): Bucket {
    var t := b.tokens + Seconds(now - b.last) * RATE;
    Bucket(if t < BURST then t else BURST, now)
  }

  function Spent(b: Bucket): Bucket {
    b.(tokens := if b.tokens - 1.0 > 0.0 then b.tokens - 1.0 else 0.0)
  }

  lemma RefilledStaysPaced(turns: seq<int>, b: Bucket, now: int)
    requires Paced(turns, b) && b.last <= now
    ensures Paced(turns, Refilled(b, now))
  {
    forall i | 0 <= i < |turns|
      ensures (|turns| - i) as real * (1.0 - HAIR) + Refilled(b, now).tokens <= BURST + RATE * Seconds(now - turns[i])
    {
      assert Seconds(now - turns[i]) == Seconds(now - b.last) + Seconds(b.last - turns[i]);
    }
  }

  /** Refilling in two steps is refilling in one, and never loses a token. */
  lemma RefilledTwice(b: Bucket, now: int, later: int)
    requires 0.0 <= b.tokens <= BURST && b.last <= now <= later
    ensures Refilled(Refilled(b, now), later) == Refilled(b, later)
    ensures Refilled(b, now).tokens <= Refilled(b, later).tokens
  {
    assert Seconds(later - b.last) == Seconds(later - now) + Seconds(now - b.last);
  }

  /** A turn was taken from bucket `b`, leaving bucket `after`. */
  predicate Took(b: Bucket, after: Bucket) {
    CanSpend(b, after.last) && after == Spent(Refilled(b, after.last))
  }

  /** A full bucket is as full whenever it was opened. */
  lemma FullStaysFull(first: int, b: Bucket, after: Bucket)
    requires Took(b, after) && first <= after.last && b.last <= after.last
    ensures b.tokens == BURST ==> Took(Bucket(BURST, first), after)
  {}

  lemma SpentStaysPaced(turns: seq<int>, b: Bucket)
    requires Paced(turns, b) && b.tokens >= 1.0 - HAIR
    ensures Paced(turns + [b.last], Spent(b))
  {
    SpentIsCovered(turns, b);
    LastIsBounded(turns, b.last, Spent(b));
  }

  lemma SpentIsCovered(turns: seq<int>, b: Bucket)
    requires Covered(turns, b) && 1.0 - HAIR <= b.tokens <= BURST
    ensures Covered(turns + [b.last], Spent(b))
  {
    var turns' := turns + [b.last];
    var b' := Spent(b);
    forall i | 0 <= i < |turns'|
      ensures (|turns'| - i) as real * (1.0 - HAIR) + b'.tokens <= BURST + RATE * Seconds(b.last - turns'[i])
    {
      OneMore(|turns| - i);
      if i < |turns| {
        assert turns'[i] == turns[i];
      }
    }
  }

  lemma LastIsBounded(turns: seq<int>, at: int, b: Bucket)
    requires RateBounded(turns) && Covered(turns + [at], b) && b.last == at && b.tokens >= 0.0
    ensures RateBounded(turns + [at])
  {
    var turns' := turns + [at];
    forall i, j | 0 <= i <= j < |turns'|
      ensures (j - i + 1) as real * (1.0 - HAIR) <= BURST + RATE * Seconds(turns'[j] - turns'[i])
    {
      if j < |turns| {
        assert turns'[i] == turns[i] && turns'[j] == turns[j];
      }
    }
  }

  lemma OneMore(n: int)
    ensures (n + 1) as real * (1.0 - HAIR) == n as real * (1.0 - HAIR) + 1.0 - HAIR
  {
    assert (n + 1) as real == n as real + 1.0;
  }

  /** A 429 empties the bucket, which only ever slows the channel down. */
  lemma EmptiedStaysPaced(turns: seq<int>, b: Bucket)
    requires Paced(turns, b)
    ensures Paced(turns, b.(tokens := 0.0))
  {}

  /** Over any interval of `span` nanoseconds, the number of turns is within burst plus rate. */
  lemma RateBound(turns: seq<int>, b: Bucket, from: int, span: nat)
    requires Paced(turns, b)
    ensures Timeline.CountIn(turns, from, from + span + 1) as real * (1.0 - HAIR) <= BURST + RATE * Seconds(span)
  {
    var k := Timeline.CountIn(turns, from, from + span + 1);
    var p := Timeline.WindowIsRun(turns, from, from + span + 1);
    if k > 0 {
      assert (k - 1 + 1) as real * (1.0 - HAIR) <= BURST + RATE * Seconds(turns[p + k - 1] - turns[p]);
    }
  }

  /** How long to sleep before a token is there. */
  function Wait(tokens: real): int {
    var w := -(-((1.0 - tokens) / RATE * SECOND as real)).Floor;
    if w < MILLISECOND then MILLISECOND else w
  }

  lemma WaitIsEnough(b: Bucket, now: int)
    requires 0.0 <= b.tokens <= BURST && b.last + Wait(b.tokens) <= now
    ensures Refilled(b, now).tokens >= 1.0
  {
    assert Seconds(Wait(b.tokens)) * RATE >= 1.0 - b.tokens;
    assert Seconds(now - b.last) >= Seconds(Wait(b.tokens));
  }

  /** A nanosecond less would leave it short, unless the wait is the least there is, a millisecond. */
  lemma WaitIsLeast(b: Bucket, now: int)
    requires 0.0 <= b.tokens <= 1.0 && b.last <= now < b.last + Wait(b.tokens)
    ensures Refilled(b, now).tokens < 1.0 || Wait(b.tokens) == 1_000_000
  {
    if Wait(b.tokens) != 1_000_000 {
      var exact := (1.0 - b.tokens) / RATE * SECOND as real;
      assert (now - b.last) as real < exact;
      assert Seconds(now - b.last) * RATE < 1.0 - b.tokens;
    }
  }

  /** Turns at these times, each finding its token, starting from bucket `b`. */
  predicate CanTake(b: Bucket, times: seq<int>)
    decreases |times|
  {
    times == [] ||
    (b.last <= times[0] && CanSpend(b, times[0]) && CanTake(Spent(Refilled(b, times[0])), times[1..]))
  }

  /** The burst comes on top of the rate: a full bucket gives its burst at once, and the next turn
      four seconds later, so one minute can see more than eighteen. */
  lemma {:induction false} BurstThenMore(n: nat, start: int)
    requires n <= 18
    ensures CanTake(Bucket(n as real, start), seq(n, _ => start) + [start + 4 * SECOND])
    ensures Seconds(4 * SECOND) < 60.0
  {
    var b := Bucket(n as real, start);
    var times := seq(n, _ => start) + [start + 4 * SECOND];
    assert Seconds(0) == 0.0 && Seconds(4 * SECOND) == 4.0;
    if n > 0 {
      BurstThenMore(n - 1, start);
      assert times[1..] == seq(n - 1, _ => start) + [start + 4 * SECOND];
      assert Refilled(b, start) == b;
      assert Spent(b) == Bucket((n - 1) as real, start);
    } else {
      assert times == [start + 4 * SECOND];
      assert times[1..] == [];
    }
  }

  // how long an empty bucket needs for a token, less the hair: 3.33333 seconds
  const REFILL: int := 3_333_330_000

  const MINUTE: int := 60 * SECOND

  ghost predicate Within(times: seq<int>, end: int) {
    forall i :: 0 <= i < |times| ==> times[i] <= end
  }

  /** Nineteen turns can fall in the minute that begins with bucket `b`. */
  ghost predicate CanExceed(b: Bucket) {
    exists times: seq<int> :: |times| == 19 && Within(times, b.last + MINUTE) && CanTake(b, times)
  }

  /** Turns use up tokens: those in hand and those that came in. */
  lemma {:induction false} TurnsNeedTokens(b: Bucket, times: seq<int>, end: int)
    requires 0.0 <= b.tokens && b.last <= end && Within(times, end) && CanTake(b, times)
    ensures |times| as real * (1.0 - HAIR) <= b.tokens + RATE * Seconds(end - b.last)
    decreases |times|
  {
    assert Seconds(end - b.last) >= 0.0;
    if times != [] {
      var t := times[0];
      var rest := times[1..];
      assert forall i :: 0 <= i < |rest| ==> rest[i] == times[i + 1];
      TurnsNeedTokens(Spent(Refilled(b, t)), rest, end);
      OneMore(|rest|);
      assert Seconds(end - b.last) == Seconds(end - t) + Seconds(t - b.last);
    }
  }

  /** At once, whatever the bucket holds, never more than eighteen. */
  lemma BurstIsAllThereIs(b: Bucket, times: seq<int>)
    requires 0.0 <= b.tokens <= BURST && CanTake(b, times)
    requires Within(times, b.last)
    ensures |times| <= 18
  {
    TurnsNeedTokens(b, times, b.last);
  }

  function EvenTimes(first: int, n: nat): seq<int>
    decreases n
  {
    if n == 0 then [] else [first] + EvenTimes(first + REFILL, n - 1)
  }

  /** Once there is a token, turns can follow evenly, whatever the bucket holds. */
  lemma {:induction false} EvenTurns(b: Bucket, first: int, n: nat, end: int)
    requires b.last <= first && CanSpend(b, first) && (n > 0 ==> first + (n - 1) * REFILL <= end)
    ensures |EvenTimes(first, n)| == n && Within(EvenTimes(first, n), end) && CanTake(b, EvenTimes(first, n))
    decreases n
  {
    if n > 0 {
      var after := Spent(Refilled(b, first));
      assert Seconds(REFILL) * RATE == 1.0 - HAIR;
      EvenTurns(after, first + REFILL, n - 1, end);
      assert EvenTimes(first, n)[1..] == EvenTimes(first + REFILL, n - 1);
    }
  }

  /** When a minute can see more than eighteen turns: exactly when its bucket begins with as good as
      a token in hand. */
  lemma MinuteCanExceed(b: Bucket)
    requires 0.0 <= b.tokens <= BURST
    ensures CanExceed(b) <==> b.tokens >= 1.0 - 19.0 * HAIR
  {
    var end := b.last + MINUTE;
    assert RATE * Seconds(MINUTE) == 18.0;
    if CanExceed(b) {
      var times: seq<int> :| |times| == 19 && Within(times, end) && CanTake(b, times);
      TurnsNeedTokens(b, times, end);
    }
    if b.tokens >= 1.0 - 19.0 * HAIR {
      var first := b.last + 60_000;
      assert Seconds(60_000) * RATE == 18.0 * HAIR;
      EvenTurns(b, first, 19, end);
      assert |EvenTimes(first, 19)| == 19;
    }
  }

  // ----- folding repeats

  datatype Record = Record(level: string, message: string, processId: string)

  datatype Suppression = Suppression(firstSent: int, count: nat, channel: int, sample: Record)

  function KeyOf(r: Record): string {
    r.level + "\0" + r.message + "\0" + r.processId
  }

  predicate NoSeparator(s: string) {
    forall i :: 0 <= i < |s| ==> s[i] != '\0'
  }

  function FirstSeparator(s: string): nat {
    if s == [] || s[0] == '\0' then 0 else 1 + FirstSeparator(s[1..])
  }

  lemma {:induction false} SeparatorAt(a: string, b: string)
    requires NoSeparator(a)
    ensures FirstSeparator(a + "\0" + b) == |a|
  {
    if a == [] {
      assert (a + "\0" + b)[0] == '\0';
    } else {
      SeparatorAt(a[1..], b);
      assert (a + "\0" + b)[1..] == a[1..] + "\0" + b;
    }
  }

  lemma SplitsOnce(a: string, b: string, c: string, d: string)
    requires NoSeparator(a) && NoSeparator(c) && a + "\0" + b == c + "\0" + d
    ensures a == c && b == d
  {
    SeparatorAt(a, b);
    SeparatorAt(c, d);
    var s := a + "\0" + b;
    assert s[..|a|] == a && s[..|c|] == c && s[|a| + 1..] == b && s[|c| + 1..] == d;
  }

  /** Records fold together exactly when level, message and process are the same, in any text that does
      not hold the separator. */
  lemma FoldsTogether(r: Record, q: Record)
    requires NoSeparator(r.level) && NoSeparator(r.message) && NoSeparator(q.level) && NoSeparator(q.message)
    ensures KeyOf(r) == KeyOf(q) <==> r.level == q.level && r.message == q.message && r.processId == q.processId
  {
    assert KeyOf(r) == r.level + "\0" + (r.message + "\0" + r.processId);
    assert KeyOf(q) == q.level + "\0" + (q.message + "\0" + q.processId);
    if KeyOf(r) == KeyOf(q) {
      SplitsOnce(r.level, r.message + "\0" + r.processId, q.level, q.message + "\0" + q.processId);
      SplitsOnce(r.message, r.processId, q.message, q.processId);
    }
  }

  /** What became of the records of one key. `singles` are the dispatch times of those sent alone. */
  datatype Tally = Tally(dispatched: nat, singles: seq<int>, summarised: nat, replaced: nat)

  const UNTOUCHED := Tally(0, [], 0, 0)

  function TallyOf(tallies: map<string, Tally>, key: string): Tally {
    if key in tallies then tallies[key] else UNTOUCHED
  }

  function Outstanding(suppressed: map<string, Suppression>, key: string): nat {
    if key in suppressed then suppressed[key].count else 0
  }

  /** Conservation: every record dispatched was sent alone, went out in a summary, waits to be
      summarised, or was in an entry that a later record replaced. */
  ghost predicate Balanced(suppressed: map<string, Suppression>, tallies: map<string, Tally>) {
    forall key :: Conserved(TallyOf(tallies, key), Outstanding(suppressed, key))
  }

  predicate Conserved(t: Tally, outstanding: nat) {
    t.dispatched == |t.singles| + t.summarised + outstanding + t.replaced
  }

  ghost predicate NoneReplaced(tallies: map<string, Tally>) {
    forall key :: TallyOf(tallies, key).replaced == 0
  }

  /** The single sends of one key are dispatched at least a window apart. */
  ghost predicate Spaced(singles: seq<int>, window: int) {
    forall i :: 0 < i < |singles| ==> singles[i] - singles[i - 1] >= window
  }

  ghost predicate WindowKept(suppressed: map<string, Suppression>, tallies: map<string, Tally>, window: int, now: int) {
    forall key :: KeyKept(suppressed, key, TallyOf(tallies, key).singles, window, now)
  }

  ghost predicate KeyKept(suppressed: map<string, Suppression>, key: string, singles: seq<int>, window: int, now: int) {
    && Spaced(singles, window)
    && (key in suppressed ==> singles != [] && singles[|singles| - 1] == suppressed[key].firstSent)
    && (key !in suppressed && singles != [] ==> singles[|singles| - 1] + window <= now)
  }

  function SentAlone(t: Tally, at: int, lost: nat): Tally {
    t.(dispatched := t.dispatched + 1, singles := t.singles + [at], replaced := t.replaced + lost)
  }

  function FoldedIn(t: Tally): Tally {
    t.(dispatched := t.dispatched + 1)
  }

  function Summarised(t: Tally, count: nat): Tally {
    t.(summarised := t.summarised + count)
  }

  lemma SentAloneKeeps(
      suppressed: map<string, Suppression>, tallies: map<string, Tally>, key: string, s: Suppression, window: int, now: int)
    requires Balanced(suppressed, tallies) && s.count == 0 && s.firstSent == now
    ensures var tallies' := tallies[key := SentAlone(TallyOf(tallies, key), now, Outstanding(suppressed, key))];
            && Balanced(suppressed[key := s], tallies')
            && (WindowKept(suppressed, tallies, window, now)
                && (key in suppressed ==> now - suppressed[key].firstSent >= window)
                ==> WindowKept(suppressed[key := s], tallies', window, now))
  {
    var tallies' := tallies[key := SentAlone(TallyOf(tallies, key), now, Outstanding(suppressed, key))];
    forall k ensures Conserved(TallyOf(tallies', k), Outstanding(suppressed[key := s], k)) {
      assert Conserved(TallyOf(tallies, k), Outstanding(suppressed, k));
    }
    if WindowKept(suppressed, tallies, window, now) && (key in suppressed ==> now - suppressed[key].firstSent >= window) {
      forall k ensures KeyKept(suppressed[key := s], k, TallyOf(tallies', k).singles, window, now) {
        assert KeyKept(suppressed, k, TallyOf(tallies, k).singles, window, now);
      }
    }
  }

  lemma FoldedInKeeps(
      suppressed: map<string, Suppression>, tallies: map<string, Tally>, key: string, window: int, now: int)
    requires Balanced(suppressed, tallies) && key in suppressed
    ensures var suppressed' := suppressed[key := suppressed[key].(count := suppressed[key].count + 1)];
            var tallies' := tallies[key := FoldedIn(TallyOf(tallies, key))];
            && Balanced(suppressed', tallies')
            && (WindowKept(suppressed, tallies, window, now) ==> WindowKept(suppressed', tallies', window, now))
  {
    var suppressed' := suppressed[key := suppressed[key].(count := suppressed[key].count + 1)];
    var tallies' := tallies[key := FoldedIn(TallyOf(tallies, key))];
    forall k ensures Conserved(TallyOf(tallies', k), Outstanding(suppressed', k)) {
      assert Conserved(TallyOf(tallies, k), Outstanding(suppressed, k));
    }
    if WindowKept(suppressed, tallies, window, now) {
      forall k ensures KeyKept(suppressed', k, TallyOf(tallies', k).singles, window, now) {
        assert KeyKept(suppressed, k, TallyOf(tallies, k).singles, window, now);
      }
    }
  }

  lemma SweptKeeps(
      suppressed: map<string, Suppression>, tallies: map<string, Tally>, key: string, window: int, now: int)
    requires Balanced(suppressed, tallies) && key in suppressed
    ensures var suppressed' := suppressed - {key};
            var tallies' := tallies[key := Summarised(TallyOf(tallies, key), suppressed[key].count)];
            && Balanced(suppressed', tallies')
            && (WindowKept(suppressed, tallies, window, now) && suppressed[key].firstSent + window <= now
                ==> WindowKept(suppressed', tallies', window, now))
  {
    var suppressed' := suppressed - {key};
    var tallies' := tallies[key := Summarised(TallyOf(tallies, key), suppressed[key].count)];
    forall k ensures Conserved(TallyOf(tallies', k), Outstanding(suppressed', k)) {
      assert Conserved(TallyOf(tallies, k), Outstanding(suppressed, k));
    }
    if WindowKept(suppressed, tallies, window, now) && suppressed[key].firstSent + window <= now {
      forall k ensures KeyKept(suppressed', k, TallyOf(tallies', k).singles, window, now) {
        assert KeyKept(suppressed, k, TallyOf(tallies, k).singles, window, now);
      }
    }
  }

  lemma NoneReplacedStill(tallies: map<string, Tally>, key: string, t: Tally)
    requires NoneReplaced(tallies) && t.replaced == TallyOf(tallies, key).replaced
    ensures NoneReplaced(tallies[key := t])
  {
    var tallies' := tallies[key := t];
    forall k ensures TallyOf(tallies', k).replaced == 0 {
      assert TallyOf(tallies, k).replaced == 0;
    }
  }

  lemma LaterKeepsWindow(
      suppressed: map<string, Suppression>, tallies: map<string, Tally>, window: int, now: int, later: int)
    requires WindowKept(suppressed, tallies, window, now) && now <= later
    ensures WindowKept(suppressed, tallies, window, later)
  {
    forall k ensures KeyKept(suppressed, k, TallyOf(tallies, k).singles, window, later) {
      assert KeyKept(suppressed, k, TallyOf(tallies, k).singles, window, now);
    }
  }

  /** A record of this key would come after the window closed and before the sweep. */
  predicate Late(suppressed: map<string, Suppression>, key: string, window: int, now: int) {
    key in suppressed && now - suppressed[key].firstSent >= window
  }

  /** The sink's books: conservation always; spacing and no replacement as long as they can be had. */
  ghost predicate Ledger(
      suppressed: map<string, Suppression>, tallies: map<string, Tally>, window: int, now: int, forced: bool, late: bool)
  {
    && Balanced(suppressed, tallies)
    && (window <= 0 ==> suppressed == map[])
    && (window > 0 && !forced ==> WindowKept(suppressed, tallies, window, now))
    && (!late ==> NoneReplaced(tallies))
  }

  lemma LaterKeeps(
      suppressed: map<string, Suppression>, tallies: map<string, Tally>,
      window: int, now: int, later: int, forced: bool, late: bool)
    requires Ledger(suppressed, tallies, window, now, forced, late) && now <= later
    ensures Ledger(suppressed, tallies, window, later, forced, late)
  {
    if window > 0 && !forced {
      LaterKeepsWindow(suppressed, tallies, window, now, later);
    }
  }

  lemma FoldedKeeps(
      suppressed: map<string, Suppression>, tallies: map<string, Tally>, key: string,
      window: int, now: int, forced: bool, late: bool)
    requires Ledger(suppressed, tallies, window, now, forced, late) && key in suppressed
    ensures Ledger(
              suppressed[key := suppressed[key].(count := suppressed[key].count + 1)],
              tallies[key := FoldedIn(TallyOf(tallies, key))], window, now, forced, late)
  {
    FoldedInKeeps(suppressed, tallies, key, window, now);
    if !late {
      NoneReplacedStill(tallies, key, FoldedIn(TallyOf(tallies, key)));
    }
  }

  lemma SummarisedKeeps(
      suppressed: map<string, Suppression>, tallies: map<string, Tally>, key: string,
      window: int, now: int, forced: bool, late: bool)
    requires Ledger(suppressed, tallies, window, now, forced, late) && key in suppressed
    requires forced || suppressed[key].firstSent + window <= now
    ensures Ledger(
              suppressed - {key}, tallies[key := Summarised(TallyOf(tallies, key), suppressed[key].count)],
              window, now, forced, late)
  {
    SweptKeeps(suppressed, tallies, key, window, now);
    if !late {
      NoneReplacedStill(tallies, key, Summarised(TallyOf(tallies, key), suppressed[key].count));
    }
  }

  lemma SentKeeps(
      suppressed: map<string, Suppression>, tallies: map<string, Tally>, key: string, s: Suppression,
      window: int, now: int, forced: bool, late: bool)
    requires Ledger(suppressed, tallies, window, now, forced, late) && s.count == 0 && s.firstSent == now
    requires window > 0 && key in suppressed ==> now - suppressed[key].firstSent >= window
    ensures Ledger(
              if window > 0 then suppressed[key := s] else suppressed,
              tallies[key := SentAlone(TallyOf(tallies, key), now, Outstanding(suppressed, key))],
              window, now, forced, late || (window > 0 && Late(suppressed, key, window, now)))
  {
    if window > 0 {
      SentAloneKeeps(suppressed, tallies, key, s, window, now);
    } else {
      SentWithoutWindow(tallies, key, now);
    }
    if !late && key !in suppressed {
      NoneReplacedStill(tallies, key, SentAlone(TallyOf(tallies, key), now, 0));
    }
  }

  lemma SentWithoutWindow(tallies: map<string, Tally>, key: string, now: int)
    requires Balanced(map[], tallies)
    ensures Balanced(map[], tallies[key := SentAlone(TallyOf(tallies, key), now, 0)])
  {
    var none: map<string, Suppression> := map[];
    var tallies' := tallies[key := SentAlone(TallyOf(tallies, key), now, 0)];
    forall k ensures Conserved(TallyOf(tallies', k), Outstanding(none, k)) {
      assert Conserved(TallyOf(tallies, k), Outstanding(none, k));
    }
  }

  lemma {:induction false} ApartOverall(singles: seq<int>, window: int, i: nat, j: nat)
    requires Spaced(singles, window) && i < j < |singles| && window >= 0
    ensures singles[j] - singles[i] >= window
    decreases j
  {
    if i < j - 1 {
      ApartOverall(singles, window, i, j - 1);
    }
  }

  /** The API's answer to a post. */
  datatype Reply = Posted | RetryAfter(wait: nat) | Failed

  function Posts(reply: Reply): nat {
    if reply.RetryAfter? then 2 else 1
  }

  /** The last two turns are a post and its retry: apart by what the API asked for, and by what a
      bucket emptied in between needs to fill. */
  ghost predicate Retried(turns: seq<int>, wait: nat) {
    && |turns| >= 2
    && turns[|turns| - 1] - turns[|turns| - 2] >= wait
    && RATE * Seconds(turns[|turns| - 1] - turns[|turns| - 2]) >= 1.0 - HAIR
  }

  class Sink {
    const window: int
    const logChannel: int
    const betChannel: int

    var suppressed: map<string, Suppression>
    var pace: map<int, Bucket>
    var clock: int

    ghost var turns: map<int, seq<int>>
    ghost var tallies: map<string, Tally>
    ghost var forced: bool
    ghost var late: bool

    ghost function TurnsOn(channel: int): seq<int>
      reads this
    {
      if channel in turns then turns[channel] else []
    }

    ghost predicate PacingValid()
      reads this
    {
      && turns.Keys <= pace.Keys
      && forall ch :: ch in pace ==> Paced(TurnsOn(ch), pace[ch]) && pace[ch].last <= clock
    }

    ghost predicate Valid()
      reads this
    {
      && PacingValid()
      && Ledger(suppressed, tallies, window, clock, forced, late)
    }

    constructor (window: int, logChannel: int, betChannel: int, start: int)
      ensures Valid() && this.window == window && this.logChannel == logChannel && this.betChannel == betChannel
      ensures suppressed == map[] && pace == map[] && clock == start
      ensures tallies == map[] && turns == map[] && !forced && !late
    {
      this.window, this.logChannel, this.betChannel := window, logChannel, betChannel;
      suppressed, pace, clock := map[], map[], start;
      turns, tallies, forced, late := map[], map[], false, false;
    }

    method Now() returns (t: int)
      modifies this`clock
      ensures t == clock >= old(clock)
    {
      var passed: nat :| true;
      clock := clock + passed;
      t := clock;
    }

    method Sleep(d: int)
      modifies this`clock
      ensures clock >= old(clock) && clock >= old(clock) + d
    {
      var late: nat :| true;
      clock := clock + late + if d > 0 then d else 0;
    }

    /** The channel's bucket: a channel not seen before has a full one. */
    function BucketOf(ch: int, now: int): Bucket
      reads this
    {
      if ch in pace then pace[ch] else Bucket(BURST, now)
    }

    /** Blocks until the channel has a token, then takes it; never sleeps more than once. */
    method WaitTurn(ch: int) returns (sleeps: nat)
      requires PacingValid()
      modifies this`pace, this`clock, this`turns
      ensures PacingValid() && old(clock) <= clock
      ensures ch in pace && old(clock) <= pace[ch].last <= clock && TurnsOn(ch) == old(TurnsOn(ch)) + [pace[ch].last]
      ensures Took(old(BucketOf(ch, clock)), pace[ch])
      ensures forall c :: c != ch ==> TurnsOn(c) == old(TurnsOn(c))
      ensures pace == old(pace)[ch := pace[ch]]
      ensures sleeps <= 1
    {
      var before := BucketFor(ch);
      var b;
      sleeps, b := TakeToken(before, TurnsOn(ch));
      FullStaysFull(old(clock), before, b);
      NoteTurn(ch, b);
    }

    method BucketFor(ch: int) returns (b: Bucket)
      requires PacingValid()
      modifies this`clock
      ensures PacingValid() && old(clock) <= clock && b.last <= clock && Paced(TurnsOn(ch), b)
      ensures if ch in pace then b == pace[ch] && clock == old(clock) else b == Bucket(BURST, clock)
    {
      if ch in pace {
        return pace[ch];
      }
      var now := Now();
      return Bucket(BURST, now);
    }

    /** The turn just taken, and what it left in the bucket. */
    method NoteTurn(ch: int, b: Bucket)
      requires PacingValid() && Paced(TurnsOn(ch) + [b.last], b) && b.last <= clock
      modifies this`pace, this`turns
      ensures PacingValid() && pace == old(pace)[ch := b]
      ensures TurnsOn(ch) == old(TurnsOn(ch)) + [b.last]
      ensures forall c :: c != ch ==> TurnsOn(c) == old(TurnsOn(c))
    {
      turns := turns[ch := TurnsOn(ch) + [b.last]];
      pace := pace[ch := b];
    }

    /** The waiting loop, on the channel's bucket. */
    method TakeToken(before: Bucket, ghost mine: seq<int>) returns (sleeps: nat, b: Bucket)
      requires Paced(mine, before) && before.last <= clock
      modifies this`clock
      ensures Paced(mine + [b.last], b) && old(clock) <= b.last <= clock
      ensures Took(before, b)
      ensures sleeps <= 1
      ensures sleeps == 1 ==> !CanSpend(before, old(clock))
    {
      sleeps, b := 0, before;
      while true
        invariant Paced(mine, b) && b.last <= clock && clock >= old(clock)
        invariant sleeps == 0 ==> b == before
        invariant sleeps <= 1
        invariant sleeps == 1 ==> Waiting(before, b, old(clock)) && b.last + Wait(b.tokens) <= clock
        decreases 1 - sleeps
      {
        var now := Now();
        RefilledStaysPaced(mine, b, now);
        if sleeps == 1 {
          WaitIsEnough(b, now);
          RefilledTwice(before, b.last, now);
          RefilledTwice(before, old(clock), b.last);
        }
        b := Refilled(b, now);
        if b.tokens >= 1.0 - HAIR {
          SpentStaysPaced(mine, b);
          b := Spent(b);
          return;
        }
        Sleep(Wait(b.tokens));
        sleeps := sleeps + 1;
      }
    }

    /** What a 429 costs the channel: its tokens, and the time asked for. */
    method BackOff(ch: int, wait: nat)
      requires PacingValid() && ch in pace
      modifies this`pace, this`clock
      ensures PacingValid() && clock >= old(clock) + wait
      ensures pace == old(pace)[ch := old(pace)[ch].(tokens := 0.0)]
    {
      EmptiedStaysPaced(TurnsOn(ch), pace[ch]);
      pace := pace[ch := pace[ch].(tokens := 0.0)];
      Sleep(wait);
    }

    /** One attempt: a turn, a post, and on a 429 that may be retried an emptied bucket and a wait. */
    method Attempt(ch: int, first: bool, reply: Reply) returns (again: bool)
      requires PacingValid()
      modifies this`pace, this`clock, this`turns
      ensures PacingValid() && clock >= old(clock)
      ensures ch in pace && TurnsOn(ch) == old(TurnsOn(ch)) + [pace[ch].last]
      ensures pace[ch].last >= old(clock) && CanSpend(old(BucketOf(ch, clock)), pace[ch].last)
      ensures forall c :: c != ch ==> TurnsOn(c) == old(TurnsOn(c))
      ensures again == (reply.RetryAfter? && first)
      ensures again ==> pace[ch].tokens == 0.0 && clock >= pace[ch].last + reply.wait
    {
      var _ := WaitTurn(ch);
      again := reply.RetryAfter? && first;
      if again {
        BackOff(ch, reply.wait);
      }
    }

    /** The first or the second attempt of a send; the second comes on a bucket the first emptied. */
    method AttemptAfter(ch: int, posts: nat, reply: Reply) returns (again: bool)
      requires PacingValid() && posts <= 1 && (posts == 1 ==> reply.RetryAfter? && Emptied(ch, reply.wait))
      modifies this`pace, this`clock, this`turns
      ensures PacingValid() && clock >= old(clock)
      ensures |TurnsOn(ch)| == |old(TurnsOn(ch))| + 1
      ensures forall c :: c != ch ==> TurnsOn(c) == old(TurnsOn(c))
      ensures again == (reply.RetryAfter? && posts == 0) && (again ==> Emptied(ch, reply.wait))
      ensures posts == 1 ==> Retried(TurnsOn(ch), reply.wait)
    {
      ghost var before, turns := BucketOf(ch, clock), TurnsOn(ch);
      again := Attempt(ch, posts == 0, reply);
      if posts == 1 {
        RetryWaits(before, turns, pace[ch].last, reply.wait);
      }
    }

    /** One post, or two when the first is answered with a 429; the second answer changes nothing. */
    method Send(ch: int, reply: Reply) returns (posts: nat)
      requires PacingValid()
      modifies this`pace, this`clock, this`turns
      ensures PacingValid() && clock >= old(clock)
      ensures posts == Posts(reply) && |TurnsOn(ch)| == |old(TurnsOn(ch))| + posts
      ensures reply.RetryAfter? ==> Retried(TurnsOn(ch), reply.wait)
      ensures forall c :: c != ch ==> TurnsOn(c) == old(TurnsOn(c))
    {
      posts := 0;
      var again := true;
      while again
        invariant PacingValid() && clock >= old(clock)
        invariant posts <= 2 && |TurnsOn(ch)| == |old(TurnsOn(ch))| + posts
        invariant again ==> posts == 0 || (posts == 1 && reply.RetryAfter? && Emptied(ch, reply.wait))
        invariant !again ==> posts == Posts(reply) && (reply.RetryAfter? ==> Retried(TurnsOn(ch), reply.wait))
        invariant forall c :: c != ch ==> TurnsOn(c) == old(TurnsOn(c))
        decreases 2 - posts
      {
        again := AttemptAfter(ch, posts, reply);
        posts := posts + 1;
      }
    }

    /** The channel's last turn emptied its bucket, and the wait that asked for is over. */
    ghost predicate Emptied(ch: int, wait: nat)
      reads this
    {
      && ch in pace && TurnsOn(ch) != []
      && pace[ch] == Bucket(0.0, TurnsOn(ch)[|TurnsOn(ch)| - 1])
      && clock >= pace[ch].last + wait
    }

    function ChannelFor(r: Record): int {
      if r.level == "BET" then betChannel else logChannel
    }

    /** Bets go to the bet channel, everything else to the log channel. */
    lemma ChannelsApart(r: Record)
      ensures r.level == "BET" ==> ChannelFor(r) == betChannel
      ensures r.level != "BET" ==> ChannelFor(r) == logChannel
    {}

    /** Sends a record, unless an identical one went out within the window. `at` is the time read. */
    method Dispatch(r: Record, reply: Reply) returns (ghost at: int)
      requires Valid()
      modifies this
      ensures Valid() && forced == old(forced) && old(clock) <= at <= clock
      ensures var key, t := KeyOf(r), TallyOf(old(tallies), KeyOf(r));
              if ChannelFor(r) == 0 then
                suppressed == old(suppressed) && tallies == old(tallies) && turns == old(turns)
              else if window > 0 && key in old(suppressed) && at - old(suppressed)[key].firstSent < window then
                && suppressed == old(suppressed)[key := old(suppressed)[key].(count := old(suppressed)[key].count + 1)]
                && tallies == old(tallies)[key := FoldedIn(t)] && turns == old(turns)
              else
                && suppressed == (if window > 0
                                  then old(suppressed)[key := Suppression(at, 0, ChannelFor(r), r)] else old(suppressed))
                && tallies == old(tallies)[key := SentAlone(t, at, Outstanding(old(suppressed), key))]
                && |TurnsOn(ChannelFor(r))| == |old(TurnsOn(ChannelFor(r)))| + Posts(reply)
                && forall c :: c != ChannelFor(r) ==> TurnsOn(c) == old(TurnsOn(c))
      ensures late == (old(late) || (ChannelFor(r) != 0 && window > 0 && Late(old(suppressed), KeyOf(r), window, at)))
    {
      at := clock;
      var ch := ChannelFor(r);
      if ch == 0 {
        return;
      }
      var now := Tick();
      at := now;
      var key := KeyOf(r);
      if window > 0 && key in suppressed && now - suppressed[key].firstSent < window {
        FoldedKeeps(suppressed, tallies, key, window, now, forced, late);
        tallies := tallies[key := FoldedIn(TallyOf(tallies, key))];
        suppressed := suppressed[key := suppressed[key].(count := suppressed[key].count + 1)];
        return;
      }
      Open(key, Suppression(now, 0, ch, r));
      var _ := Deliver(ch, reply);
    }

    /** Reading the clock breaks nothing. */
    method Tick() returns (now: int)
      requires Valid()
      modifies this`clock
      ensures Valid() && old(clock) <= now == clock
    {
      ghost var start := clock;
      now := Now();
      LaterKeeps(suppressed, tallies, window, start, now, forced, late);
    }

    /** Opens a window, if there are windows, for a record about to be sent alone. */
    method Open(key: string, s: Suppression)
      requires Valid() && s.count == 0 && s.firstSent == clock
      requires window > 0 && key in suppressed ==> clock - suppressed[key].firstSent >= window
      modifies this`suppressed, this`tallies, this`late
      ensures Valid()
      ensures suppressed == if window > 0 then old(suppressed)[key := s] else old(suppressed)
      ensures tallies == old(tallies)[key := SentAlone(TallyOf(old(tallies), key), clock, Outstanding(old(suppressed), key))]
      ensures late == (old(late) || (window > 0 && Late(old(suppressed), key, window, clock)))
    {
      SentKeeps(suppressed, tallies, key, s, window, clock, forced, late);
      late := late || (window > 0 && Late(suppressed, key, window, clock));
      tallies := tallies[key := SentAlone(TallyOf(tallies, key), clock, Outstanding(suppressed, key))];
      if window > 0 {
        suppressed := suppressed[key := s];
      }
    }

    /** Sending leaves the ledger alone. */
    method Deliver(ch: int, reply: Reply) returns (posts: nat)
      requires Valid()
      modifies this`pace, this`clock, this`turns
      ensures Valid() && clock >= old(clock)
      ensures posts == Posts(reply) && |TurnsOn(ch)| == |old(TurnsOn(ch))| + posts
      ensures forall c :: c != ch ==> TurnsOn(c) == old(TurnsOn(c))
    {
      ghost var start := clock;
      posts := Send(ch, reply);
      LaterKeeps(suppressed, tallies, window, start, clock, forced, late);
    }

    /** Closes every window that has run out, or every window when forced, and sends its summary: each
        channel takes exactly the turns of the summaries posted to it. `order` is the order of the map. */
    method Sweep(force: bool, replies: string -> Reply) returns (ghost at: int, ghost order: seq<string>)
      requires Valid()
      modifies this
      ensures Valid() && forced == (old(forced) || force) && late == old(late) && old(clock) <= at <= clock
      ensures suppressed == map k | k in old(suppressed) && !Closes(old(suppressed)[k], force, window, at) :: old(suppressed)[k]
      ensures forall k :: TallyOf(tallies, k) ==
                if k in old(suppressed) && Closes(old(suppressed)[k], force, window, at)
                then Summarised(TallyOf(old(tallies), k), old(suppressed)[k].count) else TallyOf(old(tallies), k)
      ensures EachOnce(order, old(suppressed).Keys)
      ensures forall ch :: |TurnsOn(ch)| ==
                |old(TurnsOn(ch))| + SweepTurns(old(suppressed), order, ch, force, window, at, replies)
    {
      var now := BeginSweep(force);
      at, order := now, [];
      var keys := suppressed.Keys;
      while keys != {}
        invariant Valid() && forced == (old(forced) || force) && late == old(late) && now <= clock
        invariant keys <= suppressed.Keys
        invariant LeftOpen(old(suppressed), suppressed, keys, force, window, now)
        invariant SweptSoFar(old(suppressed), suppressed, old(tallies), tallies)
        invariant EachOnce(order, old(suppressed).Keys - keys)
        invariant forall ch :: |TurnsOn(ch)| ==
                    |old(TurnsOn(ch))| + SweepTurns(old(suppressed), order, ch, force, window, now, replies)
        decreases keys
      {
        var key :| key in keys;
        LeftOpenOneMore(old(suppressed), suppressed, keys, key, force, window, now);
        SweepsOneMore(old(suppressed), suppressed, old(tallies), tallies, key);
        OnceMore(order, old(suppressed).Keys, keys, key);
        TurnsOneMore(old(suppressed), order, key, force, window, now, replies);
        keys := keys - {key};
        order := order + [key];
        CloseIfDue(key, force, now, replies(key));
      }
      LeftOpenIsAll(old(suppressed), suppressed, force, window, now);
    }

    method BeginSweep(force: bool) returns (now: int)
      requires Valid()
      modifies this`clock, this`forced
      ensures Valid() && forced == (old(forced) || force) && old(clock) <= now == clock
    {
      forced := forced || force;
      now := Tick();
    }

    method CloseIfDue(key: string, force: bool, now: int, reply: Reply)
      requires Valid() && key in suppressed && now <= clock && (force ==> forced)
      modifies this
      ensures Valid() && forced == old(forced) && late == old(late) && clock >= old(clock)
      ensures if Closes(old(suppressed)[key], force, window, now) then
                && suppressed == old(suppressed) - {key}
                && tallies == old(tallies)[key := Summarised(TallyOf(old(tallies), key), old(suppressed)[key].count)]
              else suppressed == old(suppressed) && tallies == old(tallies)
      ensures forall ch :: |TurnsOn(ch)| == |old(TurnsOn(ch))| + SummaryTurns(old(suppressed)[key], ch, force, window, now, reply)
      ensures var s := old(suppressed)[key];
              && ((force || now - s.firstSent >= window) && s.count > 0 ==>
                   |TurnsOn(s.channel)| == |old(TurnsOn(suppressed[key].channel))| + if reply.RetryAfter? then 2 else 1)
              && forall ch :: ch != s.channel ==> TurnsOn(ch) == old(TurnsOn(ch))
    {
      if Closes(suppressed[key], force, window, now) {
        CloseOne(key, reply);
      }
    }

    method CloseOne(key: string, reply: Reply)
      requires Valid() && key in suppressed
      requires forced || suppressed[key].firstSent + window <= clock
      modifies this
      ensures Valid() && forced == old(forced) && late == old(late) && clock >= old(clock)
      ensures suppressed == old(suppressed) - {key}
      ensures tallies == old(tallies)[key := Summarised(TallyOf(old(tallies), key), old(suppressed)[key].count)]
      ensures var ch := old(suppressed)[key].channel;
              |TurnsOn(ch)| == |old(TurnsOn(suppressed[key].channel))| +
                               if old(suppressed)[key].count > 0 then Posts(reply) else 0
      ensures forall c :: c != old(suppressed)[key].channel ==> TurnsOn(c) == old(TurnsOn(c))
    {
      var s := suppressed[key];
      if s.count > 0 {
        var _ := Deliver(s.channel, reply);
      }
      SummarisedKeeps(suppressed, tallies, key, window, clock, forced, late);
      tallies := tallies[key := Summarised(TallyOf(tallies, key), s.count)];
      suppressed := suppressed - {key};
    }
  }

  /** There is a token, or as good as one, at that time. */
  predicate CanSpend(b: Bucket, at: int) {
    Refilled(b, at).tokens >= 1.0 - HAIR
  }

  lemma RetryWaits(b: Bucket, turns: seq<int>, at: int, wait: nat)
    requires turns != [] && b == Bucket(0.0, turns[|turns| - 1]) && CanSpend(b, at) && b.last + wait <= at
    ensures Retried(turns + [at], wait)
  {}

  /** What is known while a turn is being waited for. */
  ghost predicate Waiting(before: Bucket, b: Bucket, since: int) {
    before.last <= since <= b.last && b == Refilled(before, b.last) && b.tokens < 1.0 - HAIR
  }

  /** The turns an entry takes on a channel when it is swept: those of its summary, if it closes with a
      count and belongs there. */
  function SummaryTurns(s: Suppression, ch: int, force: bool, window: int, now: int, reply: Reply): nat {
    if Closes(s, force, window, now) && s.count > 0 && s.channel == ch then Posts(reply) else 0
  }

  /** Those of all entries. */
  function SweepTurns(
      before: map<string, Suppression>, order: seq<string>, ch: int, force: bool, window: int, now: int,
      replies: string -> Reply): nat
  {
    if order == [] then 0
    else
      var key := order[|order| - 1];
      SweepTurns(before, order[..|order| - 1], ch, force, window, now, replies) +
      if key in before then SummaryTurns(before[key], ch, force, window, now, replies(key)) else 0
  }

  ghost predicate EachOnce(order: seq<string>, keys: set<string>) {
    && (forall i, j :: 0 <= i < j < |order| ==> order[i] != order[j])
    && forall key :: key in order <==> key in keys
  }

  lemma OnceMore(order: seq<string>, all: set<string>, keys: set<string>, key: string)
    requires EachOnce(order, all - keys) && key in keys && keys <= all
    ensures EachOnce(order + [key], all - (keys - {key}))
  {}

  lemma TurnsOneMore(
      before: map<string, Suppression>, order: seq<string>, key: string, force: bool, window: int, now: int,
      replies: string -> Reply)
    requires key in before
    ensures forall ch :: SweepTurns(before, order + [key], ch, force, window, now, replies) ==
              SweepTurns(before, order, ch, force, window, now, replies)
              + SummaryTurns(before[key], ch, force, window, now, replies(key))
  {
    assert (order + [key])[..|order|] == order;
  }

  lemma {:induction false} WithoutKey(
      before: map<string, Suppression>, order: seq<string>, key: string, ch: int, force: bool, window: int, now: int,
      replies: string -> Reply)
    requires key in before && forall i, j :: 0 <= i < j < |order| ==> order[i] != order[j]
    ensures SweepTurns(before, order, ch, force, window, now, replies) ==
            SweepTurns(before - {key}, order, ch, force, window, now, replies) +
            if key in order then SummaryTurns(before[key], ch, force, window, now, replies(key)) else 0
  {
    if order != [] {
      var n := |order| - 1;
      WithoutKey(before, order[..n], key, ch, force, window, now, replies);
      assert order == order[..n] + [order[n]];
      assert order[n] !in order[..n];
    }
  }

  /** In the turns of a sweep every window that closes with a count has its own, two when it is answered
      with a 429 and one otherwise, on its own channel; a window that does not has none anywhere. */
  lemma SummaryIsPosted(
      before: map<string, Suppression>, order: seq<string>, key: string, ch: int, force: bool, window: int, now: int,
      replies: string -> Reply)
    requires key in before && EachOnce(order, before.Keys)
    ensures var s := before[key];
            SweepTurns(before, order, ch, force, window, now, replies) ==
            SweepTurns(before - {key}, order, ch, force, window, now, replies) +
            if (force || now - s.firstSent >= window) && s.count > 0 && s.channel == ch
            then (if replies(key).RetryAfter? then 2 else 1) else 0
  {
    WithoutKey(before, order, key, ch, force, window, now, replies);
  }

  predicate Closes(s: Suppression, force: bool, window: int, now: int) {
    force || now - s.firstSent >= window
  }

  /** The entries left once those outside `keys` have been looked at. */
  ghost predicate LeftOpen(
      before: map<string, Suppression>, left: map<string, Suppression>, keys: set<string>, force: bool, window: int, now: int)
  {
    && (forall k :: k in left ==> k in before && left[k] == before[k])
    && (forall k :: k in before && k !in keys ==> (k in left <==> !Closes(before[k], force, window, now)))
  }

  /** The tallies after some entries were closed: their counts have moved into the summaries. */
  ghost predicate SweptSoFar(
      before: map<string, Suppression>, left: map<string, Suppression>, was: map<string, Tally>, tallies: map<string, Tally>)
  {
    forall k :: TallyOf(tallies, k) ==
      if k in before && k !in left then Summarised(TallyOf(was, k), before[k].count) else TallyOf(was, k)
  }

  lemma LeftOpenOneMore(
      before: map<string, Suppression>, left: map<string, Suppression>, keys: set<string>, key: string,
      force: bool, window: int, now: int)
    requires LeftOpen(before, left, keys, force, window, now) && keys <= left.Keys && key in keys
    ensures if Closes(left[key], force, window, now)
            then LeftOpen(before, left - {key}, keys - {key}, force, window, now) && keys - {key} <= (left - {key}).Keys
            else LeftOpen(before, left, keys - {key}, force, window, now)
  {}

  lemma LeftOpenIsAll(before: map<string, Suppression>, left: map<string, Suppression>, force: bool, window: int, now: int)
    requires LeftOpen(before, left, {}, force, window, now)
    ensures left == map k | k in before && !Closes(before[k], force, window, now) :: before[k]
  {}

  lemma SweepsOneMore(
      before: map<string, Suppression>, left: map<string, Suppression>, was: map<string, Tally>, tallies: map<string, Tally>,
      key: string)
    requires SweptSoFar(before, left, was, tallies) && key in before && key in left && left[key] == before[key]
    ensures SweptSoFar(before, left - {key}, was, tallies[key := Summarised(TallyOf(tallies, key), left[key].count)])
  {}
}
