/** Resolving a tip to one runner of a race (`apps/_davo/tips/resolve.go`).

    The events of a race sit in a map, so they are visited in an arbitrary order: the model takes
    them as a list in whatever order the map gave, and the main theorem is that the order is
    irrelevant. Names and numbers arrive already split and trimmed; a number that does not parse
    is `None`.
 */
module Resolve {
  import opened Wrappers
  import EditDistance
  import Names

  const NAME_MATCH_FLOOR := 0.45
  const NAME_MATCH_MARGIN := 0.15
  const NUMBER_MATCH_BONUS := 0.35

  datatype Event = Event(names: seq<string>, venue: string, numbers: seq<Option<int>>)

  datatype Scored = Scored(venue: string, runnerName: string, runnerNo: int, nameScore: real, score: real)

  datatype EventMatch = EventMatch(venue: string, runnerName: string, runnerNo: int, score: real)

  datatype Error = NoCandidates | NoResemblance | Ambiguous

  /** What the caller asks for. */
  datatype Tip = Tip(raceNumber: int, runnerNumber: int, runnerName: string)

  function MatchOf(c: Scored): EventMatch {
    EventMatch(c.venue, c.runnerName, c.runnerNo, c.nameScore)
  }

  function NumberAt(e: Event, i: nat): int {
    if i < |e.numbers| && e.numbers[i].Some? then e.numbers[i].value else 0
  }

  function ScoreOf(e: Event, i: nat, tip: Tip, fold: string -> string): Scored
    requires i < |e.names|
  {
    var num := NumberAt(e, i);
    var nameScore := Names.Similarity(Names.Collapse(fold(e.names[i])), Names.Collapse(fold(tip.runnerName)));
    Scored(e.venue, e.names[i], num, nameScore,
           if num != 0 && num == tip.runnerNumber then nameScore + NUMBER_MATCH_BONUS else nameScore)
  }

  /** The candidates among the first `n` names of one event, blanks skipped. */
  function EventScores(e: Event, n: nat, tip: Tip, fold: string -> string): seq<Scored>
    requires n <= |e.names|
  {
    if n == 0 then []
    else if e.names[n - 1] == "" then EventScores(e, n - 1, tip, fold)
    else EventScores(e, n - 1, tip, fold) + [ScoreOf(e, n - 1, tip, fold)]
  }

  function Scores(events: seq<Event>, tip: Tip, fold: string -> string): seq<Scored> {
    if events == [] then []
    else
      var last := events[|events| - 1];
      Scores(events[..|events| - 1], tip, fold) + EventScores(last, |last.names|, tip, fold)
  }

  // ----- the stable sort, best first

  predicate BestFirst(xs: seq<Scored>) {
    forall i, j :: 0 <= i < j < |xs| ==> xs[i].score >= xs[j].score
  }

  lemma Headed(x: Scored, rest: seq<Scored>)
    requires BestFirst(rest) && (rest != [] ==> rest[0].score <= x.score)
    ensures BestFirst([x] + rest) && multiset([x] + rest) == multiset{x} + multiset(rest)
  {
    var r := [x] + rest;
    forall i, j | 0 <= i < j < |r| ensures r[i].score >= r[j].score {
      assert r[j] == rest[j - 1];
      assert rest[0].score >= rest[j - 1].score;
    }
  }

  lemma Regathered(x: Scored, xs: seq<Scored>)
    requires xs != []
    ensures multiset{xs[0]} + (multiset{x} + multiset(xs[1..])) == multiset{x} + multiset(xs)
  {
    assert xs == [xs[0]] + xs[1..];
  }

  function InsertRanked(x: Scored, xs: seq<Scored>): (r: seq<Scored>)
    requires BestFirst(xs)
    ensures BestFirst(r) && multiset(r) == multiset{x} + multiset(xs)
    ensures r[0] == x || (xs != [] && r[0] == xs[0])
  {
    if xs == [] || x.score >= xs[0].score then
      [x] + xs
    else
      var rest := InsertRanked(x, xs[1..]);
      Headed(xs[0], rest);
      Regathered(x, xs);
      [xs[0]] + rest
  }

  function Ranked(xs: seq<Scored>): (r: seq<Scored>)
    ensures BestFirst(r) && multiset(r) == multiset(xs) && |r| == |xs|
  {
    if xs == [] then []
    else
      assert xs == [xs[0]] + xs[1..];
      var r := InsertRanked(xs[0], Ranked(xs[1..]));
      assert |multiset(r)| == |multiset(xs)|;
      r
  }

  // ----- the program

  /** The inner loop: one event's runners appended to the candidates so far. */
  method RankEvent(before: seq<Scored>, e: Event, tip: Tip, needle: string, fold: string -> string)
    returns (candidates: seq<Scored>)
    requires Names.FixesLetters(fold) && needle == Names.Collapse(fold(tip.runnerName))
    ensures candidates == before + EventScores(e, |e.names|, tip, fold)
  {
    candidates := before;
    for i := 0 to |e.names|
      invariant candidates == before + EventScores(e, i, tip, fold)
    {
      if e.names[i] == "" {
        continue;
      }
      var candidate := ScoreRunner(e, i, tip, needle, fold);
      candidates := candidates + [candidate];
    }
  }

  /** One runner's score: its resemblance, and more when its number is the tip's. */
  method ScoreRunner(e: Event, i: nat, tip: Tip, needle: string, fold: string -> string) returns (candidate: Scored)
    requires Names.FixesLetters(fold) && needle == Names.Collapse(fold(tip.runnerName)) && i < |e.names|
    ensures candidate == ScoreOf(e, i, tip, fold)
  {
    var num := 0;
    if i < |e.numbers| && e.numbers[i].Some? {
      num := e.numbers[i].value;
    }
    var name := Names.Normalise(e.names[i], fold);
    var nameScore := Names.Similarity(name, needle);
    var score := nameScore;
    if num != 0 && num == tip.runnerNumber {
      score := score + NUMBER_MATCH_BONUS;
    }
    candidate := Scored(e.venue, e.names[i], num, nameScore, score);
  }

  method Rank(eventMap: Option<map<int, seq<Event>>>, tip: Tip, fold: string -> string)
    returns (r: Result<seq<Scored>, Error>)
    requires Names.FixesLetters(fold)
    ensures r == RankSpec(eventMap, tip, fold)
  {
    if eventMap.None? {
      return Err(NoCandidates);
    }
    if tip.raceNumber !in eventMap.value {
      return Err(NoCandidates);
    }
    var events := eventMap.value[tip.raceNumber];
    var needle := Names.Normalise(tip.runnerName, fold);
    var candidates: seq<Scored> := [];
    for k := 0 to |events|
      invariant candidates == Scores(events[..k], tip, fold)
    {
      candidates := RankEvent(candidates, events[k], tip, needle, fold);
      assert events[..k + 1][..k] == events[..k];
    }
    assert events[..|events|] == events;
    if |candidates| == 0 {
      return Err(NoCandidates);
    }
    r := Ok(Ranked(candidates));
  }

  /** Failing when the race is unknown or lists nobody, otherwise every candidate, best first. */
  function RankSpec(eventMap: Option<map<int, seq<Event>>>, tip: Tip, fold: string -> string): Result<seq<Scored>, Error> {
    if eventMap.None? || tip.raceNumber !in eventMap.value then Err(NoCandidates)
    else
      var candidates := Scores(eventMap.value[tip.raceNumber], tip, fold);
      if candidates == [] then Err(NoCandidates) else Ok(Ranked(candidates))
  }

  /** The order-free meaning of success: `c` is listed once more often than any rival that scores
      within the margin of it, that is, there is no such rival. */
  ghost predicate Wins(c: Scored, field: multiset<Scored>) {
    && c in field
    && c.nameScore >= NAME_MATCH_FLOOR
    && forall d :: d in field - multiset{c} ==> c.score - d.score >= NAME_MATCH_MARGIN
  }

  /** The decision on ranked candidates: the first is matched, or the first complaint is returned. */
  function Decided(ranked: seq<Scored>): Result<EventMatch, Error>
    requires ranked != []
  {
    if ranked[0].nameScore < NAME_MATCH_FLOOR then Err(NoResemblance)
    else if |ranked| > 1 && ranked[0].score - ranked[1].score < NAME_MATCH_MARGIN then Err(Ambiguous)
    else Ok(MatchOf(ranked[0]))
  }

  function Resolved(eventMap: Option<map<int, seq<Event>>>, tip: Tip, fold: string -> string): Result<EventMatch, Error> {
    match RankSpec(eventMap, tip, fold)
    case Err(e) => Err(e)
    case Ok(ranked) => if ranked == [] then Err(NoCandidates) else Decided(ranked)
  }

  predicate Top(c: Scored, field: multiset<Scored>) {
    c in field && forall d :: d in field ==> d.score <= c.score
  }

  /** What an error says about the candidates, whatever their order: there are none; a best-scored
      one bears too little resemblance; or one that would do has a rival within the margin. */
  ghost predicate Reason(e: Error, field: multiset<Scored>) {
    match e
    case NoCandidates => field == multiset{}
    case NoResemblance => exists c :: Top(c, field) && c.nameScore < NAME_MATCH_FLOOR
    case Ambiguous =>
      exists c, d ::
        Top(c, field) && c.nameScore >= NAME_MATCH_FLOOR && d in field - multiset{c} && c.score - d.score < NAME_MATCH_MARGIN
  }

  ghost function Field(eventMap: Option<map<int, seq<Event>>>, tip: Tip, fold: string -> string): multiset<Scored> {
    if eventMap.None? || tip.raceNumber !in eventMap.value then multiset{}
    else multiset(Scores(eventMap.value[tip.raceNumber], tip, fold))
  }

  method ResolveEvent(eventMap: Option<map<int, seq<Event>>>, tip: Tip, fold: string -> string)
    returns (r: Result<EventMatch, Error>)
    requires Names.FixesLetters(fold)
    ensures r.Ok? <==> exists c :: Wins(c, Field(eventMap, tip, fold))
    ensures forall c :: Wins(c, Field(eventMap, tip, fold)) ==> r == Ok(MatchOf(c))
    ensures r.Err? ==> Reason(r.error, Field(eventMap, tip, fold))
    ensures r == Resolved(eventMap, tip, fold)
  {
    ghost var field := Field(eventMap, tip, fold);
    var ranked := Rank(eventMap, tip, fold);
    if ranked.Err? {
      return Err(ranked.error);
    }
    var candidates := ranked.value;
    var best := candidates[0];
    OnlyTheFirstCanWin(candidates);
    assert multiset(candidates) == field;
    FirstIsTop(candidates);
    if best.nameScore < NAME_MATCH_FLOOR {
      return Err(NoResemblance);
    }
    if |candidates| > 1 {
      var second := candidates[1];
      if best.score - second.score < NAME_MATCH_MARGIN {
        return Err(Ambiguous);
      }
    }
    r := Ok(EventMatch(best.venue, best.runnerName, best.runnerNo, best.nameScore));
  }

  // ----- why the order does not matter

  lemma WithoutTheFirst(xs: seq<Scored>)
    requires xs != []
    ensures xs[0] in multiset(xs) && multiset(xs) - multiset{xs[0]} == multiset(xs[1..])
  {
    assert xs == [xs[0]] + xs[1..];
  }

  lemma TheSecondIsNext(xs: seq<Scored>)
    requires BestFirst(xs) && |xs| > 1
    ensures xs[1] in multiset(xs[1..]) && forall d :: d in multiset(xs[1..]) ==> d.score <= xs[1].score
  {
    assert xs[1] == xs[1..][0];
    forall d | d in multiset(xs[1..]) ensures d.score <= xs[1].score {
      assert d in xs[1..];
      var k :| 0 <= k < |xs| - 1 && xs[1..][k] == d;
      assert xs[k + 1] == d;
    }
  }

  lemma WinnerIsFirst(xs: seq<Scored>, c: Scored)
    requires BestFirst(xs) && xs != [] && Wins(c, multiset(xs))
    ensures c == xs[0]
  {
    var first := xs[0];
    assert c in xs && first in multiset(xs);
    assert c != first ==> first in multiset(xs) - multiset{c};
  }

  lemma OnlyTheFirstCanWin(xs: seq<Scored>)
    requires BestFirst(xs) && xs != []
    ensures forall c :: Wins(c, multiset(xs)) ==> c == xs[0]
    ensures Wins(xs[0], multiset(xs)) <==>
            xs[0].nameScore >= NAME_MATCH_FLOOR && (|xs| > 1 ==> xs[0].score - xs[1].score >= NAME_MATCH_MARGIN)
  {
    forall c | Wins(c, multiset(xs)) ensures c == xs[0] {
      WinnerIsFirst(xs, c);
    }
    WithoutTheFirst(xs);
    if |xs| > 1 {
      TheSecondIsNext(xs);
    }
  }

  lemma FirstIsTop(xs: seq<Scored>)
    requires BestFirst(xs) && xs != []
    ensures Top(xs[0], multiset(xs)) && (|xs| > 1 ==> xs[1] in multiset(xs) - multiset{xs[0]})
  {
    WithoutTheFirst(xs);
    assert |xs| > 1 ==> xs[1] == xs[1..][0];
  }

  function FieldOf(e: Event, tip: Tip, fold: string -> string): multiset<Scored> {
    multiset(EventScores(e, |e.names|, tip, fold))
  }

  lemma ScoresLast(events: seq<Event>, e: Event, tip: Tip, fold: string -> string)
    ensures multiset(Scores(events + [e], tip, fold)) == multiset(Scores(events, tip, fold)) + FieldOf(e, tip, fold)
  {
    assert (events + [e])[..|events|] == events;
  }

  lemma {:induction false} WithoutOne(before: seq<Event>, e: Event, after: seq<Event>, tip: Tip, fold: string -> string)
    ensures multiset(Scores(before + [e] + after, tip, fold))
         == multiset(Scores(before + after, tip, fold)) + FieldOf(e, tip, fold)
    decreases |after|
  {
    if after == [] {
      assert before + [e] + after == before + [e] && before + after == before;
      ScoresLast(before, e, tip, fold);
    } else {
      var n := |after| - 1;
      WithoutOne(before, e, after[..n], tip, fold);
      Regrouped(before + [e], after);
      Regrouped(before, after);
      ScoresLast(before + [e] + after[..n], after[n], tip, fold);
      ScoresLast(before + after[..n], after[n], tip, fold);
    }
  }

  lemma Regrouped(before: seq<Event>, after: seq<Event>)
    requires after != []
    ensures before + after == (before + after[..|after| - 1]) + [after[|after| - 1]]
  {}

  /** The same events in another order give the same candidates, each as often. */
  lemma {:induction false} SameField(xs: seq<Event>, ys: seq<Event>, tip: Tip, fold: string -> string)
    requires multiset(xs) == multiset(ys)
    ensures multiset(Scores(xs, tip, fold)) == multiset(Scores(ys, tip, fold))
    decreases |xs|
  {
    assert |multiset(xs)| == |xs| && |multiset(ys)| == |ys|;
    if xs != [] {
      var n := |xs| - 1;
      assert xs == xs[..n] + [xs[n]];
      assert xs[n] in multiset(ys);
      var k :| 0 <= k < |ys| && ys[k] == xs[n];
      var before, after := ys[..k], ys[k + 1..];
      assert ys == before + [ys[k]] + after;
      SameWithout(xs[..n], before, after, xs[n]);
      SameField(xs[..n], before + after, tip, fold);
      WithoutOne(before, xs[n], after, tip, fold);
      ScoresLast(xs[..n], xs[n], tip, fold);
    }
  }

  lemma SameWithout(xs: seq<Event>, before: seq<Event>, after: seq<Event>, e: Event)
    requires multiset(xs + [e]) == multiset(before + [e] + after)
    ensures multiset(xs) == multiset(before + after)
  {
    assert multiset(xs) == multiset(xs + [e]) - multiset{e};
    assert multiset(before + after) == multiset(before + [e] + after) - multiset{e};
  }

  /** Whatever order the map is walked in, resolving fails every time or gives the same match. */
  lemma OrderIrrelevant(xs: seq<Event>, ys: seq<Event>, tip: Tip, fold: string -> string)
    requires multiset(xs) == multiset(ys)
    ensures Field(Some(map[tip.raceNumber := xs]), tip, fold) == Field(Some(map[tip.raceNumber := ys]), tip, fold)
    ensures forall c, d ::
              Wins(c, multiset(Scores(xs, tip, fold))) && Wins(d, multiset(Scores(ys, tip, fold))) ==> c == d
  {
    SameField(xs, ys, tip, fold);
    var m := multiset(Scores(xs, tip, fold));
    forall c, d | Wins(c, m) && Wins(d, m) ensures c == d {
      assert c in m && d in m;
      assert c != d ==> d in m - multiset{c} && c in m - multiset{d};
    }
  }

  // ----- which error a tie ends in

  /** Both complaints can be made of a field exactly when its best score is shared by one candidate that
      bears too little resemblance and one that bears enough: then the order decides which is made. */
  lemma BothReasons(field: multiset<Scored>)
    ensures Reason(NoResemblance, field) && Reason(Ambiguous, field) <==>
            (exists c, d ::
              Top(c, field) && Top(d, field) && c.nameScore < NAME_MATCH_FLOOR && d.nameScore >= NAME_MATCH_FLOOR)
  {
    if c, d :| Top(c, field) && Top(d, field) && c.nameScore < NAME_MATCH_FLOOR && d.nameScore >= NAME_MATCH_FLOOR {
      assert c in field - multiset{d};
      assert d.score - c.score < NAME_MATCH_MARGIN;
    }
  }

  predicate Ascii(s: string) {
    forall i :: 0 <= i < |s| ==> s[i] as int < 0x80
  }

  lemma {:induction false} AsciiLength(s: string)
    requires Ascii(s)
    ensures Names.Utf8Length(s) == |s|
  {
    if s != [] {
      AsciiLength(s[..|s| - 1]);
    }
  }

  /** A name with more letters after the needle is as many edits away. */
  lemma {:induction false} LongerBy(needle: string, more: string)
    ensures EditDistance.Dist(needle + more, needle) == |more|
  {
    EditDistance.Bounded(needle + more, needle);
    if more == [] {
      assert needle + more == needle;
      EditDistance.ZeroIffEqual(needle, needle);
    } else {
      var n := |more| - 1;
      LongerBy(needle, more[..n]);
      var longer := needle + more;
      var e := EditDistance.Delete(|needle| + n);
      assert EditDistance.Applied(e, longer) == needle + more[..n];
      EditDistance.EditMovesByOne(e, longer, needle);
    }
  }

  /** How alike two names are when one is the other with `k` more letters after its `n`. */
  function LongerScore(n: nat, k: nat): real
    requires n + k > 0
  {
    1.0 - k as real / (n + k) as real
  }

  lemma ExampleScores()
    ensures LongerScore(3, 9) == 0.25 && LongerScore(3, 2) == 0.6
  {}

  lemma SimilarityOfLonger(needle: string, more: string)
    requires needle != [] && more != [] && Ascii(needle + more)
    ensures Names.Similarity(needle + more, needle) == LongerScore(|needle|, |more|)
  {
    LongerBy(needle, more);
    AsciiLength(needle + more);
    assert forall i :: 0 <= i < |needle| ==> needle[i] == (needle + more)[i];
    AsciiLength(needle);
  }

  lemma CanonicalFolds(s: string, fold: string -> string)
    requires Names.FixesLetters(fold) && Names.Canonical(s)
    ensures Names.Collapse(fold(s)) == s
  {
    Names.CanonicalIsFixed(s);
  }

  /** Two runners for a needle of three letters: one with nine letters more and the number asked for,
      one with two letters more and no number. */
  predicate Tied(needle: string, farther: string, nearer: string) {
    && |needle| == 3 && |farther| == 9 && |nearer| == 2
    && Plain(needle) && Plain(needle + farther) && Plain(needle + nearer)
  }

  predicate Plain(name: string) {
    Names.Canonical(name) && Ascii(name)
  }

  lemma SuchNamesExist()
    ensures Tied("ABC", "DEFGHIJKL", "DE")
  {}

  function Runner(name: string, number: Option<int>): Event {
    Event([name], "", [number])
  }

  lemma ScoreOfLonger(needle: string, more: string, number: Option<int>, tip: Tip, fold: string -> string)
    requires Names.FixesLetters(fold) && tip.runnerName == needle && tip.runnerNumber != 0
    requires needle != [] && more != [] && Plain(needle) && Plain(needle + more)
    requires number == None || number == Some(tip.runnerNumber)
    ensures var s := ScoreOf(Runner(needle + more, number), 0, tip, fold);
            && s.nameScore == LongerScore(|needle|, |more|)
            && s.score == s.nameScore + if number.Some? then NUMBER_MATCH_BONUS else 0.0
  {
    CanonicalFolds(needle, fold);
    CanonicalFolds(needle + more, fold);
    SimilarityOfLonger(needle, more);
  }

  lemma NamedOnce(e: Event, tip: Tip, fold: string -> string)
    requires |e.names| == 1 && e.names[0] != ""
    ensures EventScores(e, 1, tip, fold) == [ScoreOf(e, 0, tip, fold)]
  {
    assert EventScores(e, 0, tip, fold) == [];
  }

  lemma OneNameEach(events: seq<Event>, tip: Tip, fold: string -> string)
    requires |events| == 2 && forall k :: 0 <= k < 2 ==> |events[k].names| == 1 && events[k].names[0] != ""
    ensures Scores(events, tip, fold) == [ScoreOf(events[0], 0, tip, fold), ScoreOf(events[1], 0, tip, fold)]
  {
    NamedOnce(events[0], tip, fold);
    NamedOnce(events[1], tip, fold);
    assert Scores(events[..0], tip, fold) == [];
    assert events[..1][..0] == events[..0];
    assert Scores(events[..1], tip, fold) == Scores(events[..0], tip, fold) + [ScoreOf(events[0], 0, tip, fold)];
  }

  lemma TieKeepsOrder(xs: seq<Scored>)
    requires |xs| == 2 && xs[0].score == xs[1].score
    ensures Ranked(xs) == xs
  {
    assert Ranked(xs[2..]) == [];
    assert xs[1..][1..] == xs[2..];
    assert Ranked(xs[1..]) == [xs[1]];
  }

  lemma DecidedByTheFirst(events: seq<Event>, tip: Tip, fold: string -> string)
    requires |events| == 2 && forall k :: 0 <= k < 2 ==> |events[k].names| == 1 && events[k].names[0] != ""
    requires ScoreOf(events[0], 0, tip, fold).score == ScoreOf(events[1], 0, tip, fold).score
    ensures Resolved(Some(map[tip.raceNumber := events]), tip, fold) ==
            Err(if ScoreOf(events[0], 0, tip, fold).nameScore < NAME_MATCH_FLOOR then NoResemblance else Ambiguous)
  {
    OneNameEach(events, tip, fold);
    TieKeepsOrder(Scores(events, tip, fold));
  }

  lemma TiedEitherWay(a: Event, b: Event, tip: Tip, fold: string -> string)
    requires |a.names| == 1 && a.names[0] != "" && |b.names| == 1 && b.names[0] != ""
    requires ScoreOf(a, 0, tip, fold).score == ScoreOf(b, 0, tip, fold).score
    requires ScoreOf(a, 0, tip, fold).nameScore < NAME_MATCH_FLOOR <= ScoreOf(b, 0, tip, fold).nameScore
    ensures Resolved(Some(map[tip.raceNumber := [a, b]]), tip, fold) == Err(NoResemblance)
    ensures Resolved(Some(map[tip.raceNumber := [b, a]]), tip, fold) == Err(Ambiguous)
  {
    DecidedByTheFirst([a, b], tip, fold);
    DecidedByTheFirst([b, a], tip, fold);
  }

  lemma FartherScore(needle: string, farther: string, tip: Tip, fold: string -> string)
    requires Names.FixesLetters(fold) && tip.runnerName == needle && tip.runnerNumber != 0
    requires |needle| == 3 && |farther| == 9 && Plain(needle) && Plain(needle + farther)
    ensures var a := ScoreOf(Runner(needle + farther, Some(tip.runnerNumber)), 0, tip, fold);
            a.nameScore == LongerScore(3, 9) && a.score == LongerScore(3, 9) + NUMBER_MATCH_BONUS
  {
    ScoreOfLonger(needle, farther, Some(tip.runnerNumber), tip, fold);
  }

  lemma NearerScore(needle: string, nearer: string, tip: Tip, fold: string -> string)
    requires Names.FixesLetters(fold) && tip.runnerName == needle && tip.runnerNumber != 0
    requires |needle| == 3 && |nearer| == 2 && Plain(needle) && Plain(needle + nearer)
    ensures var b := ScoreOf(Runner(needle + nearer, None), 0, tip, fold);
            b.nameScore == LongerScore(3, 2) && b.score == LongerScore(3, 2)
  {
    ScoreOfLonger(needle, nearer, None, tip, fold);
  }

  lemma TiedScores(needle: string, farther: string, nearer: string, tip: Tip, fold: string -> string)
    requires Names.FixesLetters(fold) && Tied(needle, farther, nearer) && tip.runnerName == needle && tip.runnerNumber != 0
    ensures var a := ScoreOf(Runner(needle + farther, Some(tip.runnerNumber)), 0, tip, fold);
            var b := ScoreOf(Runner(needle + nearer, None), 0, tip, fold);
            a.score == b.score && a.nameScore < NAME_MATCH_FLOOR <= b.nameScore
  {
    ExampleScores();
    FartherScore(needle, farther, tip, fold);
    NearerScore(needle, nearer, tip, fold);
  }

  /** The same two runners in either order: one order ends in no resemblance, the other in ambiguity. */
  lemma TieErrorDependsOnOrder(needle: string, farther: string, nearer: string, tip: Tip, fold: string -> string)
    requires Names.FixesLetters(fold) && Tied(needle, farther, nearer) && tip.runnerName == needle && tip.runnerNumber != 0
    ensures var a, b := Runner(needle + farther, Some(tip.runnerNumber)), Runner(needle + nearer, None);
            && Resolved(Some(map[tip.raceNumber := [a, b]]), tip, fold) == Err(NoResemblance)
            && Resolved(Some(map[tip.raceNumber := [b, a]]), tip, fold) == Err(Ambiguous)
  {
    TiedScores(needle, farther, nearer, tip, fold);
    TiedEitherWay(Runner(needle + farther, Some(tip.runnerNumber)), Runner(needle + nearer, None), tip, fold);
  }

  // ----- what a candidate's score is made of

  /** The number bonus goes to a candidate whose own number is the one asked for, and to no other; it
      never counts towards resemblance. Numbers are matched to names by position. */
  lemma BonusExactlyWhen(e: Event, i: nat, tip: Tip, fold: string -> string)
    requires i < |e.names|
    ensures var c := ScoreOf(e, i, tip, fold);
            var own := if i < |e.numbers| && e.numbers[i].Some? then e.numbers[i].value else 0;
            && c.venue == e.venue && c.runnerName == e.names[i] && c.runnerNo == own
            && (own == tip.runnerNumber && own != 0 ==> c.score == c.nameScore + 0.35)
            && (own != tip.runnerNumber || own == 0 ==> c.score == c.nameScore)
            && 0.0 <= c.nameScore <= 1.0
            && (c.nameScore == 1.0 <==> Names.Collapse(fold(e.names[i])) == Names.Collapse(fold(tip.runnerName)))
  {
    Names.SimilarityRange(Names.Collapse(fold(e.names[i])), Names.Collapse(fold(tip.runnerName)));
  }

  /** What winning takes, in numbers. */
  lemma WinsSpelledOut(c: Scored, field: multiset<Scored>)
    ensures Wins(c, field) <==>
              c in field && c.nameScore >= 0.45 && forall d :: d in field - multiset{c} ==> d.score <= c.score - 0.15
    ensures MatchOf(c).venue == c.venue && MatchOf(c).runnerName == c.runnerName && MatchOf(c).runnerNo == c.runnerNo
    ensures MatchOf(c).score == c.nameScore
  {}

  /** Every name that is not blank is a candidate, and nothing else is. */
  lemma {:induction false} CandidatesAre(e: Event, n: nat, tip: Tip, fold: string -> string, c: Scored)
    requires n <= |e.names|
    ensures c in EventScores(e, n, tip, fold) <==>
              exists i: nat :: i < n && e.names[i] != "" && c == ScoreOf(e, i, tip, fold)
  {
    if n > 0 {
      CandidatesAre(e, n - 1, tip, fold, c);
      if i: nat :| i < n && e.names[i] != "" && c == ScoreOf(e, i, tip, fold) {
        assert i < n - 1 || i == n - 1;
      }
    }
  }
}
