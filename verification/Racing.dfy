/** What a race update is about and what a strategy answers (`apps/pegasus/core`, `engine/engine.go`). */
module Racing {

  datatype RaceStatus = PreOff | Running | Finished

  datatype RacingCode = Thoroughbred | Harness | OtherCode

  datatype Side = BetmaticWin | BetfairBack | BetfairLay

  datatype RaceRef = RaceRef(
    key: string, scope: string, venue: string, country: string, raceNumber: int, code: RacingCode,
    distance: real, status: RaceStatus)

  datatype Bet = Bet(ref: RaceRef, side: Side, runner: int, unit: real)

  datatype Decision = Decision(bets: seq<Bet>, tracking: bool)

  const IDLE := Decision([], false)
  const WATCHING := Decision([], true)

  predicate OnSide(bets: seq<Bet>, side: Side) {
    exists i :: 0 <= i < |bets| && bets[i].side == side
  }

  predicate OnePerSide(bets: seq<Bet>) {
    forall i, j :: 0 <= i < j < |bets| ==> bets[i].side != bets[j].side
  }

  const MILLISECOND := 1_000_000

  /** Whole milliseconds, truncated toward zero. */
  function Milliseconds(ns: int): int {
    if ns >= 0 then ns / MILLISECOND else -(-ns / MILLISECOND)
  }

  /** A delay in milliseconds has passed when that many million nanoseconds have gone by; one of zero or
      less, already in the last millisecond before. */
  predicate Passed(ns: int, delay: int) {
    if delay > 0 then ns >= delay * 1_000_000 else ns > (delay - 1) * 1_000_000
  }

  lemma MillisecondsReach(ns: int, delay: int)
    ensures Milliseconds(ns) >= delay <==> Passed(ns, delay)
  {}
}
