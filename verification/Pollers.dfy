/** The runner-price pollers of the exchange client (`betting/betfair/races.go`).

    Starters, stoppers and the poller goroutines interleave freely; only what one of them does while
    holding `runnerMu` is atomic. A stopper first takes cancel functions out of the register and
    calls them after unlocking, so a taken cancel function is `pending` for a while. A poller is
    named by its index in the list of all pollers ever started, and its cancel function likewise.
 */
module Pollers {

  datatype Phase = Polling | Leaving | Gone

  /** `cancelled` says that the poller's own cancel function has been called. */
  datatype Poller = Poller(key: string, parent: nat, cancelled: bool, phase: Phase)

  datatype State = State(registered: map<string, nat>, pending: set<nat>, pollers: seq<Poller>, dead: set<nat>)

  datatype Step =
    | Start(key: string, parent: nat, loaded: bool)
    | Take(key: string)        // a stopper empties one entry
    | TakeAll                  // a stopper empties the register
    | RunCancel(id: nat)       // a stopper calls a cancel function it took
    | ParentDies(parent: nat)  // the parent context is cancelled
    | SeeDone(id: nat)         // the loop sees its context done
    | SeeClosed(id: nat)       // the loop sees its market closed
    | Exit(id: nat)            // the loop's deferred stop empties its key's entry

  predicate Done(s: State, id: nat)
    requires id < |s.pollers|
  {
    s.pollers[id].cancelled || s.pollers[id].parent in s.dead
  }

  function Taken(s: State, key: string): State {
    if key in s.registered then
      s.(registered := s.registered - {key}, pending := s.pending + {s.registered[key]})
    else s
  }

  function InPhase(s: State, id: nat, phase: Phase): State
    requires id < |s.pollers|
  {
    s.(pollers := s.pollers[id := s.pollers[id].(phase := phase)])
  }

  /** One atomic step; a step that is not enabled changes nothing. */
  function Next(s: State, step: Step): State {
    match step
    case Start(key, parent, loaded) =>
      if !loaded || key in s.registered then s
      else s.(registered := s.registered[key := |s.pollers|],
              pollers := s.pollers + [Poller(key, parent, false, Polling)])
    case Take(key) => Taken(s, key)
    case TakeAll => s.(registered := map[], pending := s.pending + s.registered.Values)
    case RunCancel(id) =>
      if id in s.pending && id < |s.pollers| then
        s.(pending := s.pending - {id}, pollers := s.pollers[id := s.pollers[id].(cancelled := true)])
      else s
    case ParentDies(parent) => s.(dead := s.dead + {parent})
    case SeeDone(id) =>
      if id < |s.pollers| && s.pollers[id].phase == Polling && Done(s, id) then InPhase(s, id, Leaving) else s
    case SeeClosed(id) =>
      if id < |s.pollers| && s.pollers[id].phase == Polling then InPhase(s, id, Leaving) else s
    case Exit(id) =>
      if id < |s.pollers| && s.pollers[id].phase == Leaving then
        Taken(InPhase(s, id, Gone), s.pollers[id].key)
      else s
  }

  function Run(s: State, steps: seq<Step>): State
    decreases |steps|
  {
    if steps == [] then s else Run(Next(s, steps[0]), steps[1..])
  }

  const INITIAL := State(map[], {}, [], {})

  // ----- where a poller's cancel function is

  predicate Registered(s: State, id: nat)
    requires id < |s.pollers|
  {
    s.pollers[id].key in s.registered && s.registered[s.pollers[id].key] == id
  }

  /** The cancel function of every poller is in exactly one place: registered, pending, or called;
      and a poller that has gone is no longer registered, so its race can be started again. */
  ghost predicate Inv(s: State) {
    && (forall key :: key in s.registered ==> s.registered[key] < |s.pollers| && s.pollers[s.registered[key]].key == key)
    && (forall id :: id in s.pending ==> id < |s.pollers|)
    && (forall id :: 0 <= id < |s.pollers| ==>
         && (Registered(s, id) || id in s.pending || s.pollers[id].cancelled)
         && !(Registered(s, id) && id in s.pending)
         && !(id in s.pending && s.pollers[id].cancelled)
         && !(Registered(s, id) && (s.pollers[id].cancelled || s.pollers[id].phase == Gone)))
  }

  lemma StepKeepsInv(s: State, step: Step)
    requires Inv(s)
    ensures Inv(Next(s, step))
  {
    match step
    case Start(key, parent, loaded) => StartKeepsInv(s, key, parent, loaded);
    case Take(key) => TakenKeepsInv(s, key);
    case TakeAll => TakeAllKeepsInv(s);
    case RunCancel(id) => CancelKeepsInv(s, id);
    case ParentDies(parent) =>
    case SeeDone(id) => LeavingKeepsInv(s, id);
    case SeeClosed(id) => LeavingKeepsInv(s, id);
    case Exit(id) => ExitKeepsInv(s, id);
  }

  lemma StartKeepsInv(s: State, key: string, parent: nat, loaded: bool)
    requires Inv(s)
    ensures Inv(Next(s, Start(key, parent, loaded)))
  {}

  lemma CancelKeepsInv(s: State, id: nat)
    requires Inv(s)
    ensures Inv(Next(s, RunCancel(id)))
  {}

  lemma LeavingKeepsInv(s: State, id: nat)
    requires Inv(s)
    ensures id < |s.pollers| && s.pollers[id].phase == Polling ==> Inv(InPhase(s, id, Leaving))
  {}

  lemma ExitKeepsInv(s: State, id: nat)
    requires Inv(s)
    ensures Inv(Next(s, Exit(id)))
  {
    if id < |s.pollers| && s.pollers[id].phase == Leaving {
      var t := Taken(s, s.pollers[id].key);
      TakenKeepsInv(s, s.pollers[id].key);
      assert Next(s, Exit(id)) == InPhase(t, id, Gone);
      assert !Registered(t, id);
    }
  }

  lemma TakeAllKeepsInv(s: State)
    requires Inv(s)
    ensures Inv(Next(s, TakeAll))
  {
    forall id | 0 <= id < |s.pollers| ensures id in s.registered.Values <==> Registered(s, id) {
      if id in s.registered.Values {
        var key :| key in s.registered && s.registered[key] == id;
      }
    }
  }

  lemma TakenKeepsInv(s: State, key: string)
    requires Inv(s)
    ensures Inv(Taken(s, key))
  {}

  lemma {:induction false} RunKeepsInv(s: State, steps: seq<Step>)
    requires Inv(s)
    ensures Inv(Run(s, steps))
    decreases |steps|
  {
    if steps != [] {
      StepKeepsInv(s, steps[0]);
      RunKeepsInv(Next(s, steps[0]), steps[1..]);
    }
  }

  /** In every reachable state, a live uncancelled poller whose cancel function no stopper has
      taken is the registered one, so no key has two. */
  lemma AtMostOnePoller(steps: seq<Step>, i: nat, j: nat)
    requires var s := Run(INITIAL, steps);
             && i < |s.pollers| && j < |s.pollers| && s.pollers[i].key == s.pollers[j].key
             && !s.pollers[i].cancelled && i !in s.pending
             && !s.pollers[j].cancelled && j !in s.pending
    ensures i == j && Registered(Run(INITIAL, steps), i) && Run(INITIAL, steps).pollers[i].phase != Gone
  {
    RunKeepsInv(INITIAL, steps);
    var s := Run(INITIAL, steps);
    assert Registered(s, i) && Registered(s, j);
  }

  lemma {:induction false} NoStartKeepsEmpty(s: State, steps: seq<Step>)
    requires s.registered == map[] && forall k :: 0 <= k < |steps| ==> !steps[k].Start?
    ensures Run(s, steps).registered == map[]
    decreases |steps|
  {
    if steps != [] {
      assert Next(s, steps[0]).registered == map[];
      NoStartKeepsEmpty(Next(s, steps[0]), steps[1..]);
    }
  }

  lemma {:induction false} RunConcatenated(s: State, steps: seq<Step>, more: seq<Step>)
    ensures Run(s, steps + more) == Run(Run(s, steps), more)
    decreases |steps|
  {
    if steps == [] {
      assert steps + more == more;
    } else {
      RunConcatenated(Next(s, steps[0]), steps[1..], more);
      assert (steps + more)[1..] == steps[1..] + more;
    }
  }

  /** After a stop-all with no later start, whatever else happens, every poller ever started is
      cancelled as soon as no cancel is pending. */
  lemma StopAllCancelsAll(before: seq<Step>, after: seq<Step>, id: nat)
    requires forall k :: 0 <= k < |after| ==> !after[k].Start?
    requires Run(INITIAL, before + [TakeAll] + after).pending == {}
    requires id < |Run(INITIAL, before + [TakeAll] + after).pollers|
    ensures Run(INITIAL, before + [TakeAll] + after).pollers[id].cancelled
  {
    var s := Run(INITIAL, before);
    RunConcatenated(INITIAL, before, [TakeAll]);
    RunConcatenated(INITIAL, before + [TakeAll], after);
    assert Run(s, [TakeAll]) == Next(s, TakeAll) by { assert [TakeAll][1..] == []; }
    NoStartKeepsEmpty(Next(s, TakeAll), after);
    RunKeepsInv(INITIAL, before + [TakeAll] + after);
  }

  /** Running the pending cancels, in any order, does drain them and touches nothing else. */
  lemma {:induction false} CancelsDrain(s: State, ids: seq<nat>)
    requires Inv(s) && s.pending <= set id | id in ids
    ensures var t := Run(s, seq(|ids|, k requires 0 <= k < |ids| => RunCancel(ids[k])));
            && t.pending == {} && t.registered == s.registered && |t.pollers| == |s.pollers|
    decreases |ids|
  {
    var steps := seq(|ids|, k requires 0 <= k < |ids| => RunCancel(ids[k]));
    if ids != [] {
      var t := Next(s, steps[0]);
      StepKeepsInv(s, steps[0]);
      CancelsDrain(t, ids[1..]);
      assert steps[1..] == seq(|ids| - 1, k requires 0 <= k < |ids| - 1 => RunCancel(ids[1..][k]));
    }
  }

  ghost predicate Deregisters(s: State, t: State, id: nat) {
    exists j :: 0 <= j < |s.pollers| == |t.pollers| && j != id && Registered(s, j) && !Registered(t, j)
  }

  /** Whether a leaving loop takes its own cancel function or a newer poller's: the latter exactly
      when its key is registered although its own was already taken or called. */
  lemma ExitTakesOwnOrNewer(s: State, id: nat)
    requires Inv(s) && id < |s.pollers| && s.pollers[id].phase == Leaving
    ensures var t := Next(s, Exit(id));
            && s.pollers[id].key !in t.registered
            && (t.pending != s.pending <==> s.pollers[id].key in s.registered)
            && (Deregisters(s, t, id) <==>
                  s.pollers[id].key in s.registered && (id in s.pending || s.pollers[id].cancelled))
  {
    var key := s.pollers[id].key;
    if key in s.registered {
      assert Registered(s, s.registered[key]);
    }
  }

  /** The newer poller's case does arise: stopped and started again before the first loop is done
      leaving, the second poller is taken out although nobody asked for that. */
  lemma LateExitDeregistersNewer(key: string)
    ensures var s := Run(INITIAL, [Start(key, 0, true), SeeClosed(0), Take(key), RunCancel(0), Start(key, 0, true)]);
            var t := Next(s, Exit(0));
            && |s.pollers| == 2 == |t.pollers|
            && Registered(s, 1) && !Registered(t, 1) && 1 in t.pending && t.pollers[1].phase == Polling
  {
    var a := Next(INITIAL, Start(key, 0, true));
    var b := Next(a, SeeClosed(0));
    var c := Next(b, Take(key));
    var d := Next(c, RunCancel(0));
    var e := Next(d, Start(key, 0, true));
    RunFive(INITIAL, Start(key, 0, true), SeeClosed(0), Take(key), RunCancel(0), Start(key, 0, true));
    assert e.registered == map[key := 1];
  }

  lemma RunFive(s: State, a: Step, b: Step, c: Step, d: Step, e: Step)
    ensures Run(s, [a, b, c, d, e]) == Next(Next(Next(Next(Next(s, a), b), c), d), e)
  {
    calc {
      Run(s, [a, b, c, d, e]);
      { assert [a, b, c, d, e][1..] == [b, c, d, e]; }
      Run(Next(s, a), [b, c, d, e]);
      { assert [b, c, d, e][1..] == [c, d, e]; }
      Run(Next(Next(s, a), b), [c, d, e]);
      { assert [c, d, e][1..] == [d, e]; }
      Run(Next(Next(Next(s, a), b), c), [d, e]);
      { assert [d, e][1..] == [e]; }
      Run(Next(Next(Next(Next(s, a), b), c), d), [e]);
      { assert [e][1..] == []; }
      Next(Next(Next(Next(Next(s, a), b), c), d), e);
    }
  }

  /** A start adds a poller, and registers it, exactly when the race is loaded and none is registered. */
  lemma StartsExactlyWhen(s: State, key: string, parent: nat, loaded: bool)
    ensures var t := Next(s, Start(key, parent, loaded));
            if loaded && key !in s.registered then
              && |t.pollers| == |s.pollers| + 1 && t.pollers[..|s.pollers|] == s.pollers
              && t.pollers[|s.pollers|] == Poller(key, parent, false, Polling)
              && key in t.registered && t.registered[key] == |s.pollers|
              && (forall k :: k != key ==> (k in t.registered <==> k in s.registered))
              && (forall k :: k != key && k in s.registered ==> t.registered[k] == s.registered[k])
              && t.pending == s.pending && t.dead == s.dead
            else t == s
  {}

  /** A poller that was cancelled, or whose parent was, leaves at its next turn and is gone after that, and
      its race can be started again; one that is neither goes on polling until its market closes. */
  lemma CancelledPollerGoes(s: State, id: nat)
    requires id < |s.pollers| && s.pollers[id].phase == Polling
    ensures var t := Next(Next(s, SeeDone(id)), Exit(id));
            if s.pollers[id].cancelled || s.pollers[id].parent in s.dead then
              t.pollers[id].phase == Gone && s.pollers[id].key !in t.registered
            else t == s
    ensures var t := Next(Next(s, SeeClosed(id)), Exit(id));
            t.pollers[id].phase == Gone && s.pollers[id].key !in t.registered
  {}

  /** A stop takes its own key's cancel function out of the register and no other. */
  lemma TakesItsOwn(s: State, key: string)
    ensures var t := Next(s, Take(key));
            && t.registered == s.registered - {key} && t.pollers == s.pollers && t.dead == s.dead
            && forall id :: id in t.pending <==> id in s.pending || (key in s.registered && s.registered[key] == id)
  {}

  /** When a context dies, its pollers leave at their next turn; those of others are not told. */
  lemma ParentEndsItsPollers(s: State, parent: nat, id: nat)
    requires id < |s.pollers| && s.pollers[id].phase == Polling
    ensures var t := Next(s, ParentDies(parent));
            && t.registered == s.registered && t.pollers == s.pollers && t.pending == s.pending
            && (s.pollers[id].parent == parent ==> Next(Next(t, SeeDone(id)), Exit(id)).pollers[id].phase == Gone)
            && (s.pollers[id].parent != parent ==> (Done(t, id) <==> Done(s, id)))
  {}

  /** A stop of a running race, its cancel once called, ends its poller, whatever the others do. */
  lemma StopEndsPoller(s: State, key: string)
    requires Inv(s) && key in s.registered && s.pollers[s.registered[key]].phase == Polling
    ensures var id := s.registered[key];
            var t := Next(Next(s, Take(key)), RunCancel(id));
            && key !in t.registered && t.pollers[id].cancelled && id !in t.pending
            && Next(Next(t, SeeDone(id)), Exit(id)).pollers[id].phase == Gone
            && forall other :: 0 <= other < |s.pollers| && other != id ==> t.pollers[other] == s.pollers[other]
  {}

  // ----- the program's critical sections

  class Client {
    var runnerCancels: map<string, nat>
    var pending: set<nat>
    var pollers: seq<Poller>
    var dead: set<nat>

    function View(): State
      reads this
    {
      State(runnerCancels, pending, pollers, dead)
    }

    constructor ()
      ensures View() == INITIAL
    {
      runnerCancels, pending, pollers, dead := map[], {}, [], {};
    }

    method StartRunnerUpdates(parent: nat, key: string, loaded: bool)
      modifies this
      ensures View() == Next(old(View()), Start(key, parent, loaded))
    {
      if !loaded {
        return;
      }
      if key in runnerCancels {
        return;
      }
      runnerCancels := runnerCancels[key := |pollers|];
      pollers := pollers + [Poller(key, parent, false, Polling)];
    }

    /** The locked part of `stopRunnerUpdates`. */
    method TakeCancel(key: string)
      modifies this
      ensures View() == Next(old(View()), Take(key))
    {
      if key in runnerCancels {
        pending := pending + {runnerCancels[key]};
      }
      runnerCancels := runnerCancels - {key};
    }

    /** The locked part of `stopAllRunnerUpdates`. */
    method TakeAllCancels()
      modifies this
      ensures View() == Next(old(View()), TakeAll)
    {
      ghost var was := runnerCancels;
      while runnerCancels != map[]
        invariant runnerCancels.Keys <= was.Keys && forall k :: k in runnerCancels ==> runnerCancels[k] == was[k]
        invariant pending == old(pending) + set k | k in was && k !in runnerCancels :: was[k]
        invariant pollers == old(pollers) && dead == old(dead)
        decreases runnerCancels.Keys
      {
        var key :| key in runnerCancels;
        pending := pending + {runnerCancels[key]};
        runnerCancels := runnerCancels - {key};
      }
      assert was.Values == set k | k in was && k !in runnerCancels :: was[k];
    }

    method CallCancel(id: nat)
      requires id in pending && id < |pollers|
      modifies this
      ensures View() == Next(old(View()), RunCancel(id))
    {
      pollers := pollers[id := pollers[id].(cancelled := true)];
      pending := pending - {id};
    }

    /** One turn of the loop's select: leave when done or when the market has closed. */
    method LoopTurn(id: nat, closed: bool) returns (left: bool)
      requires id < |pollers| && pollers[id].phase == Polling
      modifies this
      ensures left == (closed || Done(old(View()), id))
      ensures View() == Next(old(View()), if closed then SeeClosed(id) else SeeDone(id))
    {
      left := closed || pollers[id].cancelled || pollers[id].parent in dead;
      if left {
        pollers := pollers[id := pollers[id].(phase := Leaving)];
      }
    }

    /** The deferred stop of a loop that is leaving. */
    method LoopExit(id: nat)
      requires id < |pollers| && pollers[id].phase == Leaving
      modifies this
      ensures View() == Next(old(View()), Exit(id))
    {
      TakeCancel(pollers[id].key);
      pollers := pollers[id := pollers[id].(phase := Gone)];
    }
  }
}
