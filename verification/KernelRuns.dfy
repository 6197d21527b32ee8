/** What every run of the kernel keeps, and what a restart brings back. */
module KernelRuns {
  import opened Clients
  import opened KernelState
  import opened Sessions
  import opened Wrappers

  // ----- the invariant

  function NameIn(c: Option<string>): Option<string> {
    if c.Some? then Some(Alias(c.value)) else None
  }

  function BetmaticName(host: Host, doc: string): Option<string> {
    NameIn(host.accounts(doc).betmatic)
  }

  function BetfairName(host: Host, doc: string): Option<string> {
    NameIn(host.accounts(doc).betfair)
  }

  /** The account name each loaded process must hold, if any. */
  type Names = map<ProcessKey, Option<string>>

  function BetmaticNames(s: State, host: Host): Names {
    map k | k in s.loaded :: BetmaticName(host, s.loaded[k].doc)
  }

  function BetfairNames(s: State, host: Host): Names {
    map k | k in s.loaded :: BetfairName(host, s.loaded[k].doc)
  }

  /** A key holds a session exactly when it is loaded and its document names that account. */
  ghost predicate HeldByName(p: Pool, names: Names) {
    && Sound(p)
    && forall a, k :: (a in p.sessions && k in p.sessions[a].holders) <==> (k in names && names[k] == Some(a))
  }

  /** Every loaded process's application is up, its fan-out map has this very process, and the
      document it runs is the one stored. */
  ghost predicate Consistent(s: State, host: Host) {
    && (forall k :: k in s.loaded ==> k.app in s.up && k in s.store.processes && s.loaded[k].doc == s.store.processes[k])
    && (forall k :: k in s.fanout <==> k in s.loaded)
    && (forall k :: k in s.loaded ==> s.fanout[k] == s.loaded[k].id && s.loaded[k].id < s.next)
    && (forall k, l :: k in s.loaded && l in s.loaded && s.loaded[k].id == s.loaded[l].id ==> k == l)
    && (forall a :: a in s.up ==> a in host.apps)
  }

  /** Every loaded process bets through the clients now pooled for the accounts its document names. */
  ghost predicate Served(s: State, host: Host) {
    forall k :: k in s.loaded ==> s.loaded[k].account == AccountIn(s.pools, host.accounts(s.loaded[k].doc))
  }

  ghost predicate Inv(s: State, host: Host) {
    && Consistent(s, host)
    && HeldByName(s.pools.betmatic, BetmaticNames(s, host))
    && HeldByName(s.pools.betfair, BetfairNames(s, host))
    && Served(s, host)
    && (!s.running ==> s.up == {} && s.loaded == map[] && s.fanout == map[] && s.pools == Emptied(s.pools))
  }

  /** The persisted state of every loaded process is Running exactly when it runs. */
  ghost predicate StatesMatch(s: State) {
    forall k :: Matches(s, k)
  }

  ghost predicate Matches(s: State, k: ProcessKey) {
    k in s.loaded ==> k in s.store.states && (s.store.states[k] == RUNNING <==> s.loaded[k].running)
  }

  /** As much of the invariant as stopping and starting build on. */
  ghost predicate Mirrors(s: State, host: Host) {
    s.fanout.Keys == s.loaded.Keys && (forall a :: a in s.up ==> a in host.apps) && (!s.running ==> s.up == {})
  }

  lemma InvMirrors(s: State, host: Host)
    requires Inv(s, host)
    ensures Mirrors(s, host)
  {}

  lemma RestoredNext(s: State, host: Host, apps: seq<string>, i: nat, env: Env)
    requires i < |apps|
    ensures Restored(s, host, apps[..i + 1], env) == RestoredApp(Restored(s, host, apps[..i], env), host, apps[i], env)
  {
    assert apps[..i + 1][..i] == apps[..i];
  }

  // ----- the pools follow the registry

  lemma ClaimFollows(p: Pool, names: Names, key: ProcessKey, username: Option<string>, dialled: bool)
    requires HeldByName(p, names) && key !in names && Joined(p, key, username, dialled).Some?
    ensures HeldByName(Joined(p, key, username, dialled).value, names[key := NameIn(username)])
  {
    if username.Some? {
      ClaimedStaysSound(p, key, Alias(username.value), dialled);
    }
  }

  lemma ReleaseFollows(p: Pool, names: Names, key: ProcessKey)
    requires HeldByName(p, names)
    ensures HeldByName(Without(p, key), names - {key})
  {
    ReleaseWithoutHold(p, key);
    var r := Released(p.sessions, key);
    forall a, k
      ensures (a in r && k in r[a].holders) <==> (k in names - {key} && (names - {key})[k] == Some(a))
    {
      if a in p.sessions && k in p.sessions[a].holders && k != key {
        assert p.sessions[a].holders != {key};
      }
    }
  }

  lemma NothingToRelease(p: Pool, names: Names, key: ProcessKey)
    requires HeldByName(p, names) && key !in names
    ensures !Holds(p.sessions, key) && Without(p, key) == p
  {
    ReleaseWithoutHold(p, key);
  }

  /** A name some other process holds keeps its client when `key` lets go. */
  lemma OthersClient(p: Pool, names: Names, key: ProcessKey, k: ProcessKey, username: Option<string>)
    requires HeldByName(p, names) && k in names && k != key && names[k] == NameIn(username)
    ensures ClientOf(Without(p, key), username) == ClientOf(p, username)
  {
    if username.Some? {
      var a := Alias(username.value);
      assert a in p.sessions && k in p.sessions[a].holders;
      assert p.sessions[a].holders != {key};
    }
  }

  // ----- every step keeps the invariant

  /** A failed dial may have counted one up; nothing else depends on the count. */
  ghost predicate Redialled(p: Pools, q: Pools) {
    SameSessions(p, q) && p.betmatic.dials <= q.betmatic.dials && p.betfair.dials <= q.betfair.dials
  }

  lemma RedialledKeeps(s: State, host: Host, pools: Pools)
    requires Inv(s, host) && s.running && Redialled(s.pools, pools)
    ensures Inv(s.(pools := pools), host)
  {
    NamesSame(s, s.(pools := pools), host);
    RedialledHeld(s.pools.betmatic, pools.betmatic, BetmaticNames(s, host));
    RedialledHeld(s.pools.betfair, pools.betfair, BetfairNames(s, host));
    RedialledServes(s, host, pools);
  }

  lemma RedialledHeld(p: Pool, q: Pool, names: Names)
    requires HeldByName(p, names) && p.sessions == q.sessions && p.dials <= q.dials
    ensures HeldByName(q, names)
  {}

  lemma RedialledServes(s: State, host: Host, pools: Pools)
    requires Served(s, host) && SameSessions(s.pools, pools)
    ensures Served(s.(pools := pools), host)
  {}

  lemma NamesRegistered(s: State, host: Host, key: ProcessKey, doc: string, pools: Pools, account: Account)
    ensures var t := Registered(s, key, doc, pools, account);
            && BetmaticNames(t, host) == BetmaticNames(s, host)[key := BetmaticName(host, doc)]
            && BetfairNames(t, host) == BetfairNames(s, host)[key := BetfairName(host, doc)]
  {}

  lemma NamesDropped(s: State, host: Host, key: ProcessKey)
    ensures BetmaticNames(Dropped(s, key), host) == BetmaticNames(s, host) - {key}
    ensures BetfairNames(Dropped(s, key), host) == BetfairNames(s, host) - {key}
  {}

  lemma NamesSame(s: State, t: State, host: Host)
    requires t.loaded.Keys == s.loaded.Keys && forall k :: k in s.loaded ==> t.loaded[k].doc == s.loaded[k].doc
    ensures BetmaticNames(t, host) == BetmaticNames(s, host) && BetfairNames(t, host) == BetfairNames(s, host)
  {}

  lemma DroppedKeeps(s: State, host: Host, key: ProcessKey)
    requires Inv(s, host)
    ensures Inv(Dropped(s, key), host)
  {
    NamesDropped(s, host, key);
    ReleaseFollows(s.pools.betmatic, BetmaticNames(s, host), key);
    ReleaseFollows(s.pools.betfair, BetfairNames(s, host), key);
    DroppedServes(s, host, key);
  }

  lemma DroppedServes(s: State, host: Host, key: ProcessKey)
    requires Inv(s, host)
    ensures Served(Dropped(s, key), host)
  {
    forall k | k in s.loaded && k != key
      ensures AccountIn(ReleasedBoth(s.pools, key), host.accounts(s.loaded[k].doc)) == s.loaded[k].account
    {
      var c := host.accounts(s.loaded[k].doc);
      OthersClient(s.pools.betmatic, BetmaticNames(s, host), key, k, c.betmatic);
      OthersClient(s.pools.betfair, BetfairNames(s, host), key, k, c.betfair);
    }
  }

  /** The pools after an account was opened for an unloaded key: it has joined the holders of the
      accounts its document names, and every loaded process still bets through its own clients. */
  ghost predicate Joining(s: State, host: Host, key: ProcessKey, doc: string, pools: Pools) {
    && HeldByName(pools.betmatic, BetmaticNames(s, host)[key := BetmaticName(host, doc)])
    && HeldByName(pools.betfair, BetfairNames(s, host)[key := BetfairName(host, doc)])
    && Served(s.(pools := pools), host)
  }

  /** An account opened for an unloaded key joins it to the sessions named; releasing the key again,
      opened or not, leaves every session as it was. */
  lemma OpenedFollows(s: State, host: Host, key: ProcessKey, doc: string, dials: Dials)
    requires Inv(s, host) && key !in s.loaded
    ensures var (pools, account) := Opened(s.pools, key, host.accounts(doc), dials);
            && Redialled(s.pools, ReleasedBoth(pools, key))
            && (account.Some? ==> account == Some(AccountIn(pools, host.accounts(doc))) && Joining(s, host, key, doc, pools))
  {
    var c := host.accounts(doc);
    JoinedReleases(s.pools.betmatic, BetmaticNames(s, host), key, c.betmatic, dials.betmatic);
    JoinedReleases(s.pools.betfair, BetfairNames(s, host), key, c.betfair, dials.betfair);
    var bm := Joined(s.pools.betmatic, key, c.betmatic, dials.betmatic);
    var bf := Joined(s.pools.betfair, key, c.betfair, dials.betfair);
    if bm.Some? && bf.Some? {
      ClaimFollows(s.pools.betmatic, BetmaticNames(s, host), key, c.betmatic, dials.betmatic);
      ClaimFollows(s.pools.betfair, BetfairNames(s, host), key, c.betfair, dials.betfair);
      OpenedServes(s, host, key, c, dials);
    } else if bm.Some? {
      ReleasedTwice(bm.value, key);
    }
  }

  lemma ReleasedTwice(p: Pool, key: ProcessKey)
    ensures Without(Without(p, key), key) == Without(p, key)
  {
    var r := Released(p.sessions, key);
    forall a | a in r ensures r[a].holders != {key} && r[a].holders - {key} == r[a].holders {
      assert key !in r[a].holders;
    }
    assert Released(r, key) == r;
  }

  lemma OpenedServes(s: State, host: Host, key: ProcessKey, c: Credentials, dials: Dials)
    requires Inv(s, host)
    requires Joined(s.pools.betmatic, key, c.betmatic, dials.betmatic).Some?
    requires Joined(s.pools.betfair, key, c.betfair, dials.betfair).Some?
    ensures Served(s.(pools := Opened(s.pools, key, c, dials).0), host)
  {
    var pools := Opened(s.pools, key, c, dials).0;
    forall k | k in s.loaded ensures AccountIn(pools, host.accounts(s.loaded[k].doc)) == s.loaded[k].account {
      var other := host.accounts(s.loaded[k].doc);
      HolderIsPooled(s.pools.betmatic, BetmaticNames(s, host), k, other.betmatic);
      HolderIsPooled(s.pools.betfair, BetfairNames(s, host), k, other.betfair);
      ClaimShares(s.pools.betmatic, key, c.betmatic, dials.betmatic, other.betmatic);
      ClaimShares(s.pools.betfair, key, c.betfair, dials.betfair, other.betfair);
    }
  }

  lemma HolderIsPooled(p: Pool, names: Names, k: ProcessKey, username: Option<string>)
    requires HeldByName(p, names) && k in names && names[k] == NameIn(username)
    ensures username.Some? ==> Pooled(p, username)
  {
    if username.Some? {
      assert Alias(username.value) in p.sessions && k in p.sessions[Alias(username.value)].holders;
    }
  }

  lemma JoinedReleases(p: Pool, names: Names, key: ProcessKey, username: Option<string>, dialled: bool)
    requires HeldByName(p, names) && key !in names
    ensures Without(p, key) == p
    ensures var q := Joined(p, key, username, dialled);
            q.Some? ==> Released(q.value.sessions, key) == p.sessions && p.dials <= q.value.dials
  {
    NothingToRelease(p, names, key);
    if username.Some? {
      ReleaseUndoesClaim(p, key, Alias(username.value), dialled);
    }
  }

  lemma RegisteredKeeps(s: State, host: Host, key: ProcessKey, pools: Pools)
    requires Inv(s, host) && s.running && key !in s.loaded && key.app in s.up && key in s.store.processes
    requires Joining(s, host, key, s.store.processes[key], pools)
    ensures var doc := s.store.processes[key];
            Inv(Registered(s, key, doc, pools, AccountIn(pools, host.accounts(doc))), host)
  {
    var doc := s.store.processes[key];
    NamesRegistered(s, host, key, doc, pools, AccountIn(pools, host.accounts(doc)));
  }

  /** What an add may do: nothing but count a failed dial, or register the stored document. */
  ghost predicate Adding(s: State, host: Host, key: ProcessKey, o: Outcome) {
    if o.error.Some? then o.state == s.(pools := o.state.pools) && Redialled(s.pools, o.state.pools)
    else
      && key !in s.loaded && key in s.store.processes
      && var doc := s.store.processes[key];
      o.state == Registered(s, key, doc, o.state.pools, AccountIn(o.state.pools, host.accounts(doc)))
  }

  /** Adding keeps the invariant, and a failed add leaves everything, every session included, as it
      was. */
  lemma AddedKeeps(s: State, host: Host, key: ProcessKey, env: Env)
    requires Inv(s, host)
    ensures Inv(Added(s, host, key, env).state, host)
    ensures Adding(s, host, key, Added(s, host, key, env))
  {
    if AddError(s, host, key, env).None? {
      BuiltKeeps(s, host, key, env.build(key));
    }
  }

  /** What an add leaves alone, seen from one key. */
  lemma AddedLeaves(s: State, host: Host, key: ProcessKey, env: Env, k: ProcessKey)
    requires Inv(s, host)
    ensures var o := Added(s, host, key, env);
            && o.state.store == s.store
            && (k != key || o.error.Some? ==>
                 (k in o.state.loaded <==> k in s.loaded) && (k in s.loaded ==> o.state.loaded[k] == s.loaded[k]))
            && (o.error.None? ==>
                 && key !in s.loaded && key in s.store.processes
                 && key in o.state.loaded && o.state.loaded[key].doc == s.store.processes[key] && !o.state.loaded[key].running)
  {
    AddedKeeps(s, host, key, env);
  }

  lemma BuiltKeeps(s: State, host: Host, key: ProcessKey, build: Build)
    requires Inv(s, host) && s.running && key !in s.loaded && key.app in s.up && key in s.store.processes
    ensures var o := Built(s, host, key, s.store.processes[key], build);
            Inv(o.state, host) && Adding(s, host, key, o)
  {
    var doc := s.store.processes[key];
    if build.Rejects? {
      NothingToRelease(s.pools.betmatic, BetmaticNames(s, host), key);
      NothingToRelease(s.pools.betfair, BetfairNames(s, host), key);
    } else {
      OpenedFollows(s, host, key, doc, build.dials);
      var (pools, account) := Opened(s.pools, key, host.accounts(doc), build.dials);
      if account.Some? && build.Opens? {
        RegisteredKeeps(s, host, key, pools);
      } else {
        RedialledKeeps(s, host, ReleasedBoth(pools, key));
      }
    }
  }

  lemma WithRunningKeeps(s: State, host: Host, key: ProcessKey, running: bool)
    requires Inv(s, host) && s.running && key in s.loaded
    ensures Inv(WithRunning(s, key, running), host)
  {
    NamesSame(s, WithRunning(s, key, running), host);
  }

  lemma WithStateKeeps(s: State, host: Host, key: ProcessKey, state: string, env: Env)
    requires Inv(s, host)
    ensures Inv(WithState(s, key, state, env), host)
  {
    NamesSame(s, WithState(s, key, state, env), host);
  }

  lemma RebuiltKeeps(s: State, host: Host, key: ProcessKey, env: Env)
    requires Inv(Dropped(s, key), host)
    ensures Inv(Rebuilt(s, host, key, env).state, host)
    ensures Rebuilt(s, host, key, env).error.None? ==>
              && key in Rebuilt(s, host, key, env).state.loaded && Rebuilt(s, host, key, env).state.running
              && !Rebuilt(s, host, key, env).state.loaded[key].running
  {
    AddedKeeps(Dropped(s, key), host, key, env);
    WithStateKeeps(Added(Dropped(s, key), host, key, env).state, host, key, STOPPED, env);
  }

  lemma ResumedKeeps(o: Outcome, host: Host, key: ProcessKey, env: Env)
    requires Inv(o.state, host) && (o.error.None? ==> key in o.state.loaded && o.state.running)
    ensures Inv(Resumed(o, key, env).state, host)
  {
    if o.error.None? {
      WithRunningKeeps(o.state, host, key, true);
      WithStateKeeps(WithRunning(o.state, key, true), host, key, RUNNING, env);
    }
  }

  /** What restoring leaves alone. */
  ghost predicate Restoring(s: State, t: State, host: Host) {
    Inv(t, host) && t.running && t.up == s.up && t.store == s.store
  }

  lemma RestoredRefKeeps(s: State, host: Host, ref: ProcessRef, env: Env)
    requires Inv(s, host) && s.running
    ensures Restoring(s, RestoredRef(s, host, ref, env), host)
  {
    AddedKeeps(s, host, ref.key, env);
    var o := Added(s, host, ref.key, env);
    if o.error.None? && ref.state == RUNNING {
      WithRunningKeeps(o.state, host, ref.key, true);
    }
  }

  lemma {:induction false} RestoredRefsKeeps(s: State, host: Host, refs: seq<ProcessRef>, env: Env)
    requires Inv(s, host) && s.running
    ensures Restoring(s, RestoredRefs(s, host, refs, env), host)
  {
    if refs != [] {
      RestoredRefsKeeps(s, host, refs[..|refs| - 1], env);
      RestoredRefKeeps(RestoredRefs(s, host, refs[..|refs| - 1], env), host, refs[|refs| - 1], env);
    }
  }

  lemma {:induction false} RestoredKeeps(s: State, host: Host, apps: seq<string>, env: Env)
    requires Inv(s, host) && s.running
    ensures Restoring(s, Restored(s, host, apps, env), host)
  {
    if apps != [] {
      var app := apps[|apps| - 1];
      var before := Restored(s, host, apps[..|apps| - 1], env);
      RestoredKeeps(s, host, apps[..|apps| - 1], env);
      if app in before.up && env.refs(app).Some? {
        RestoredRefsKeeps(before, host, env.refs(app).value, env);
      }
    }
  }

  lemma StoppedKeeps(s: State, host: Host)
    ensures Inv(Stopped(s), host)
  {}

  lemma StartedKeeps(s: State, host: Host, env: Env)
    requires Inv(s, host)
    ensures Inv(Started(s, host, env).state, host)
  {
    if !s.running && UpSet(host, env) != {} {
      var t := s.(running := true, up := UpSet(host, env), pools := NO_POOLS);
      assert Inv(t, host);
      RestoredKeeps(t, host, host.apps, env);
    }
  }

  lemma StoreKeeps(s: State, host: Host, store: Contents)
    requires Inv(s, host)
    requires forall k :: k in s.loaded ==> k in store.processes && store.processes[k] == s.store.processes[k]
    ensures Inv(s.(store := store), host)
  {
    NamesSame(s, s.(store := store), host);
  }

  lemma SavedKeeps(s: State, host: Host, key: ProcessKey, doc: string, env: Env)
    requires Inv(s, host)
    ensures Inv(Saved(s, host, key, doc, env).state, host)
  {
    var store := s.store.(processes := s.store.processes[key := doc]);
    var t := s.(store := store);
    if !s.running || key !in s.loaded {
      StoreKeeps(s, host, store);
    } else {
      DroppedKeeps(s, host, key);
      StoreKeeps(Dropped(s, key), host, store);
      assert Dropped(t, key) == Dropped(s, key).(store := store);
      RebuiltKeeps(t, host, key, env);
      ResumedKeeps(Rebuilt(t, host, key, env), host, key, env);
    }
  }

  lemma UnloadedKeeps(s: State, host: Host, key: ProcessKey)
    requires Inv(s, host)
    ensures Inv(Unloaded(s, key), host) && key !in Unloaded(s, key).loaded
  {
    DroppedKeeps(s, host, key);
  }

  lemma PurgedKeeps(s: State, host: Host, key: ProcessKey, env: Env)
    requires Inv(s, host) && key !in s.loaded
    ensures Inv(Purged(s, key, env).state, host)
  {
    StoreKeeps(s, host, Forgotten(s, key).store);
    StoreKeeps(s, host, WithoutDoc(Forgotten(s, key), key).store);
  }

  lemma NextKeeps(s: State, host: Host, op: Op, env: Env)
    requires Inv(s, host)
    ensures Inv(Next(s, host, op, env).state, host)
  {
    match op
    case Start => StartedKeeps(s, host, env);
    case Stop => StoppedKeeps(s, host);
    case Crash => StoppedKeeps(s, host);
    case Restart =>
      StoppedKeeps(s, host);
      StartedKeeps(if s.running then Stopped(s) else s, host, env);
    case AddProcess(key) => AddedProcessKeeps(s, host, key, env);
    case StartProcess(key) => FlagKeeps(s, host, key, true, env);
    case StopProcess(key) => FlagKeeps(s, host, key, false, env);
    case RestartProcess(key) => RestartedProcessKeeps(s, host, key, env);
    case DeleteProcess(key) => DeletedKeeps(s, host, key, env);
    case SaveSettings(key, doc, valid) => SavedKeeps(s, host, key, doc, env);
    case DeleteSettings(key) => DeletedSettingsKeeps(s, host, key, env);
  }

  lemma AddedProcessKeeps(s: State, host: Host, key: ProcessKey, env: Env)
    requires Inv(s, host)
    ensures Inv(AddedProcess(s, host, key, env).state, host)
  {
    AddedKeeps(s, host, key, env);
    WithStateKeeps(Added(s, host, key, env).state, host, key, STOPPED, env);
  }

  lemma RestartedProcessKeeps(s: State, host: Host, key: ProcessKey, env: Env)
    requires Inv(s, host)
    ensures Inv(RestartedProcess(s, host, key, env).state, host)
  {
    DroppedKeeps(s, host, key);
    RebuiltKeeps(s, host, key, env);
    ResumedKeeps(Rebuilt(s, host, key, env), host, key, env);
  }

  lemma DeletedKeeps(s: State, host: Host, key: ProcessKey, env: Env)
    requires Inv(s, host)
    ensures Inv(DeletedProcess(s, key, env).state, host)
  {
    DroppedKeeps(s, host, key);
    StoreKeeps(Dropped(s, key), host, Forgotten(Dropped(s, key), key).store);
  }

  lemma DeletedSettingsKeeps(s: State, host: Host, key: ProcessKey, env: Env)
    requires Inv(s, host)
    ensures Inv(DeletedSettings(s, host, key, env).state, host)
  {
    UnloadedKeeps(s, host, key);
    PurgedKeeps(Unloaded(s, key), host, key, env);
  }

  lemma FlagKeeps(s: State, host: Host, key: ProcessKey, on: bool, env: Env)
    requires Inv(s, host)
    ensures GetError(s, key).None? ==> Inv(Flagged(s, key, on, env), host)
  {
    if GetError(s, key).None? {
      WithRunningKeeps(s, host, key, on);
      WithStateKeeps(WithRunning(s, key, on), host, key, if on then RUNNING else STOPPED, env);
    }
  }

  // ----- whole runs

  datatype Call = Call(op: Op, env: Env)

  function Run(s: State, host: Host, calls: seq<Call>): State {
    if calls == [] then s
    else Next(Run(s, host, calls[..|calls| - 1]), host, calls[|calls| - 1].op, calls[|calls| - 1].env).state
  }

  /** A kernel over some store, before its first start. */
  function Boot(store: Contents, next: nat): State {
    State(false, {}, map[], map[], NO_POOLS, store, next)
  }

  /** After every operation of every run, whatever applications, dials and store calls fail: a
      stopped kernel holds nothing; in a running one registry, fan-out, sessions and documents agree. */
  lemma {:induction false} RunKeeps(store: Contents, next: nat, host: Host, calls: seq<Call>)
    ensures Inv(Run(Boot(store, next), host, calls), host)
  {
    if calls != [] {
      RunKeeps(store, next, host, calls[..|calls| - 1]);
      NextKeeps(Run(Boot(store, next), host, calls[..|calls| - 1]), host, calls[|calls| - 1].op, calls[|calls| - 1].env);
    }
  }

  /** The same account named, whatever the spelling, or none by either. */
  ghost predicate SameNamed(u: Option<string>, v: Option<string>) {
    if u.Some? && v.Some? then SameAccount(u.value, v.value) else u == v
  }

  /** In every reachable state two loaded processes bet through one client exactly when their
      documents name one account, and a process has a client exactly where its document names one. */
  lemma ClientsAreShared(store: Contents, next: nat, host: Host, calls: seq<Call>, k: ProcessKey, l: ProcessKey)
    requires var s := Run(Boot(store, next), host, calls); k in s.loaded && l in s.loaded
    ensures var s := Run(Boot(store, next), host, calls);
            var a, b := s.loaded[k].account, s.loaded[l].account;
            var c, d := host.accounts(s.loaded[k].doc), host.accounts(s.loaded[l].doc);
            && (a.betmatic.Some? <==> c.betmatic.Some?) && (a.betfair.Some? <==> c.betfair.Some?)
            && (a.betmatic == b.betmatic <==> SameNamed(c.betmatic, d.betmatic))
            && (a.betfair == b.betfair <==> SameNamed(c.betfair, d.betfair))
  {
    RunKeeps(store, next, host, calls);
    var s := Run(Boot(store, next), host, calls);
    var c, d := host.accounts(s.loaded[k].doc), host.accounts(s.loaded[l].doc);
    OneClientPerName(s.pools.betmatic, BetmaticNames(s, host), k, c.betmatic, l, d.betmatic);
    OneClientPerName(s.pools.betfair, BetfairNames(s, host), k, c.betfair, l, d.betfair);
  }

  /** The kernel never asks for an account for a key that holds a session: where an add gets as far as
      building, the key holds none, so an account that does not open leaves every session alone. */
  lemma AccountsRollBack(store: Contents, next: nat, host: Host, calls: seq<Call>, key: ProcessKey, env: Env, dials: Dials)
    requires AddError(Run(Boot(store, next), host, calls), host, key, env).None?
    ensures var s := Run(Boot(store, next), host, calls);
            && !Holds(s.pools.betmatic.sessions, key) && !Holds(s.pools.betfair.sessions, key)
            && forall c ::
                 var (pools, account) := Opened(s.pools, key, c, dials);
                 account.None? ==> SameSessions(pools, s.pools)
  {
    RunKeeps(store, next, host, calls);
    var s := Run(Boot(store, next), host, calls);
    NothingToRelease(s.pools.betmatic, BetmaticNames(s, host), key);
    NothingToRelease(s.pools.betfair, BetfairNames(s, host), key);
    forall c ensures Opened(s.pools, key, c, dials).1.None? ==> SameSessions(Opened(s.pools, key, c, dials).0, s.pools) {
      FailedOpenRollsBack(s.pools, key, c, dials);
    }
  }

  /** A rebuilt process is another one than before, whatever restarts it. */
  lemma RebuiltIsAnother(s: State, host: Host, key: ProcessKey, env: Env)
    requires Inv(s, host) && key in s.loaded && Rebuilt(s, host, key, env).error.None?
    ensures var t := Rebuilt(s, host, key, env).state;
            key in t.loaded && t.loaded[key].id != s.loaded[key].id && !t.loaded[key].running
  {
    DroppedKeeps(s, host, key);
    AddedKeeps(Dropped(s, key), host, key, env);
  }

  lemma OneClientPerName(p: Pool, names: Names, k: ProcessKey, u: Option<string>, l: ProcessKey, v: Option<string>)
    requires HeldByName(p, names) && k in names && names[k] == NameIn(u) && l in names && names[l] == NameIn(v)
    ensures ClientOf(p, u).Some? <==> u.Some?
    ensures ClientOf(p, u) == ClientOf(p, v) <==> SameNamed(u, v)
  {
    HolderIsPooled(p, names, k, u);
    HolderIsPooled(p, names, l, v);
    if u.Some? && v.Some? {
      AliasIsAccount(u.value, v.value);
    }
  }

  // ----- persisted states, when state writes go through

  /** The store lists what it holds, when it answers at all. */
  ghost predicate Truthful(env: Env, store: Contents) {
    forall app :: env.refs(app).Some? ==> ListsRefs(env.refs(app).value, store, app)
  }

  // ----- which record an operation writes

  datatype Write = Write(key: ProcessKey, state: string)

  /** The state write an operation attempts, if any: every operation on one process that gets past its
      refusals records what it did, except a save that leaves a process stopped. */
  function Attempted(s: State, host: Host, op: Op, env: Env): Option<Write> {
    match op
    case AddProcess(key) => if Added(s, host, key, env).error.None? then Some(Write(key, STOPPED)) else None
    case StartProcess(key) => if GetError(s, key).None? then Some(Write(key, RUNNING)) else None
    case StopProcess(key) => if GetError(s, key).None? then Some(Write(key, STOPPED)) else None
    case RestartProcess(key) =>
      if GetError(s, key).None? then Some(Write(key, if Rebuilt(s, host, key, env).error.None? then RUNNING else STOPPED))
      else None
    case SaveSettings(key, doc, valid) =>
      if key.app in host.apps && valid && env.docWrites && s.running && key in s.loaded
      then AttemptedBySave(WithDoc(s, key, doc), host, key, env)
      else None
    case _ => None
  }

  function WithDoc(s: State, key: ProcessKey, doc: string): State {
    s.(store := s.store.(processes := s.store.processes[key := doc]))
  }

  function AttemptedBySave(s: State, host: Host, key: ProcessKey, env: Env): Option<Write>
    requires key in s.loaded
  {
    if Rebuilt(s, host, key, env).error.Some? then Some(Write(key, STOPPED))
    else if s.loaded[key].running then Some(Write(key, RUNNING))
    else None
  }

  /** The record already says what the write would say. */
  predicate AlreadySaid(s: State, w: Write) {
    w.key in s.store.states && (s.store.states[w.key] == RUNNING <==> w.state == RUNNING)
  }

  /** What the write did, or would have done, to the records; and that it says what the process does. */
  ghost predicate Attempting(s: State, t: State, w: Write, env: Env) {
    && t.store.states == (if env.stateWrites then s.store.states[w.key := w.state] else s.store.states)
    && (w.key in t.loaded ==> (t.loaded[w.key].running <==> w.state == RUNNING))
  }

  lemma WriteDecides(s: State, t: State, w: Write, env: Env)
    requires Attempting(s, t, w, env)
    ensures Matches(t, w.key) <==> env.stateWrites || w.key !in t.loaded || AlreadySaid(s, w)
  {}

  lemma RebuiltAttempts(s: State, host: Host, key: ProcessKey, env: Env)
    requires Inv(Dropped(s, key), host) && key in s.loaded
    ensures var o := Rebuilt(s, host, key, env);
            && (o.error.Some? ==> Attempting(s, o.state, Write(key, STOPPED), env) && key !in o.state.loaded)
            && (o.error.None? ==> o.state.store.states == s.store.states && key in o.state.loaded)
            && Attempting(s, Resumed(o, key, env).state, Write(key, if o.error.None? then RUNNING else STOPPED), env)
  {
    AddedLeaves(Dropped(s, key), host, key, env, key);
  }

  lemma AddAttempts(s: State, host: Host, key: ProcessKey, env: Env)
    requires Inv(s, host) && Added(s, host, key, env).error.None?
    ensures Attempting(s, AddedProcess(s, host, key, env).state, Write(key, STOPPED), env)
  {
    AddedLeaves(s, host, key, env, key);
  }

  lemma WithDocDrops(s: State, host: Host, key: ProcessKey, doc: string)
    requires Inv(s, host)
    ensures Inv(Dropped(WithDoc(s, key, doc), key), host)
  {
    DroppedKeeps(s, host, key);
    StoreKeeps(Dropped(s, key), host, WithDoc(s, key, doc).store);
    assert Dropped(WithDoc(s, key, doc), key) == Dropped(s, key).(store := WithDoc(s, key, doc).store);
  }

  lemma SaveAttempts(s: State, host: Host, key: ProcessKey, doc: string, env: Env)
    requires Inv(s, host) && s.running && key in s.loaded
    ensures var w := AttemptedBySave(WithDoc(s, key, doc), host, key, env);
            w.Some? ==> w.value.key == key && Attempting(s, Saved(s, host, key, doc, env).state, w.value, env)
  {
    WithDocDrops(s, host, key, doc);
    RebuiltAttempts(WithDoc(s, key, doc), host, key, env);
  }

  lemma AttemptedIsAttempting(s: State, host: Host, op: Op, env: Env)
    requires Inv(s, host) && Attempted(s, host, op, env).Some?
    ensures Attempting(s, Next(s, host, op, env).state, Attempted(s, host, op, env).value, env)
  {
    match op
    case AddProcess(key) => AddAttempts(s, host, key, env);
    case StartProcess(key) =>
    case StopProcess(key) =>
    case RestartProcess(key) =>
      DroppedKeeps(s, host, key);
      RebuiltAttempts(s, host, key, env);
    case SaveSettings(key, doc, valid) => SaveAttempts(s, host, key, doc, env);
    case _ =>
  }

  // ----- every other record stays right

  lemma RebuiltMatches(s: State, host: Host, key: ProcessKey, env: Env, k: ProcessKey)
    requires Inv(Dropped(s, key), host) && Matches(s, k) && key in s.loaded
    ensures k != key ==> Matches(Rebuilt(s, host, key, env).state, k)
    ensures k != key ==> Matches(Resumed(Rebuilt(s, host, key, env), key, env).state, k)
    ensures k == key && !s.loaded[key].running && Rebuilt(s, host, key, env).error.None? ==>
              Matches(Rebuilt(s, host, key, env).state, key)
  {
    AddedLeaves(Dropped(s, key), host, key, env, k);
  }

  lemma RestoredRefMatches(s: State, host: Host, ref: ProcessRef, env: Env, k: ProcessKey)
    requires Inv(s, host) && s.running && Matches(s, k)
    requires ref.key in s.store.states && s.store.states[ref.key] == ref.state
    ensures Matches(RestoredRef(s, host, ref, env), k)
  {
    AddedLeaves(s, host, ref.key, env, k);
  }

  lemma {:induction false} RestoredRefsMatches(s: State, host: Host, refs: seq<ProcessRef>, env: Env, k: ProcessKey)
    requires Inv(s, host) && s.running && Matches(s, k)
    requires forall i :: 0 <= i < |refs| ==> refs[i].key in s.store.states && s.store.states[refs[i].key] == refs[i].state
    ensures Matches(RestoredRefs(s, host, refs, env), k)
  {
    if refs != [] {
      var n := |refs| - 1;
      RestoredRefsMatches(s, host, refs[..n], env, k);
      RestoredRefsKeeps(s, host, refs[..n], env);
      RestoredRefMatches(RestoredRefs(s, host, refs[..n], env), host, refs[n], env, k);
    }
  }

  lemma {:induction false} RestoredMatches(s: State, host: Host, apps: seq<string>, env: Env, k: ProcessKey)
    requires Inv(s, host) && s.running && Matches(s, k) && Truthful(env, s.store)
    ensures Matches(Restored(s, host, apps, env), k)
  {
    if apps != [] {
      var app := apps[|apps| - 1];
      var before := Restored(s, host, apps[..|apps| - 1], env);
      RestoredMatches(s, host, apps[..|apps| - 1], env, k);
      RestoredKeeps(s, host, apps[..|apps| - 1], env);
      if app in before.up && env.refs(app).Some? {
        RestoredRefsMatches(before, host, env.refs(app).value, env, k);
      }
    }
  }

  lemma StartedMatches(s: State, host: Host, env: Env, k: ProcessKey)
    requires Inv(s, host) && Matches(s, k) && Truthful(env, s.store)
    ensures Matches(Started(s, host, env).state, k)
  {
    if !s.running && UpSet(host, env) != {} {
      RestoredMatches(s.(running := true, up := UpSet(host, env), pools := NO_POOLS), host, host.apps, env, k);
    }
  }

  lemma SavedMatches(s: State, host: Host, key: ProcessKey, doc: string, env: Env, k: ProcessKey)
    requires Inv(s, host) && Matches(s, k)
    requires s.running && key in s.loaded && k == key ==> AttemptedBySave(WithDoc(s, key, doc), host, key, env).None?
    ensures Matches(Saved(s, host, key, doc, env).state, k)
  {
    if s.running && key in s.loaded {
      WithDocDrops(s, host, key, doc);
      RebuiltMatches(WithDoc(s, key, doc), host, key, env, k);
    }
  }

  lemma AddProcessMatches(s: State, host: Host, key: ProcessKey, env: Env, k: ProcessKey)
    requires Inv(s, host) && Matches(s, k) && (k == key ==> Added(s, host, key, env).error.Some?)
    ensures Matches(AddedProcess(s, host, key, env).state, k)
  {
    AddedLeaves(s, host, key, env, k);
  }

  lemma RestartedMatches(s: State, host: Host, key: ProcessKey, env: Env, k: ProcessKey)
    requires Inv(s, host) && Matches(s, k) && (k == key ==> GetError(s, key).Some?)
    ensures Matches(RestartedProcess(s, host, key, env).state, k)
  {
    if GetError(s, key).None? {
      DroppedKeeps(s, host, key);
      RebuiltMatches(s, host, key, env, k);
    }
  }

  lemma DeletionsMatch(s: State, host: Host, key: ProcessKey, env: Env, k: ProcessKey)
    requires Inv(s, host) && Matches(s, k)
    ensures Matches(Next(s, host, DeleteProcess(key), env).state, k)
    ensures Matches(Next(s, host, DeleteSettings(key), env).state, k)
  {}

  lemma OthersMatch(s: State, host: Host, op: Op, env: Env, k: ProcessKey)
    requires Inv(s, host) && Matches(s, k) && Truthful(env, s.store)
    requires Attempted(s, host, op, env).Some? ==> Attempted(s, host, op, env).value.key != k
    ensures Matches(Next(s, host, op, env).state, k)
  {
    match op
    case Start => StartedMatches(s, host, env, k);
    case Stop =>
    case Crash =>
    case Restart =>
      StoppedKeeps(s, host);
      StartedMatches(if s.running then Stopped(s) else s, host, env, k);
    case AddProcess(key) => AddProcessMatches(s, host, key, env, k);
    case StartProcess(key) =>
    case StopProcess(key) =>
    case RestartProcess(key) => RestartedMatches(s, host, key, env, k);
    case DeleteProcess(key) => DeletionsMatch(s, host, key, env, k);
    case SaveSettings(key, doc, valid) =>
      if key.app in host.apps && valid && env.docWrites {
        SavedMatches(s, host, key, doc, env, k);
      }
    case DeleteSettings(key) => DeletionsMatch(s, host, key, env, k);
  }

  /** When the records are right after an operation, for every operation: exactly when it attempted no
      write, or the write went through, or it unloaded the process, or the record said so already. */
  lemma RecordsNeedTheirWrite(s: State, host: Host, op: Op, env: Env)
    requires Inv(s, host) && StatesMatch(s) && Truthful(env, s.store)
    ensures var w := Attempted(s, host, op, env);
            var t := Next(s, host, op, env).state;
            StatesMatch(t) <==>
              w.None? || env.stateWrites || w.value.key !in t.loaded || AlreadySaid(s, w.value)
  {
    var w := Attempted(s, host, op, env);
    var t := Next(s, host, op, env).state;
    if w.Some? {
      AttemptedIsAttempting(s, host, op, env);
      WriteDecides(s, t, w.value, env);
    }
    forall k ensures (w.Some? ==> w.value.key != k) ==> Matches(t, k) {
      assert Matches(s, k);
      if w.Some? ==> w.value.key != k {
        OthersMatch(s, host, op, env, k);
      }
    }
    assert w.Some? && !Matches(t, w.value.key) ==> !StatesMatch(t);
  }

  lemma NextMatches(s: State, host: Host, op: Op, env: Env)
    requires Inv(s, host) && StatesMatch(s) && env.stateWrites && Truthful(env, s.store)
    ensures StatesMatch(Next(s, host, op, env).state)
  {
    RecordsNeedTheirWrite(s, host, op, env);
  }

  /** Of one start alone, with nothing asked of the listings: right exactly when the write went through
      or the record already said so. */
  lemma StartNeedsItsWrite(s: State, host: Host, key: ProcessKey, env: Env)
    requires StatesMatch(s) && GetError(s, key).None?
    ensures Matches(Next(s, host, StartProcess(key), env).state, key) <==>
              env.stateWrites || (key in s.store.states && s.store.states[key] == RUNNING)
  {
    assert Matches(s, key);
  }

  /** A rebuild that fails leaves nothing loaded for a record to match; its record, which the next start
      goes by, says stopped exactly when the write went through or it did before. */
  lemma FailedRebuildRecord(s: State, host: Host, key: ProcessKey, env: Env)
    requires Inv(s, host) && key in s.loaded && Rebuilt(s, host, key, env).error.Some?
    ensures var t := Rebuilt(s, host, key, env).state;
            && key !in t.loaded
            && (key in t.store.states && t.store.states[key] == STOPPED <==>
                 env.stateWrites || (key in s.store.states && s.store.states[key] == STOPPED))
  {
    DroppedKeeps(s, host, key);
    RebuiltAttempts(s, host, key, env);
  }

  /** The store a run's calls see answers truthfully, and takes every state write. */
  ghost predicate Reliable(store: Contents, next: nat, host: Host, calls: seq<Call>) {
    forall i :: 0 <= i < |calls| ==>
      calls[i].env.stateWrites && Truthful(calls[i].env, Run(Boot(store, next), host, calls[..i]).store)
  }

  /** On every run in which state writes go through, a loaded process is recorded as running exactly
      when it runs. */
  lemma {:induction false} RunMatches(store: Contents, next: nat, host: Host, calls: seq<Call>)
    requires Reliable(store, next, host, calls)
    ensures StatesMatch(Run(Boot(store, next), host, calls))
  {
    if calls != [] {
      var n := |calls| - 1;
      forall i | 0 <= i < n ensures calls[..n][..i] == calls[..i] {}
      RunMatches(store, next, host, calls[..n]);
      RunKeeps(store, next, host, calls[..n]);
      var s := Run(Boot(store, next), host, calls[..n]);
      var t := Run(Boot(store, next), host, calls);
      NextMatches(s, host, calls[n].op, calls[n].env);
      assert t == Next(s, host, calls[n].op, calls[n].env).state;
    }
  }

  // ----- a record left wrong

  /** One application, one stored document that names no account, and nothing that fails. */
  function SmallHost(app: string): Host {
    Host([app], _ => Credentials(None, None))
  }

  function Willing(app: string, stateWrites: bool): Env {
    Env({app}, _ => Opens(Dials(true, true)), _ => true, _ => None, stateWrites, true, true, true)
  }

  function SmallStore(key: ProcessKey): Contents {
    Contents(map[key := EMPTY_DOC], map[], map[])
  }

  lemma AddedToSmallHost(key: ProcessKey)
    ensures var calls := [Call(Start, Willing(key.app, true)), Call(AddProcess(key), Willing(key.app, true))];
            var s := Run(Boot(SmallStore(key), 0), SmallHost(key.app), calls);
            && s.running && s.loaded.Keys == {key} && !s.loaded[key].running
            && s.store.states == map[key := STOPPED]
  {
    var host, env := SmallHost(key.app), Willing(key.app, true);
    var boot := Boot(SmallStore(key), 0);
    var first := Next(boot, host, Start, env).state;
    StartedSmall(key, env);
    var calls := [Call(Start, env), Call(AddProcess(key), env)];
    assert calls[..1] == [Call(Start, env)] && calls[..1][..0] == [];
    assert Run(boot, host, calls[..1]) == first;
    assert Added(first, host, key, env).error.None?;
  }

  lemma {:induction false} NothingListed(s: State, host: Host, apps: seq<string>, env: Env)
    requires forall app :: env.refs(app).None?
    ensures Restored(s, host, apps, env) == s
  {
    if apps != [] {
      NothingListed(s, host, apps[..|apps| - 1], env);
    }
  }

  lemma StartedSmall(key: ProcessKey, env: Env)
    requires env == Willing(key.app, true)
    ensures var first := Next(Boot(SmallStore(key), 0), SmallHost(key.app), Start, env).state;
            first == Boot(SmallStore(key), 0).(running := true, up := {key.app})
  {
    var host := SmallHost(key.app);
    assert host.apps[0] == key.app;
    assert UpSet(host, env) == {key.app};
    var up := Boot(SmallStore(key), 0).(running := true, up := {key.app});
    NothingListed(up, host, host.apps, env);
  }

  /** Started, added and recorded, then started without its write: it runs, and the record says it does
      not. */
  lemma StartWithoutItsWrite(key: ProcessKey)
    ensures var calls := [Call(Start, Willing(key.app, true)), Call(AddProcess(key), Willing(key.app, true))];
            var s := Run(Boot(SmallStore(key), 0), SmallHost(key.app), calls + [Call(StartProcess(key), Willing(key.app, false))]);
            key in s.loaded && s.loaded[key].running && s.store.states == map[key := STOPPED] && !StatesMatch(s)
  {
    var calls := [Call(Start, Willing(key.app, true)), Call(AddProcess(key), Willing(key.app, true))];
    var last := Call(StartProcess(key), Willing(key.app, false));
    AddedToSmallHost(key);
    assert (calls + [last])[..2] == calls;
    var s := Run(Boot(SmallStore(key), 0), SmallHost(key.app), calls + [last]);
    assert !Matches(s, key);
  }

  // ----- what a restart brings back

  /** The next start can build a process: its application comes up, the store answers for it, and
      its accounts open. */
  predicate CanReturn(host: Host, env: Env, k: ProcessKey) {
    && k.app in UpSet(host, env) && env.refs(k.app).Some?
    && env.readable(k) && env.build(k) == Opens(Dials(true, true))
  }

  /** The process `k` as a restart would rebuild it from the store. */
  ghost predicate Returned(t: State, store: Contents, k: ProcessKey) {
    && k in t.loaded && k in store.processes && k in store.states
    && t.loaded[k].doc == store.processes[k]
    && (t.loaded[k].running <==> store.states[k] == RUNNING)
  }

  lemma OtherUntouched(s: State, host: Host, ref: ProcessRef, env: Env, k: ProcessKey)
    requires Inv(s, host) && s.running && k != ref.key
    ensures k in RestoredRef(s, host, ref, env).loaded <==> k in s.loaded
    ensures k in s.loaded ==> RestoredRef(s, host, ref, env).loaded[k] == s.loaded[k]
  {
    AddedLeaves(s, host, ref.key, env, k);
  }

  lemma OwnRef(s: State, host: Host, ref: ProcessRef, env: Env)
    requires Inv(s, host) && s.running && s.up == UpSet(host, env) && CanReturn(host, env, ref.key)
    requires ref.key !in s.loaded && ref.key in s.store.states && s.store.states[ref.key] == ref.state
    ensures var t := RestoredRef(s, host, ref, env);
            if ref.key in s.store.processes then Returned(t, s.store, ref.key) else ref.key !in t.loaded
  {
    AddedLeaves(s, host, ref.key, env, ref.key);
  }

  lemma {:induction false} RefsReturn(s: State, host: Host, refs: seq<ProcessRef>, env: Env, k: ProcessKey)
    requires Inv(s, host) && s.running && s.up == UpSet(host, env) && CanReturn(host, env, k) && k !in s.loaded
    requires forall i, j :: 0 <= i < j < |refs| ==> refs[i].key != refs[j].key
    requires forall i :: 0 <= i < |refs| ==> refs[i].key in s.store.states && s.store.states[refs[i].key] == refs[i].state
    ensures var t := RestoredRefs(s, host, refs, env);
            if Listed(refs, k) && k in s.store.processes then Returned(t, s.store, k) else k !in t.loaded
  {
    if refs != [] {
      var n := |refs| - 1;
      var before := RestoredRefs(s, host, refs[..n], env);
      RefsReturn(s, host, refs[..n], env, k);
      RestoredRefsKeeps(s, host, refs[..n], env);
      assert Listed(refs, k) <==> Listed(refs[..n], k) || refs[n].key == k by { ListedInit(refs, k); }
      if refs[n].key == k {
        assert !Listed(refs[..n], k);
        OwnRef(before, host, refs[n], env);
      } else {
        OtherUntouched(before, host, refs[n], env, k);
      }
    }
  }

  lemma ListedInit(refs: seq<ProcessRef>, k: ProcessKey)
    requires refs != []
    ensures Listed(refs, k) <==> Listed(refs[..|refs| - 1], k) || refs[|refs| - 1].key == k
  {
    var n := |refs| - 1;
    if Listed(refs[..n], k) {
      var i :| 0 <= i < n && refs[..n][i].key == k;
      assert refs[i].key == k;
    }
    if Listed(refs, k) && refs[n].key != k {
      var i :| 0 <= i < |refs| && refs[i].key == k;
      assert refs[..n][i].key == k;
    }
  }

  lemma {:induction false} RefsKeepOthers(s: State, host: Host, refs: seq<ProcessRef>, env: Env, k: ProcessKey)
    requires Inv(s, host) && s.running && (k in s.loaded || !Listed(refs, k))
    ensures k in RestoredRefs(s, host, refs, env).loaded <==> k in s.loaded
    ensures k in s.loaded ==> RestoredRefs(s, host, refs, env).loaded[k] == s.loaded[k]
  {
    if refs != [] {
      var n := |refs| - 1;
      var before := RestoredRefs(s, host, refs[..n], env);
      ListedInit(refs, k);
      RefsKeepOthers(s, host, refs[..n], env, k);
      RestoredRefsKeeps(s, host, refs[..n], env);
      if refs[n].key == k {
        AddedKeeps(before, host, k, env);
      } else {
        OtherUntouched(before, host, refs[n], env, k);
      }
    }
  }

  lemma {:induction false} AppsReturn(s: State, host: Host, apps: seq<string>, env: Env, k: ProcessKey)
    requires Inv(s, host) && s.running && s.up == UpSet(host, env) && CanReturn(host, env, k) && k !in s.loaded
    requires Truthful(env, s.store)
    ensures var t := Restored(s, host, apps, env);
            if k.app in apps && k in s.store.states && k in s.store.processes then Returned(t, s.store, k) else k !in t.loaded
  {
    if apps != [] {
      var n := |apps| - 1;
      var before := Restored(s, host, apps[..n], env);
      AppsReturn(s, host, apps[..n], env, k);
      RestoredKeeps(s, host, apps[..n], env);
      if apps[n] in before.up && env.refs(apps[n]).Some? {
        var refs := env.refs(apps[n]).value;
        assert ListsRefs(refs, s.store, apps[n]);
        assert Listed(refs, k) ==> k.app == apps[n] && k in s.store.states;
        if k in before.loaded || !Listed(refs, k) {
          RefsKeepOthers(before, host, refs, env, k);
        } else {
          RefsReturn(before, host, refs, env, k);
        }
      }
    }
  }

  /** Exactly what a start brings back: a process that can be built is loaded if and only if the
      store records both its state and its document, and then it has that document and that flag. */
  lemma StartReturnsRecorded(s: State, host: Host, env: Env, k: ProcessKey)
    requires Inv(s, host) && !s.running && CanReturn(host, env, k) && Truthful(env, s.store)
    ensures var t := Started(s, host, env).state;
            if k in s.store.states && k in s.store.processes then Returned(t, s.store, k) else k !in t.loaded
  {
    AppsReturn(s.(running := true, up := UpSet(host, env), pools := NO_POOLS), host, host.apps, env, k);
  }

  lemma StopThenStart(s: State, host: Host, env: Env, k: ProcessKey)
    requires Inv(s, host) && StatesMatch(s)
    requires k in s.loaded && CanReturn(host, env, k) && Truthful(env, s.store)
    ensures var t := Started(Stopped(s), host, env).state;
            k in t.loaded && t.loaded[k].doc == s.loaded[k].doc && t.loaded[k].running == s.loaded[k].running
  {
    StoppedKeeps(s, host);
    assert Matches(s, k);
    StartReturnsRecorded(Stopped(s), host, env, k);
  }

  /** A kernel restart, a stop and a start, and a crash and a start all come to the same. */
  lemma WaysToRestart(s: State, host: Host, env: Env)
    requires s.running
    ensures Next(s, host, Restart, env) == Started(Stopped(s), host, env)
    ensures Next(Next(s, host, Stop, env).state, host, Start, env) == Started(Stopped(s), host, env)
    ensures Next(Next(s, host, Crash, env).state, host, Start, env) == Started(Stopped(s), host, env)
  {}

  /** So after any run with reliable state writes, stopping (or crashing) and starting again brings
      every loaded process that can be built back, with the same document and the same flag. */
  lemma RestartRoundTrip(store: Contents, next: nat, host: Host, calls: seq<Call>, env: Env, k: ProcessKey)
    requires Reliable(store, next, host, calls)
    requires var s := Run(Boot(store, next), host, calls);
             k in s.loaded && CanReturn(host, env, k) && Truthful(env, s.store)
    ensures var s := Run(Boot(store, next), host, calls);
            var t := Started(Stopped(s), host, env).state;
            k in t.loaded && t.loaded[k].doc == s.loaded[k].doc && t.loaded[k].running == s.loaded[k].running
  {
    RunKeeps(store, next, host, calls);
    RunMatches(store, next, host, calls);
    StopThenStart(Run(Boot(store, next), host, calls), host, env, k);
  }
}
