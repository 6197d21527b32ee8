/** What each operation of the kernel does, told from outside: which processes are loaded, with which
    document and flag, what the store holds, and which calls fail. Nothing here is put in terms of how
    the operations are specified. */
module KernelEffects {
  import opened Clients
  import opened KernelRuns
  import opened KernelState
  import opened Sessions
  import opened Wrappers

  predicate Loaded(s: State, k: ProcessKey) {
    s.running && k in s.loaded
  }

  /** A key neither the registry nor the store noticed anything of. */
  predicate Untouched(s: State, t: State, k: ProcessKey) {
    && (k in t.loaded <==> k in s.loaded) && (k in s.loaded ==> t.loaded[k] == s.loaded[k])
    && SameIn(s.store.processes, t.store.processes, k) && SameIn(s.store.states, t.store.states, k)
  }

  predicate SameIn(m: map<ProcessKey, string>, m': map<ProcessKey, string>, k: ProcessKey) {
    (k in m' <==> k in m) && (k in m ==> m'[k] == m[k])
  }

  /** The key an operation is about. */
  function KeyOf(op: Op): Option<ProcessKey> {
    match op
    case AddProcess(key) => Some(key)
    case StartProcess(key) => Some(key)
    case StopProcess(key) => Some(key)
    case RestartProcess(key) => Some(key)
    case DeleteProcess(key) => Some(key)
    case SaveSettings(key, _, _) => Some(key)
    case DeleteSettings(key) => Some(key)
    case _ => None
  }

  // ----- operations on one process leave all others alone

  lemma RebuildLeaves(s: State, host: Host, key: ProcessKey, env: Env, k: ProcessKey)
    requires Inv(Dropped(s, key), host) && k != key
    ensures Untouched(s, Rebuilt(s, host, key, env).state, k)
    ensures Untouched(s, Resumed(Rebuilt(s, host, key, env), key, env).state, k)
  {
    AddedLeaves(Dropped(s, key), host, key, env, k);
  }

  lemma SaveLeaves(s: State, host: Host, key: ProcessKey, doc: string, env: Env, k: ProcessKey)
    requires Inv(s, host) && k != key
    ensures Untouched(s, Saved(s, host, key, doc, env).state, k)
  {
    if s.running && key in s.loaded {
      WithDocDrops(s, host, key, doc);
      RebuildLeaves(WithDoc(s, key, doc), host, key, env, k);
    }
  }

  /** An operation on one process leaves every other as it was: loaded or not, document, flag, account,
      stored document and recorded state. */
  lemma OthersUntouched(s: State, host: Host, op: Op, env: Env, k: ProcessKey)
    requires Inv(s, host) && KeyOf(op).Some? && k != KeyOf(op).value
    ensures Untouched(s, Next(s, host, op, env).state, k)
  {
    match op
    case AddProcess(key) => AddedLeaves(s, host, key, env, k);
    case StartProcess(key) => FlagLeaves(s, key, true, env, k);
    case StopProcess(key) => FlagLeaves(s, key, false, env, k);
    case RestartProcess(key) =>
      DroppedKeeps(s, host, key);
      RebuildLeaves(s, host, key, env, k);
    case DeleteProcess(key) => DeletionsLeave(s, key, env, k);
    case SaveSettings(key, doc, valid) => SaveLeaves(s, host, key, doc, env, k);
    case DeleteSettings(key) => DeletionsLeave(s, key, env, k);
  }

  lemma FlagLeaves(s: State, key: ProcessKey, on: bool, env: Env, k: ProcessKey)
    requires k != key
    ensures Untouched(s, FlaggedProcess(s, key, on, env).state, k)
  {}

  lemma DeletionsLeave(s: State, key: ProcessKey, env: Env, k: ProcessKey)
    requires k != key
    ensures Untouched(s, DeletedProcess(s, key, env).state, k)
    ensures Untouched(s, Purged(Unloaded(s, key), key, env).state, k)
  {}

  // ----- add, start, stop

  /** The accounts of a document can be opened: each one named is pooled or its dial would succeed. */
  predicate Openable(p: Pools, c: Credentials, dials: Dials) {
    && (c.betmatic.Some? ==> Pooled(p.betmatic, c.betmatic) || dials.betmatic)
    && (c.betfair.Some? ==> Pooled(p.betfair, c.betfair) || dials.betfair)
  }

  /** Exactly when a process can be added. */
  predicate CanAdd(s: State, host: Host, key: ProcessKey, env: Env) {
    && s.running && key.app in s.up && key !in s.loaded
    && env.readable(key) && key in s.store.processes
    && env.build(key).Opens? && Openable(s.pools, host.accounts(s.store.processes[key]), env.build(key).dials)
  }

  lemma OpenedExactlyWhen(p: Pools, key: ProcessKey, c: Credentials, dials: Dials)
    ensures Opened(p, key, c, dials).1.Some? <==> Openable(p, c, dials)
  {}

  lemma AddExactlyWhen(s: State, host: Host, key: ProcessKey, env: Env)
    requires Inv(s, host)
    ensures var o := Next(s, host, AddProcess(key), env);
            && (o.error.None? <==> CanAdd(s, host, key, env))
            && (o.error.None? ==>
                 && Loaded(o.state, key) && o.state.loaded[key].doc == s.store.processes[key] && !o.state.loaded[key].running
                 && o.state.store.processes == s.store.processes)
            && (o.error.Some? ==> o.state.loaded == s.loaded && o.state.store == s.store && o.state.up == s.up)
  {
    AddedLeaves(s, host, key, env, key);
    AddedKeeps(s, host, key, env);
    if AddError(s, host, key, env).None? && !env.build(key).Rejects? {
      OpenedExactlyWhen(s.pools, key, host.accounts(s.store.processes[key]), env.build(key).dials);
    }
  }

  /** Which refusal an add gives, told by the first thing in its way. */
  lemma AddRefusals(s: State, host: Host, key: ProcessKey, env: Env)
    requires Inv(s, host)
    ensures var e := Next(s, host, AddProcess(key), env).error;
            && (e == Some(NotRunning) <==> !s.running)
            && (e == Some(UnknownApp) <==> s.running && key.app !in host.apps)
            && (e == Some(AppDown) <==> s.running && key.app in host.apps && key.app !in s.up)
            && (e == Some(Exists) <==> s.running && key.app in s.up && key in s.loaded)
            && (e == Some(NoSettings) <==>
                 s.running && key.app in s.up && key !in s.loaded && env.readable(key) && key !in s.store.processes)
  {}

  /** Starting and stopping a loaded process sets its flag and nothing else of it; any other key is
      refused. */
  lemma FlagExactly(s: State, host: Host, key: ProcessKey, env: Env)
    requires Inv(s, host)
    ensures var o := Next(s, host, StartProcess(key), env);
            && (o.error.None? <==> Loaded(s, key))
            && (Loaded(s, key) ==> Loaded(o.state, key) && o.state.loaded[key] == s.loaded[key].(running := true))
            && (!Loaded(s, key) ==> o.state == s)
    ensures var o := Next(s, host, StopProcess(key), env);
            && (o.error.None? <==> Loaded(s, key))
            && (Loaded(s, key) ==> Loaded(o.state, key) && o.state.loaded[key] == s.loaded[key].(running := false))
            && (!Loaded(s, key) ==> o.state == s)
    ensures Next(s, host, StartProcess(key), env).state.store.processes == s.store.processes
    ensures Next(s, host, StopProcess(key), env).state.store.processes == s.store.processes
  {}

  /** A rebuild ends with the process loaded and stopped on the stored document, or not loaded. */
  lemma RebuildExactly(s: State, host: Host, key: ProcessKey, env: Env)
    requires Inv(Dropped(s, key), host)
    ensures var o := Rebuilt(s, host, key, env);
            && o.state.store.processes == s.store.processes
            && (if o.error.None? then
                  && Loaded(o.state, key) && key in s.store.processes
                  && o.state.loaded[key].doc == s.store.processes[key] && !o.state.loaded[key].running
                else key !in o.state.loaded)
  {
    AddedLeaves(Dropped(s, key), host, key, env, key);
    AddedKeeps(Dropped(s, key), host, key, env);
  }

  lemma ResumeExactly(o: Outcome, key: ProcessKey, env: Env)
    requires o.error.None? ==> Loaded(o.state, key)
    ensures var r := Resumed(o, key, env);
            && r.error == o.error && r.state.store.processes == o.state.store.processes
            && (if o.error.None? then Loaded(r.state, key) && r.state.loaded[key] == o.state.loaded[key].(running := true) else r == o)
  {}

  lemma RestartedLoaded(s: State, host: Host, key: ProcessKey, env: Env)
    requires Inv(s, host) && Loaded(s, key)
    ensures var o := RestartedProcess(s, host, key, env);
            && o.state.store.processes == s.store.processes
            && (if o.error.None? then
                  && Loaded(o.state, key) && key in s.store.processes
                  && o.state.loaded[key].running && o.state.loaded[key].doc == s.store.processes[key]
                else key !in o.state.loaded)
  {
    var o := Rebuilt(s, host, key, env);
    assert RestartedProcess(s, host, key, env) == Resumed(o, key, env);
    DroppedKeeps(s, host, key);
    RebuildExactly(s, host, key, env);
    ResumeExactly(o, key, env);
  }

  lemma NothingToRestart(s: State, host: Host, key: ProcessKey, env: Env)
    requires !Loaded(s, key)
    ensures RestartedProcess(s, host, key, env).error.Some? && RestartedProcess(s, host, key, env).state == s
  {}

  /** A restart of a loaded process ends with it running on the stored document, or not loaded. */
  lemma RestartExactly(s: State, host: Host, key: ProcessKey, env: Env)
    requires Inv(s, host)
    ensures var o := Next(s, host, RestartProcess(key), env);
            && (!Loaded(s, key) ==> o.error.Some? && o.state == s)
            && (o.error.None? ==>
                 && Loaded(o.state, key) && key in s.store.processes
                 && o.state.loaded[key].running && o.state.loaded[key].doc == s.store.processes[key])
            && (Loaded(s, key) && o.error.Some? ==> key !in o.state.loaded)
            && o.state.store.processes == s.store.processes
  {
    assert Next(s, host, RestartProcess(key), env) == RestartedProcess(s, host, key, env);
    if Loaded(s, key) {
      RestartedLoaded(s, host, key, env);
    } else {
      NothingToRestart(s, host, key, env);
    }
  }

  // ----- delete, and the settings

  /** A deleted process is gone from the registry; its document stays, its record goes if the store
      obliges, and then no later start brings it back. */
  lemma DeletedStaysDeleted(s: State, host: Host, key: ProcessKey, env: Env, env': Env)
    requires Inv(s, host) && Loaded(s, key)
    ensures var o := Next(s, host, DeleteProcess(key), env);
            && o.error.None? && key !in o.state.loaded
            && o.state.store.processes == s.store.processes
            && o.state.store.states == if env.forgets then s.store.states - {key} else s.store.states
    ensures var t := Next(s, host, DeleteProcess(key), env).state;
            env.forgets && Truthful(env', t.store) && CanReturn(host, env', key) ==>
              key !in Started(Stopped(t), host, env').state.loaded
  {
    var t := Next(s, host, DeleteProcess(key), env).state;
    if env.forgets && Truthful(env', t.store) && CanReturn(host, env', key) {
      StoppedKeeps(t, host);
      StartReturnsRecorded(Stopped(t), host, env', key);
    }
  }

  lemma NothingToDelete(s: State, host: Host, key: ProcessKey, env: Env)
    requires !Loaded(s, key)
    ensures Next(s, host, DeleteProcess(key), env).error.Some? && Next(s, host, DeleteProcess(key), env).state == s
  {}

  lemma SavedLoaded(s: State, host: Host, key: ProcessKey, doc: string, env: Env)
    requires Inv(s, host) && Loaded(s, key)
    ensures var o := Saved(s, host, key, doc, env);
            && o.state.store.processes == s.store.processes[key := doc]
            && (if o.error.None? then
                  Loaded(o.state, key) && o.state.loaded[key].doc == doc && o.state.loaded[key].running == s.loaded[key].running
                else key !in o.state.loaded)
  {
    var t := WithDoc(s, key, doc);
    WithDocDrops(s, host, key, doc);
    RebuildExactly(t, host, key, env);
    ResumeExactly(Rebuilt(t, host, key, env), key, env);
  }

  lemma SavedUnloaded(s: State, host: Host, key: ProcessKey, doc: string, env: Env)
    requires !Loaded(s, key)
    ensures var o := Saved(s, host, key, doc, env);
            && o.error.None? && o.state.loaded == s.loaded && o.state.store.states == s.store.states
            && o.state.store.processes == s.store.processes[key := doc]
  {}

  /** Saving settings stores the document unless it is refused, loaded or not; a loaded process then runs
      on it, in the flag it had, or is no longer loaded. */
  lemma SavedIsStored(s: State, host: Host, key: ProcessKey, doc: string, valid: bool, env: Env)
    requires Inv(s, host)
    ensures var o := Next(s, host, SaveSettings(key, doc, valid), env);
            if key.app in host.apps && valid && env.docWrites then
              && o.state.store.processes == s.store.processes[key := doc]
              && (!Loaded(s, key) ==> o.error.None? && o.state.loaded == s.loaded && o.state.store.states == s.store.states)
              && (Loaded(s, key) && o.error.None? ==>
                   Loaded(o.state, key) && o.state.loaded[key].doc == doc && o.state.loaded[key].running == s.loaded[key].running)
              && (Loaded(s, key) && o.error.Some? ==> key !in o.state.loaded)
            else o.error.Some? && o.state == s
  {
    if key.app in host.apps && valid && env.docWrites {
      assert Next(s, host, SaveSettings(key, doc, valid), env) == Saved(s, host, key, doc, env);
      if Loaded(s, key) {
        SavedLoaded(s, host, key, doc, env);
      } else {
        SavedUnloaded(s, host, key, doc, env);
      }
    }
  }

  lemma SaveRefusals(s: State, host: Host, key: ProcessKey, doc: string, valid: bool, env: Env)
    ensures var e := Next(s, host, SaveSettings(key, doc, valid), env).error;
            && (key.app !in host.apps ==> e == Some(UnknownApp))
            && (key.app in host.apps && !valid ==> e == Some(InvalidSettings))
            && (key.app in host.apps && valid && !env.docWrites ==> e == Some(StoreFailed))
  {}

  /** Deleting settings unloads the process, then removes its record, then its document, as far as the
      store obliges. */
  lemma DeletedSettingsAreGone(s: State, host: Host, key: ProcessKey, env: Env)
    requires Inv(s, host) && key.app in host.apps
    ensures var o := Next(s, host, DeleteSettings(key), env);
            && key !in o.state.loaded
            && (o.error.None? <==> env.forgets && env.deletes)
            && (o.error.Some? ==> o.error == Some(StoreFailed))
            && o.state.store.states == (if env.forgets then s.store.states - {key} else s.store.states)
            && o.state.store.processes == (if env.forgets && env.deletes then s.store.processes - {key} else s.store.processes)
  {}

  lemma UnknownSettingsStay(s: State, host: Host, key: ProcessKey, env: Env)
    requires key.app !in host.apps
    ensures var o := Next(s, host, DeleteSettings(key), env); o.error == Some(UnknownApp) && o.state == s
  {}

  // ----- the runtime

  /** A start comes up with exactly the registered applications that start, and fails exactly when the
      kernel runs already or none does; it never changes the store. */
  lemma StartExactlyWhen(s: State, host: Host, env: Env)
    requires Inv(s, host)
    ensures var o := Next(s, host, Op.Start, env);
            && (o.error.None? <==> !s.running && exists a :: a in host.apps && a in env.starts)
            && (o.error.None? ==> o.state.running && forall a :: a in o.state.up <==> a in host.apps && a in env.starts)
            && (s.running ==> o.error == Some(AlreadyRunning) && o.state == s)
            && (!s.running && o.error.Some? ==> o.error == Some(NoApps) && !o.state.running)
            && o.state.store == s.store
  {
    assert UpSet(host, env) == {} <==> !exists a :: a in host.apps && a in env.starts by {
      if a :| a in host.apps && a in env.starts {
        assert a in UpSet(host, env);
      }
    }
    if !s.running && UpSet(host, env) != {} {
      var up := s.(running := true, up := UpSet(host, env), pools := NO_POOLS);
      assert Inv(up, host);
      RestoredKeeps(up, host, host.apps, env);
    }
  }

  /** A stop of a running kernel succeeds and leaves nothing behind but the store, which it leaves alone. */
  lemma StopExactly(s: State, host: Host, env: Env)
    ensures var o := Next(s, host, Op.Stop, env);
            && (s.running ==>
                 && o.error.None? && !o.state.running && o.state.up == {} && o.state.loaded == map[] && o.state.fanout == map[]
                 && o.state.pools.betmatic.sessions == map[] && o.state.pools.betfair.sessions == map[]
                 && o.state.store == s.store)
            && (!s.running ==> o.error == Some(NotRunning) && o.state == s)
  {}
}
