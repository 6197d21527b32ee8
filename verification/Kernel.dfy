/** The kernel (`kernel/process.go`, `kernel/kernel.go`, `kernel/settings.go`) as the program has it:
    process objects with a flag, registered in the kernel and in their application's fan-out map,
    and an engine that a start replaces. Every operation is proved to do to the abstract state what
    `KernelState` says; the theorems about runs are in `KernelRuns`. Logging, status pages and the
    mutex are left out: an operation here is one critical section.
 */
module Kernel {
  import opened Clients
  import opened KernelRuns
  import opened KernelState
  import opened Sessions
  import opened Wrappers

  /** The applications' fan-out maps. A key names its application, so one map holds them all. */
  class FanOut {
    var procs: map<ProcessKey, Process>

    function Ids(): map<ProcessKey, nat>
      reads this
    {
      map k | k in procs :: procs[k].id
    }

    constructor ()
      ensures Ids() == map[]
    {
      procs := map[];
    }

    method Insert(key: ProcessKey, p: Process)
      modifies this
      ensures procs == old(procs)[key := p] && Ids() == old(Ids())[key := p.id]
    {
      procs := procs[key := p];
    }

    method Remove(key: ProcessKey)
      modifies this
      ensures procs == old(procs) - {key} && Ids() == old(Ids()) - {key}
    {
      procs := procs - {key};
    }

    /** An application stops: its own map starts over. */
    method StopApp(app: string)
      modifies this
      ensures procs == map k | k in old(procs) && k.app != app :: old(procs)[k]
    {
      procs := map k | k in procs && k.app != app :: procs[k];
    }
  }

  class Process {
    const id: nat
    const key: ProcessKey
    const doc: string
    const account: Account
    const app: FanOut
    var running: bool

    constructor (id: nat, key: ProcessKey, doc: string, account: Account, app: FanOut)
      ensures this.id == id && this.key == key && this.doc == doc && this.account == account && this.app == app && !running
    {
      this.id, this.key, this.doc, this.account, this.app, running := id, key, doc, account, app, false;
    }

    /** The process as the abstract registry has it. */
    function Entry(): Proc
      reads this
    {
      Proc(id, doc, account, running)
    }

    method Start()
      modifies this
      ensures running
    {
      running := true;
    }

    method Stop()
      modifies this
      ensures !running
    {
      running := false;
    }

    method Close()
      modifies this, app
      ensures !running && app.Ids() == old(app.Ids()) - {key}
    {
      Stop();
      app.Remove(key);
    }
  }

  class Kernel {
    const host: Host
    const fan: FanOut
    var running: bool
    var up: set<string>
    var procs: map<ProcessKey, Process>
    var eng: Engine
    var store: Contents
    var next: nat

    ghost predicate Valid()
      reads this, procs.Values, eng.betmatic, eng.betfair
    {
      && eng.Valid()
      && (forall k :: k in procs ==> procs[k].key == k && procs[k].app == fan)
    }

    ghost function Loaded(): map<ProcessKey, Proc>
      reads this, procs.Values
    {
      map k | k in procs :: procs[k].Entry()
    }

    ghost function View(): State
      reads this, procs.Values, fan, eng.betmatic, eng.betfair
    {
      State(running, up, Loaded(), fan.Ids(), eng.View(), store, next)
    }

    constructor (host: Host, store: Contents)
      ensures Valid() && View() == Boot(store, 0) && this.host == host
    {
      this.host, this.store := host, store;
      fan := new FanOut();
      running, up, procs, next := false, {}, map[], 0;
      eng := new Engine();
    }

    method SetState(key: ProcessKey, state: string, env: Env)
      requires Valid()
      modifies this`store
      ensures Valid() && View() == WithState(old(View()), key, state, env)
    {
      if env.stateWrites {
        store := store.(states := store.states[key := state]);
      }
    }

    method Drop(key: ProcessKey)
      requires Valid() && key in procs
      modifies this`procs, procs[key], fan, eng.betmatic, eng.betfair
      ensures Valid() && View() == Dropped(old(View()), key)
      ensures procs == old(procs) - {key}
    {
      Unload(key);
      ReleaseSessions(key);
    }

    /** Stops, closes and unregisters. */
    method Unload(key: ProcessKey)
      requires Valid() && key in procs
      modifies this`procs, procs[key], fan
      ensures Valid() && procs == old(procs) - {key}
      ensures View() == old(View()).(loaded := old(View()).loaded - {key}, fanout := old(View()).fanout - {key})
    {
      var p := procs[key];
      p.Stop();
      p.Close();
      procs := procs - {key};
      assert Loaded() == old(Loaded()) - {key};
    }

    method StartOne(key: ProcessKey)
      requires Valid() && key in procs
      modifies procs[key]
      ensures Valid() && View() == WithRunning(old(View()), key, true)
    {
      procs[key].Start();
    }

    method StopOne(key: ProcessKey)
      requires Valid() && key in procs
      modifies procs[key]
      ensures Valid() && View() == WithRunning(old(View()), key, false)
    {
      procs[key].Stop();
    }

    method AddLocked(key: ProcessKey, env: Env) returns (e: Option<Error>)
      requires Valid()
      modifies this`procs, this`next, fan, eng.betmatic, eng.betfair
      ensures Valid() && Outcome(View(), e) == Added(old(View()), host, key, env)
      ensures e.None? ==> key in procs && fresh(procs[key])
    {
      e := CannotAdd(key, env);
      if e.Some? {
        return;
      }
      e := BuildLocked(key, store.processes[key], env.build(key));
    }

    method CannotAdd(key: ProcessKey, env: Env) returns (e: Option<Error>)
      requires Valid()
      ensures e == AddError(View(), host, key, env)
    {
      if !running {
        return Some(NotRunning);
      }
      if key.app !in host.apps {
        return Some(UnknownApp);
      }
      if key.app !in up {
        return Some(AppDown);
      }
      if key in procs {
        return Some(Exists);
      }
      if !env.readable(key) {
        return Some(LoadFailed);
      }
      if key !in store.processes {
        return Some(NoSettings);
      }
      return None;
    }

    method BuildLocked(key: ProcessKey, doc: string, build: Build) returns (e: Option<Error>)
      requires Valid() && key !in procs
      modifies this`procs, this`next, fan, eng.betmatic, eng.betfair
      ensures Valid() && Outcome(View(), e) == Built(old(View()), host, key, doc, build)
      ensures e.None? ==> key in procs && fresh(procs[key])
    {
      var p := NewProcess(key, doc, build);
      if p == null {
        ReleaseSessions(key);
        return Some(BuildFailed);
      }
      Enter(key, p);
      return None;
    }

    method ReleaseSessions(key: ProcessKey)
      requires Valid()
      modifies eng.betmatic, eng.betfair
      ensures Valid() && View() == old(View()).(pools := ReleasedBoth(old(View()).pools, key))
    {
      eng.Release(key);
    }

    method Enter(key: ProcessKey, p: Process)
      requires Valid() && key !in procs && p.key == key && p.app == fan
      modifies this`procs
      ensures Valid() && procs == old(procs)[key := p]
      ensures View() == Loading(old(View()), key, p.Entry())
    {
      procs := procs[key := p];
      assert Loaded() == old(Loaded())[key := p.Entry()];
    }

    /** The application's side of an add. */
    method NewProcess(key: ProcessKey, doc: string, build: Build) returns (p: Process?)
      requires Valid()
      modifies this`next, fan, eng.betmatic, eng.betfair
      ensures Valid() && procs == old(procs)
      ensures var (t, made) := Constructed(old(View()), host, key, doc, build);
              && View() == t && (p != null <==> made.Some?)
              && (p != null ==> fresh(p) && p.key == key && p.app == fan && p.Entry() == made.value)
    {
      p := null;
      if build.Rejects? {
        return;
      }
      ghost var s := View();
      ghost var r := Opened(s.pools, key, host.accounts(doc), build.dials);
      assert Constructed(s, host, key, doc, build).0 ==
        if r.1.Some? && build.Opens? then s.(pools := r.0, fanout := s.fanout[key := s.next], next := s.next + 1)
        else s.(pools := r.0);
      var account := OpenSessions(key, doc, build.dials);
      if account.None? || build.FailsLate? {
        return;
      }
      p := Create(key, doc, account.value);
    }

    method OpenSessions(key: ProcessKey, doc: string, dials: Dials) returns (account: Option<Account>)
      requires Valid()
      modifies eng.betmatic, eng.betfair
      ensures Valid()
      ensures account == Opened(old(View()).pools, key, host.accounts(doc), dials).1
      ensures View() == old(View()).(pools := Opened(old(View()).pools, key, host.accounts(doc), dials).0)
    {
      account := eng.OpenAccount(key, host.accounts(doc), dials);
    }

    method Create(key: ProcessKey, doc: string, account: Account) returns (p: Process)
      requires Valid()
      modifies this`next, fan
      ensures Valid() && fresh(p) && p.key == key && p.app == fan
      ensures p.Entry() == Proc(old(next), doc, account, false)
      ensures View() == old(View()).(fanout := old(View()).fanout[key := p.id], next := old(next) + 1)
    {
      p := new Process(next, key, doc, account, fan);
      next := next + 1;
      fan.Insert(key, p);
    }

    /** Starts or stops a loaded process and records that. */
    method FlagAndRecord(key: ProcessKey, on: bool, env: Env)
      requires Valid() && key in procs
      modifies this`store, procs[key]
      ensures Valid() && View() == Flagged(old(View()), key, on, env)
    {
      if on {
        StartOne(key);
        SetState(key, RUNNING, env);
      } else {
        StopOne(key);
        SetState(key, STOPPED, env);
      }
    }

    method RebuildLocked(key: ProcessKey, env: Env) returns (e: Option<Error>)
      requires Valid() && key in procs
      modifies this`procs, this`store, this`next, procs[key], fan, eng.betmatic, eng.betfair
      ensures Valid() && Outcome(View(), e) == Rebuilt(old(View()), host, key, env)
      ensures e.None? ==> key in procs && fresh(procs[key])
    {
      Drop(key);
      e := AddLocked(key, env);
      if e.Some? {
        SetState(key, STOPPED, env);
      }
    }

    method RebuildAndStart(key: ProcessKey, env: Env) returns (e: Option<Error>)
      requires Valid() && key in procs
      modifies this`procs, this`store, this`next, procs[key], fan, eng.betmatic, eng.betfair
      ensures Valid() && Outcome(View(), e) == Resumed(Rebuilt(old(View()), host, key, env), key, env)
    {
      ghost var o := Rebuilt(View(), host, key, env);
      e := RebuildLocked(key, env);
      if e.Some? {
        return;
      }
      assert Resumed(o, key, env) == Done(Flagged(View(), key, true, env));
      FlagAndRecord(key, true, env);
    }

    // ----- the operations on one process

    method AddProcess(key: ProcessKey, env: Env) returns (e: Option<Error>)
      requires Valid()
      modifies this`procs, this`store, this`next, fan, eng.betmatic, eng.betfair
      ensures Valid() && Outcome(View(), e) == AddedProcess(old(View()), host, key, env)
    {
      e := AddLocked(key, env);
      if e.None? {
        SetState(key, STOPPED, env);
      }
    }

    method Get(key: ProcessKey) returns (e: Option<Error>)
      requires Valid()
      ensures e == GetError(View(), key)
    {
      if !running {
        return Some(NotRunning);
      }
      if key !in procs {
        return Some(ProcessNotFound);
      }
      return None;
    }

    method StartProcess(key: ProcessKey, env: Env) returns (e: Option<Error>)
      requires Valid()
      modifies this`store, procs.Values
      ensures Valid() && Outcome(View(), e) == FlaggedProcess(old(View()), key, true, env)
    {
      e := Get(key);
      if e.Some? {
        return;
      }
      ghost var s := View();
      assert FlaggedProcess(s, key, true, env) == Done(Flagged(s, key, true, env));
      FlagAndRecord(key, true, env);
    }

    method StopProcess(key: ProcessKey, env: Env) returns (e: Option<Error>)
      requires Valid()
      modifies this`store, procs.Values
      ensures Valid() && Outcome(View(), e) == FlaggedProcess(old(View()), key, false, env)
    {
      e := Get(key);
      if e.Some? {
        return;
      }
      ghost var s := View();
      assert FlaggedProcess(s, key, false, env) == Done(Flagged(s, key, false, env));
      FlagAndRecord(key, false, env);
    }

    method RestartProcess(key: ProcessKey, env: Env) returns (e: Option<Error>)
      requires Valid()
      modifies this`procs, this`store, this`next, procs.Values, fan, eng.betmatic, eng.betfair
      ensures Valid() && Outcome(View(), e) == RestartedProcess(old(View()), host, key, env)
    {
      e := Get(key);
      if e.Some? {
        return;
      }
      ghost var s := View();
      assert RestartedProcess(s, host, key, env) == Resumed(Rebuilt(s, host, key, env), key, env);
      e := RebuildAndStart(key, env);
    }

    method DeleteProcess(key: ProcessKey, env: Env) returns (e: Option<Error>)
      requires Valid()
      modifies this`procs, this`store, procs.Values, fan, eng.betmatic, eng.betfair
      ensures Valid() && Outcome(View(), e) == DeletedProcess(old(View()), key, env)
    {
      e := Get(key);
      if e.Some? {
        return;
      }
      ghost var s := View();
      assert DeletedProcess(s, key, env) == Done(Deleted(s, key, env.forgets));
      DropAndForget(key, env.forgets);
    }

    method DropAndForget(key: ProcessKey, forgets: bool)
      requires Valid() && key in procs
      modifies this`procs, this`store, procs[key], fan, eng.betmatic, eng.betfair
      ensures Valid() && View() == Deleted(old(View()), key, forgets)
    {
      Drop(key);
      if forgets {
        Forget(key);
      }
    }

    method Forget(key: ProcessKey)
      requires Valid()
      modifies this`store
      ensures Valid() && View() == Forgotten(old(View()), key)
    {
      store := store.(states := store.states - {key});
    }

    // ----- settings

    method SaveProcessSettings(key: ProcessKey, doc: string, valid: bool, env: Env) returns (e: Option<Error>)
      requires Valid()
      modifies this`procs, this`store, this`next, procs.Values, fan, eng.betmatic, eng.betfair
      ensures Valid() && Outcome(View(), e) == SavedSettings(old(View()), host, key, doc, valid, env)
    {
      if key.app !in host.apps {
        return Some(UnknownApp);
      }
      if !valid {
        return Some(InvalidSettings);
      }
      if !env.docWrites {
        return Some(StoreFailed);
      }
      e := SaveLocked(key, doc, env);
    }

    method SaveLocked(key: ProcessKey, doc: string, env: Env) returns (e: Option<Error>)
      requires Valid()
      modifies this`procs, this`store, this`next, procs.Values, fan, eng.betmatic, eng.betfair
      ensures Valid() && Outcome(View(), e) == Saved(old(View()), host, key, doc, env)
    {
      PutDoc(key, doc);
      if !running {
        return None;
      }
      if key !in procs {
        return None;
      }
      var wasRunning := procs[key].running;
      if wasRunning {
        e := RebuildAndStart(key, env);
      } else {
        e := RebuildLocked(key, env);
      }
    }

    method PutDoc(key: ProcessKey, doc: string)
      requires Valid()
      modifies this`store
      ensures Valid()
      ensures View() == old(View()).(store := old(View()).store.(processes := old(View()).store.processes[key := doc]))
    {
      store := store.(processes := store.processes[key := doc]);
    }

    method DeleteProcessSettings(key: ProcessKey, env: Env) returns (e: Option<Error>)
      requires Valid()
      modifies this`procs, this`store, procs.Values, fan, eng.betmatic, eng.betfair
      ensures Valid() && Outcome(View(), e) == DeletedSettings(old(View()), host, key, env)
    {
      if key.app !in host.apps {
        return Some(UnknownApp);
      }
      DropIfLoaded(key);
      e := Purge(key, env);
    }

    method DropIfLoaded(key: ProcessKey)
      requires Valid()
      modifies this`procs, procs.Values, fan, eng.betmatic, eng.betfair
      ensures Valid() && View() == Unloaded(old(View()), key)
    {
      if key in procs && running {
        Drop(key);
      }
    }

    method Purge(key: ProcessKey, env: Env) returns (e: Option<Error>)
      requires Valid()
      modifies this`store
      ensures Valid() && Outcome(View(), e) == Purged(old(View()), key, env)
    {
      if !env.forgets {
        return Some(StoreFailed);
      }
      Forget(key);
      if !env.deletes {
        return Some(StoreFailed);
      }
      DeleteDoc(key);
      return None;
    }

    method DeleteDoc(key: ProcessKey)
      requires Valid()
      modifies this`store
      ensures Valid() && View() == WithoutDoc(old(View()), key)
    {
      store := store.(processes := store.processes - {key});
    }

    // ----- starting and stopping the runtime

    method RestoreRef(ref: ProcessRef, env: Env)
      requires Valid()
      modifies this`procs, this`next, fan, eng.betmatic, eng.betfair
      ensures Valid() && View() == RestoredRef(old(View()), host, ref, env)
    {
      var e := AddLocked(ref.key, env);
      if e.None? && ref.state == RUNNING {
        StartOne(ref.key);
      }
    }

    method RestoreRefs(refs: seq<ProcessRef>, env: Env)
      requires Valid()
      modifies this`procs, this`next, fan, eng.betmatic, eng.betfair
      ensures Valid() && View() == RestoredRefs(old(View()), host, refs, env)
    {
      for i := 0 to |refs|
        invariant Valid() && View() == RestoredRefs(old(View()), host, refs[..i], env)
      {
        assert refs[..i + 1][..i] == refs[..i];
        RestoreRef(refs[i], env);
      }
      assert refs[..|refs|] == refs;
    }

    method RestoreProcesses(env: Env)
      requires Valid()
      modifies this`procs, this`next, fan, eng.betmatic, eng.betfair
      ensures Valid() && View() == Restored(old(View()), host, host.apps, env)
    {
      var apps := host.apps;
      ghost var s := View();
      for i := 0 to |apps|
        invariant Valid() && View() == Restored(s, host, apps[..i], env)
      {
        RestoredNext(s, host, apps, i, env);
        RestoreApp(apps[i], env);
      }
      assert apps[..|apps|] == apps;
    }

    method RestoreApp(app: string, env: Env)
      requires Valid()
      modifies this`procs, this`next, fan, eng.betmatic, eng.betfair
      ensures Valid() && View() == RestoredApp(old(View()), host, app, env)
    {
      if app !in up {
        return;
      }
      var refs := env.refs(app);
      if refs.None? {
        return;
      }
      RestoreRefs(refs.value, env);
    }

    method StartLocked(env: Env) returns (e: Option<Error>)
      requires Valid() && Mirrors(View(), host)
      modifies this, fan
      ensures Valid() && Outcome(View(), e) == Started(old(View()), host, env)
    {
      if running {
        return Some(AlreadyRunning);
      }
      NewEngine();
      StartApps(env);
      if up == {} {
        CloseEngine();
        return Some(NoApps);
      }
      Launch(env);
      return None;
    }

    method NewEngine()
      requires Valid()
      modifies this`eng
      ensures Valid() && fresh(eng.betmatic) && fresh(eng.betfair)
      ensures View() == old(View()).(pools := NO_POOLS)
    {
      eng := new Engine();
      assert Loaded() == old(Loaded());
    }

    /** Every application that will start comes up. */
    method StartApps(env: Env)
      requires Valid() && up == {}
      modifies this`up
      ensures Valid() && View() == old(View()).(up := UpSet(host, env))
    {
      BringUp(env.starts);
    }

    method BringUp(starts: set<string>)
      requires up == {}
      modifies this`up
      ensures up == set a | a in host.apps && a in starts
    {
      var apps := host.apps;
      for i := 0 to |apps|
        invariant up == set a | a in apps[..i] && a in starts
      {
        if apps[i] in starts {
          up := up + {apps[i]};
        }
      }
      assert apps[..|apps|] == apps;
    }

    method CloseEngine()
      requires Valid()
      modifies eng.betmatic, eng.betfair
      ensures Valid() && View() == old(View()).(pools := Emptied(old(View()).pools))
    {
      eng.Close();
    }

    method MarkRunning()
      requires Valid()
      modifies this`running
      ensures Valid() && View() == old(View()).(running := true)
    {
      running := true;
    }

    method Launch(env: Env)
      requires Valid()
      modifies this`running, this`procs, this`next, fan, eng.betmatic, eng.betfair
      ensures Valid() && View() == Restored(old(View()).(running := true), host, host.apps, env)
    {
      MarkRunning();
      RestoreProcesses(env);
    }

    method StopLocked() returns (e: Option<Error>)
      requires Valid() && Mirrors(View(), host)
      modifies this, procs.Values, fan, eng.betmatic, eng.betfair
      ensures Valid() && Outcome(View(), e) == StoppedKernel(old(View()))
    {
      if !running {
        return Some(NotRunning);
      }
      StopRunning();
      return None;
    }

    method StopRunning()
      requires Valid() && Mirrors(View(), host)
      modifies this, procs.Values, fan, eng.betmatic, eng.betfair
      ensures Valid() && View() == Stopped(old(View()))
    {
      assert Loaded().Keys == procs.Keys;
      running := false;
      UnloadAll();
      StopApps();
      CloseEngine();
    }

    method UnloadAll()
      requires Valid() && fan.Ids().Keys == procs.Keys
      modifies this`procs, procs.Values, fan
      ensures Valid() && View() == old(View()).(loaded := map[], fanout := map[])
    {
      while procs != map[]
        invariant Valid() && fan.Ids().Keys == procs.Keys
        invariant procs.Keys <= old(procs).Keys && forall k :: k in procs ==> procs[k] == old(procs)[k]
        decreases procs.Keys
      {
        var key :| key in procs;
        Unload(key);
      }
      assert fan.Ids() == map[];
    }

    method StopApps()
      requires Valid() && fan.Ids() == map[] && forall a :: a in up ==> a in host.apps
      modifies this`up, fan
      ensures Valid() && View() == old(View()).(up := {})
    {
      BringDown();
    }

    method BringDown()
      requires fan.procs == map[] && forall a :: a in up ==> a in host.apps
      modifies this`up, fan
      ensures up == {} && fan.procs == map[]
    {
      var apps := host.apps;
      for i := 0 to |apps|
        invariant fan.procs == map[]
        invariant up == set a | a in old(up) && a !in apps[..i]
      {
        if apps[i] in up {
          fan.StopApp(apps[i]);
          up := up - {apps[i]};
        }
      }
    }

    method RestartLocked(env: Env) returns (e: Option<Error>)
      requires Valid() && Mirrors(View(), host)
      modifies this, procs.Values, fan, eng.betmatic, eng.betfair
      ensures Valid() && Outcome(View(), e) == Restarted(old(View()), host, env)
    {
      if running {
        e := StopLocked();
      }
      e := StartLocked(env);
    }
  }

  /** A loaded process never bets through a client that was logged out. */
  lemma ClientsAreOpen(k: Kernel, key: ProcessKey)
    requires k.Valid() && Inv(k.View(), k.host) && key in k.procs
    ensures var a := k.procs[key].account;
            && (a.betmatic.Some? ==> k.eng.betmatic.closed[a.betmatic.value] == 0)
            && (a.betfair.Some? ==> k.eng.betfair.closed[a.betfair.value] == 0)
  {
    var a := k.procs[key].account;
    var c := k.host.accounts(k.procs[key].doc);
    assert k.View().loaded[key] == k.procs[key].Entry();
    assert a == AccountIn(k.eng.View(), c);
    if a.betmatic.Some? {
      PooledIsOpen(k.eng.betmatic.View(), k.eng.betmatic.closed, Alias(c.betmatic.value));
    }
    if a.betfair.Some? {
      PooledIsOpen(k.eng.betfair.View(), k.eng.betfair.closed, Alias(c.betfair.value));
    }
  }
}
