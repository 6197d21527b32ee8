/** What the kernel's operations do (`kernel/process.go`, `kernel/kernel.go`, `kernel/settings.go`),
    as functions on the four things they change together: the process registry, the running
    applications with their fan-out maps, the session pools, and the client store.

    Everything outside the kernel is an input of each operation: which applications start, how an
    application's attempt to build a process ends, and which store calls go through. A store call
    that fails changes nothing.
 */
module KernelState {
  import opened Clients
  import opened Sessions
  import opened Wrappers

  /** A loaded process: an identity of its own, the document it was built from, the account it bets
      through, and its flag. */
  datatype Proc = Proc(id: nat, doc: string, account: Account, running: bool)

  /** `fanout` is the union of the applications' own maps, each of which has only its own keys. */
  datatype State = State(
    running: bool, up: set<string>, loaded: map<ProcessKey, Proc>, fanout: map<ProcessKey, nat>,
    pools: Pools, store: Contents, next: nat)

  /** The registered applications in order, and the accounts a document names. */
  datatype Host = Host(apps: seq<string>, accounts: string -> Credentials)

  /** An application turns the document down before opening an account, opens one, or opens one and
      fails afterwards. */
  datatype Build = Rejects | Opens(dials: Dials) | FailsLate(dials: Dials)

  datatype Env = Env(
    starts: set<string>,
    build: ProcessKey -> Build,
    readable: ProcessKey -> bool,
    refs: string -> Option<seq<ProcessRef>>,
    stateWrites: bool, docWrites: bool, forgets: bool, deletes: bool)

  datatype Error =
    | NotRunning | AlreadyRunning | NoApps | UnknownApp | AppDown | ProcessNotFound | NoSettings | Exists
    | InvalidSettings | LoadFailed | BuildFailed | StoreFailed

  datatype Outcome = Outcome(state: State, error: Option<Error>)

  function Fail(s: State, e: Error): Outcome {
    Outcome(s, Some(e))
  }

  function Done(s: State): Outcome {
    Outcome(s, None)
  }

  // ----- steps the operations share

  function WithState(s: State, key: ProcessKey, state: string, env: Env): State {
    if env.stateWrites then s.(store := s.store.(states := s.store.states[key := state])) else s
  }

  function WithRunning(s: State, key: ProcessKey, running: bool): State
    requires key in s.loaded
  {
    s.(loaded := s.loaded[key := s.loaded[key].(running := running)])
  }

  /** Stop, close, unregister, release. */
  function Dropped(s: State, key: ProcessKey): State {
    s.(loaded := s.loaded - {key}, fanout := s.fanout - {key}, pools := ReleasedBoth(s.pools, key))
  }

  function AddError(s: State, host: Host, key: ProcessKey, env: Env): Option<Error> {
    if !s.running then Some(NotRunning)
    else if key.app !in host.apps then Some(UnknownApp)
    else if key.app !in s.up then Some(AppDown)
    else if key in s.loaded then Some(Exists)
    else if !env.readable(key) then Some(LoadFailed)
    else if key !in s.store.processes then Some(NoSettings)
    else None
  }

  function Registered(s: State, key: ProcessKey, doc: string, pools: Pools, account: Account): State {
    s.(loaded := s.loaded[key := Proc(s.next, doc, account, false)], fanout := s.fanout[key := s.next],
       pools := pools, next := s.next + 1)
  }

  /** Builds and registers a process, not started; whatever it claimed is released if that fails. */
  function Added(s: State, host: Host, key: ProcessKey, env: Env): Outcome {
    var e := AddError(s, host, key, env);
    if e.Some? then Fail(s, e.value)
    else Built(s, host, key, s.store.processes[key], env.build(key))
  }

  /** The application's part: the account opened, the process made and entered in the fan-out map. */
  function Constructed(s: State, host: Host, key: ProcessKey, doc: string, build: Build): (State, Option<Proc>) {
    if build.Rejects? then (s, None)
    else
      var (pools, account) := Opened(s.pools, key, host.accounts(doc), build.dials);
      if account.Some? && build.Opens? then
        (s.(fanout := s.fanout[key := s.next], pools := pools, next := s.next + 1), Some(Proc(s.next, doc, account.value, false)))
      else (s.(pools := pools), None)
  }

  function Built(s: State, host: Host, key: ProcessKey, doc: string, build: Build): Outcome {
    var (t, p) := Constructed(s, host, key, doc, build);
    if p.Some? then Done(Loading(t, key, p.value)) else Fail(t.(pools := ReleasedBoth(t.pools, key)), BuildFailed)
  }

  function Loading(s: State, key: ProcessKey, p: Proc): State {
    s.(loaded := s.loaded[key := p])
  }

  function Rebuilt(s: State, host: Host, key: ProcessKey, env: Env): Outcome {
    var o := Added(Dropped(s, key), host, key, env);
    if o.error.Some? then o.(state := WithState(o.state, key, STOPPED, env)) else o
  }

  function RestoredRef(s: State, host: Host, ref: ProcessRef, env: Env): State {
    var o := Added(s, host, ref.key, env);
    if o.error.None? && ref.state == RUNNING && ref.key in o.state.loaded then WithRunning(o.state, ref.key, true)
    else o.state
  }

  function RestoredRefs(s: State, host: Host, refs: seq<ProcessRef>, env: Env): State {
    if refs == [] then s
    else RestoredRef(RestoredRefs(s, host, refs[..|refs| - 1], env), host, refs[|refs| - 1], env)
  }

  function RestoredApp(s: State, host: Host, app: string, env: Env): State {
    if app in s.up && env.refs(app).Some? then RestoredRefs(s, host, env.refs(app).value, env) else s
  }

  function Restored(s: State, host: Host, apps: seq<string>, env: Env): State {
    if apps == [] then s
    else RestoredApp(Restored(s, host, apps[..|apps| - 1], env), host, apps[|apps| - 1], env)
  }

  // ----- the operations

  datatype Op =
    | Start | Stop | Restart
    | AddProcess(key: ProcessKey)
    | StartProcess(key: ProcessKey)
    | StopProcess(key: ProcessKey)
    | RestartProcess(key: ProcessKey)
    | DeleteProcess(key: ProcessKey)
    | SaveSettings(key: ProcessKey, doc: string, valid: bool)
    | DeleteSettings(key: ProcessKey)
    | Crash

  function Stopped(s: State): State {
    s.(running := false, up := {}, loaded := map[], fanout := map[], pools := Emptied(s.pools))
  }

  function UpSet(host: Host, env: Env): set<string> {
    set a | a in host.apps && a in env.starts
  }

  function Started(s: State, host: Host, env: Env): Outcome {
    if s.running then Fail(s, AlreadyRunning)
    else if UpSet(host, env) == {} then Fail(s.(pools := NO_POOLS), NoApps)
    else Done(Restored(s.(running := true, up := UpSet(host, env), pools := NO_POOLS), host, host.apps, env))
  }

  function GetError(s: State, key: ProcessKey): Option<Error> {
    if !s.running then Some(NotRunning) else if key !in s.loaded then Some(ProcessNotFound) else None
  }

  function Resumed(o: Outcome, key: ProcessKey, env: Env): Outcome {
    if o.error.Some? || key !in o.state.loaded then o
    else Done(Flagged(o.state, key, true, env))
  }

  function Saved(s: State, host: Host, key: ProcessKey, doc: string, env: Env): Outcome {
    var t := s.(store := s.store.(processes := s.store.processes[key := doc]));
    if !s.running || key !in s.loaded then Done(t)
    else
      var o := Rebuilt(t, host, key, env);
      if s.loaded[key].running then Resumed(o, key, env) else o
  }

  function Forgotten(s: State, key: ProcessKey): State {
    s.(store := s.store.(states := s.store.states - {key}))
  }

  function Unloaded(s: State, key: ProcessKey): State {
    if key in s.loaded && s.running then Dropped(s, key) else s
  }

  function WithoutDoc(s: State, key: ProcessKey): State {
    s.(store := s.store.(processes := s.store.processes - {key}))
  }

  function Purged(s: State, key: ProcessKey, env: Env): Outcome {
    if !env.forgets then Fail(s, StoreFailed)
    else if !env.deletes then Fail(Forgotten(s, key), StoreFailed)
    else Done(WithoutDoc(Forgotten(s, key), key))
  }

  function Flagged(s: State, key: ProcessKey, on: bool, env: Env): State
    requires key in s.loaded
  {
    WithState(WithRunning(s, key, on), key, if on then RUNNING else STOPPED, env)
  }

  function AddedProcess(s: State, host: Host, key: ProcessKey, env: Env): Outcome {
    var o := Added(s, host, key, env);
    if o.error.Some? then o else Done(WithState(o.state, key, STOPPED, env))
  }

  function FlaggedProcess(s: State, key: ProcessKey, on: bool, env: Env): Outcome {
    var e := GetError(s, key);
    if e.Some? then Fail(s, e.value) else Done(Flagged(s, key, on, env))
  }

  function RestartedProcess(s: State, host: Host, key: ProcessKey, env: Env): Outcome {
    var e := GetError(s, key);
    if e.Some? then Fail(s, e.value) else Resumed(Rebuilt(s, host, key, env), key, env)
  }

  function Deleted(s: State, key: ProcessKey, forgets: bool): State {
    if forgets then Forgotten(Dropped(s, key), key) else Dropped(s, key)
  }

  function DeletedProcess(s: State, key: ProcessKey, env: Env): Outcome {
    var e := GetError(s, key);
    if e.Some? then Fail(s, e.value)
    else Done(Deleted(s, key, env.forgets))
  }

  function SavedSettings(s: State, host: Host, key: ProcessKey, doc: string, valid: bool, env: Env): Outcome {
    if key.app !in host.apps then Fail(s, UnknownApp)
    else if !valid then Fail(s, InvalidSettings)
    else if !env.docWrites then Fail(s, StoreFailed)
    else Saved(s, host, key, doc, env)
  }

  function DeletedSettings(s: State, host: Host, key: ProcessKey, env: Env): Outcome {
    if key.app !in host.apps then Fail(s, UnknownApp) else Purged(Unloaded(s, key), key, env)
  }

  function StoppedKernel(s: State): Outcome {
    if s.running then Done(Stopped(s)) else Fail(s, NotRunning)
  }

  function Restarted(s: State, host: Host, env: Env): Outcome {
    Started(if s.running then Stopped(s) else s, host, env)
  }

  function Next(s: State, host: Host, op: Op, env: Env): Outcome {
    match op
    case Start => Started(s, host, env)
    case Stop => StoppedKernel(s)
    case Restart => Restarted(s, host, env)
    case AddProcess(key) => AddedProcess(s, host, key, env)
    case StartProcess(key) => FlaggedProcess(s, key, true, env)
    case StopProcess(key) => FlaggedProcess(s, key, false, env)
    case RestartProcess(key) => RestartedProcess(s, host, key, env)
    case DeleteProcess(key) => DeletedProcess(s, key, env)
    case SaveSettings(key, doc, valid) => SavedSettings(s, host, key, doc, valid, env)
    case DeleteSettings(key) => DeletedSettings(s, host, key, env)
    case Crash => Done(Stopped(s))
  }
}
