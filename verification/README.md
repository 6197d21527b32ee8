# The betting host, verified

A model in Dafny of the stateful parts of the betting host, with proofs about every input, every run
and every interleaving. Check it with `dafny verify dfyconfig.toml`.

Code that changes state step by step is imperative here too: a class with the same fields, methods
with the same branches and loops. Each such method is proved against a function on values (what the
operation does to the state), and the theorems, most of them about whole runs, are lemmas about
those functions. What lies outside a component (dials, application starts, store calls, clocks, the
Betfair book, replies of the Telegram API) is an input of each call.

| files | subject |
|---|---|
| `Clients`, `Sessions`, `KernelState`, `KernelRuns`, `KernelEffects`, `Kernel` | The kernel: process registry, running applications and their fan-out maps, shared betting sessions and the client store, changed together by ten operations, with crashes. `KernelState` says what each operation does, `Kernel` is the program, `KernelRuns` has the invariant over all runs and the restart round trip, `KernelEffects` what each operation does as seen from outside. |
| `Paths`, `Stores` | The document store over a bucket and the memory store, both proved against three maps. |
| `Racing`, `Tracker`, `TpdLeader`, `LeaderLaws` | The race tracker of the TPD feed, the leader strategy, and the two composed. |
| `Vectors`, `ForwardProgress`, `ForwardLaws` | The forward-progress strategy and its vector arithmetic. |
| `Telegram`, `Timeline` | Token bucket, dedupe window and conservation ledger of the Telegram sink. |
| `TickLadder`, `BetfairOrders` | Rounding onto the Betfair ladder, and the limits and sizes of the orders sent. |
| `EditDistance`, `Names`, `Resolve` | Edit distance against shortest edit scripts, name normalisation, and resolving a tip to a runner whatever order the events are visited in. |
| `Gate` | The admission gate against its full history. |
| `Pollers` | The start and stop protocol of the price pollers, as interleaved steps. |

Some properties one might expect do not hold of the code. Each is shown by a concrete input or run,
next to the exact condition that does hold:

- One minute can carry more messages than the 18 the Telegram sink's own comment promises
  (`logger/telegram/telegram.go:9-10`): `Telegram.BurstThenMore`. A minute can do so exactly when its
  bucket begins with as good as a token in hand, `Telegram.MinuteCanExceed`; what holds of every
  interval is burst plus rate, `Telegram.RateBound`.
- A side of a race can be bet twice. `TpdLeader.RebuiltProcessBetsAgain` and
  `ForwardProgress.RebuiltProcessBetsAgain`: a process rebuilt in mid-race has a new strategy, which
  bets again. `TpdLeader.SweptRaceIsBetAgain`: a race swept after its finish and seen again is bet
  again by the same one. A message bets a side exactly when this strategy has not bet it since the
  last finish it heard of and the message is one to bet on, `TpdLeader.BetExactlyWhen` and
  `ForwardProgress.BetExactlyWhen`; a second bet needs a rebuild, or such a finish and after it a
  sweep, `TpdLeader.RebetNeedsRebuildOrSweep`; one strategy bets at most once in one lifetime of the
  race in the tracker, `TpdLeader.AtMostOneBetPerLifetime`.
- A bet can name runner 0: `ForwardProgress.LeaderWithoutClothIsBacked`, a leader the feed left
  without a saddlecloth. `ForwardProgress.RunnersAreNamed` says exactly when every bet names a runner;
  it is enough that every horse has a saddlecloth, `ForwardProgress.ClothsAreEnough`.
- A lay order can be sent that the exchange client refuses: `BetfairOrders.RefusedLay`, whose
  liability rounds to 0. `BetfairOrders.AcceptedExactlyWhen` says which orders sent are accepted.
- A leaving poll loop can take a newer poller out of the register: `Pollers.LateExitDeregistersNewer`.
  `Pollers.ExitTakesOwnOrNewer` says when.
- The document store can list a process nobody recorded: `Stores.StrayIsMisread`. It lists right
  exactly when the bucket holds no readable state path of the application without the `.json`
  suffix, `Stores.ReadsListed`, and no write of the store makes one, `Stores.WritesLeaveNoStray`.
- A call of the admission gate whose clock reading is older than that of a call served before it is
  judged as at the later reading, so a key can be admitted twice within ten minutes by its own
  readings: `Gate.StaleRun`. Whatever the lag, only what is admissible at the latest reading is
  admitted, and the limits hold less the lag, `Gate.VisionGate.Admit` and `Gate.NoHourExceedsLimit`;
  past a lag of ten minutes the gate may also refuse what is admissible, `Gate.TooStaleIsRefused`.
- Which error a tie between best candidates ends in depends on the order the events are visited in:
  `Resolve.TieErrorDependsOnOrder`. Both errors can be given of the same candidates exactly when one
  of the best-scored bears enough resemblance and one does not, `Resolve.BothReasons`.
- A failed `Account` can lose a session the key had: `Sessions.FailedOpenLosesSession`. It leaves the
  sessions alone if and only if the key held no Betmatic session or the Betmatic claim itself failed,
  `Sessions.FailedOpenRollsBack`; the kernel only ever asks for keys that hold none,
  `KernelRuns.AccountsRollBack`.
- A recorded process state can be wrong: `KernelRuns.StartWithoutItsWrite`, a process that runs and is
  recorded as stopped. `KernelRuns.RecordsNeedTheirWrite` says, for every operation, exactly when the
  records are right after it.

## Model

| member | source | states |
|---|---|---|
| KernelRuns.RunKeeps | kernel/kernel.go:62-84 | After every operation of every run, whatever applications, builds, dials and store calls fail: a stopped kernel has no process, application or session; in a running one every loaded key's application is up, its fan-out entry is that very process, it runs the stored document, a key holds a session exactly when it is loaded and its document names that account, and each process bets through the clients pooled for those accounts. |
| KernelRuns.ClientsAreShared | engine/account.go:94-121 | In every reachable state a process has a client exactly where its document names an account, and two processes have the same client exactly when the names they give are two spellings of one account: equal but for white space around them and the case of letters. |
| Kernel.ClientsAreOpen | engine/account.go:123-143 | In a kernel whose state meets the invariant, no client a loaded process bets through has been closed. |
| KernelRuns.NextKeeps | kernel/process.go:13-94 | Each single operation keeps that invariant. |
| KernelRuns.InvMirrors | kernel/kernel.go:156-182 | Every state that meets the invariant meets what stopping and restarting build on: registry and fan-out map have the same keys, and only registered applications are up. |
| KernelRuns.AddedKeeps | kernel/process.go:153-180 | Adding keeps the invariant; a failed add leaves everything, every session with its client and holders, as it was (a dial may have been counted); a successful one registers the stored document and nothing else. |
| KernelRuns.DroppedKeeps | kernel/process.go:74-94 | Unloading a process takes its fan-out entry and every session hold with it. |
| KernelRuns.RebuiltKeeps | kernel/process.go:139-150 | A rebuild keeps the invariant even when the process does not come back, and one that comes back is not yet running. |
| KernelRuns.RestoredKeeps | kernel/process.go:183-212 | Restoring keeps the invariant and touches neither the store nor the set of running applications. |
| KernelRuns.SavedKeeps | kernel/settings.go:52-88 | Saving settings keeps the invariant: no loaded process is left on an older document. |
| KernelRuns.UnloadedKeeps | kernel/settings.go:99-104 | After the unload that deleting settings begins with, the key is not loaded and the invariant holds. |
| KernelRuns.PurgedKeeps | kernel/settings.go:105-113 | Deleting settings of an unloaded key keeps the invariant, also when one of the two store calls fails. |
| KernelRuns.RecordsNeedTheirWrite | kernel/process.go:13-94 | For every operation: from right records, the records are right after it if and only if it attempted no state write, or the write went through, or it left the process unloaded, or the record already said the same. |
| KernelRuns.NextMatches | kernel/kernel.go:205-209 | When state writes go through, every operation leaves each loaded process recorded as running exactly when it runs. |
| KernelRuns.StartNeedsItsWrite | kernel/process.go:24-37 | After a start the record is right if and only if the state write went through or the record already said running. |
| KernelRuns.AttemptedIsAttempting | kernel/process.go:13-72 | The write each operation attempts is of the state the process is then in, and a failed one leaves the records alone. |
| KernelRuns.OthersMatch | kernel/process.go:13-150 | No operation, whatever fails, spoils the record of another process. |
| KernelRuns.FailedRebuildRecord | kernel/process.go:139-150 | After a rebuild that fails the process is unloaded, and recorded as stopped if and only if the write went through or it was before. |
| KernelRuns.RebuiltIsAnother | kernel/process.go:139-150 | A rebuilt process is a new one, not the one before. |
| KernelRuns.RunMatches | kernel/process.go:24-72 | The same over whole runs. |
| KernelRuns.StartWithoutItsWrite | kernel/process.go:24-37 | A run from a fresh kernel, with one write that fails, after which a process runs and is recorded as stopped. |
| KernelRuns.StartReturnsRecorded | kernel/process.go:183-212 | Exactly what a start brings back: a process that can be built is loaded if and only if its state and its document are stored, with that document and flag. |
| KernelRuns.StopThenStart | kernel/kernel.go:112-182 | Stopping and starting returns every process that can be built with the same document and flag, if the records match. |
| KernelRuns.WaysToRestart | kernel/kernel.go:74-84 | Restart, stop then start, and crash then start come to the same state. |
| KernelRuns.RestartRoundTrip | kernel/kernel.go:112-182 | After any run with reliable state writes, a stop or crash and a start return every loaded process that can be built, same document, same flag. |
| KernelRuns.OpenedFollows | kernel/process.go:160-176 | An account opened for an unloaded key joins it to the holders of the sessions its document names, shared or new, while every loaded process keeps its clients; releasing the key, after success or failure, restores every session. |
| KernelRuns.AccountsRollBack | kernel/process.go:153-180 | In every reachable state, where an add gets as far as building, the key holds no session, so an account that does not open leaves every session as it was. |
| KernelEffects.OthersUntouched | kernel/process.go:13-94 | An operation on one process leaves every other as it was: loaded or not, document, flag, account, stored document and recorded state. |
| KernelEffects.AddExactlyWhen | kernel/process.go:13-22 | Adding succeeds exactly when the kernel runs, the application is up, the key is not loaded, its document is stored and readable, the application builds it and every account it names is pooled or can be dialled; it then has the stored document, loaded and stopped, and otherwise nothing is loaded or stored anew. |
| KernelEffects.AddRefusals | kernel/kernel.go:191-203 | Which refusal comes of what: not running, an unknown application, one that is down, a key already loaded, no settings. |
| KernelEffects.FlagExactly | kernel/process.go:24-52 | Starting and stopping succeed exactly for a loaded key, set its flag and change nothing else of it; for any other key nothing changes. |
| KernelEffects.RestartExactly | kernel/process.go:55-72 | A restart that succeeds leaves the process running on the stored document; one that fails leaves it unloaded, or, of a key not loaded, changes nothing. |
| KernelEffects.DeletedStaysDeleted | kernel/process.go:74-94 | Deleting a loaded process unloads it and takes its key, and only that, out of the recorded states as far as the store obliges; its document stays; and once the record is gone no later start of the kernel brings the process back. |
| KernelEffects.NothingToDelete | kernel/process.go:74-94 | Deleting a key not loaded fails and changes nothing. |
| KernelEffects.SavedIsStored | kernel/settings.go:52-88 | Settings that are valid, of a registered application and written are stored, whether the key is loaded or not, and no other document changes; a loaded process then has that document and the flag it had, or is unloaded; refused settings change nothing. |
| KernelEffects.SaveRefusals | kernel/settings.go:52-70 | An unknown application, then an invalid document, then a failed write. |
| KernelEffects.DeletedSettingsAreGone | kernel/settings.go:91-114 | Deleting settings unloads the process, then removes its record, then its document, each only if the step before went through, and no other; it fails exactly when one of the two store calls does. |
| KernelEffects.UnknownSettingsStay | kernel/settings.go:91-98 | Of an unknown application nothing is deleted. |
| KernelEffects.StartExactlyWhen | kernel/kernel.go:112-153 | A start brings up exactly the registered applications that start, fails exactly when the kernel runs already or none does, and leaves the store alone. |
| KernelEffects.StopExactly | kernel/kernel.go:156-182 | A stop of a running kernel leaves no process, application, fan-out entry or session, and the store as it was. |
| Kernel.Kernel.AddLocked | kernel/process.go:153-180 | The program's add does to registry, fan-out map, sessions and store what `KernelState.Added` says, with the same error. |
| Kernel.Kernel.CannotAdd | kernel/kernel.go:191-203 | Which refusal comes first: not running, unknown application, application down, already there, unreadable, no settings. |
| Kernel.Kernel.NewProcess | apps/pegasus/app.go:286-316 | The application enters its fan-out map only when everything succeeded. |
| Kernel.Kernel.Drop | kernel/process.go:139-144 | Stop, close, unregister, release: registry, fan-out map and sessions all let the key go. |
| Kernel.Kernel.RebuildLocked | kernel/process.go:139-150 | Drop and add again, recording Stopped when that fails. |
| Kernel.Kernel.AddProcess | kernel/process.go:13-22 | The operation against its specification. |
| Kernel.Kernel.StartProcess | kernel/process.go:24-37 | The operation against its specification. |
| Kernel.Kernel.StopProcess | kernel/process.go:39-52 | The operation against its specification. |
| Kernel.Kernel.RestartProcess | kernel/process.go:55-72 | The operation against its specification: no start when the rebuild fails. |
| Kernel.Kernel.DeleteProcess | kernel/process.go:74-94 | Drop the process and its sessions, then forget its recorded state; what that comes to is DeletedStaysDeleted. |
| Kernel.Kernel.SaveProcessSettings | kernel/settings.go:52-88 | The operation against its specification: nothing changes when validation or the write fails; a loaded process is rebuilt and runs on if it was running. |
| Kernel.Kernel.DeleteProcessSettings | kernel/settings.go:91-114 | The operation against its specification, each store failure leaving what the earlier steps did. |
| Kernel.Kernel.RestoreProcesses | kernel/process.go:183-212 | The restoring loops against their specification. |
| Kernel.Kernel.StartLocked | kernel/kernel.go:112-153 | A start against its specification: a new engine, the applications that start, everything recorded restored; with no application up it fails and holds nothing. |
| Kernel.Kernel.StopLocked | kernel/kernel.go:156-182 | Whatever is loaded, a stop ends with no process, application, fan-out entry or session. |
| Kernel.Kernel.RestartLocked | kernel/kernel.go:74-84 | Restart against its specification. |
| Kernel.Kernel.SetState | kernel/kernel.go:205-209 | A state write that fails changes nothing. |
| Kernel.FanOut.Remove | apps/pegasus/app.go:318-322 | Removing takes out that key only. |
| Kernel.FanOut.StopApp | apps/pegasus/app.go:160-178 | Stopping an application drops its processes and no other's. |
| Kernel.Process.Close | apps/pegasus/process/process.go:161-166 | A closed process is stopped and gone from its application's map. |
| Sessions.SessionPool.Claim | engine/account.go:94-121 | A claim joins the pooled session, and gets the very client everybody before it got, or dials exactly one; it fails exactly when the dial is needed and fails, and then changes nothing; afterwards exactly the spellings of the account, equal but for white space around them and the case of letters, get that client. |
| Sessions.TwoClaims | engine/account.go:94-121 | Of two claims one after the other, both get the same client exactly when their usernames are spellings of one account, and then at most one dial is made for both. |
| Sessions.SpacesListed | engine/account.go:145-147 | The white space around a name is Unicode's, character by character. |
| Sessions.AliasIsAccount | engine/account.go:145-147 | Two usernames are pooled under one name if and only if, without the white space around them, they agree character by character, or differ there in the case of a letter alone. |
| Sessions.SessionPool.Release | engine/account.go:123-143 | A release lets go of exactly this key's holds; a session left without holders is closed, once; every other session is as it was, client included. |
| Sessions.SessionPool.CloseAll | engine/engine.go:106-118 | After closing, every client ever dialled has been closed exactly once. |
| Sessions.ClaimShares | engine/account.go:94-121 | A claim leaves every pooled account's client alone, so all who claim one account, however spelt, share one client. |
| Sessions.ClaimedStaysSound | engine/account.go:94-121 | A claim leaves every session held and with a client of its own. |
| Sessions.PooledIsOpen | engine/account.go:123-143 | A pooled client has not been closed. |
| Sessions.DialKeeps | engine/account.go:94-121 | Over any sequence of operations: every session is held and has a client of its own, a dialled client is pooled or closed once, and dials minus closes is the number of pooled accounts; here for a dial. |
| Sessions.HoldersKeep | engine/account.go:119-132 | The same for a holder joining or leaving. |
| Sessions.CloseKeeps | engine/account.go:130-134 | The same for closing the last holder's session. |
| Sessions.ReleaseUndoesClaim | engine/account.go:94-143 | Claiming and releasing by a key that held nothing restores every session, clients and holders. |
| Sessions.ReleaseWithoutHold | engine/account.go:123-143 | A release changes the pool if and only if the key held something, and leaves it holding nothing. |
| Sessions.FailedOpenRollsBack | engine/engine.go:63-93 | An account that does not open leaves every session, client and holders, as it was if and only if the key held no Betmatic session or the Betmatic claim itself failed. |
| Sessions.FailedOpenLosesSession | engine/engine.go:63-93 | A key alone on one Betmatic session that asks for another and fails at Betfair loses the one it had. |
| Sessions.Engine.OpenAccount | engine/engine.go:63-93 | Both claims with rollback; on success the account carries exactly the named providers, each with the pooled client, and nobody's client has changed; a failure for a key without a Betmatic session leaves every session as it was. |
| Sessions.Engine.Release | engine/engine.go:97-103 | Releases at both providers. |
| Sessions.Engine.Close | engine/engine.go:106-118 | Both pools empty, every client of both closed exactly once. |
| Paths.ParsePrinted | clients/doc/doc.go:34-42 | Parsing a printed key gives the key back, for slash-free identifiers. |
| Paths.PrintParsed | clients/doc/doc.go:34-42 | A path that parses is the print of what it parses to. |
| Paths.PrintedKeysDistinct | clients/doc/doc.go:34-42 | Printing is injective in each of the three layouts, and they never collide. |
| Paths.Layouts | clients/doc/doc.go:34-42 | Any path lies under at most one of the three prefixes. |
| Paths.PathsLookLike | clients/doc/doc.go:34-42 | The three layouts written out. |
| Stores.KeysExact | clients/doc/doc.go:34-42 | The keys found in a bucket are exactly those whose printed path it has. |
| Stores.WritesCommute | clients/doc/doc.go:66-71 | Putting or deleting a process document or state in the bucket is that very change to the three maps, and no other. |
| Stores.AppWriteCommutes | clients/doc/doc.go:73-78 | The same for application settings. |
| Stores.IdRead | clients/doc/doc.go:88-98 | The listing reads an ID off a path exactly when the path was printed from it. |
| Stores.IdsAreListed | clients/doc/doc.go:80-100 | The IDs read are those of the stored processes of that user, each once. |
| Stores.RefRead | clients/doc/doc.go:123-130 | The listing reads a process off a state path exactly when the path was printed from it. |
| Stores.RefsAreListed | clients/doc/doc.go:113-147 | The references read are the recorded processes of that application with their states, each once. |
| Stores.DocStore.Process | clients/doc/doc.go:44-53 | The stored document, not found, or unavailable. |
| Stores.DocStore.AppSettings | clients/doc/doc.go:55-64 | The stored settings, the empty document when there are none. |
| Stores.DocStore.PutProcess | clients/doc/doc.go:66-71 | On the contents: one document written, or nothing if the call fails. |
| Stores.DocStore.PutAppSettings | clients/doc/doc.go:73-78 | On the contents: one settings document written, or nothing. |
| Stores.DocStore.ProcessIDs | clients/doc/doc.go:80-100 | A user's processes, each once, whatever else is in the bucket. |
| Stores.DocStore.DeleteProcess | clients/doc/doc.go:102-107 | On the contents: one document removed, or nothing. |
| Stores.DocStore.Processes | clients/doc/doc.go:113-147 | On any bucket: succeeds exactly when the listing and every read of a process path go through, returns what those paths read as, and that is the recorded processes with their states, each once, if and only if the bucket has no stray state path of the application. |
| Stores.ReadsListed | clients/doc/doc.go:113-147 | A listing is right if and only if no readable state path of the application lacks the suffix. |
| Stores.StrayBreaksListing | clients/doc/doc.go:123-144 | The process of a stray path is not recorded, or is listed twice. |
| Stores.StrayIsMisread | clients/doc/doc.go:123-130 | A bucket on which a process nobody recorded is listed. |
| Stores.WritesLeaveNoStray | clients/doc/doc.go:66-107 | No put or delete of the store makes a stray path. |
| Stores.DocStore.SetState | clients/doc/doc.go:149-155 | On the contents: one state recorded, or nothing. |
| Stores.DocStore.Forget | clients/doc/doc.go:157-162 | On the contents: one state removed, or nothing. |
| Stores.MemStore.PutProcess | clients/mem/mem.go:29-34 | The same change to the same three maps. |
| Stores.MemStore.PutAppSettings | clients/mem/mem.go:36-41 | The same change to the same three maps. |
| Stores.MemStore.Process | clients/mem/mem.go:43-51 | The stored document or not found. |
| Stores.MemStore.AppSettings | clients/mem/mem.go:53-60 | The stored settings or the empty document. |
| Stores.MemStore.Processes | clients/mem/mem.go:62-73 | The recorded processes of an application with their states, each once. |
| Stores.MemStore.SetState | clients/mem/mem.go:75-80 | The same change to the same three maps. |
| Stores.MemStore.Forget | clients/mem/mem.go:82-87 | The same change to the same three maps. |
| Stores.MemStore.ProcessIDs | clients/mem/mem.go:89-100 | A user's processes, each once. |
| Stores.MemStore.DeleteProcess | clients/mem/mem.go:102-107 | The same change to the same three maps. |
| Stores.ListingsAgree | clients/mem/mem.go:62-100 | Two listings of the same contents, by either store, have the same IDs and the same references, each as often. |
| Tracker.Tracker.Ref | apps/pegasus/tpd/update.go:75-126 | One packet: accepted or dropped, and the reference published, as specified. |
| Tracker.Tracker.SweepExpired | apps/pegasus/tpd/update.go:223-242 | Exactly the races untouched for over ten minutes are dropped. |
| Tracker.PublishedSpelledOut | apps/pegasus/tpd/update.go:101-126 | Of an accepted packet: finished exactly when its progress is at or under zero or the race finished before; otherwise running exactly when the running time is over 0, or a known distance is over 0 and exceeds the progress by more than 5; the distance is the one listed, or failing that the greatest progress seen; the race is the one listed when it was first seen. |
| Tracker.TrackedSpelledOut | apps/pegasus/tpd/update.go:75-107 | A packet makes its race known if it was not, its timestamp can be read and it is listed; when accepted, it is touched now; when not, and known, it is as it was; every other race is left alone. |
| Tracker.SweepSpelledOut | apps/pegasus/tpd/update.go:223-242 | A sweep drops exactly the races untouched for more than 600 seconds and leaves the others as they were. |
| Tracker.AcceptedIffStrictMaximum | apps/pegasus/tpd/update.go:96-101 | For arbitrary arrivals, a packet is accepted if and only if its timestamp is readable and later than every readable one of its race before it. |
| Tracker.LatestIsMaximum | apps/pegasus/tpd/update.go:96-101 | The remembered timestamp is below a value exactly when every earlier readable one is. |
| Tracker.StateFromAccepted | apps/pegasus/tpd/update.go:103-107 | Until a sweep, the official distance is the maximum of 0 and the accepted packets' progress, and a race has finished exactly when one of them reached the finish. |
| Tracker.FeedsMerge | apps/pegasus/tpd/update.go:69-99 | However any number of in-order copies of a strictly increasing stream interleave, among packets of any other races, what is accepted of the race is that stream, each packet once, as far as the furthest copy has come. |
| TpdLeader.TpdLeader.Select | apps/pegasus/strategy/tpd_leader.go:29-106 | The bets are exactly those the message is ready for, on the first-ranked runner with the plan's unit; the race's new state marks exactly those sides; other races are untouched. |
| TpdLeader.SelectRunning | apps/pegasus/strategy/tpd_leader.go:60-106 | The same, for the part behind a running message. |
| TpdLeader.BetsOnlyOnCleanRunning | apps/pegasus/strategy/tpd_leader.go:64-122 | A bet needs a running race, no warning, at least four ranked runners, its side's delay passed and a positive unit, and its side is marked from then on. |
| TpdLeader.FinishedLatches | apps/pegasus/tpd/update.go:101-107 | Within a tracker lifetime a finished race stays finished, and everything published about it says so. |
| TpdLeader.StepKeepsBound | apps/pegasus/strategy/tpd_leader.go:29-106 | One event keeps at most one bet on a side since the tracker last forgot the race or the strategy was built, latched by the strategy's mark or by the finish. |
| TpdLeader.AtMostOneBetPerLifetime | apps/pegasus/tpd/update.go:202-218 | On every run of tracker and process, whatever the inbox drops and however late it hands over, rebuilds and restarts included, one strategy bets a side of a race at most once in one lifetime of the race in the tracker. |
| TpdLeader.PlacedMeansBet | apps/pegasus/strategy/tpd_leader.go:92-103 | On every run the strategy's mark on a side says exactly that this strategy bet the side since the last finish it heard of. |
| TpdLeader.BetExactlyWhen | apps/pegasus/strategy/tpd_leader.go:29-106 | On every run the next message bets a side if and only if this strategy has not bet the side since the last finish it heard of, the message can be bet on, its delay has passed and the plan stakes something. |
| TpdLeader.RebetNeedsRebuildOrSweep | apps/pegasus/tpd/update.go:223-242 | Between two bets of one side of a race lies the making of a new strategy, or a finish the strategy heard of and, after it, a sweep that made the tracker forget the race. |
| TpdLeader.FinishedUntilForgotten | apps/pegasus/tpd/update.go:103-107 | A race that has finished stays finished until a sweep forgets it. |
| TpdLeader.SweptRaceIsBetAgain | apps/pegasus/tpd/update.go:233-237 | A run, on a clock that never goes back, in which a race swept after its finish is bet a second time. |
| TpdLeader.RebuiltProcessBetsAgain | apps/pegasus/process/process.go:64-82 | A run, on a clock that never goes back, in which a race is bet again after a rebuild, with neither finish nor sweep. |
| LeaderLaws.BetsSpelledOut | apps/pegasus/strategy/tpd_leader.go:29-122 | Under a plan that never refuses, the next message of any run bets a side if and only if the race is running, no warning is set, four or more are ranked, the first has a number of 1 or more, this strategy has not bet the side since it last heard of a finish, and the side's delay has passed: in nanoseconds of the feed's running time when that is one or more, and otherwise since the first running message of the race it heard. |
| LeaderLaws.ClockRunsFromFirst | apps/pegasus/strategy/tpd_leader.go:47-58 | On every run the local clock of a race is the reading at the first running message this strategy heard of it since it was made or last heard of a finish; no later message restarts it; and under a plan that never refuses no race is given up. |
| LeaderLaws.ReadingIsLongEnough | apps/pegasus/strategy/tpd_leader.go:55-65 | The milliseconds compared reach a delay exactly when that many million nanoseconds have passed by the clock chosen. |
| LeaderLaws.FeedClock | apps/pegasus/strategy/tpd_leader.go:55-65 | By the feed's clock, exactly when its seconds times a thousand reach the delay. |
| LeaderLaws.TrackingSpelledOut | apps/pegasus/strategy/tpd_leader.go:32-62 | Prices are polled exactly for a race that is not finished, until it runs and both sides were bet. |
| LeaderLaws.BetCarried | apps/pegasus/strategy/tpd_leader.go:80-101 | Each bet is on the first of the packet's order, at the plan's stake, to win or to back. |
| LeaderLaws.GivenUpExactly | apps/pegasus/strategy/tpd_leader.go:85-90 | A race is given up exactly when a clean running packet past an unbet side's delay finds no stake; its prices are then not polled. |
| ForwardProgress.ForwardProgress.Select | apps/pegasus/strategy/forward_progress.go:32-134 | The bets are exactly those the message is ready for, win and back on the best runner, lay on the worst; the new state, the tracking answer and the failure on an unreadable time as specified; other races untouched. |
| ForwardProgress.ForwardProgress.Continue | apps/pegasus/strategy/forward_progress.go:84-134 | The same, for a race that has started. |
| ForwardProgress.Begin | apps/pegasus/strategy/forward_progress.go:58-82 | The same, for a race that has not. |
| ForwardProgress.PlaceBets | apps/pegasus/strategy/forward_progress.go:107-134 | The same, once the extremes are known. |
| ForwardProgress.OpenedFirst | apps/pegasus/strategy/forward_progress.go:45-52 | A race's first message is answered as if the race had just been opened. |
| ForwardProgress.ForwardProgress.Extremes | apps/pegasus/strategy/forward_progress.go:197-238 | Whatever the reused buffer held, the answer is the first runners of greatest and least displacement along the summed direction of the field; none when nobody can be matched or neither has a cloth number. |
| ForwardProgress.ForwardProgress.FillMoves | apps/pegasus/strategy/forward_progress.go:198-211 | The buffer's old contents do not matter. |
| ForwardProgress.MostAndLeast | apps/pegasus/strategy/forward_progress.go:219-230 | The scoring loop finds the first greatest and the first least. |
| ForwardProgress.NormalisingKeepsExtremes | apps/pegasus/strategy/forward_progress.go:217-230 | Normalising the mean never changes who is first greatest or first least. |
| ForwardProgress.PickIsDetermined | apps/pegasus/strategy/forward_progress.go:219-237 | Any first greatest and first least give the one answer. |
| ForwardProgress.ExtremesUnique | apps/pegasus/strategy/forward_progress.go:222-230 | First greatest and first least are unique. |
| ForwardProgress.ExtremesBracketMean | apps/pegasus/strategy/forward_progress.go:217-230 | Of the normalised progress the program compares: the best is at least at the field's mean, the worst at most, and the mean is never negative. |
| ForwardProgress.RunIsBounded | apps/pegasus/strategy/forward_progress.go:32-134 | On every run, between two finishes of a race and by one strategy object, a rebuild making a new one: at most one win, one back and one lay bet, the lay never on the backed runner, and start snapshot and time those of the first running message with a readable time, from then on. |
| ForwardProgress.BetExactlyWhen | apps/pegasus/strategy/forward_progress.go:84-134 | On every run the next message bets a side if and only if it is ready for it and this strategy has not bet at that provider on the race since it last finished. |
| ForwardProgress.RebuiltProcessBetsAgain | apps/pegasus/process/process.go:64-82 | A race on its way is bet again by a process rebuilt after the first bet. |
| ForwardProgress.RunnersAreNamed | apps/pegasus/strategy/forward_progress.go:107-134 | Every bet of a message names a runner of at least 1 if and only if no bet is placed on an extreme below it. |
| ForwardProgress.ClothsAreEnough | apps/pegasus/strategy/forward_progress.go:201-237 | If every horse of the message has a saddlecloth, every bet names a runner. |
| ForwardProgress.LeaderWithoutClothIsBacked | apps/pegasus/strategy/forward_progress.go:232-235 | A field whose leader has no saddlecloth and is backed as runner 0. |
| ForwardProgress.FurtherMoveIsBacked | apps/pegasus/strategy/forward_progress.go:197-238 | Two horses, neither at the origin: the one behind moved 2 and is backed, the one ahead moved 1 and is laid. |
| ForwardLaws.OriginDoesNotMatter | apps/pegasus/core/vectorTypes.go:12-24 | Moving every position of every message by one vector changes nothing on any run but the starts remembered: the same messages bet, on the same runners. |
| ForwardLaws.MovesElsewhere | apps/pegasus/strategy/forward_progress.go:201-211 | Moving starts and positions alike leaves every move as it was. |
| ForwardLaws.MovesAreDisplacements | apps/pegasus/strategy/forward_progress.go:201-211 | Of a field whose starts are known there is one move a horse, in order, and added to the horse's start it gives where the horse is. |
| ForwardLaws.UnknownIsLeftOut | apps/pegasus/strategy/forward_progress.go:203-206 | A horse without a start might as well not be in the message. |
| ForwardLaws.SnapshotIsLast | apps/pegasus/strategy/forward_progress.go:70-73 | The start of a cloth is where its last horse in the off message was. |
| ForwardLaws.SnapshotIsOf | apps/pegasus/strategy/forward_progress.go:70-73 | Exactly the cloths of that message have a start. |
| ForwardLaws.NobodyExactlyWhen | apps/pegasus/strategy/forward_progress.go:213-237 | There is nobody to bet on exactly when no horse moved from a known start or neither extreme has a saddlecloth of 1 or more. |
| ForwardLaws.EqualMovesTie | apps/pegasus/strategy/forward_progress.go:222-230 | Of equal moves the first is both best and worst. |
| ForwardLaws.BetsSpelledOut | apps/pegasus/strategy/forward_progress.go:32-134 | On every run a side is bet only when it is due, and is bet when it is due unless the race came before under a code without a stake: the race opened at a distance of 1 to 1450 as a thoroughbred one or of 1 or more as a harness one, there is a stake, the off message and this one can be read and lie the side's delay apart in nanoseconds, the account was not bet yet, and there are extremes, two different ones for a lay. |
| ForwardLaws.StakeCarried | apps/pegasus/strategy/forward_progress.go:175-193 | On every run a bet carries 1, 0.8 or 0.6 for a thoroughbred race under 1050, 1250 or 1450, and 1 or 0.8 for a harness race under 2000 or not, by the distance the race was opened with; it is on the best runner since the off, or, to lay, on the worst. |
| ForwardLaws.StakesByDistance | apps/pegasus/strategy/forward_progress.go:175-193 | The stakes by code and distance, and for which there is none. |
| ForwardLaws.RunKeepsOpening | apps/pegasus/strategy/forward_progress.go:138-173 | On every run a race is ignored from its first message on exactly when that is of another code, has no distance or one under 1, or is a thoroughbred race over 1450; otherwise it keeps the distance of that message, and is given up only after a message under a code without a stake. |
| ForwardLaws.GivenUpExactly | apps/pegasus/strategy/forward_progress.go:95-113 | A race is given up exactly when a message past an unbet account's delay, with extremes to bet on, comes under a code without a stake; its prices are then not polled. |
| ForwardLaws.TrackingSpelledOut | apps/pegasus/strategy/forward_progress.go:45-86 | Prices are polled exactly for a race opened as one to bet, not finished, and not bet on both accounts yet. |
| ForwardLaws.UnreadableSpelledOut | apps/pegasus/strategy/forward_progress.go:58-91 | A timestamp that cannot be read is reported exactly when it was to start the race or to be waited by. |
| ForwardLaws.RemembersTheRun | apps/pegasus/strategy/forward_progress.go:40-43 | What the strategy remembers is what the run says, and after a finish nothing. |
| Vectors.SubUndoes | apps/pegasus/core/vectorTypes.go:12-24 | Subtracting and adding undo each other: a difference leads from the one point to the other. |
| Vectors.SubMoves | apps/pegasus/core/vectorTypes.go:12-24 | Moving both ends of a displacement leaves it alone. |
| Racing.MillisecondsReach | apps/pegasus/strategy/forward_progress.go:93-96 | Truncated milliseconds reach a delay over 0 exactly when that many million nanoseconds have passed, and one of 0 or less from the last millisecond before it on. |
| ForwardProgress.StepKeepsBounds | apps/pegasus/strategy/forward_progress.go:107-134 | One message keeps the bounds on bets. |
| ForwardProgress.BetsWaitForDelay | apps/pegasus/strategy/forward_progress.go:88-106 | On every run, a bet's message comes at least its side's delay after that first message, with a positive unit. |
| ForwardProgress.BetAfterOff | apps/pegasus/strategy/forward_progress.go:93-101 | The same from any state that kept its start. |
| Vectors.DirectionScales | apps/pegasus/core/vectorTypes.go:26-56 | Dotting with the normalised mean of a sum is dotting with the sum, up to one factor. |
| Vectors.FactorPositive | apps/pegasus/core/vectorTypes.go:33-51 | That factor is positive. |
| Vectors.SelfDot | apps/pegasus/core/vectorTypes.go:33-56 | A vector dotted with itself is not negative, and zero only for the zero vector. |
| Vectors.DotAdds | apps/pegasus/core/vectorTypes.go:12-56 | The dot product distributes over addition. |
| Vectors.ScaledOrder | apps/pegasus/core/vectorTypes.go:40-56 | A positive factor keeps the order. |
| Telegram.Sink.WaitTurn | logger/telegram/telegram.go:221-240 | One turn is taken, only when a token is there or as good as; the bucket is the refilled old one less that token; other channels are untouched; at most one sleep. |
| Telegram.Sink.TakeToken | logger/telegram/telegram.go:227-239 | The loop sleeps at most once, and only if there was no token on entry. |
| Telegram.Sink.Attempt | logger/telegram/telegram.go:199-213 | A first post answered with a 429 empties the bucket and waits as asked; nothing else is retried. |
| Telegram.Sink.Send | logger/telegram/telegram.go:199-218 | Two posts exactly when the first is answered with a 429, each on its own turn, apart by the wait asked for and by what an emptied bucket needs to fill. |
| Telegram.Sink.Dispatch | logger/telegram/telegram.go:169-184 | A record is dropped, folded into its key's open window, or sent alone and opens a new window; the ledger moves accordingly. |
| Telegram.Sink.Sweep | logger/telegram/telegram.go:186-197 | Exactly the windows that have run out, or all when forced, close, their counts moving into summaries; each channel takes exactly the turns of the summaries of its own closing windows that counted anything, one each, or two when answered with a 429. |
| Telegram.Sink.CloseOne | logger/telegram/telegram.go:191-195 | A closing window sends its summary on its own channel when it counted anything, and takes no turn otherwise nor on any other channel. |
| Telegram.Sink.CloseIfDue | logger/telegram/telegram.go:186-197 | An entry that closes with a count takes one turn on its own channel, or two when answered with a 429; one that closes without a count, or stays, takes none; no other channel changes. |
| Telegram.SummaryIsPosted | logger/telegram/telegram.go:191-195 | In the turns of a sweep every window that closes with a count has its own, one at least, and what the other windows take does not depend on it. |
| Telegram.FoldsTogether | logger/telegram/telegram.go:174 | Records fold together exactly when level, message and process are equal, in text without the separator. |
| Telegram.Sink.ChannelsApart | logger/telegram/telegram.go:135-140 | Bets go to the bet channel and everything else to the log channel. |
| Telegram.RefilledStaysPaced | logger/telegram/telegram.go:228-230 | Refilling keeps the pacing invariant. |
| Telegram.SpentStaysPaced | logger/telegram/telegram.go:231-235 | So does taking a turn. |
| Telegram.EmptiedStaysPaced | logger/telegram/telegram.go:208-213 | So does a 429. |
| Telegram.RefilledTwice | logger/telegram/telegram.go:228-230 | Refilling in two steps is refilling once, and no token is lost by waiting. |
| Telegram.RateBound | logger/telegram/telegram.go:221-240 | Over any interval, the turns of a channel, less a millionth each, are at most the burst plus the rate times the interval, 429s included. |
| Telegram.WaitIsEnough | logger/telegram/telegram.go:236-239 | After the wait computed there is a full token. |
| Telegram.WaitIsLeast | logger/telegram/telegram.go:236-239 | Any time short of it there is none, unless the wait is the least there is, a millisecond. |
| Telegram.BurstThenMore | logger/telegram/telegram.go:9-10 | The burst comes on top of the rate: a full bucket gives 18 turns at once and another four seconds later. |
| Telegram.BurstIsAllThereIs | logger/telegram/telegram.go:227-235 | At one moment no bucket gives more than eighteen turns. |
| Telegram.MinuteCanExceed | logger/telegram/telegram.go:221-240 | A nineteenth turn fits in the minute that begins with a given bucket if and only if the bucket holds a token, up to nineteen millionths. |
| Telegram.TurnsNeedTokens | logger/telegram/telegram.go:227-235 | Any sequence of turns uses up no more than the tokens in hand and those that came in. |
| Telegram.EvenTurns | logger/telegram/telegram.go:227-235 | Once there is a token, turns can follow every 3.33333 seconds without end. |
| Telegram.SentAloneKeeps | logger/telegram/telegram.go:174-183 | For every key, dispatched = sent alone + summarised + outstanding + replaced, and single sends at least a window apart; here for a record sent alone. |
| Telegram.FoldedInKeeps | logger/telegram/telegram.go:177-180 | The same for a folded record. |
| Telegram.SweptKeeps | logger/telegram/telegram.go:186-197 | The same for a closed window. |
| Telegram.SentKeeps | logger/telegram/telegram.go:169-184 | The whole ledger through a single send: nothing is ever replaced unless a record comes after its window closed and before the sweep. |
| Telegram.ApartOverall | logger/telegram/telegram.go:174-183 | Any two single sends of a key, not just neighbours, are a window apart. |
| TickLadder.FloorCents | engine/stake.go:64-84 | For every well-formed ladder, the floor is the greatest tick at or under the value, or 0. |
| TickLadder.FloorClipped | engine/stake.go:72-83 | The band loop, on a clipped value. |
| TickLadder.CeilCents | engine/stake.go:87-106 | From the first tick to the cap, the ceiling is the least tick at or over the value; 0 below, the cap above. |
| TickLadder.FloorToBetfairTick | engine/stake.go:64-84 | A tick is at most the lifted price exactly when it is at most the result. |
| TickLadder.CeilToBetfairTick | engine/stake.go:87-106 | A tick is at least the lowered price exactly when it is at least the result, between the first tick and the cap. |
| TickLadder.BetfairIsWellFormed | engine/stake.go:58-61 | The program's ladder is one: increasing limits, steps dividing their bands. |
| TickLadder.TicksByRange | engine/stake.go:58-61 | The ticks in cents: from 101 to 600 the tens, then to 1000 the twenties, to 2000 the fifties, to 3000 the hundreds, to 5000 the two hundreds, to 10000 the five hundreds, to 100000 the thousands. |
| TickLadder.WholeCentsUnlifted | engine/stake.go:64-88 | The lift changes nothing for a price of whole cents. |
| TickLadder.FloorInBand | engine/stake.go:72-80 | The arithmetic of a band gives the floor over the whole ladder. |
| TickLadder.CeilingInBand | engine/stake.go:97-102 | The arithmetic of a band gives the ceiling over the whole ladder. |
| TickLadder.AboveTheCap | engine/stake.go:64-84 | The cap is the floor of everything above it. |
| TickLadder.FloorUnique | engine/stake.go:64-84 | There is one floor. |
| TickLadder.Monotone | engine/stake.go:64-106 | Both roundings are monotone. |
| TickLadder.Idempotent | engine/stake.go:64-106 | Both are idempotent and leave ticks alone. |
| TickLadder.Adjacent | engine/stake.go:64-106 | Around a value off the ladder they are neighbouring ticks. |
| BetfairOrders.Quote | engine/place.go:118-178 | Which orders get past the checks. |
| BetfairOrders.LayPrice | engine/place.go:190-198 | There is a limit exactly when some tick is at or over the price and within the odds ceiling; it is the lowest tick from 110% of the price, or the highest under the ceiling when that is over it. |
| BetfairOrders.BackPrice | engine/place.go:203-208 | There is a limit exactly when some tick lies between MinOdds and 90% of the price, and it is the highest such tick. |
| BetfairOrders.BackSize | engine/place.go:212 | Rounded to whole cents, at least a dollar, within half a cent of the size that wins the target unless the dollar binds. |
| BetfairOrders.PlaceBetfair | engine/place.go:118-241 | An order is sent if and only if it is quoted and some tick would do as limit, and then with the right runner, side, label, limit and size, a lay liability rounded half away from zero to whole dollars. |
| BetfairOrders.Place | engine/place.go:25-40 | Dispatch by side: nothing goes out for a side without a stake. |
| BetfairOrders.BackMeetsTarget | engine/place.go:203-212 | A back order's limit is on the ladder, between MinOdds and 90% of the price; it wins its target to within half a cent of stake unless the dollar binds, and never less. |
| BetfairOrders.SentExactlyWhen | engine/place.go:118-208 | An order goes out exactly when its account, race, runner and selection are there, a back's first price backed, or a lay's first price laid, is 1.01 or more and within the odds, the last traded price is at or over the odds floor, and the ladder has a tick between the floor and 90% of that price, or, for a lay, between that price and the ceiling. |
| BetfairOrders.BackSent | engine/place.go:203-211 | The limit of a back is a tick at or under 90% of the first price backed and at or over the odds floor, and no tick between the limit and those 90% is passed over. |
| BetfairOrders.BackSizeSent | engine/place.go:212 | At that price its size, of a dollar or more, wins the stake times the unit to within half a cent of stake, or it is the dollar. |
| BetfairOrders.LaySent | engine/place.go:190-201 | The limit of a lay is a tick from the first price laid up to the odds ceiling: the lowest at or over 110% of that price, or the top of the ladder; where the ceiling is under all of those, the highest it permits. |
| BetfairOrders.LaySizeSent | engine/place.go:202 | It risks its stake times the unit, to the nearest dollar. |
| BetfairOrders.HalvesRoundAway | engine/place.go:202-212 | Halves round away from zero. |
| BetfairOrders.LabelIsCut | engine/place.go:181-188 | The label goes out whole up to 32 characters, and cut to its first 32 beyond. |
| BetfairOrders.LayStaysUnderCeiling | engine/place.go:190-202 | A lay order's limit is on the ladder, at least the price and at most the odds ceiling. |
| BetfairOrders.LayEnvelopeRounds | engine/place.go:202 | A lay liability is positive exactly when what it is to risk is half a dollar or more, 0 just below, and never half a dollar off. |
| BetfairOrders.AcceptedExactlyWhen | betting/betfair/bsp.go:16-34 | An order sent passes the exchange client's checks if and only if its runner has a market and a positive selection and, for a lay, half a dollar or more is to be risked. |
| BetfairOrders.RefusedLay | engine/place.go:190-202 | A lay order that is sent and refused. |
| EditDistance.Levenshtein | apps/_davo/util/strings.go:16-44 | For all inputs the two-row loop returns the length of a shortest script of single-rune edits: one of that length exists, none is shorter. |
| EditDistance.FillRow | apps/_davo/util/strings.go:27-39 | The inner loop turns one row of the table into the next. |
| EditDistance.Min3 | apps/_davo/util/math.go:5-14 | The minimum of three. |
| EditDistance.DistIsShortest | apps/_davo/util/strings.go:14-44 | The recurrence is the length of a shortest script. |
| EditDistance.ScriptFor | apps/_davo/util/strings.go:14-44 | From any cell of the table a script of its length can be read back. |
| EditDistance.EditMovesByOne | apps/_davo/util/strings.go:14-44 | No single edit, anywhere, moves the distance by more than one. |
| EditDistance.NoScriptIsShorter | apps/_davo/util/strings.go:14-44 | No script is shorter than the distance. |
| EditDistance.ZeroIffEqual | apps/_davo/util/strings.go:14-44 | Zero exactly for equal inputs. |
| EditDistance.Symmetric | apps/_davo/util/strings.go:14-44 | Symmetric. |
| EditDistance.Triangle | apps/_davo/util/strings.go:14-44 | The triangle inequality. |
| EditDistance.Bounded | apps/_davo/util/strings.go:14-44 | Between the difference of the lengths and the longer length. |
| Names.Normalise | apps/_davo/util/strings.go:68-108 | The loop computes the normal form, which has only letters, none twice in a row. |
| Names.NormaliseIdempotent | apps/_davo/util/strings.go:62-108 | Idempotent, and its fixed points are exactly the canonical names. |
| Names.NoiseIgnored | apps/_davo/util/strings.go:62-108 | A rune that folds to noise, or to nothing, inserted anywhere in a name changes nothing of its normal form, for a fold whose letters come rune by rune. |
| Names.LookalikeIgnored | apps/_davo/util/strings.go:50-108 | Neither does swapping a letter for a lookalike that folds to itself. |
| Names.DoubleIgnored | apps/_davo/util/strings.go:62-108 | Nor writing twice a rune that folds to one. |
| Names.CanonicalIsFixed | apps/_davo/util/strings.go:68-108 | Canonical names are left alone. |
| Names.CollapseIsCanonical | apps/_davo/util/strings.go:68-108 | Every normal form is canonical. |
| Names.SimilaritySpelledOut | apps/_davo/tips/resolve.go:159-174 | Of two different names, neither empty, the resemblance lacks of 1 the edit distance over the longer length in bytes; with an empty name it is 0. |
| Names.CharacterLength | apps/_davo/tips/resolve.go:168-171 | Lengths are in bytes of UTF-8: one to four a character. |
| Names.LookalikesListed | apps/_davo/util/strings.go:46-64 | The lookalikes, letter by letter; no letter is taken for another. |
| Names.SimilarityRange | apps/_davo/tips/resolve.go:159-174 | Between 0 and 1, equal to 1 exactly for equal normal forms, symmetric. |
| Resolve.RankEvent | apps/_davo/tips/resolve.go:108-144 | One event's runners, blanks skipped, scored and appended. |
| Resolve.ScoreRunner | apps/_davo/tips/resolve.go:113-141 | One runner's score, as BonusExactlyWhen gives it. |
| Resolve.Rank | apps/_davo/tips/resolve.go:94-156 | Every candidate of the race, best first; an error when there is none. |
| Resolve.Ranked | apps/_davo/tips/resolve.go:151-153 | Sorting keeps every candidate and puts the best first. |
| Resolve.ResolveEvent | apps/_davo/tips/resolve.go:32-91 | Succeeds if and only if some candidate resembles the name enough and beats every other by 0.15, and returns that one; an error says which of these failed, in terms that know no order. |
| Resolve.BonusExactlyWhen | apps/_davo/tips/resolve.go:108-144 | A candidate scores its resemblance, a number from 0 to 1 that is 1 exactly for equal normalised names, and 0.35 more exactly when its own number is the tip's and not 0. |
| Resolve.WinsSpelledOut | apps/_davo/tips/resolve.go:32-91 | A candidate wins exactly when it resembles the name by 0.45 or more and beats every other by 0.15 or more; the match reports its resemblance, without the bonus. |
| Resolve.CandidatesAre | apps/_davo/tips/resolve.go:108-144 | Exactly the runners whose name is not blank are candidates. |
| Resolve.OnlyTheFirstCanWin | apps/_davo/tips/resolve.go:32-91 | Looking at the first two ranked candidates decides it. |
| Resolve.SameField | apps/_davo/tips/resolve.go:94-156 | The events in another order give the same candidates, each as often. |
| Resolve.OrderIrrelevant | apps/_davo/tips/resolve.go:32-156 | Whatever order the map is walked in, resolving fails every time or gives the same match. |
| Resolve.BothReasons | apps/_davo/tips/resolve.go:32-91 | Both errors of a tie can be given of the same candidates if and only if the best score is shared by one that bears enough resemblance and one that does not. |
| Resolve.TieErrorDependsOnOrder | apps/_davo/tips/resolve.go:94-156 | Two events that end in one error in one order and in the other error in the other. |
| Resolve.SuchNamesExist | apps/_davo/tips/resolve.go:94-156 | Concrete names for such events. |
| Gate.VisionGate.Admit | apps/_davo/engine/gate.go:54-83 | Whatever the readings, a key is admitted only if, by the full history as at the latest reading, it was not admitted in the last ten minutes and fewer than 300 admissions lie in the last hour; with no reading over ten minutes behind, every such key is admitted; with none an hour behind, a call within the rate is refused only for a key admitted before. It is recorded under its own reading. |
| Gate.AdmissibleSpelledOut | apps/_davo/engine/gate.go:54-83 | Admissible is a key not admitted in the last ten minutes when fewer than 300 admissions, counted one by one, lie in the last hour. |
| Gate.VisionGate.Prune | apps/_davo/engine/gate.go:86-101 | Pruning forgets nothing that still matters. |
| Gate.VisionGate.PruneSeen | apps/_davo/engine/gate.go:87-91 | Exactly the expired keys go. |
| Gate.VisionGate.Compact | apps/_davo/engine/gate.go:93-100 | The in-place compaction keeps exactly the calls after the cutoff, in order. |
| Gate.Pruned | apps/_davo/engine/gate.go:93-100 | Pruning at one cutoff and then another, in either order of time, is pruning at the later. |
| Gate.PrunedKeepsMemory | apps/_davo/engine/gate.go:87-91 | The pruned map still has every key of the last ten minutes, and no other if it had none before. |
| Gate.SeenDecides | apps/_davo/engine/gate.go:66-68 | A key admitted in the last ten minutes is in the map; one in the map was admitted, in the last ten minutes when the map has no older. |
| Gate.RecordedKeepsMemory | apps/_davo/engine/gate.go:76 | Recording an admission keeps the map so. |
| Gate.RecordedKeepsLimits | apps/_davo/engine/gate.go:66-77 | Recording an admissible key keeps repeats ten minutes apart and fewer than 300 calls in the hour before each, both less the lag. |
| Gate.NoHourExceedsLimit | apps/_davo/engine/gate.go:54-101 | No half-open hour less the lag, wherever it starts, holds more than 300 admissions; a full hour when readings come in order. |
| Gate.StaleAdmitsMore | apps/_davo/engine/gate.go:54-60 | Being judged as at a later reading than its own only ever admits more. |
| Gate.StaleRun | apps/_davo/engine/gate.go:54-60 | A run in which it does: a key admitted twice within ten minutes by its own readings. |
| Gate.TooStaleIsRefused | apps/_davo/engine/gate.go:54-68 | Calls with readings over ten minutes behind, of which the last is refused although the history would admit it. |
| Gate.KeptDecides | apps/_davo/engine/gate.go:66-74 | What the gate keeps decides as the full history does, in the same three degrees. |
| Gate.PrunedStaysKept | apps/_davo/engine/gate.go:86-101 | Pruning at any reading, stale or not, keeps that so. |
| Gate.RecordedStaysKept | apps/_davo/engine/gate.go:76-77 | So does recording an admission. |
| Pollers.StepKeepsInv | betting/betfair/races.go:75-163 | Under any step of any participant, a poller's cancel function is in exactly one place: registered, taken, or called. |
| Pollers.RunKeepsInv | betting/betfair/races.go:75-163 | The same over every interleaving. |
| Pollers.AtMostOnePoller | betting/betfair/races.go:75-105 | In every reachable state, a live uncancelled poller whose cancel no stopper has taken is the registered one; so a key has at most one. |
| Pollers.StartsExactlyWhen | betting/betfair/races.go:75-105 | A start adds and registers one poller exactly when the race is loaded and none is registered, and changes no other. |
| Pollers.CancelledPollerGoes | betting/betfair/races.go:136-163 | A poller that was cancelled, or whose parent was, leaves at its next turn and its race can be started again; one that was not polls on until its market closes. |
| Pollers.TakesItsOwn | betting/betfair/races.go:111-120 | A stop takes its own key's cancel function out of the register and no other. |
| Pollers.ParentEndsItsPollers | betting/betfair/races.go:136-163 | When a context dies, its pollers leave at their next turn; those of others are not told. |
| Pollers.StopEndsPoller | betting/betfair/races.go:107-120 | A stop, its cancel called, ends that poller and touches no other. |
| Pollers.StopAllCancelsAll | betting/betfair/races.go:122-134 | After a stop-all with no later start, whatever else interleaves, every poller ever started is cancelled once no cancel is pending. |
| Pollers.CancelsDrain | betting/betfair/races.go:122-134 | Running the pending cancels in any order drains them and touches nothing else. |
| Pollers.ExitTakesOwnOrNewer | betting/betfair/races.go:136-163 | A leaving loop takes another poller's cancel if and only if its key is registered although its own cancel was already taken or called. |
| Pollers.LateExitDeregistersNewer | betting/betfair/races.go:136-163 | An interleaving in which it does. |
| Pollers.Client.StartRunnerUpdates | betting/betfair/races.go:75-105 | The critical section of a start, as a protocol step. |
| Pollers.Client.TakeCancel | betting/betfair/races.go:111-120 | The critical section of a stop. |
| Pollers.Client.TakeAllCancels | betting/betfair/races.go:122-134 | The critical section of a stop-all. |
| Pollers.Client.CallCancel | betting/betfair/races.go:111-134 | A stopper calling a cancel function it took, after unlocking. |
| Pollers.Client.LoopTurn | betting/betfair/races.go:136-163 | A loop leaves when it is cancelled or its market has closed. |
| Pollers.Client.LoopExit | betting/betfair/races.go:136-163 | The deferred stop of a leaving loop. |

## Left out

- Floating point: prices, tokens and positions are reals, so rounding, NaN and infinities are not
  modelled, nor is a price so large that its cents overflow an integer.
- The Unicode tables behind accent stripping and upper-casing (a parameter that leaves A to Z alone);
  account names are trimmed of Unicode white space, but lower-cased over ASCII only.
- Splitting and trimming the venue, name and number columns of an event: `Resolve` takes them split,
  a number that does not parse as `None`.
- Parsing of timestamps (optional integers) and of the TPD warning word (two flags), the course
  tables behind a sharecode (whether it resolves is an input), the warning map for unresolved codes.
- The staking plan of the TPD leader is a parameter; the program's is the constant 1.
- Betmatic orders, `GetLiability`, venue tables, the exchange call and its reply; the client's own
  checks before the call are in `BetfairOrders.Accepted`.
- Kernel status pages, process listings, application settings documents, and the fields of a settings
  document (whether one is valid, and which accounts it names, are inputs).
- What an application does while starting and how feeds and networks behave: whether it starts, and
  how an attempt to build a process ends, are inputs of each operation.
- Mutexes: each operation is one critical section, and a crash falls between two. A process's stop
  does not wait for its old goroutine in the program; here one run at a time is modelled.
- The applications' fan-out maps are held as one map, since a key names its application.
- The kernel's store is the three maps, each store call going through or not; `Stores` proves that
  both stores are those maps.
- KernelRuns.RestartRoundTrip: asks that state writes went through and that listings are truthful;
  StartWithoutItsWrite shows a record that is wrong otherwise.
- Stores.DocStore.Process: identifiers are slash-free, as the layouts need; timeouts and the
  filesystem's own path cleaning are not modelled.
- The text of a refusal by the gate.
- Names.NoiseIgnored: asks that the letters of a fold come rune by rune, a property of the Unicode
  tables, which are not part of this model.
- Names.LookalikeIgnored: asks the same.
- Names.DoubleIgnored: asks the same.
- Telegram's queue, its dropping of records when full, the goroutine and its ticker, and the message
  texts. A second 429 in a row is given up on like any failure.
- Telegram.Sink.Dispatch: without a dedupe window the program does not read the clock here; the model
  does, for the ledger's sake.
- Pollers: what a poll does to the runner books, and the timer between polls.
- `logger/ring.go`, HTTP handlers, JWT, MQTT and UDP clients, S3: no state of the kind proved here.
