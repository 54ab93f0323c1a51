# Verification of burnt-sushi

burnt-sushi blocks Spotify's advertisements. A host program watches for Spotify, injects a blocker
library into it, talks to that library over RPC, and takes it out again. This project models the
program's control logic in Dafny and proves what its parts promise each other.

`dafny verify dfyconfig.toml` checks everything.

## What is modelled

- **One load of the blocker** (`BlockerLoad`): a step machine for the remote procedures, the RPC
  thread, the host's client and Spotify's own threads. One step is one atomic section, so a list of
  actions is an interleaving. Filter stores and log channels are references (the index of the RPC
  run that made them), so it matters which store a detour captured. `LoadSafety` proves what every
  interleaving of one server and one client keeps, `LoadLink` what holds of any number of them, and
  `LoadStop` exactly when `stop_rpc` can leave a hook on.
- **The hook lifecycle** (`HookProtocol`): any number of loads in any Spotify processes, and hosts
  that come one after the other, crash at any step, and have their `run` dropped at any await.
  `HookProtocolSafety`, `HookProtocolCancel`, `HookProtocolSlots`, `HookProtocolShutdown`,
  `StaleStore` and `EjectRace` hold the results over whole runs; `Runs` builds the runs that show what
  can go wrong. `Instances` puts any number of instances, each with a host of its own, behind the
  singleton and shows that their runs are runs of this one-host world.
- **The same code as objects**: `Rules.Filters`, `Detours`, `Server` (the RPC server, the log
  channel and the host's setup calls) and `HookState` (the hook state, the eject loop, `run` and
  `stop`), each method with its loops and fields and its outcomes given from outside.
- **Scanner and consumer** (`Scanner`, and `Consumer` with the real hook state), **named mutex and singleton** (`NamedMutex`, `Singleton`),
  **self-update** (`Update`), **log file** (`Utf8`, `LogFile`), and the **search for the blocker and
  the filters** (`Resolver`).

Four things are given as functions or step arguments instead of being modelled: regular expressions
(which pattern lists compile, which patterns match), the parsing of versions and of TOML, how the
system folds file names before it compares them, and what the operating system answers. A panic of
the host is a crash; a panic inside a remote procedure poisons its lock.

## What the code does not promise

These are properties one might expect that are false of the code. Each has its exact condition.

- `stop_rpc` turns the detours off before it tells the RPC thread to end. It can return with a hook
  on exactly if an `enable_filtering` request is being served or can still arrive when it starts
  (`LoadStop.StopLeavesHookOnIff`). Exactly then some run from that call on ejects the module with a
  hook on: the host's own module (`EjectRace.OwnStopEjectsHookOnIff`) or, but for a leftover whose hook
  was on without a server already, a leftover (`EjectRace.ClearEjectsHookOnIff`). Such a run from
  nothing is `EjectRace.EjectedWithHookOn`.
- The eject loop looks for the default blocker file name, but `--blocker` accepts any name. An
  enabled detour consults the store of the live server in every run exactly if the file has the
  default name, as the system compares names (`StaleStore.CoherentIffDefaultName`). Hosts started
  without `--blocker` only find files of that name (`StaleStore.WithoutOptionCoherent`).
- A window that closes while the host is still hooking makes the scanner publish under the
  consumer's read guard, and the host stops for good (`Scanner.CanFreeze`, `Scanner.FreezesIff`).
- A second search for the blocker returns the same path without writing exactly unless the write to
  the provided path fails and leaves part of a file there that the first search does not itself take
  (`Resolver.SecondCall`; `Resolver.SecondCallDiffers` is a case).
- A clock set back, or a marker that was not written, lets an update check through early
  (`Update.NextCheckProceedsIff` says exactly when, on any trace; `Update.ChecksCanBeCloser` has a
  case of each).

## Model

| member | source | states |
|---|---|---|
| Rules.ConfiguredCheck | burnt-sushi-blocker/src/filters.rs:39-44 | with the rulesets the host sends, a name fails the check iff the allowlist is non-empty and nothing in it matches, a URL iff some denylist pattern matches |
| Rules.Filters.ReplaceRuleset | burnt-sushi-blocker/src/filters.rs:22-24 | stores the ruleset of one hook in the shared store and leaves the other hook's alone |
| Rules.Filters.Check | burnt-sushi-blocker/src/filters.rs:27-30 | in a store that holds what the host configured, exactly the requests the configuration does not block pass |
| Detours.FirstInitialisationWins | burnt-sushi-blocker/src/hooks.rs:44-53 | over any calls and failures a detour is initialised iff some call could do it, and holds for good what the first such call passed |
| Detours.CallOutcome | burnt-sushi-blocker/src/hooks.rs:40-66 | successful `enable` means both on, `disable` succeeds iff both end off, and no call replaces what a detour holds |
| Server.Hooks.Enable | burnt-sushi-blocker/src/hooks.rs:40-56 | the detour state and result after any pattern of failures, as the value function of `Detours` that the lemmas are about |
| Server.Hooks.Disable | burnt-sushi-blocker/src/hooks.rs:58-66 | the same for `disable` |
| Server.Hooks.Call | burnt-sushi-blocker/src/hooks.rs:78-106 | a call is blocked iff the hook is on, the closure does not panic, the argument decodes and the captured store rejects it; exactly those decoded calls are logged with that verdict, and a panic is logged and passes |
| Server.LoggerManager.LogSender | burnt-sushi-blocker/src/lib.rs:177-179 | the channel is made once, with the loggers registered by then |
| Server.LogChannel.Broadcast | burnt-sushi-blocker/src/lib.rs:146-175 | one request or message reaches each logger once per registration |
| Server.LogChannel.Drain | burnt-sushi-blocker/src/lib.rs:185-198 | the receive loop hands the whole queue, in order, to every logger of the snapshot |
| Server.OnlyLoggerHearsAll | burnt-sushi-blocker/src/lib.rs:181-201 | the only logger of a channel hears every message, in order, once |
| Server.NotListedHearsNothing | burnt-sushi-blocker/src/lib.rs:181-201 | a logger that is not in the snapshot hears nothing |
| Server.ServerImpl.RegisterLogger | burnt-sushi-blocker/src/lib.rs:219-228 | appends the logger and leaves the channel alone |
| Server.ServerImpl.SetRuleset | burnt-sushi-blocker/src/lib.rs:230-265 | succeeds iff both pattern lists compile; then the store has the ruleset, else nothing changed |
| Server.ServerImpl.EnableFiltering | burnt-sushi-blocker/src/lib.rs:267-276 | enables with this server's store and its once-made channel |
| Server.ServerImpl.DisableFiltering | burnt-sushi-blocker/src/lib.rs:278-287 | disables the detours as `disable` does |
| Server.FillList | burnt-sushi/src/rpc.rs:83-88 | the copied list equals the patterns iff there are fewer than 2^32, else the builder panics |
| Server.RunClient | burnt-sushi/src/rpc.rs:71-110 | the setup calls get as far as `enable` iff the configuration is accepted; then both rulesets are set and the host's logger is the snapshot; before that no hook is touched |
| LoadSafety.EnableStepsAreEnable | burnt-sushi-blocker/src/hooks.rs:47-53 | the four atomic steps of the machine, run undisturbed, are one `enable` for every pattern of failures |
| LoadSafety.StopStepsAreDisable | burnt-sushi-blocker/src/lib.rs:71 | the two disabling steps of `stop_rpc` are one `disable`, and where it fails the state is that of the panic |
| LoadSafety.InvNext | burnt-sushi-blocker/src/lib.rs:29-288 | every step of every thread keeps the invariant of a load that starts one server and spawns one client |
| LoadSafety.InvExec | burnt-sushi-blocker/src/lib.rs:29-288 | so does every interleaving |
| LoadLink.EveryLoadIsLinked | burnt-sushi-blocker/src/lib.rs:29-125 | over any interleaving of any number of servers and clients: an untold thread is one `RPC_STATE` knows of, a registered server has not been told to end, and client and thread agree on the request being served |
| LoadStop.StopLeavesHookOnIff | burnt-sushi-blocker/src/lib.rs:68-75 | in any load, some run of `stop_rpc` returns with a hook on iff, as it starts, an `enable_filtering` is ahead |
| LoadStop.QuietExec | burnt-sushi-blocker/src/lib.rs:68-75 | with none ahead, each detour stays off from the moment `stop_rpc` turned it off, in every interleaving of any load |
| LoadStop.RaceRun | burnt-sushi-blocker/src/lib.rs:71-72 | with one ahead, a run that returns normally with a hook on, whatever stage the setup was in: it is served between disabling the detours and sending the disconnect signal |
| LoadStop.JoinedStaysOff | burnt-sushi-blocker/src/lib.rs:73 | once the thread is joined nothing turns a hook on until the next `start_rpc` |
| LoadStop.OffUnlessEnabled | burnt-sushi-blocker/src/lib.rs:108-116 | after the last `disable`, hooks stay off in every run without a further step of `enable` |
| HookProtocolSafety.StepKeeps | burnt-sushi/src/blocker.rs:84-205 | every step of host, module or world keeps the lifecycle invariant |
| HookProtocolSafety.RunKeeps | burnt-sushi/src/blocker.rs:49-205 | so does every run, with crashes and cancellation anywhere |
| HookProtocolSafety.NeverInjectedAgain | burnt-sushi/src/blocker.rs:95-136 | after the eject loop the injected file is never one that is already loaded |
| HookProtocolSafety.EnabledDetoursUseTheLiveStore | burnt-sushi-blocker/src/hooks.rs:44-53 | in every run an enabled detour holds the store and log channel of the only server of its load |
| HookProtocolSafety.DecisionsFollowTheConfiguration | burnt-sushi/src/rpc.rs:71-110 | in every interleaving every decision, every verdict under way and every possible next one is what the configuration says; unhooked and undecodable calls pass |
| HookProtocolSafety.LogsAreDeliveredInOrder | burnt-sushi-blocker/src/lib.rs:127-201 | the host's logger is the snapshot and hears an in-order, duplicate-free prefix of what was sent, each flag true to the rules |
| HookProtocolSafety.HookedMeansOneRunningBlocker | burnt-sushi/src/blocker.rs:133-162 | when the host is hooked, its module is the only blocker in that process and has a registered server, whose thread runs untold or failed of itself |
| HookProtocolCancel.StoppedHostLeavesNoServer | burnt-sushi/src/main.rs:167-183 | whatever the blocker files are called and wherever `run` was dropped, after `stop` no module this host injected last has a server; before that at most the one it answers for |
| HookProtocolShutdown.StoppedHostLeavesHooksOff | burnt-sushi/src/main.rs:167-183 | with calm stops, once `stop` is done Spotify is unfiltered: no server, and both hooks off in every module the host injected last, unless its `stop_rpc` panicked |
| HookProtocolShutdown.EjectedOnlyWithHooksOff | burnt-sushi/src/blocker.rs:185-193 | whatever the blocker files are called, if every `stop_rpc` is called with no `enable_filtering` ahead, modules are ejected only with both hooks off and no RPC thread |
| EjectRace.OwnStopEjectsHookOnIff | burnt-sushi/src/blocker.rs:185-193 | in every reachable world, from the call of its own module's `stop_rpc` some run brings the host to the eject with a hook on iff an `enable_filtering` is ahead then |
| EjectRace.ClearEjectsHookOnIff | burnt-sushi/src/blocker.rs:103-120 | in every reachable world, from the call of a leftover's `stop_rpc` some run leads to its eject with a hook on iff an `enable_filtering` is ahead then, or it has no server and a hook on already |
| EjectRace.EjectedWithHookOn | burnt-sushi/src/blocker.rs:185-193 | such a world is reached: from nothing and for any file name, a run brings the host to the eject with a hook on |
| HookProtocolShutdown.SettledMove | burnt-sushi/src/blocker.rs:103-120 | every step keeps stopped modules quiet, leftovers of crashed hosts included |
| StaleStore.CapturedForTheLoad | burnt-sushi-blocker/src/hooks.rs:44-50 | a detour keeps the store it captured for the rest of the load |
| Runs.FirstHook | burnt-sushi/src/blocker.rs:84-164 | the full sequence from nothing to both hooks on is a run of the model, for any file name |
| StaleStore.StaleRun | burnt-sushi/src/blocker.rs:95-144 | with another file name, a failed eject and a second hook leave the detours on a store no server writes |
| StaleStore.CoherentIffDefaultName | burnt-sushi/src/blocker.rs:95-98 | all runs keep enabled detours on the live store iff the blocker file has the default name, as the system compares names |
| StaleStore.WithoutOptionCoherent | burnt-sushi/src/resolver.rs:67-103 | for hosts started without `--blocker`, on any file systems, every run keeps enabled detours on the live store |
| HookState.EjectLeftovers | burnt-sushi/src/blocker.rs:95-121 | ends within (references to clear + failing ejects) rounds; removes every blocker and keeps every other module in order, or ends with an error for a lost process or a module without `stop_rpc`; adds no server |
| HookState.Process.FindModuleByName | burnt-sushi/src/blocker.rs:95-99 | finds a module of that name if there is one |
| HookState.Deploy | burnt-sushi/src/blocker.rs:133-144 | a fresh module with a running server iff all three steps work, else no server added |
| HookState.SpotifyHookState.UnhookSpotify | burnt-sushi/src/blocker.rs:167-205 | the state is unhooked at once; if `stop_rpc` works the recorded server is stopped even if cancelled at the join, and only then is the module ejected; a missing procedure or a panicked client panics |
| HookState.SpotifyHookState.HookSpotify | burnt-sushi/src/blocker.rs:84-165 | success leaves exactly one blocker, fresh, running and recorded; every error, panic or cancellation leaves nothing recorded and no server added |
| HookState.SpotifyAdBlocker.Handle | burnt-sushi/src/blocker.rs:56-71 | a handled Running leaves exactly that process recorded, a handled Stopped none; one event keeps all running servers accounted for, if the `stop_rpc` of what it unhooks works |
| HookState.SpotifyAdBlocker.Stop | burnt-sushi/src/blocker.rs:76-80 | ends unhooked, with the recorded server stopped if its `stop_rpc` works |
| HookState.SpotifyAdBlocker.RunThenStop | burnt-sushi/src/main.rs:167-183 | over any events and any cancellation, if the `stop_rpc` calls of recorded modules work, no process ends with a server it did not run before |
| Scanner.Scan | burnt-sushi/src/spotify_process_scanner.rs:94-113 | the first main window in scan order, or the error met before it |
| Scanner.ListenStopped | burnt-sushi/src/spotify_process_scanner.rs:119-161 | the first event that shows a Spotify main window, the end of the stream iff there is none, an error iff the event hook cannot be installed or removed |
| Scanner.ListenRunning | burnt-sushi/src/spotify_process_scanner.rs:163-197 | Stopped iff the main window itself is destroyed before any event of another thread, which is a panic; errors as above |
| Scanner.PublishedAlternate | burnt-sushi/src/spotify_process_scanner.rs:74-92 | published states alternate, a Running first |
| Scanner.ConsumerAgrees | burnt-sushi/src/blocker.rs:56-71 | versions are handled in increasing order, and whenever the consumer has caught up it is hooked to exactly the published process, or to none |
| Consumer.Run.HandleLatest | burnt-sushi/src/blocker.rs:56-65 | handling a version leaves the hook state as that version says |
| Consumer.Run.Follow | burnt-sushi/src/blocker.rs:49-72 | over any scanner steps and handlings that work, whenever the last version has been seen the hook state records exactly the published process, or none |
| Scanner.CanFreeze | burnt-sushi/src/blocker.rs:57-60 | some run publishes under the held guard and can never move again |
| Scanner.FreezesIff | burnt-sushi/src/spotify_process_scanner.rs:115-117 | a step freezes the host iff it publishes while a state is being handled |
| NamedMutex.Mutex.TryLock | burnt-sushi/src/named_mutex.rs:27-37 | an error iff the wait fails, a guard iff the mutex is free or already owned by the thread; the count goes up with it, else nothing changes |
| NamedMutex.Mutex.Lock | burnt-sushi/src/named_mutex.rs:39-47 | the same for a wait without end: it is over iff the mutex is free or already owned |
| NamedMutex.Mutex.Unlock | burnt-sushi/src/named_mutex.rs:62-66 | releases once, and dropping the unlocked guard releases nothing |
| NamedMutex.Mutex.Drop | burnt-sushi/src/named_mutex.rs:79-89 | releases a live guard, and does nothing for a released one |
| NamedMutex.MutexConservation | burnt-sushi/src/named_mutex.rs:27-89 | for any calls by any threads, the count is the number of live guards, all of the owner; no release is refused and no guard releases twice |
| Singleton.SingletonGuard | burnt-sushi/src/main.rs:126-143 | the polling loop goes on exactly while the mutex is held, and `run` is entered iff a poll got it |
| Singleton.AtMostOneRuns | burnt-sushi/src/main.rs:124-144 | at most one instance holds the guard or is inside `run` |
| Singleton.SuccessorRunsAfterPredecessor | burnt-sushi/src/provisioning/update.rs:199-216 | a restarted successor is inside `run` only after its predecessor returned from it or died |
| Singleton.EndedHasStopped | burnt-sushi/src/main.rs:181-187 | an instance that ended well finished `stop` first and then gave the guard back |
| Singleton.FreeMutexIsTaken | burnt-sushi/src/main.rs:129-136 | a poll enters `run` iff no instance holds the guard |
| Instances.ManyInstancesAreOneHost | burnt-sushi/src/main.rs:124-144 | for any number of instances racing, restarting and dying, at most one host is up, and the run is one of the one-host lifecycle, so its results hold |
| Instances.SuccessorFindsNoServer | burnt-sushi/src/main.rs:167-187 | while a restarted successor is inside `run`, its predecessor died, or finished `stop` and left no server in any module it injected last |
| Update.BackupIsAnotherFile | burnt-sushi/src/provisioning/update.rs:176 | the backup path never is the executable's own path |
| Update.UpdateViaExeSwap | burnt-sushi/src/provisioning/update.rs:175-197 | in every intermediate state and on every failure the old image is whole at its path or the backup path; success puts both where they belong; nothing else is touched |
| Update.Disk.Copy | burnt-sushi/src/provisioning/update.rs:184-186 | a copy that may stop anywhere changes its target only |
| Update.PerformUpdate | burnt-sushi/src/provisioning/update.rs:49-70 | a restart happens iff every earlier step succeeded, the installer or the swap included, and says which |
| Update.Marker.ShouldCheckForUpdate | burnt-sushi/src/provisioning/update.rs:78-93 | the decision and the marker afterwards, as the value function the trace lemmas are about |
| Update.ChecksAreAWeekApart | burnt-sushi/src/provisioning/update.rs:18-93 | on any trace with a clock that never goes back and marker writes that work, two checks are 168 hours apart |
| Update.NextCheckProceedsIff | burnt-sushi/src/provisioning/update.rs:28-38 | on any trace, exactly when the next unmetered call goes ahead after one that did, whatever was skipped in between |
| Update.ChecksCanBeCloser | burnt-sushi/src/provisioning/update.rs:28-38 | two checks less than a week apart, for a clock set back and for an unwritten marker |
| Utf8.ValidAfterNewline | burnt-sushi/src/logger/file.rs:57-58 | UTF-8 text can be cut after any newline byte into two valid texts |
| Utf8.ValidConcat | burnt-sushi/src/logger/file.rs:84 | appending valid text keeps the text valid |
| LogFile.Truncate | burnt-sushi/src/logger/file.rs:56-66 | the loop computes `Truncated` and keeps UTF-8 valid |
| LogFile.TruncationIsLongest | burnt-sushi/src/logger/file.rs:57-66 | the longest tail that begins a line and has at most 1 MiB, empty if there is none |
| LogFile.TruncationKeepsUtf8 | burnt-sushi/src/logger/file.rs:58 | the cut never splits a code point |
| LogFile.FileLog.OpenFile | burnt-sushi/src/logger/file.rs:30-75 | opens once, truncating a file over 10 MiB; exactly which errors and contents make it fail; a failed write-back leaves the beginning of the tail to be kept, any other failure the file as it was |
| LogFile.FileLog.Log | burnt-sushi/src/logger/file.rs:79-86 | appends the message and a newline, in append mode as after a truncation; a failed write leaves its beginning and panics |
| LogFile.RunSession | burnt-sushi/src/logger/file.rs:78-87 | a whole session of the writer is the value function `Session` and never panics on UTF-8 |
| LogFile.FileIsARecentPast | burnt-sushi/src/logger/file.rs:30-86 | over any sessions the file is everything ever logged, from the beginning of some line on |
| LogFile.SessionIsKept | burnt-sushi/src/logger/file.rs:44-74 | at most 10 MiB are left on opening, and after them stand all messages of the session, in full |
| LogFile.FileIsUtf8 | burnt-sushi/src/logger/file.rs:53-54 | the file stays UTF-8, so reading it back never fails |
| Resolver.FileSystem.TryLoadBlocker | burnt-sushi/src/resolver.rs:28-60 | the file system and outcome afterwards, for any faults, as the value function the lemmas are about |
| Resolver.FileSystem.Resolve | burnt-sushi/src/resolver.rs:67-103 | the same for the whole search |
| Resolver.ResolvedBlocker | burnt-sushi/src/resolver.rs:67-103 | a found blocker is a file, the provided one or of the current version and the default name; nothing changes but the provided and temporary locations and the directories above them |
| Resolver.SecondCall | burnt-sushi/src/resolver.rs:67-103 | a second search returns the same path without writing unless the write to the provided path fails, leaves part of a file, and the first search does not take that part |
| Resolver.SecondCallDiffers | burnt-sushi/src/resolver.rs:54-55 | a file system on which the second search returns another path |
| Resolver.FileSystem.TryLoadConfig | burnt-sushi/src/resolver.rs:106-132 | the file system and outcome of one source |
| Resolver.FileSystem.ResolveFilterConfig | burnt-sushi/src/resolver.rs:105-164 | the same for the whole search |
| Resolver.ReadableFilesAreKept | burnt-sushi/src/resolver.rs:114-121 | a file readable as text is never altered, even a malformed one |
| Resolver.ResolvedConfig | burnt-sushi/src/resolver.rs:146-163 | the search always succeeds and takes the first parseable source; it panics only for an unreadable provided path without a parent |

## Left out

- HookProtocolSafety.EnabledDetoursUseTheLiveStore: asks that the injected files have the default blocker file name, because without it the statement is false (`StaleStore.CoherentIffDefaultName`).
- LogFile.FileIsARecentPast: covers one writer at a time and messages written whole; a crash in the middle of a write and disk errors are not modelled.
- Update.PerformUpdate: takes the outcomes of the installer, the release lookup, approval, download and spawning as given; what the installer does to the disk is not modelled.
- NamedMutex.Mutex.Lock: returns `Unavailable` where the source goes on waiting, since a method cannot wait for another thread.
- Two live clients of one server: in `BlockerLoad` a new client takes the place of one whose host is gone, once no request of that one is left to serve.
- The host's crash inside `LoadLibrary` or before a remote call has taken the `RPC_STATE` lock: a remote call is issued and holds the lock in one step, and injection is one step.
- `HookState` and `HookProtocol` are two views of the same host code; the first gives each remote call one outcome, the second interleaves it with the module's threads.
- Calls of a hooked function that entered a detour before the module was ejected, and the unwinding of panics inside a detour.
- Progress of the scanner or the eject loop under failures that never end: the code gives no such promise.
- Injection, detour patching, window enumeration, pipes and consoles: operating system and library behaviour, taken as given outcomes.
- Regular expressions, TOML, version and Cap'n Proto decoding: given as functions, or as requests that decode.
- Network download, release selection, notifications, tray icon, installer, argument parsing and log levels: user interface or easy members.
- Runs that ignore the singleton, and `force_unlock`: they step outside the ownership protocol on purpose.
