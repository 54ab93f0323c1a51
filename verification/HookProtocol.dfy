/**
 The host side of the hook lifecycle, as in burnt-sushi/src/blocker.rs and the shutdown order of
 burnt-sushi/src/main.rs, over all the blocker modules loaded in Spotify processes.

 A `Move` is one step of the host, of a loaded module, or of the world around them. The host can
 crash at any point, its `run` future can be dropped at every await, and another host may then be
 started. Panics of the host (every `unwrap` and every error out of `hook_spotify`) are crashes.
 */
module HookProtocol {
  import opened Wrappers
  import opened Paths
  import opened Rules
  import opened BlockerLoad

  /** A loaded module; `count` is its `LoadLibrary` count, `owner` the host that injected it (0: none of this run). */
  datatype Slot = Slot(pid: nat, path: Path, count: nat, owner: nat, load: Load)

  /** Where the host is in `hook_spotify`, `unhook_spotify` and the loop of `run`; `after` is hooked next. */
  datatype Pc =
    | Unhooked
    | Clear(pid: nat)
    | ClearCalled(pid: nat, key: nat)
    | ClearEject(pid: nat, key: nat)
    | ReadConfig(pid: nat)
    | ReadBlocker(pid: nat)
    | Inject(pid: nat)
    | Start(pid: nat, key: nat)
    | StartCalled(pid: nat, key: nat)
    | Spawn(pid: nat, key: nat)
    | Hooked(pid: nat, key: nat)
    | Stop(pid: nat, key: nat, after: Option<nat>)
    | StopCalled(pid: nat, key: nat, after: Option<nat>)
    | Join(pid: nat, key: nat, after: Option<nat>)
    | Eject(pid: nat, key: nat, after: Option<nat>)
    | Stopped

  datatype Host = Down | Up(id: nat, cfg: Config, payload: Path, pc: Pc, leaving: bool)

  /** `fold` is how the system folds names before it compares them; no step changes it. */
  datatype World = World(slots: map<nat, Slot>, nextKey: nat, host: Host, boots: nat, fold: string -> string)

  datatype Move =
    | Boot
    | Crash
    | Exit
    | SeeRunning(pid: nat)
    | SeeStopped
    | FindNone
    | FindModule(key: nat)
    | ClearReturned
    | ClearEjected(ok: bool)
    | ConfigRead(cfg: Config)
    | BlockerResolved(path: Path)
    | InjectFresh
    | InjectAgain(key: nat)
    | StartIssued
    | StartReturned
    | ClientSpawned
    | StopIssued
    | StopLookupFails
    | StopReturned
    | Joined
    | Ejected(ok: bool)
    | Cancel
    | SpotifyExits(pid: nat)
    | Inner(key: nat, act: Action)

  function Step(re: Regex, w: World, m: Move): Option<World> {
    match m
    case Boot => StepBoot(w)
    case Crash => StepCrash(w)
    case Exit => StepExit(w)
    case SeeRunning(pid) => StepSeeRunning(w, pid)
    case SeeStopped => StepSeeStopped(w)
    case FindNone => StepFindNone(w)
    case FindModule(key) => StepFindModule(w, key)
    case ClearReturned => StepClearReturned(w)
    case ClearEjected(ok) => StepClearEjected(w, ok)
    case ConfigRead(cfg) => StepConfigRead(w, cfg)
    case BlockerResolved(path) => StepBlockerResolved(w, path)
    case InjectFresh => StepInjectFresh(w)
    case InjectAgain(key) => StepInjectAgain(w, key)
    case StartIssued => StepStartIssued(w)
    case StartReturned => StepStartReturned(w)
    case ClientSpawned => StepClientSpawned(w)
    case StopIssued => StepStopIssued(w)
    case StopLookupFails => StepStopLookupFails(w)
    case StopReturned => StepStopReturned(w)
    case Joined => StepJoined(w)
    case Ejected(ok) => StepEjected(w, ok)
    case Cancel => StepCancel(w)
    case SpotifyExits(pid) => Some(w.(slots := map k | k in w.slots && w.slots[k].pid != pid :: w.slots[k]))
    case Inner(key, act) => StepInner(re, w, key, act)
  }

  function Run(re: Regex, w: World, moves: seq<Move>): Option<World>
    decreases |moves|
  {
    if moves == [] then Some(w)
    else
      match Step(re, w, moves[0])
      case None => None
      case Some(v) => Run(re, v, moves[1..])
  }

  // ---------------------------------------------------------------- helpers

  function AtPc(w: World, pc: Pc): World
    requires w.host.Up?
  {
    w.(host := w.host.(pc := pc))
  }

  function PutLoad(w: World, key: nat, l: Load): World
    requires key in w.slots
  {
    w.(slots := w.slots[key := w.slots[key].(load := l)])
  }

  /** `FreeLibrary` on one reference. */
  function Free(w: World, key: nat): World
    requires key in w.slots
  {
    var s := w.slots[key];
    if s.count <= 1 then w.(slots := map k | k in w.slots && k != key :: w.slots[k])
    else w.(slots := w.slots[key := s.(count := s.count - 1)])
  }

  function KillClients(w: World): map<nat, Slot> {
    map k | k in w.slots ::
      match NextClientDies(w.slots[k].load)
      case None => w.slots[k]
      case Some(l) => w.slots[k].(load := l)
  }

  /** `unhook_spotify` is over. */
  function AfterUnhook(w: World, after: Option<nat>): World
    requires w.host.Up?
  {
    match after
    case Some(pid) => AtPc(w, Clear(pid))
    case None => AtPc(w, if w.host.leaving then Stopped else Unhooked)
  }

  // ---------------------------------------------------------------- the host process

  function StepBoot(w: World): Option<World> {
    if w.host.Down? then
      Some(w.(boots := w.boots + 1,
              host := Up(w.boots + 1, Config([], []), [], Unhooked, false)))
    else None
  }

  function StepCrash(w: World): Option<World> {
    if w.host.Up? then Some(w.(host := Down, slots := KillClients(w))) else None
  }

  function StepExit(w: World): Option<World> {
    if w.host.Up? && w.host.pc == Stopped then Some(w.(host := Down, slots := KillClients(w))) else None
  }

  /** The loop of `run` picks up a published state. */
  function StepSeeRunning(w: World, pid: nat): Option<World> {
    if !w.host.Up? || w.host.leaving then None
    else
      match w.host.pc
      case Unhooked => Some(AtPc(w, Clear(pid)))
      case Hooked(p, key) => Some(AtPc(w, Stop(p, key, Some(pid))))
      case _ => None
  }

  function StepSeeStopped(w: World): Option<World> {
    if !w.host.Up? || w.host.leaving then None
    else
      match w.host.pc
      case Unhooked => Some(w)
      case Hooked(p, key) => Some(AtPc(w, Stop(p, key, None)))
      case _ => None
  }

  /** `run` is dropped at one of its awaits; `stop` unhooks if the state still says hooked. */
  function StepCancel(w: World): Option<World> {
    if !w.host.Up? || w.host.leaving then None
    else
      var v := w.(host := w.host.(leaving := true));
      match w.host.pc
      case Unhooked => Some(AtPc(v, Stopped))
      case Hooked(p, key) => Some(AtPc(v, Stop(p, key, None)))
      case ReadConfig(_) => Some(AtPc(v, Stopped))
      case ReadBlocker(_) => Some(AtPc(v, Stopped))
      case Join(_, _, _) => Some(AtPc(v, Stopped))
      case _ => None
  }

  // ---------------------------------------------------------------- hook_spotify

  predicate IsBlocker(w: World, key: nat, pid: nat) {
    key in w.slots && w.slots[key].pid == pid && HasDefaultName(w.fold, w.slots[key].path)
  }

  function StepFindNone(w: World): Option<World> {
    if w.host.Up? && w.host.pc.Clear? && forall k :: k in w.slots ==> !IsBlocker(w, k, w.host.pc.pid) then
      Some(AtPc(w, ReadConfig(w.host.pc.pid)))
    else None
  }

  /** A leftover was found; its `stop_rpc` is called. A call that panics is only logged. */
  function StepFindModule(w: World, key: nat): Option<World> {
    if !w.host.Up? || !w.host.pc.Clear? || !IsBlocker(w, key, w.host.pc.pid) then None
    else
      var pid := w.host.pc.pid;
      if w.slots[key].load.poisoned then Some(AtPc(w, ClearEject(pid, key)))
      else
        match NextStopCall(w.slots[key].load)
        case None => None
        case Some(l) => Some(AtPc(PutLoad(w, key, l), ClearCalled(pid, key)))
  }

  function StepClearReturned(w: World): Option<World> {
    if !w.host.Up? || !w.host.pc.ClearCalled? then None
    else
      var key := w.host.pc.key;
      if key in w.slots && w.slots[key].load.call != NoCall then None
      else Some(AtPc(w, ClearEject(w.host.pc.pid, key)))
  }

  function StepClearEjected(w: World, ok: bool): Option<World> {
    if !w.host.Up? || !w.host.pc.ClearEject? then None
    else
      var v := if ok && w.host.pc.key in w.slots then Free(w, w.host.pc.key) else w;
      Some(AtPc(v, Clear(w.host.pc.pid)))
  }

  function StepConfigRead(w: World, cfg: Config): Option<World> {
    if w.host.Up? && w.host.pc.ReadConfig? then
      Some(AtPc(w.(host := w.host.(cfg := cfg)), ReadBlocker(w.host.pc.pid)))
    else None
  }

  function StepBlockerResolved(w: World, path: Path): Option<World> {
    if w.host.Up? && w.host.pc.ReadBlocker? then
      Some(AtPc(w.(host := w.host.(payload := path)), Inject(w.host.pc.pid)))
    else None
  }

  predicate IsPayload(w: World, key: nat) {
    && w.host.Up? && w.host.pc.Inject?
    && key in w.slots && w.slots[key].pid == w.host.pc.pid && SamePath(w.fold, w.slots[key].path, w.host.payload)
  }

  /** `LoadLibrary` of a file the process has not loaded: fresh statics. */
  function StepInjectFresh(w: World): Option<World> {
    if w.host.Up? && w.host.pc.Inject? && forall k :: k in w.slots ==> !IsPayload(w, k) then
      var s := Slot(w.host.pc.pid, w.host.payload, 1, w.host.id, FRESH_LOAD);
      Some(AtPc(w.(slots := w.slots[w.nextKey := s], nextKey := w.nextKey + 1), Start(w.host.pc.pid, w.nextKey)))
    else None
  }

  /** `LoadLibrary` of a file that is already loaded: the same module, one more reference. */
  function StepInjectAgain(w: World, key: nat): Option<World> {
    if IsPayload(w, key) then
      var s := w.slots[key];
      Some(AtPc(w.(slots := w.slots[key := s.(count := s.count + 1, owner := w.host.id)]), Start(w.host.pc.pid, key)))
    else None
  }

  function StepStartIssued(w: World): Option<World> {
    if !w.host.Up? || !w.host.pc.Start? || w.host.pc.key !in w.slots then None
    else
      var key := w.host.pc.key;
      match NextStartCall(w.slots[key].load)
      case None => None
      case Some(l) => Some(AtPc(PutLoad(w, key, l), StartCalled(w.host.pc.pid, key)))
  }

  function StepStartReturned(w: World): Option<World> {
    if !w.host.Up? || !w.host.pc.StartCalled? || w.host.pc.key !in w.slots then None
    else
      var key := w.host.pc.key;
      var l := w.slots[key].load;
      if l.call == NoCall && l.rpcState && !l.poisoned then Some(AtPc(w, Spawn(w.host.pc.pid, key))) else None
  }

  /** The client thread is spawned and the host state becomes `Hooked`, with no await since the injection. */
  function StepClientSpawned(w: World): Option<World> {
    if !w.host.Up? || !w.host.pc.Spawn? || w.host.pc.key !in w.slots then None
    else
      var key := w.host.pc.key;
      match NextSpawnClient(w.slots[key].load, w.host.id, w.host.cfg)
      case None => None
      case Some(l) => Some(AtPc(PutLoad(w, key, l), Hooked(w.host.pc.pid, key)))
  }

  // ---------------------------------------------------------------- unhook_spotify

  /** `stop_rpc` is called; in a process that is gone, or a module whose lock is poisoned, the call fails. */
  function StepStopIssued(w: World): Option<World> {
    if !w.host.Up? || !w.host.pc.Stop? then None
    else
      var (pid, key, after) := (w.host.pc.pid, w.host.pc.key, w.host.pc.after);
      if key !in w.slots || w.slots[key].load.poisoned then Some(AfterUnhook(w, after))
      else
        match NextStopCall(w.slots[key].load)
        case None => None
        case Some(l) => Some(AtPc(PutLoad(w, key, l), StopCalled(pid, key, after)))
  }

  /** The procedure could not be looked up, or the call never reached the process. */
  function StepStopLookupFails(w: World): Option<World> {
    if w.host.Up? && w.host.pc.Stop? then Some(AfterUnhook(w, w.host.pc.after)) else None
  }

  function StepStopReturned(w: World): Option<World> {
    if !w.host.Up? || !w.host.pc.StopCalled? then None
    else
      var (pid, key, after) := (w.host.pc.pid, w.host.pc.key, w.host.pc.after);
      if key !in w.slots then Some(AfterUnhook(w, after))
      else if w.slots[key].load.call != NoCall then None
      else if w.slots[key].load.poisoned then Some(AfterUnhook(w, after))
      else Some(AtPc(w, Join(pid, key, after)))
  }

  /** The client thread has ended without a panic. */
  predicate ClientFinished(l: Load) {
    l.client.Some? && l.client.value.next == SETUP_CALLS && l.thread.Exited?
  }

  function StepJoined(w: World): Option<World> {
    if !w.host.Up? || !w.host.pc.Join? then None
    else
      var (pid, key, after) := (w.host.pc.pid, w.host.pc.key, w.host.pc.after);
      if key !in w.slots then Some(AfterUnhook(w, after))
      else if ClientFinished(w.slots[key].load) then Some(AtPc(w, Eject(pid, key, after)))
      else None
  }

  function StepEjected(w: World, ok: bool): Option<World> {
    if !w.host.Up? || !w.host.pc.Eject? then None
    else
      var v := if ok && w.host.pc.key in w.slots then Free(w, w.host.pc.key) else w;
      Some(AfterUnhook(v, w.host.pc.after))
  }

  // ---------------------------------------------------------------- inside a loaded module

  predicate IsInner(a: Action) {
    !a.StartCall? && !a.StopCall? && !a.SpawnClient? && !a.ClientDies?
  }

  function StepInner(re: Regex, w: World, key: nat, act: Action): Option<World> {
    if key !in w.slots || !IsInner(act) then None
    else
      match Next(re, w.slots[key].load, act)
      case None => None
      case Some(l) => Some(PutLoad(w, key, l))
  }
}
