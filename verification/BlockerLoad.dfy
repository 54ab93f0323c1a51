/**
 One load of the blocker module inside Spotify, with every thread that touches it: the remote
 procedures `start_rpc` and `stop_rpc`, the RPC thread, the host's client, and Spotify's own
 threads inside the detours. One `Next` step is one atomic section of one thread, so a sequence
 of actions is an interleaving; everything left open (failures, timing, who moves) is in the action.

 Covers burnt-sushi-blocker/src/lib.rs, the detour closures of burnt-sushi-blocker/src/hooks.rs
 and the call order of burnt-sushi/src/rpc.rs.
 */
module BlockerLoad {
  import opened Wrappers
  import opened Rules
  import opened Detours

  /** Cap'n Proto list sizes are 32 bits wide. */
  const LIST_LIMIT := 0x1_0000_0000

  datatype LogMsg = LogMsg(hook: FilterHook, blocked: bool, url: string)

  /**
   What one `run_rpc` allocates: the `Filters` store and the `LoggerManager` of its `ServerImpl`.
   A generation's index is the reference other parts of the state hold on to.
   `snapshot` is the logger list cloned when the log channel was created, `queue` that channel.
   `sent`, `heard` and `served` record the past: messages the channel took, deliveries, and
   requests answered with success.
   */
  datatype Gen = Gen(
    table: Table,
    loggers: seq<nat>,
    snapshot: Option<seq<nat>>,
    queue: seq<LogMsg>,
    sent: seq<LogMsg>,
    heard: seq<(nat, LogMsg)>,
    served: nat)

  const EMPTY_GEN := Gen(EMPTY_TABLE, [], None, [], [], [], 0)

  datatype Mode = Connecting | Idle | InFlight | Executing | Replied | Broken

  /** The number of requests the host's client sends, and the last of them, `enable_filtering`. */
  const SETUP_CALLS := 4
  const ENABLE_CALL := 3

  /** The host's RPC client for generation `gen`; request number `next` is being made. */
  datatype Client = Client(logger: nat, cfg: Config, gen: nat, next: nat, mode: Mode, alive: bool)

  datatype Work = Waiting | Enabling(stage: nat)

  /** The RPC thread; `task` is the per-connection task that waits for the disconnect signal. */
  datatype Thread =
    | NoThread
    | Alive(signalled: bool, accepted: bool, task: bool, work: Work)
    | Exited(panicked: bool)

  /** The remote procedure that holds the `RPC_STATE` lock, by what it does next. */
  datatype Call = NoCall | Starting | DisablingGai | DisablingCef | Signalling | Joining

  /** A Spotify thread inside a detour closure. */
  datatype Pending = Pending(hook: FilterHook, url: string, filters: nat, log: nat, verdict: Option<bool>)

  /** A finished call of a hooked function; `request` is `None` when the argument cannot be decoded. */
  datatype Decision = Decision(hook: FilterHook, request: Option<string>, hooked: bool, blocked: bool)

  datatype Load = Load(
    detours: Pair<nat, nat>,
    gens: seq<Gen>,
    rpcState: bool,
    poisoned: bool,
    call: Call,
    thread: Thread,
    client: Option<Client>,
    pending: seq<Pending>,
    decisions: seq<Decision>)

  /** The statics right after `LoadLibrary`. */
  const FRESH_LOAD := Load(Pair(Fresh, Fresh), [], false, false, NoCall, NoThread, None, [], [])

  datatype Action =
    // remote procedures and the host
    | StartCall
    | StartReturn
    | StartPanic
    | SpawnClient(logger: nat, cfg: Config)
    | StopCall
    | StopDisable(ok: bool)
    | StopSignal
    | StopReturn
    // the host's client thread
    | ClientConnect
    | ClientSend
    | ClientReply
    | ClientLost
    | ClientDies
    // the RPC thread
    | Accept
    | Dispatch
    | EnableStage(ok: bool)
    | ConnDisable(offGai: bool, offCef: bool)
    | ThreadExit
    | ThreadFail
    | Deliver
    // Spotify's threads
    | Enter(hook: FilterHook, request: Option<string>)
    | Decide(index: nat)
    | Finish(index: nat)

  /** The host's own doing: remote procedures and spawning its client. */
  predicate IsRemote(a: Action) {
    || a.StartCall? || a.StartReturn? || a.StartPanic? || a.SpawnClient?
    || a.StopCall? || a.StopDisable? || a.StopSignal? || a.StopReturn?
  }

  predicate IsClient(a: Action) {
    a.ClientConnect? || a.ClientSend? || a.ClientReply? || a.ClientLost? || a.ClientDies?
  }

  predicate IsSpotify(a: Action) {
    a.Enter? || a.Decide? || a.Finish?
  }

  function NextRemote(l: Load, a: Action): Option<Load>
    requires IsRemote(a)
  {
    match a
    case StartCall => NextStartCall(l)
    case StartReturn => NextStartReturn(l)
    case StartPanic => NextStartPanic(l)
    case SpawnClient(logger, cfg) => NextSpawnClient(l, logger, cfg)
    case StopCall => NextStopCall(l)
    case StopDisable(ok) => NextStopDisable(l, ok)
    case StopSignal => NextStopSignal(l)
    case StopReturn => NextStopReturn(l)
  }

  function NextClient(l: Load, a: Action): Option<Load>
    requires IsClient(a)
  {
    match a
    case ClientConnect => NextClientConnect(l)
    case ClientSend => NextClientSend(l)
    case ClientReply => NextClientReply(l)
    case ClientLost => NextClientLost(l)
    case ClientDies => NextClientDies(l)
  }

  function NextSpotify(re: Regex, l: Load, a: Action): Option<Load>
    requires IsSpotify(a)
  {
    match a
    case Enter(hook, request) => NextEnter(l, hook, request)
    case Decide(index) => NextDecide(re, l, index)
    case Finish(index) => NextFinish(l, index)
  }

  function NextThread(re: Regex, l: Load, a: Action): Option<Load>
    requires !IsRemote(a) && !IsClient(a) && !IsSpotify(a)
  {
    match a
    case Accept => NextAccept(l)
    case Dispatch => NextDispatch(re, l)
    case EnableStage(ok) => NextEnableStage(l, ok)
    case ConnDisable(offGai, offCef) => NextConnDisable(l, offGai, offCef)
    case ThreadExit => NextThreadExit(l)
    case ThreadFail => NextThreadFail(l)
    case Deliver => NextDeliver(l)
  }

  function Next(re: Regex, l: Load, a: Action): Option<Load> {
    if IsRemote(a) then NextRemote(l, a)
    else if IsClient(a) then NextClient(l, a)
    else if IsSpotify(a) then NextSpotify(re, l, a)
    else NextThread(re, l, a)
  }

  /** The state after a whole run, `None` when some action of it was not enabled. */
  function Exec(re: Regex, l: Load, acts: seq<Action>): Option<Load>
    decreases |acts|
  {
    if acts == [] then Some(l)
    else
      match Next(re, l, acts[0])
      case None => None
      case Some(m) => Exec(re, m, acts[1..])
  }

  // ---------------------------------------------------------------- remote procedures

  /** `start_rpc` up to spawning the thread; a running server makes it return at once. */
  function NextStartCall(l: Load): Option<Load> {
    if l.call != NoCall || l.poisoned then None
    else if l.rpcState then Some(l)
    else Some(l.(call := Starting,
                 gens := l.gens + [EMPTY_GEN],
                 thread := Alive(false, false, false, Waiting)))
  }

  /** The address arrived: `RPC_STATE` becomes `Some` and the lock is released. */
  function NextStartReturn(l: Load): Option<Load> {
    if l.call == Starting then Some(l.(call := NoCall, rpcState := true)) else None
  }

  /** The thread died before sending an address. */
  function NextStartPanic(l: Load): Option<Load> {
    if l.call == Starting && l.thread.Exited? then Some(l.(call := NoCall, poisoned := true)) else None
  }

  /** The last client is one of an earlier server, or its host is gone and nothing of it is left to serve. */
  predicate Outlived(l: Load, c: Client) {
    || c.gen < |l.gens| - 1
    || (!c.alive && (l.thread.Alive? ==> c.mode != InFlight && c.mode != Executing))
  }

  /** The host spawns its RPC client thread. */
  function NextSpawnClient(l: Load, logger: nat, cfg: Config): Option<Load> {
    if l.gens != [] && (l.client.None? || Outlived(l, l.client.value)) then
      Some(l.(client := Some(Client(logger, cfg, |l.gens| - 1, 0, Connecting, true))))
    else None
  }

  /** `stop_rpc` up to `state.take()`. */
  function NextStopCall(l: Load): Option<Load> {
    if l.call != NoCall || l.poisoned then None
    else if !l.rpcState then Some(l)
    else Some(l.(rpcState := false, call := DisablingGai))
  }

  /**
   A panic while `RPC_STATE` is locked. Unwinding drops the taken `RpcState`, so the disconnect
   sender is gone: the accept loop returns, and the connection task's `unwrap` ends that task.
   */
  function Panic(l: Load): Load {
    l.(poisoned := true,
       call := NoCall,
       thread := if l.thread.Alive? then l.thread.(signalled := true, task := false) else l.thread)
  }

  function NextStopDisable(l: Load, ok: bool): Option<Load> {
    match l.call
    case DisablingGai =>
      (match TurnOff(l.detours.gai, ok)
       case None => Some(Panic(l))
       case Some(d) => Some(l.(detours := l.detours.(gai := d), call := DisablingCef)))
    case DisablingCef =>
      (match TurnOff(l.detours.cef, ok)
       case None => Some(Panic(l))
       case Some(d) => Some(l.(detours := l.detours.(cef := d), call := Signalling)))
    case _ => None
  }

  function NextStopSignal(l: Load): Option<Load> {
    if l.call != Signalling then None
    else if l.thread.Alive? then Some(l.(call := Joining, thread := l.thread.(signalled := true)))
    else Some(Panic(l))
  }

  function NextStopReturn(l: Load): Option<Load> {
    if l.call != Joining || !l.thread.Exited? then None
    else if l.thread.panicked then Some(Panic(l))
    else Some(l.(call := NoCall))
  }

  // ---------------------------------------------------------------- the host's client

  predicate HasClient(l: Load) {
    l.client.Some? && l.gens != [] && l.client.value.gen == |l.gens| - 1
  }

  function WithMode(l: Load, mode: Mode): Load
    requires l.client.Some?
  {
    l.(client := Some(l.client.value.(mode := mode)))
  }

  function NextClientConnect(l: Load): Option<Load> {
    if HasClient(l) && l.client.value.alive && l.client.value.mode == Connecting && l.thread.Alive? then
      Some(WithMode(l, Idle))
    else None
  }

  /** Request `next` is built and sent; a list too long for its size field makes the builder panic. */
  function NextClientSend(l: Load): Option<Load> {
    if HasClient(l) && l.client.value.alive && l.client.value.mode == Idle && l.client.value.next < SETUP_CALLS then
      var c := l.client.value;
      if (c.next == 1 && |c.cfg.allow| >= LIST_LIMIT) || (c.next == 2 && |c.cfg.deny| >= LIST_LIMIT) then
        Some(WithMode(l, Broken))
      else Some(WithMode(l, InFlight))
    else None
  }

  function NextClientReply(l: Load): Option<Load> {
    if l.client.Some? && l.client.value.alive && l.client.value.mode == Replied then
      var c := l.client.value;
      Some(l.(client := Some(c.(mode := Idle, next := c.next + 1))))
    else None
  }

  /** The connection is gone before the last request was answered. */
  function NextClientLost(l: Load): Option<Load> {
    if l.client.Some? && l.client.value.alive && l.client.value.next < SETUP_CALLS
       && !l.client.value.mode.Executing? && l.thread.Exited?
    then Some(WithMode(l, Broken))
    else None
  }

  /** The host process is gone. A request it already sent can still be dispatched. */
  function NextClientDies(l: Load): Option<Load> {
    if l.client.Some? then Some(l.(client := Some(l.client.value.(alive := false)))) else None
  }

  // ---------------------------------------------------------------- the RPC thread

  function Current(l: Load): Gen
    requires l.gens != []
  {
    l.gens[|l.gens| - 1]
  }

  function WithCurrent(l: Load, g: Gen): Load
    requires l.gens != []
  {
    l.(gens := l.gens[|l.gens| - 1 := g])
  }

  function NextAccept(l: Load): Option<Load> {
    if HasClient(l) && !l.client.value.mode.Connecting? && l.thread.Alive?
       && !l.thread.accepted && l.thread.work == Waiting
    then Some(l.(thread := l.thread.(accepted := true, task := true)))
    else None
  }

  /** `LoggerManager::log_sender`: the channel and the logger snapshot are made on first use. */
  function LogSender(g: Gen): Gen {
    if g.snapshot.None? then g.(snapshot := Some(g.loggers)) else g
  }

  /** `ServerImpl::set_ruleset`: `None` when a pattern does not compile. */
  function SetRuleset(re: Regex, g: Gen, hook: FilterHook, r: Ruleset): Option<Gen> {
    if AllValid(re, r.whitelist) && AllValid(re, r.blacklist) then
      Some(g.(table := g.table.With(hook, r)))
    else None
  }

  /** What the server makes of request `next`: `register_logger`, two `set_ruleset`, `enable_filtering`. */
  function Serve(re: Regex, c: Client, g: Gen): (Client, Gen) {
    if c.next == 0 then
      (c.(mode := Replied), g.(loggers := g.loggers + [c.logger], served := g.served + 1))
    else if c.next == ENABLE_CALL then
      (c.(mode := Executing), LogSender(g))
    else
      var hook := if c.next == 1 then GetAddrInfo else CefUrlRequestCreate;
      match SetRuleset(re, g, hook, RulesFor(c.cfg, hook))
      case None => (c.(mode := Broken), g)
      case Some(h) => (c.(mode := Replied), h.(served := h.served + 1))
  }

  function NextDispatch(re: Regex, l: Load): Option<Load> {
    if !HasClient(l) || !l.client.value.mode.InFlight? || !l.thread.Alive?
       || !l.thread.accepted || l.thread.work != Waiting
    then None
    else
      var (c, g) := Serve(re, l.client.value, Current(l));
      var work := if c.mode == Executing then Enabling(0) else Waiting;
      Some(WithCurrent(l, g).(client := Some(c), thread := l.thread.(work := work)))
  }

  /** The four steps of `enable`, run by the RPC thread for the server of the last generation. */
  function EnableStep(p: Pair<nat, nat>, gen: nat, stage: nat, ok: bool): Option<Pair<nat, nat>> {
    if stage == 0 then
      (match Init(p.gai, gen, gen, ok) case None => None case Some(d) => Some(p.(gai := d)))
    else if stage == 1 then
      (match Init(p.cef, gen, gen, ok) case None => None case Some(d) => Some(p.(cef := d)))
    else if stage == 2 then
      (match TurnOn(p.gai, ok) case None => None case Some(d) => Some(p.(gai := d)))
    else
      (match TurnOn(p.cef, ok) case None => None case Some(d) => Some(p.(cef := d)))
  }

  function NextEnableStage(l: Load, ok: bool): Option<Load> {
    if !l.thread.Alive? || !l.thread.work.Enabling? || !HasClient(l) then None
    else
      var stage := l.thread.work.stage;
      var idle := l.(thread := l.thread.(work := Waiting));
      match EnableStep(l.detours, |l.gens| - 1, stage, ok)
      case None => Some(WithMode(idle, Broken))
      case Some(p) =>
        if stage < 3 then
          Some(l.(detours := p, thread := l.thread.(work := Enabling(stage + 1))))
        else
          var g := Current(l);
          Some(WithMode(WithCurrent(idle.(detours := p), g.(served := g.served + 1)), Replied))
  }

  /** The connection task saw the disconnect signal; it ignores a failing `disable`. */
  function NextConnDisable(l: Load, offGai: bool, offCef: bool): Option<Load> {
    if l.thread.Alive? && l.thread.signalled && l.thread.task && l.thread.work == Waiting then
      Some(l.(detours := Disable(l.detours, offGai, offCef).0, thread := l.thread.(task := false)))
    else None
  }

  /** The thread ends and drops its local tasks, among them the receiver of the log channel. */
  function EndThread(l: Load, panicked: bool): Option<Load> {
    if l.gens == [] then None
    else Some(WithCurrent(l, Current(l).(queue := [])).(thread := Exited(panicked)))
  }

  function NextThreadExit(l: Load): Option<Load> {
    if l.thread.Alive? && l.thread.signalled && l.thread.work == Waiting then EndThread(l, false) else None
  }

  /** The accept loop hit an I/O error. */
  function NextThreadFail(l: Load): Option<Load> {
    if l.thread.Alive? && l.thread.work == Waiting then EndThread(l, true) else None
  }

  /** The log task takes one message and sends it to every logger of its snapshot. */
  function NextDeliver(l: Load): Option<Load> {
    if !l.thread.Alive? || l.thread.work != Waiting || l.gens == [] then None
    else
      var g := Current(l);
      if g.snapshot.None? || g.queue == [] then None
      else
        var to, msg := g.snapshot.value, g.queue[0];
        var h := if HasClient(l) && l.client.value.alive
                 then seq(|to|, i requires 0 <= i < |to| => (to[i], msg))
                 else [];
        Some(WithCurrent(l, g.(queue := g.queue[1..], heard := g.heard + h)))
  }

  // ---------------------------------------------------------------- Spotify's threads

  function DetourOf(p: Pair<nat, nat>, hook: FilterHook): Detour<nat, nat> {
    match hook
    case GetAddrInfo => p.gai
    case CefUrlRequestCreate => p.cef
  }

  /** A thread calls a hooked function. */
  function NextEnter(l: Load, hook: FilterHook, request: Option<string>): Option<Load> {
    var d := DetourOf(l.detours, hook);
    if !d.IsOn() then
      Some(l.(decisions := l.decisions + [Decision(hook, request, false, false)]))
    else if request.None? then
      Some(l.(decisions := l.decisions + [Decision(hook, None, true, false)]))
    else
      Some(l.(pending := l.pending + [Pending(hook, request.value, d.filters, d.log, None)]))
  }

  /** The closure loads the ruleset of the store it captured and checks the request. */
  function NextDecide(re: Regex, l: Load, index: nat): Option<Load> {
    if index >= |l.pending| || l.pending[index].verdict.Some? || l.pending[index].filters >= |l.gens| then None
    else
      var p := l.pending[index];
      var block := !Allows(re, l.gens[p.filters].table.Of(p.hook), p.url);
      Some(l.(pending := l.pending[index := p.(verdict := Some(block))]))
  }

  /** The closure sends its log message, ignoring a closed channel, and returns. */
  function NextFinish(l: Load, index: nat): Option<Load> {
    if index >= |l.pending| || l.pending[index].verdict.None? then None
    else
      var p := l.pending[index];
      var m := l.(pending := l.pending[..index] + l.pending[index + 1..],
                  decisions := l.decisions + [Decision(p.hook, Some(p.url), true, p.verdict.value)]);
      if l.thread.Alive? && l.gens != [] && p.log == |l.gens| - 1 then
        var g, msg := Current(l), LogMsg(p.hook, p.verdict.value, p.url);
        Some(WithCurrent(m, g.(queue := g.queue + [msg], sent := g.sent + [msg])))
      else Some(m)
  }
}
