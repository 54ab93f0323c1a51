/**
 What every interleaving keeps inside one load of the blocker, as long as the load has started at
 most one server.
 */
module LoadSafety {
  import opened Wrappers
  import opened Rules
  import opened Detours
  import opened BlockerLoad

  /** How far the client got, and everything that follows about the server it talks to. */
  ghost predicate Progress(re: Regex, c: Client, g: Gen) {
    && c.next <= g.served <= c.next + 1
    && g.served <= SETUP_CALLS
    && (c.mode == Replied ==> g.served == c.next + 1)
    && (c.mode == InFlight ==> c.next < SETUP_CALLS)
    && (c.mode != Replied && c.mode != Broken ==> g.served == c.next)
    && (c.mode == Executing ==> c.next == ENABLE_CALL)
    && g.loggers == (if g.served >= 1 then [c.logger] else [])
    && g.table.gai == (if g.served >= 2 then RulesFor(c.cfg, GetAddrInfo) else EMPTY_RULESET)
    && g.table.cef == (if g.served >= 3 then RulesFor(c.cfg, CefUrlRequestCreate) else EMPTY_RULESET)
    && (c.mode == InFlight && c.next == 1 ==> |c.cfg.allow| < LIST_LIMIT)
    && (c.mode == InFlight && c.next == 2 ==> |c.cfg.deny| < LIST_LIMIT)
    && (g.served >= 2 ==> AllValid(re, c.cfg.allow))
    && (g.served >= 3 ==> AllValid(re, c.cfg.deny))
    && (g.snapshot.Some? ==> g.served >= 3 && g.snapshot.value == [c.logger])
  }

  ghost predicate TruthfulLog(re: Regex, cfg: Config, log: seq<LogMsg>) {
    forall m :: m in log ==> (m.blocked <==> ShouldBlock(re, cfg, m.hook, m.url))
  }

  /** The host's logger heard an initial part of what was sent, in order and once each. */
  ghost predicate HeardPrefix(logger: nat, g: Gen) {
    && |g.heard| <= |g.sent|
    && forall i :: 0 <= i < |g.heard| ==> g.heard[i] == (logger, g.sent[i])
  }

  /** While the RPC thread lives, what was sent and not yet taken is in the queue. */
  ghost predicate QueueRest(c: Client, g: Gen) {
    && |g.heard| + |g.queue| <= |g.sent|
    && g.queue == g.sent[|g.sent| - |g.queue|..]
    && (c.alive ==> |g.heard| + |g.queue| == |g.sent|)
  }

  ghost predicate Captured(d: Detour<nat, nat>, g: Gen) {
    d.Ready? ==> d.filters == 0 && d.log == 0 && g.served >= 3 && g.snapshot.Some?
  }

  ghost predicate PendingRight(re: Regex, cfg: Config, g: Gen, p: Pending) {
    && p.filters == 0 && p.log == 0 && g.served >= 3 && g.snapshot.Some?
    && (p.verdict.Some? ==> (p.verdict.value <==> ShouldBlock(re, cfg, p.hook, p.url)))
  }

  /** A hooked call follows the configuration; an undecodable or unhooked call passes. */
  ghost predicate DecisionRight(re: Regex, cfg: Config, d: Decision) {
    d.blocked <==> d.hooked && d.request.Some? && ShouldBlock(re, cfg, d.hook, d.request.value)
  }

  ghost predicate AllPassed(l: Load) {
    forall d :: d in l.decisions ==> !d.hooked && !d.blocked
  }

  ghost predicate Blank(l: Load) {
    && l.detours == Pair(Fresh, Fresh)
    && l.thread == NoThread
    && l.client == None
    && l.pending == []
    && !l.rpcState && !l.poisoned && l.call == NoCall
    && AllPassed(l)
  }

  ghost predicate Unused(l: Load, g: Gen) {
    && l.detours == Pair(Fresh, Fresh)
    && g == EMPTY_GEN
    && !l.thread.NoThread?
    && (l.thread.Alive? ==> !l.thread.accepted && l.thread.work == Waiting)
    && l.pending == []
    && AllPassed(l)
  }

  ghost predicate ThreadFits(l: Load, c: Client, g: Gen) {
    && !l.thread.NoThread?
    && (c.mode == Executing <==> l.thread.Alive? && l.thread.work.Enabling?)
    && (c.mode == Executing ==> g.snapshot.Some? && l.thread.work.stage <= 3)
    && (c.mode == Executing && l.thread.work.stage >= 1 ==> l.detours.gai.Ready?)
    && (c.mode == Executing && l.thread.work.stage >= 2 ==> l.detours.cef.Ready?)
  }

  ghost predicate Served(re: Regex, l: Load, c: Client, g: Gen) {
    && c.gen == 0
    && Progress(re, c, g)
    && ThreadFits(l, c, g)
    && Captured(l.detours.gai, g)
    && Captured(l.detours.cef, g)
    && History(re, l, c, g)
  }

  /** What holds of the past: the log, the calls inside a closure and the finished ones. */
  ghost predicate History(re: Regex, l: Load, c: Client, g: Gen) {
    && TruthfulLog(re, c.cfg, g.sent)
    && HeardPrefix(c.logger, g)
    && (l.thread.Alive? ==> QueueRest(c, g))
    && (forall i :: 0 <= i < |l.pending| ==> PendingRight(re, c.cfg, g, l.pending[i]))
    && (forall i :: 0 <= i < |l.decisions| ==> DecisionRight(re, c.cfg, l.decisions[i]))
  }

  /** The RPC thread is there, not told to end, or it failed. */
  predicate ServerUp(t: Thread) {
    (t.Alive? && !t.signalled) || t == Exited(true)
  }

  /**
   What holds of any load, however often a server was started: a server not told to stop is one
   `RPC_STATE` knows about, or the lock holder is about to deal with.
   */
  ghost predicate Tended(l: Load) {
    && (l.thread.Alive? && !l.thread.signalled ==> l.rpcState || (l.call != NoCall && l.call != Joining))
    && (l.rpcState ==> l.call == NoCall)
    && (l.poisoned ==> l.call == NoCall && !l.rpcState)
  }

  /** A registered server, or one being started, has not been told to end. */
  ghost predicate Serving(l: Load) {
    l.rpcState || l.call == Starting ==> ServerUp(l.thread)
  }

  ghost predicate Inv(re: Regex, l: Load) {
    && |l.gens| <= 1
    && Tended(l) && Serving(l)
    && (l.gens == [] ==> Blank(l))
    && (l.gens != [] && l.client.None? ==> Unused(l, l.gens[0]))
    && (l.gens != [] && l.client.Some? ==> Served(re, l, l.client.value, l.gens[0]))
  }

  lemma InvFresh(re: Regex)
    ensures Inv(re, FRESH_LOAD)
  {
  }

  /** No detour is turned on, and none is initialised or exchanged. */
  ghost predicate OnlyOff(p: Pair<nat, nat>, q: Pair<nat, nat>) {
    && p.gai.KeptBy(q.gai) && (q.gai.Ready? ==> p.gai.Ready?) && (q.gai.IsOn() ==> p.gai.IsOn())
    && p.cef.KeptBy(q.cef) && (q.cef.Ready? ==> p.cef.Ready?) && (q.cef.IsOn() ==> p.cef.IsOn())
  }

  /** The client moves, or is moved by the server. */
  predicate MovesClient(a: Action) {
    IsClient(a) || a.Dispatch? || a.EnableStage?
  }

  /** What an action can touch at all. */
  ghost predicate Delta(l: Load, a: Action, m: Load) {
    && |l.gens| <= |m.gens| && (!a.StartCall? ==> |m.gens| == |l.gens|)
    && (!a.SpawnClient? ==> (m.client.Some? <==> l.client.Some?))
    && (!a.SpawnClient? && !MovesClient(a) ==> m.client == l.client)
    && (!a.EnableStage? ==> OnlyOff(l.detours, m.detours))
    && (a.EnableStage? ==>
          l.thread.Alive? && l.detours.gai.KeptBy(m.detours.gai) && l.detours.cef.KeptBy(m.detours.cef))
    && (!IsRemote(a) ==> m.call == l.call && m.rpcState == l.rpcState && m.poisoned == l.poisoned)
    && (m.thread.Alive? ==> l.thread.Alive? || a.StartCall?)
    && (m.thread.Alive? && l.thread.Alive? && !IsRemote(a) ==> m.thread.signalled == l.thread.signalled)
    && (m.thread.Exited? && l.thread.Alive? ==> m.thread.panicked || l.thread.signalled)
    && (m.thread.Exited? && !l.thread.Alive? ==> m.thread == l.thread)
    && (m.thread.NoThread? ==> l.thread.NoThread?)
  }

  lemma StopDisableDelta(l: Load, ok: bool, m: Load)
    requires NextStopDisable(l, ok) == Some(m)
    ensures Delta(l, StopDisable(ok), m)
  {
  }

  lemma StartDelta(l: Load, a: Action, m: Load)
    requires a.StartCall? || a.StartReturn? || a.StartPanic? || a.SpawnClient?
    requires NextRemote(l, a) == Some(m)
    ensures Delta(l, a, m)
  {
  }

  lemma StopDelta(l: Load, a: Action, m: Load)
    requires a.StopCall? || a.StopSignal? || a.StopReturn?
    requires NextRemote(l, a) == Some(m)
    ensures Delta(l, a, m)
  {
  }

  lemma RemoteDelta(l: Load, a: Action, m: Load)
    requires IsRemote(a) && NextRemote(l, a) == Some(m)
    ensures Delta(l, a, m)
  {
    if a.StopDisable? {
      StopDisableDelta(l, a.ok, m);
    } else if a.StopCall? || a.StopSignal? || a.StopReturn? {
      StopDelta(l, a, m);
    } else {
      StartDelta(l, a, m);
    }
  }

  lemma TendedRemote(l: Load, a: Action, m: Load)
    requires Tended(l) && IsRemote(a) && NextRemote(l, a) == Some(m)
    ensures Tended(m) && (Serving(l) ==> Serving(m))
  {
  }

  lemma DispatchDelta(re: Regex, l: Load, m: Load)
    requires NextDispatch(re, l) == Some(m)
    ensures Delta(l, Dispatch, m)
  {
  }

  lemma EnableStageDelta(l: Load, ok: bool, m: Load)
    requires NextEnableStage(l, ok) == Some(m)
    ensures Delta(l, EnableStage(ok), m)
  {
  }

  lemma ConnDisableDelta(l: Load, offGai: bool, offCef: bool, m: Load)
    requires NextConnDisable(l, offGai, offCef) == Some(m)
    ensures Delta(l, ConnDisable(offGai, offCef), m)
  {
  }

  lemma DeliverDelta(l: Load, m: Load)
    requires NextDeliver(l) == Some(m)
    ensures Delta(l, Deliver, m)
  {
  }

  lemma ThreadDelta(re: Regex, l: Load, a: Action, m: Load)
    requires !IsRemote(a) && !IsClient(a) && !IsSpotify(a) && NextThread(re, l, a) == Some(m)
    ensures Delta(l, a, m)
  {
    match a
    case Accept =>
    case Dispatch => DispatchDelta(re, l, m);
    case EnableStage(ok) => EnableStageDelta(l, ok, m);
    case ConnDisable(offGai, offCef) => ConnDisableDelta(l, offGai, offCef, m);
    case ThreadExit =>
    case ThreadFail =>
    case Deliver => DeliverDelta(l, m);
  }

  lemma ClientDelta(l: Load, a: Action, m: Load)
    requires IsClient(a) && NextClient(l, a) == Some(m)
    ensures Delta(l, a, m)
  {
  }

  lemma SpotifyDelta(re: Regex, l: Load, a: Action, m: Load)
    requires IsSpotify(a) && NextSpotify(re, l, a) == Some(m)
    ensures Delta(l, a, m)
  {
  }

  /** Holds for any number of servers and clients. */
  lemma TendedNext(re: Regex, l: Load, a: Action, m: Load)
    requires Tended(l) && Next(re, l, a) == Some(m)
    ensures Tended(m)
  {
    if IsRemote(a) {
      TendedRemote(l, a, m);
    } else {
      NextDelta(re, l, a, m);
    }
  }

  lemma NextDelta(re: Regex, l: Load, a: Action, m: Load)
    requires Next(re, l, a) == Some(m)
    ensures Delta(l, a, m)
  {
    if IsRemote(a) {
      RemoteDelta(l, a, m);
    } else if IsClient(a) {
      ClientDelta(l, a, m);
    } else if IsSpotify(a) {
      SpotifyDelta(re, l, a, m);
    } else {
      ThreadDelta(re, l, a, m);
    }
  }

  lemma InvStart(re: Regex, l: Load, m: Load)
    requires Inv(re, l) && NextStartCall(l) == Some(m) && |m.gens| <= 1
    ensures Inv(re, m)
  {
  }

  lemma InvStarted(re: Regex, l: Load, m: Load)
    requires Inv(re, l) && (NextStartReturn(l) == Some(m) || NextStartPanic(l) == Some(m))
    ensures Inv(re, m)
  {
  }

  lemma InvSpawn(re: Regex, l: Load, logger: nat, cfg: Config, m: Load)
    requires Inv(re, l) && l.client.None? && NextSpawnClient(l, logger, cfg) == Some(m)
    ensures Inv(re, m)
  {
  }

  /** `m` differs from `l` only in switches: who holds the lock, the signal, and detours turned off. */
  ghost predicate OnlySwitches(l: Load, m: Load) {
    && l.gens == m.gens && l.client == m.client && l.pending == m.pending && l.decisions == m.decisions
    && l.gens != []
    && l.detours.gai.KeptBy(m.detours.gai) && (m.detours.gai.Ready? ==> l.detours.gai.Ready?)
    && l.detours.cef.KeptBy(m.detours.cef) && (m.detours.cef.Ready? ==> l.detours.cef.Ready?)
    && (l.thread == m.thread
        || (l.thread.Alive? && m.thread.Alive?
            && l.thread.accepted == m.thread.accepted && l.thread.work == m.thread.work))
  }

  lemma InvSwitches(re: Regex, l: Load, m: Load)
    requires Inv(re, l) && OnlySwitches(l, m) && Tended(m) && Serving(m)
    ensures Inv(re, m)
  {
  }

  lemma StopDisableSwitches(l: Load, ok: bool, m: Load)
    requires NextStopDisable(l, ok) == Some(m) && l.gens != []
    ensures OnlySwitches(l, m)
  {
  }

  lemma StopSignalSwitches(l: Load, m: Load)
    requires NextStopSignal(l) == Some(m) && l.gens != []
    ensures OnlySwitches(l, m)
  {
  }

  lemma StopReturnSwitches(l: Load, m: Load)
    requires NextStopReturn(l) == Some(m) && l.gens != []
    ensures OnlySwitches(l, m)
  {
  }

  lemma InvStop(re: Regex, l: Load, a: Action, m: Load)
    requires Inv(re, l) && IsRemote(a) && NextRemote(l, a) == Some(m)
    requires a.StopCall? || a.StopDisable? || a.StopSignal? || a.StopReturn?
    ensures Inv(re, m)
  {
    if l.gens != [] {
      TendedRemote(l, a, m);
      match a {
        case StopCall =>
        case StopDisable(ok) => StopDisableSwitches(l, ok, m);
        case StopSignal => StopSignalSwitches(l, m);
        case StopReturn => StopReturnSwitches(l, m);
      }
      InvSwitches(re, l, m);
    }
  }

  lemma InvConnDisable(re: Regex, l: Load, offGai: bool, offCef: bool, m: Load)
    requires Inv(re, l) && NextConnDisable(l, offGai, offCef) == Some(m)
    ensures Inv(re, m)
  {
  }

  /** A request that is served leaves the past alone. */
  lemma HistoryFrame(re: Regex, l: Load, c: Client, g: Gen, m: Load, d: Client, h: Gen)
    requires History(re, l, c, g)
    requires l.pending == m.pending && l.decisions == m.decisions && (m.thread.Alive? ==> l.thread.Alive?)
    requires c.cfg == d.cfg && c.logger == d.logger && (d.alive ==> c.alive)
    requires g.sent == h.sent && g.heard == h.heard && g.queue == h.queue
    requires g.served <= h.served && (g.snapshot.Some? ==> h.snapshot.Some?)
    ensures History(re, m, d, h)
  {
  }

  /** The client's own steps change nothing but the client. */
  lemma ClientOnly(l: Load, a: Action, m: Load)
    requires IsClient(a) && NextClient(l, a) == Some(m)
    ensures l.client.Some? && m.client.Some? && m == l.(client := m.client)
    ensures var (c, d) := (l.client.value, m.client.value);
      && d.cfg == c.cfg && d.logger == c.logger && d.gen == c.gen && (d.alive ==> c.alive)
      && (d.mode == Executing <==> c.mode == Executing)
  {
  }

  lemma ClientProgress(re: Regex, l: Load, a: Action, m: Load, g: Gen)
    requires IsClient(a) && NextClient(l, a) == Some(m)
    requires l.client.Some? && Progress(re, l.client.value, g)
    ensures m.client.Some? && Progress(re, m.client.value, g)
  {
  }

  lemma InvClient(re: Regex, l: Load, a: Action, m: Load)
    requires IsClient(a) && Inv(re, l) && NextClient(l, a) == Some(m)
    ensures Inv(re, m)
  {
    ClientOnly(l, a, m);
    var c, d, g := l.client.value, m.client.value, l.gens[0];
    ClientProgress(re, l, a, m, g);
    HistoryFrame(re, l, c, g, m, d, g);
  }

  lemma ServeProgress(re: Regex, c: Client, g: Gen)
    requires Progress(re, c, g) && c.mode == InFlight
    ensures var (d, h) := Serve(re, c, g);
      && Progress(re, d, h) && g.served <= h.served && (g.snapshot.Some? ==> h.snapshot.Some?)
      && (d.mode == Executing ==> h.snapshot.Some?)
  {
  }

  lemma InvDispatch(re: Regex, l: Load, m: Load)
    requires Inv(re, l) && NextDispatch(re, l) == Some(m)
    ensures Inv(re, m)
  {
    var c, g, d, h := l.client.value, l.gens[0], m.client.value, m.gens[0];
    ServeProgress(re, c, g);
    HistoryFrame(re, l, c, g, m, d, h);
  }

  lemma EnableStageHead(re: Regex, l: Load, ok: bool, m: Load)
    requires Inv(re, l) && NextEnableStage(l, ok) == Some(m)
    ensures m.client.Some? && |m.gens| == 1 && m.client.value.gen == 0 && Progress(re, m.client.value, m.gens[0])
  {
  }

  lemma EnableStageFits(re: Regex, l: Load, ok: bool, m: Load)
    requires Inv(re, l) && NextEnableStage(l, ok) == Some(m)
    ensures m.client.Some? && |m.gens| == 1 && ThreadFits(m, m.client.value, m.gens[0])
  {
  }

  lemma EnableStageCaptures(re: Regex, l: Load, ok: bool, m: Load)
    requires Inv(re, l) && NextEnableStage(l, ok) == Some(m)
    ensures |m.gens| == 1 && Captured(m.detours.gai, m.gens[0]) && Captured(m.detours.cef, m.gens[0])
  {
  }

  lemma EnableStageHistory(re: Regex, l: Load, ok: bool, m: Load)
    requires Inv(re, l) && NextEnableStage(l, ok) == Some(m)
    ensures m.client.Some? && |m.gens| == 1 && History(re, m, m.client.value, m.gens[0])
  {
    HistoryFrame(re, l, l.client.value, l.gens[0], m, m.client.value, m.gens[0]);
  }

  lemma InvEnableStage(re: Regex, l: Load, ok: bool, m: Load)
    requires Inv(re, l) && NextEnableStage(l, ok) == Some(m)
    ensures Inv(re, m)
  {
    EnableStageHead(re, l, ok, m);
    EnableStageFits(re, l, ok, m);
    EnableStageCaptures(re, l, ok, m);
    EnableStageHistory(re, l, ok, m);
    EnableStageDelta(l, ok, m);
    assert Tended(m) && Serving(m);
  }

  lemma InvAccept(re: Regex, l: Load, m: Load)
    requires Inv(re, l) && NextAccept(l) == Some(m)
    ensures Inv(re, m)
  {
  }

  lemma InvEnd(re: Regex, l: Load, panicked: bool, m: Load)
    requires Inv(re, l) && l.thread.Alive? && l.thread.work == Waiting && EndThread(l, panicked) == Some(m)
    requires panicked || l.thread.signalled
    ensures Inv(re, m)
  {
  }

  lemma InvDeliver(re: Regex, l: Load, m: Load)
    requires Inv(re, l) && NextDeliver(l) == Some(m)
    ensures Inv(re, m)
  {
  }

  lemma InvEnter(re: Regex, l: Load, hook: FilterHook, request: Option<string>, m: Load)
    requires Inv(re, l) && NextEnter(l, hook, request) == Some(m)
    ensures Inv(re, m)
  {
    if l.gens != [] && l.client.Some? {
      assert Served(re, m, l.client.value, l.gens[0]);
    }
  }

  lemma InvDecide(re: Regex, l: Load, index: nat, m: Load)
    requires Inv(re, l) && NextDecide(re, l, index) == Some(m)
    ensures Inv(re, m)
  {
  }

  /** Sending a truthful message keeps the log part of the invariant. */
  lemma SendKeepsLog(re: Regex, c: Client, g: Gen, msg: LogMsg, h: Gen)
    requires h == g.(queue := g.queue + [msg], sent := g.sent + [msg])
    requires TruthfulLog(re, c.cfg, g.sent) && HeardPrefix(c.logger, g) && QueueRest(c, g)
    requires msg.blocked <==> ShouldBlock(re, c.cfg, msg.hook, msg.url)
    ensures TruthfulLog(re, c.cfg, h.sent) && HeardPrefix(c.logger, h) && QueueRest(c, h)
  {
  }

  /** The calls inside a closure and the finished ones, one of the former moved to the latter. */
  lemma FinishedRight(re: Regex, l: Load, index: nat, m: Load, c: Client, g: Gen, h: Gen)
    requires NextFinish(l, index) == Some(m) && h.served == g.served && h.snapshot == g.snapshot
    requires forall i :: 0 <= i < |l.pending| ==> PendingRight(re, c.cfg, g, l.pending[i])
    requires forall i :: 0 <= i < |l.decisions| ==> DecisionRight(re, c.cfg, l.decisions[i])
    ensures forall i :: 0 <= i < |m.pending| ==> PendingRight(re, c.cfg, h, m.pending[i])
    ensures forall i :: 0 <= i < |m.decisions| ==> DecisionRight(re, c.cfg, m.decisions[i])
  {
    assert PendingRight(re, c.cfg, g, l.pending[index]);
    forall i | 0 <= i < |m.pending| ensures PendingRight(re, c.cfg, h, m.pending[i]) {
      assert m.pending[i] == l.pending[if i < index then i else i + 1];
    }
    forall i | 0 <= i < |m.decisions| ensures DecisionRight(re, c.cfg, m.decisions[i]) {
      if i < |l.decisions| {
        assert m.decisions[i] == l.decisions[i];
      }
    }
  }

  lemma FinishHistory(re: Regex, l: Load, index: nat, m: Load, c: Client, g: Gen, h: Gen)
    requires |l.gens| == 1 && NextFinish(l, index) == Some(m) && History(re, l, c, g)
    requires g == l.gens[0] && h == m.gens[0]
    ensures History(re, m, c, h)
    ensures h == g.(queue := h.queue, sent := h.sent)
  {
    var p := l.pending[index];
    assert PendingRight(re, c.cfg, g, p);
    if h != g {
      SendKeepsLog(re, c, g, LogMsg(p.hook, p.verdict.value, p.url), h);
    }
    FinishedRight(re, l, index, m, c, g, h);
  }

  lemma InvFinish(re: Regex, l: Load, index: nat, m: Load)
    requires Inv(re, l) && NextFinish(l, index) == Some(m)
    ensures Inv(re, m)
  {
    var c, g, h := l.client.value, l.gens[0], m.gens[0];
    FinishHistory(re, l, index, m, c, g, h);
    assert Progress(re, c, h) && ThreadFits(m, c, h);
  }

  lemma InvRemote(re: Regex, l: Load, a: Action, m: Load)
    requires Inv(re, l) && IsRemote(a) && NextRemote(l, a) == Some(m) && |m.gens| <= 1
    requires a.SpawnClient? ==> l.client.None?
    ensures Inv(re, m)
  {
    match a
    case StartCall => InvStart(re, l, m);
    case StartReturn => InvStarted(re, l, m);
    case StartPanic => InvStarted(re, l, m);
    case SpawnClient(logger, cfg) => InvSpawn(re, l, logger, cfg, m);
    case _ => InvStop(re, l, a, m);
  }

  lemma InvThread(re: Regex, l: Load, a: Action, m: Load)
    requires Inv(re, l) && !IsRemote(a) && !IsClient(a) && !IsSpotify(a) && NextThread(re, l, a) == Some(m)
    ensures Inv(re, m)
  {
    match a
    case Accept => InvAccept(re, l, m);
    case Dispatch => InvDispatch(re, l, m);
    case EnableStage(ok) => InvEnableStage(re, l, ok, m);
    case ConnDisable(offGai, offCef) => InvConnDisable(re, l, offGai, offCef, m);
    case ThreadExit => InvEnd(re, l, false, m);
    case ThreadFail => InvEnd(re, l, true, m);
    case Deliver => InvDeliver(re, l, m);
  }

  lemma InvSpotify(re: Regex, l: Load, a: Action, m: Load)
    requires Inv(re, l) && IsSpotify(a) && NextSpotify(re, l, a) == Some(m)
    ensures Inv(re, m)
  {
    match a
    case Enter(hook, request) => InvEnter(re, l, hook, request, m);
    case Decide(index) => InvDecide(re, l, index, m);
    case Finish(index) => InvFinish(re, l, index, m);
  }

  lemma InvNext(re: Regex, l: Load, a: Action, m: Load)
    requires Inv(re, l) && Next(re, l, a) == Some(m) && |m.gens| <= 1
    requires a.SpawnClient? ==> l.client.None?
    ensures Inv(re, m)
  {
    if IsRemote(a) {
      InvRemote(re, l, a, m);
    } else if IsClient(a) {
      InvClient(re, l, a, m);
    } else if IsSpotify(a) {
      InvSpotify(re, l, a, m);
    } else {
      InvThread(re, l, a, m);
    }
  }

  /** Over the whole load, at most one client is spawned. */
  ghost predicate OneClient(l: Load, acts: seq<Action>) {
    && (l.client.Some? ==> forall a :: a in acts ==> !a.SpawnClient?)
    && (forall i, j :: 0 <= i < j < |acts| ==> !acts[i].SpawnClient? || !acts[j].SpawnClient?)
  }

  lemma {:induction false} InvExec(re: Regex, l: Load, acts: seq<Action>, m: Load)
    requires Inv(re, l) && Exec(re, l, acts) == Some(m) && |m.gens| <= 1 && OneClient(l, acts)
    ensures Inv(re, m)
    decreases |acts|
  {
    if acts != [] {
      var k := Next(re, l, acts[0]).value;
      GensGrowExec(re, k, acts[1..], m);
      NextDelta(re, l, acts[0], k);
      InvNext(re, l, acts[0], k);
      InvExec(re, k, acts[1..], m);
    }
  }

  /** Every interleaving of a fresh load that starts one server and one client keeps the invariant. */
  lemma LoadIsSafe(re: Regex, acts: seq<Action>, m: Load)
    requires Exec(re, FRESH_LOAD, acts) == Some(m) && |m.gens| <= 1 && OneClient(FRESH_LOAD, acts)
    ensures Inv(re, m)
  {
    InvFresh(re);
    InvExec(re, FRESH_LOAD, acts, m);
  }

  lemma {:induction false} GensGrowExec(re: Regex, l: Load, acts: seq<Action>, m: Load)
    requires Exec(re, l, acts) == Some(m)
    ensures |l.gens| <= |m.gens|
    decreases |acts|
  {
    if acts != [] {
      var k := Next(re, l, acts[0]).value;
      NextDelta(re, l, acts[0], k);
      GensGrowExec(re, k, acts[1..], m);
    }
  }

  // ---------------------------------------------------------------- the steps of one call, run undisturbed

  /** The remaining steps of `enable` by generation `gen`, in one go. */
  function EnableFrom(p: Pair<nat, nat>, gen: nat, stage: nat, o: EnableFaults): (Pair<nat, nat>, bool)
    requires stage <= 4
    decreases 4 - stage
  {
    if stage == 4 then (p, true)
    else
      var ok := match stage
        case 0 => o.initGai
        case 1 => o.initCef
        case 2 => o.onGai
        case _ => o.onCef;
      match EnableStep(p, gen, stage, ok)
      case None => (p, false)
      case Some(q) => EnableFrom(q, gen, stage + 1, o)
  }

  /** The four atomic steps are `hooks::enable`. */
  lemma EnableStepsAreEnable(p: Pair<nat, nat>, gen: nat, o: EnableFaults)
    ensures EnableFrom(p, gen, 0, o) == Detours.Enable(p, gen, gen, o)
  {
  }

  /** The two disabling steps of `stop_rpc` are `hooks::disable`; it goes on if that returns `Ok`, else it panics. */
  lemma StopStepsAreDisable(l: Load, offGai: bool, offCef: bool)
    requires l.call == DisablingGai
    ensures var m := NextStopDisable(l, offGai).value;
      if m.call == DisablingCef then
        var n := NextStopDisable(m, offCef).value;
        && (n.detours, n.call == Signalling) == Detours.Disable(l.detours, offGai, offCef)
        && (n.call != Signalling ==> n == Panic(m))
      else (m.detours, false) == Detours.Disable(l.detours, offGai, offCef) && m == Panic(l)
  {
  }
}
