/**
 The objects behind the RPC interface of the blocker and the host's setup calls, in the form the
 source has them: a shared filter store, a logger list, a log channel made once, the static
 detours, and the ordered calls of burnt-sushi/src/rpc.rs.
 */
module Server {
  import opened Wrappers
  import opened Rules
  import opened Detours
  import BlockerLoad

  /** What goes through the log channel: a request and its verdict, or the text of a caught panic. */
  datatype LogParams = Message(text: string) | Request(url: string, blocked: bool, hook: FilterHook)

  const LIST_LIMIT := BlockerLoad.LIST_LIMIT

  /** A registered logger and what it was told. */
  class Logger {
    var heard: seq<LogParams>

    constructor ()
      ensures heard == []
    {
      heard := [];
    }
  }

  /** `m` repeated once for every time `logger` occurs in `loggers`. */
  function Copies<T(==)>(loggers: seq<T>, logger: T, m: LogParams): seq<LogParams> {
    if loggers == [] then []
    else Copies(loggers[..|loggers| - 1], logger, m) + (if loggers[|loggers| - 1] == logger then [m] else [])
  }

  /** What `logger` hears of `queue` when the channel serves `loggers`. */
  function Told<T(==)>(loggers: seq<T>, logger: T, queue: seq<LogParams>): seq<LogParams> {
    if queue == [] then []
    else Told(loggers, logger, queue[..|queue| - 1]) + Copies(loggers, logger, queue[|queue| - 1])
  }

  lemma {:induction false} NotListedHearsNothing<T>(loggers: seq<T>, logger: T, queue: seq<LogParams>)
    requires logger !in loggers
    ensures Told(loggers, logger, queue) == []
  {
    if queue != [] {
      NotListedHearsNothing(loggers, logger, queue[..|queue| - 1]);
      NoCopies(loggers, logger, queue[|queue| - 1]);
    }
  }

  /** One more message of the queue, told after whatever was told before. */
  lemma ToldMore<T>(before: seq<LogParams>, loggers: seq<T>, logger: T, done: seq<LogParams>, m: LogParams)
    ensures before + Told(loggers, logger, done) + Copies(loggers, logger, m)
         == before + Told(loggers, logger, done + [m])
  {
    assert (done + [m])[..|done|] == done;
  }

  lemma CopyOfOne<T>(logger: T, m: LogParams)
    ensures Copies([logger], logger, m) == [m]
  {
    assert [logger][..0] == [];
  }

  lemma {:induction false} NoCopies<T>(loggers: seq<T>, logger: T, m: LogParams)
    requires logger !in loggers
    ensures Copies(loggers, logger, m) == []
  {
    if loggers != [] {
      NoCopies(loggers[..|loggers| - 1], logger, m);
    }
  }

  /** The only logger of a channel hears the queue: every message, in order, once. */
  lemma {:induction false} OnlyLoggerHearsAll<T>(logger: T, queue: seq<LogParams>)
    ensures Told([logger], logger, queue) == queue
  {
    if queue != [] {
      var front, last := queue[..|queue| - 1], queue[|queue| - 1];
      OnlyLoggerHearsAll(logger, front);
      CopyOfOne(logger, last);
      assert Told([logger], logger, queue) == front + [last];
    }
  }

  /** The unbounded log channel and the logger list its task cloned when it was made. */
  class LogChannel {
    var queue: seq<LogParams>
    const snapshot: seq<Logger>

    constructor (loggers: seq<Logger>)
      ensures snapshot == loggers && queue == []
    {
      snapshot := loggers;
      queue := [];
    }

    method Send(m: LogParams)
      modifies this
      ensures queue == old(queue) + [m]
    {
      queue := queue + [m];
    }

    /** `log_request`: one message to every logger of the list. */
    method Broadcast(m: LogParams)
      modifies set l | l in snapshot
      ensures forall l :: l in snapshot ==> l.heard == old(l.heard) + Copies(snapshot, l, m)
    {
      var i := 0;
      while i < |snapshot|
        invariant 0 <= i <= |snapshot|
        invariant forall l :: l in snapshot ==> l.heard == old(l.heard) + Copies(snapshot[..i], l, m)
      {
        snapshot[i].heard := snapshot[i].heard + [m];
        assert snapshot[..i + 1][..i] == snapshot[..i];
        i := i + 1;
      }
      assert snapshot[..i] == snapshot;
    }

    /** The task's receive loop until the queue is empty. */
    method Drain()
      modifies this, set l | l in snapshot
      ensures queue == []
      ensures forall l :: l in snapshot ==> l.heard == old(l.heard) + Told(snapshot, l, old(queue))
    {
      ghost var done: seq<LogParams> := [];
      while queue != []
        invariant old(queue) == done + queue
        invariant forall l :: l in snapshot ==> l.heard == old(l.heard) + Told(snapshot, l, done)
        decreases |queue|
      {
        var m := queue[0];
        queue := queue[1..];
        Broadcast(m);
        forall l | l in snapshot ensures l.heard == old(l.heard) + Told(snapshot, l, done + [m]) {
          ToldMore(old(l.heard), snapshot, l, done, m);
        }
        done := done + [m];
      }
      assert done == old(queue);
    }
  }

  class LoggerManager {
    var loggers: seq<Logger>
    var logTx: Option<LogChannel>

    constructor ()
      ensures loggers == [] && logTx == None
    {
      loggers := [];
      logTx := None;
    }

    method AddLogger(logger: Logger)
      modifies this
      ensures loggers == old(loggers) + [logger] && logTx == old(logTx)
    {
      loggers := loggers + [logger];
    }

    /** The channel is made on first use, with the loggers registered by then; later ones are not served. */
    method LogSender() returns (tx: LogChannel)
      modifies this
      ensures logTx == Some(tx) && loggers == old(loggers)
      ensures old(logTx).Some? ==> logTx == old(logTx)
      ensures old(logTx).None? ==> fresh(tx) && tx.snapshot == loggers && tx.queue == []
    {
      if logTx.None? {
        var made := new LogChannel(loggers);
        logTx := Some(made);
      }
      tx := logTx.value;
    }
  }

  /** The static detours of a loaded module. */
  class Hooks {
    var gai: Detour<Filters, LogChannel>
    var cef: Detour<Filters, LogChannel>

    constructor ()
      ensures State() == Pair(Fresh, Fresh)
    {
      gai, cef := Fresh, Fresh;
    }

    ghost function State(): Pair<Filters, LogChannel>
      reads this
    {
      Pair(gai, cef)
    }

    method Enable(filters: Filters, log: LogChannel, o: EnableFaults) returns (ok: bool)
      modifies this
      ensures (State(), ok) == Detours.Enable(old(State()), filters, log, o)
    {
      var g := Init(gai, filters, log, o.initGai);
      if g.None? {
        return false;
      }
      gai := g.value;
      var c := Init(cef, filters, log, o.initCef);
      if c.None? {
        return false;
      }
      cef := c.value;
      g := TurnOn(gai, o.onGai);
      if g.None? {
        return false;
      }
      gai := g.value;
      c := TurnOn(cef, o.onCef);
      if c.None? {
        return false;
      }
      cef := c.value;
      ok := true;
    }

    method Disable(offGai: bool, offCef: bool) returns (ok: bool)
      modifies this
      ensures (State(), ok) == Detours.Disable(old(State()), offGai, offCef)
    {
      if gai.IsOn() {
        var g := TurnOff(gai, offGai);
        if g.None? {
          return false;
        }
        gai := g.value;
      }
      if cef.IsOn() {
        var c := TurnOff(cef, offCef);
        if c.None? {
          return false;
        }
        cef := c.value;
      }
      ok := true;
    }

    ghost function Of(hook: FilterHook): Detour<Filters, LogChannel>
      reads this
    {
      if hook.GetAddrInfo? then gai else cef
    }

    /**
     A call of a hooked function up to the decision: `true` means the original is not called.
     An argument that cannot be decoded passes unlogged, and so does any call while the hook is off.
     A panic inside the closure is caught and logged, and the call passes.
     */
    method Call(re: Regex, hook: FilterHook, request: Option<string>, panics: Option<string>) returns (block: bool)
      modifies if Of(hook).Ready? then {Of(hook).log} else {}
      ensures block <==>
        && Of(hook).IsOn() && panics.None? && request.Some?
        && !Allows(re, Of(hook).filters.rulesets.Of(hook), request.value)
      ensures Of(hook).Ready? ==>
        Of(hook).log.queue == old(Of(hook).log.queue) +
          (if !Of(hook).on then []
           else if panics.Some? then [Message(panics.value)]
           else if request.Some? then [Request(request.value, block, hook)]
           else [])
    {
      var d := if hook.GetAddrInfo? then gai else cef;
      if !d.IsOn() {
        return false;
      }
      if panics.Some? {
        d.log.Send(Message(panics.value));
        return false;
      }
      if request.None? {
        return false;
      }
      var pass := d.filters.Check(re, hook, request.value);
      block := !pass;
      d.log.Send(Request(request.value, block, hook));
    }
  }

  class ServerImpl {
    const logger: LoggerManager
    const filters: Filters

    constructor ()
      ensures fresh(logger) && fresh(filters)
      ensures logger.loggers == [] && logger.logTx == None && filters.rulesets == EMPTY_TABLE
    {
      logger := new LoggerManager();
      filters := new Filters();
    }

    method RegisterLogger(client: Logger)
      modifies logger
      ensures logger.loggers == old(logger.loggers) + [client] && logger.logTx == old(logger.logTx)
    {
      logger.AddLogger(client);
    }

    /** Both pattern lists are compiled before anything is stored. */
    method SetRuleset(re: Regex, hook: FilterHook, whitelist: seq<string>, blacklist: seq<string>) returns (ok: bool)
      modifies filters
      ensures ok <==> AllValid(re, whitelist) && AllValid(re, blacklist)
      ensures ok ==> filters.rulesets.Of(hook) == Ruleset(whitelist, blacklist)
      ensures forall h :: h != hook || !ok ==> filters.rulesets.Of(h) == old(filters.rulesets.Of(h))
    {
      if !AllValid(re, whitelist) || !AllValid(re, blacklist) {
        return false;
      }
      filters.ReplaceRuleset(hook, Ruleset(whitelist, blacklist));
      ok := true;
    }

    method EnableFiltering(hooks: Hooks, o: EnableFaults) returns (ok: bool)
      modifies logger, hooks
      ensures logger.logTx.Some? && logger.loggers == old(logger.loggers)
      ensures old(logger.logTx).Some? ==> logger.logTx == old(logger.logTx)
      ensures old(logger.logTx).None? ==>
        var tx := logger.logTx.value;
        fresh(tx) && tx.snapshot == logger.loggers && tx.queue == []
      ensures (hooks.State(), ok) == Detours.Enable(old(hooks.State()), filters, logger.logTx.value, o)
    {
      var tx := logger.LogSender();
      ok := hooks.Enable(filters, tx, o);
    }

    method DisableFiltering(hooks: Hooks, offGai: bool, offCef: bool) returns (ok: bool)
      modifies hooks
      ensures (hooks.State(), ok) == Detours.Disable(old(hooks.State()), offGai, offCef)
    {
      ok := hooks.Disable(offGai, offCef);
    }
  }

  /**
   The copy of a pattern list into a message. The list builder's size is 32 bits wide, and setting
   an element past its end panics (`None`).
   */
  method FillList(urls: seq<string>) returns (r: Option<seq<string>>)
    ensures r == if |urls| < LIST_LIMIT then Some(urls) else None
  {
    var size := |urls| % LIST_LIMIT;
    var list := new string[size](_ => "");
    var i := 0;
    while i < |urls|
      invariant 0 <= i <= |urls| && i <= size
      invariant forall j :: 0 <= j < i ==> list[j] == urls[j]
    {
      var at := i % LIST_LIMIT;
      if at >= size {
        return None;
      }
      list[at] := urls[i];
      i := i + 1;
    }
    assert size == |urls|;
    assert list[..] == urls;
    r := Some(list[..]);
  }

  /** What `run` needs of the configuration for its requests to be built and accepted. */
  predicate Accepted(re: Regex, cfg: Config) {
    && |cfg.allow| < LIST_LIMIT && AllValid(re, cfg.allow)
    && |cfg.deny| < LIST_LIMIT && AllValid(re, cfg.deny)
  }

  /**
   The host's client: register the logger, set both rulesets, then enable. It gets through exactly
   when the configuration is accepted and `enable` succeeds, and until then no hook is touched.
   */
  method RunClient(re: Regex, server: ServerImpl, hooks: Hooks, host: Logger, cfg: Config, o: EnableFaults)
    returns (ok: bool)
    requires server.logger.loggers == [] && server.logger.logTx == None
    modifies server.logger, server.filters, hooks
    ensures !Accepted(re, cfg) ==> !ok && hooks.State() == old(hooks.State())
    ensures Accepted(re, cfg) ==>
      && server.logger.logTx.Some? && server.logger.logTx.value.snapshot == [host]
      && (forall hook :: server.filters.rulesets.Of(hook) == RulesFor(cfg, hook))
      && (hooks.State(), ok) == Detours.Enable(old(hooks.State()), server.filters, server.logger.logTx.value, o)
  {
    server.RegisterLogger(host);
    var whitelist := FillList(cfg.allow);
    if whitelist.None? {
      return false;
    }
    var set1 := server.SetRuleset(re, GetAddrInfo, whitelist.value, []);
    if !set1 {
      return false;
    }
    var blacklist := FillList(cfg.deny);
    if blacklist.None? {
      return false;
    }
    var set2 := server.SetRuleset(re, CefUrlRequestCreate, [], blacklist.value);
    if !set2 {
      return false;
    }
    ok := server.EnableFiltering(hooks, o);
  }
}
