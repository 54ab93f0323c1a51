/**
 `SpotifyAdBlocker` and `SpotifyHookState` of burnt-sushi/src/blocker.rs as the objects they are,
 seen from the host alone: each remote call is one step whose outcome is given from outside. What
 the threads inside the module do meanwhile is the business of `HookProtocol`. All file names,
 `DEFAULT_BLOCKER_FILE_NAME` among them, are taken as the system folds them.
 */
module HookState {
  import opened Wrappers
  import opened Paths

  /** A loaded module; `id` is one load of it, `refs` its `LoadLibrary` count. */
  datatype Module = Module(id: nat, path: Path, refs: nat, rpc: bool) {
    predicate IsBlocker() {
      FileName(path) == DEFAULT_BLOCKER_FILE_NAME
    }
  }

  function Others(ms: seq<Module>): seq<Module> {
    if ms == [] then []
    else if ms[0].IsBlocker() then Others(ms[1..])
    else [ms[0]] + Others(ms[1..])
  }

  /** References held on blocker modules. */
  function Refs(ms: seq<Module>): nat {
    if ms == [] then 0
    else (if ms[0].IsBlocker() then ms[0].refs else 0) + Refs(ms[1..])
  }

  /** The number of failures in a script of outcomes. */
  function Failures(script: seq<bool>): nat {
    if script == [] then 0 else (if script[0] then 0 else 1) + Failures(script[1..])
  }

  lemma {:induction false} OthersConcat(a: seq<Module>, b: seq<Module>)
    ensures Others(a + b) == Others(a) + Others(b)
    ensures Refs(a + b) == Refs(a) + Refs(b)
  {
    if a == [] {
      assert a + b == b;
    } else {
      assert (a + b)[1..] == a[1..] + b;
      OthersConcat(a[1..], b);
    }
  }

  /** Changing the blocker at one place leaves the others alone. */
  lemma OneBlockerChanged(ms: seq<Module>, i: nat, part: seq<Module>)
    requires i < |ms| && ms[i].IsBlocker() && |part| <= 1
    requires part != [] ==> part[0].IsBlocker()
    ensures Others(ms[..i] + part + ms[i + 1..]) == Others(ms)
    ensures Refs(ms[..i] + part + ms[i + 1..]) == Refs(ms) - ms[i].refs + (if part == [] then 0 else part[0].refs)
  {
    assert ms == ms[..i] + [ms[i]] + ms[i + 1..];
    OthersConcat(ms[..i], [ms[i]]);
    OthersConcat(ms[..i] + [ms[i]], ms[i + 1..]);
    OthersConcat(ms[..i], part);
    OthersConcat(ms[..i] + part, ms[i + 1..]);
  }

  /** No blocker left means only the others are left. */
  lemma {:induction false} NoBlockerMeansOthers(ms: seq<Module>)
    requires forall m :: m in ms ==> !m.IsBlocker()
    ensures Others(ms) == ms
  {
    if ms != [] {
      NoBlockerMeansOthers(ms[1..]);
    }
  }

  datatype RemoteCall = StopCall(id: nat) | EjectCall(id: nat) | InjectCall(path: Path) | StartCall(id: nat)

  /** Every eject comes right after `stop_rpc` was called on the same module. */
  ghost predicate StopsFirst(calls: seq<RemoteCall>) {
    forall k :: 0 <= k < |calls| && calls[k].EjectCall? ==> k > 0 && calls[k - 1] == StopCall(calls[k].id)
  }

  ghost predicate DistinctIds(ms: seq<Module>) {
    forall i, j :: 0 <= i < j < |ms| ==> ms[i].id != ms[j].id
  }

  /**
   A Spotify process. `ejects` scripts the outcomes of the next ejects; once it is used up they
   succeed. `calls` records what the host did to it.
   */
  class Process {
    ghost var calls: seq<RemoteCall>
    var alive: bool
    var modules: seq<Module>
    var nextId: nat
    var ejects: seq<bool>

    ghost predicate Valid()
      reads this
    {
      && (forall i :: 0 <= i < |modules| ==> modules[i].refs >= 1 && modules[i].id < nextId)
      && DistinctIds(modules)
      && StopsFirst(calls)
      && (!alive ==> modules == [])
    }

    /** The process ends, and its modules with it. */
    method End()
      requires Valid()
      modifies this`alive, this`modules
      ensures Valid() && !alive && modules == []
    {
      alive := false;
      modules := [];
    }

    /** The first module with the given base name. */
    method FindModuleByName(name: string) returns (r: Result<Option<nat>>)
      ensures !alive <==> r.Err?
      ensures r.Ok? && r.value.Some? ==> r.value.value < |modules| && FileName(modules[r.value.value].path) == name
      ensures r == Ok(None) ==> forall m :: m in modules ==> FileName(m.path) != name
    {
      if !alive {
        return Err;
      }
      var i := 0;
      while i < |modules|
        invariant 0 <= i <= |modules|
        invariant forall j :: 0 <= j < i ==> FileName(modules[j].path) != name
      {
        if FileName(modules[i].path) == name {
          return Ok(Some(i));
        }
        i := i + 1;
      }
      r := Ok(None);
    }

    /** Where a load sits in the module list, past the end if it is gone. */
    method IndexOf(id: nat) returns (i: nat)
      ensures i <= |modules| && (forall j :: 0 <= j < i ==> modules[j].id != id)
      ensures i < |modules| ==> modules[i].id == id
    {
      i := 0;
      while i < |modules| && modules[i].id != id
        invariant 0 <= i <= |modules|
        invariant forall j :: 0 <= j < i ==> modules[j].id != id
      {
        i := i + 1;
      }
    }

    /** `stop_rpc` of one module, if the call gets through. */
    method StopRpc(i: nat, ok: bool)
      requires Valid() && i < |modules|
      modifies this`modules, this`calls
      ensures Valid() && calls == old(calls) + [StopCall(old(modules)[i].id)]
      ensures modules == if ok then old(modules)[i := old(modules)[i].(rpc := false)] else old(modules)
    {
      calls := calls + [StopCall(modules[i].id)];
      if ok {
        modules := modules[i := modules[i].(rpc := false)];
      }
    }

    /** `FreeLibrary`; a module goes when its last reference does. */
    method Eject(i: nat) returns (ok: bool)
      requires Valid() && i < |modules|
      requires calls != [] && calls[|calls| - 1] == StopCall(modules[i].id)
      modifies this`modules, this`ejects, this`calls
      ensures Valid() && calls == old(calls) + [EjectCall(old(modules)[i].id)]
      ensures ok == (old(ejects) == [] || old(ejects)[0])
      ensures ejects == if old(ejects) == [] then [] else old(ejects)[1..]
      ensures modules == if !ok then old(modules) else EjectAt(old(modules), i)
    {
      calls := calls + [EjectCall(modules[i].id)];
      ok := ejects == [] || ejects[0];
      if ejects != [] {
        ejects := ejects[1..];
      }
      if ok {
        EjectKeepsIds(modules, i);
        modules := EjectAt(modules, i);
      }
    }

    /** `LoadLibrary`: one more reference to a module already loaded from that file, or a fresh one. */
    method Inject(path: Path) returns (i: nat)
      requires Valid() && alive
      modifies this`modules, this`nextId, this`calls
      ensures calls == old(calls) + [InjectCall(path)]
      ensures Valid() && i < |modules| && modules[i].path == path
      ensures (forall m :: m in old(modules) ==> m.path != path) ==>
        modules == old(modules) + [Module(old(nextId), path, 1, false)] && i == |old(modules)|
      ensures (exists m :: m in old(modules) && m.path == path) ==>
        i < |old(modules)| && modules == old(modules)[i := old(modules)[i].(refs := old(modules)[i].refs + 1)]
      ensures nextId >= old(nextId)
    {
      calls := calls + [InjectCall(path)];
      i := 0;
      while i < |modules|
        invariant 0 <= i <= |modules|
        invariant forall j :: 0 <= j < i ==> modules[j].path != path
      {
        if modules[i].path == path {
          modules := modules[i := modules[i].(refs := modules[i].refs + 1)];
          return;
        }
        i := i + 1;
      }
      modules := modules + [Module(nextId, path, 1, false)];
      nextId := nextId + 1;
    }

    method StartRpc(i: nat)
      requires Valid() && i < |modules|
      modifies this`modules, this`calls
      ensures Valid() && modules == old(modules)[i := old(modules)[i].(rpc := true)]
      ensures calls == old(calls) + [StartCall(old(modules)[i].id)]
    {
      calls := calls + [StartCall(modules[i].id)];
      modules := modules[i := modules[i].(rpc := true)];
    }
  }

  function EjectAt(ms: seq<Module>, i: nat): seq<Module>
    requires i < |ms|
  {
    if ms[i].refs <= 1 then ms[..i] + ms[i + 1..]
    else ms[i := ms[i].(refs := ms[i].refs - 1)]
  }

  lemma EjectKeepsIds(ms: seq<Module>, i: nat)
    requires i < |ms| && DistinctIds(ms)
    ensures DistinctIds(EjectAt(ms, i))
  {
    var ns := EjectAt(ms, i);
    if ms[i].refs <= 1 {
      assert forall k :: 0 <= k < |ns| ==> ns[k] == ms[if k < i then k else k + 1];
    } else {
      assert forall k :: 0 <= k < |ns| ==> ns[k].id == ms[k].id;
    }
  }

  lemma OneBlockerGone(ms: seq<Module>, i: nat)
    requires i < |ms| && ms[i].IsBlocker()
    ensures Others(ms[..i] + ms[i + 1..]) == Others(ms)
    ensures Refs(ms[..i] + ms[i + 1..]) == Refs(ms) - ms[i].refs
  {
    assert ms[..i] + [] == ms[..i];
    OneBlockerChanged(ms, i, []);
  }

  lemma OneBlockerUpdated(ms: seq<Module>, i: nat, m: Module)
    requires i < |ms| && ms[i].IsBlocker() && m.IsBlocker()
    ensures Others(ms[i := m]) == Others(ms)
    ensures Refs(ms[i := m]) == Refs(ms) - ms[i].refs + m.refs
  {
    assert ms[..i] + [m] + ms[i + 1..] == ms[i := m];
    OneBlockerChanged(ms, i, [m]);
  }

  lemma EjectTakesOne(ms: seq<Module>, i: nat)
    requires i < |ms| && ms[i].IsBlocker() && ms[i].refs >= 1
    ensures Others(EjectAt(ms, i)) == Others(ms) && Refs(EjectAt(ms, i)) == Refs(ms) - 1
  {
    if ms[i].refs <= 1 {
      OneBlockerGone(ms, i);
    } else {
      OneBlockerUpdated(ms, i, ms[i].(refs := ms[i].refs - 1));
    }
  }

  /** The modules after module `i` was stopped, and ejected if that worked. */
  function Leftover(ms: seq<Module>, i: nat, ejected: bool): seq<Module>
    requires i < |ms|
  {
    var stopped := ms[i := ms[i].(rpc := false)];
    if ejected then EjectAt(stopped, i) else stopped
  }

  // ---------------------------------------------------------------- which servers run

  /** The loads whose RPC server runs. */
  ghost function Servers(ms: seq<Module>): set<nat> {
    set i | 0 <= i < |ms| && ms[i].rpc :: ms[i].id
  }

  lemma StopEndsServer(ms: seq<Module>, i: nat)
    requires i < |ms| && DistinctIds(ms)
    ensures Servers(ms[i := ms[i].(rpc := false)]) == Servers(ms) - {ms[i].id}
  {
    var ns := ms[i := ms[i].(rpc := false)];
    forall id | id in Servers(ms) - {ms[i].id} ensures id in Servers(ns) {
      var j :| 0 <= j < |ms| && ms[j].rpc && ms[j].id == id;
      assert ns[j] == ms[j];
    }
    forall id | id in Servers(ns) ensures id in Servers(ms) - {ms[i].id} {
      var j :| 0 <= j < |ns| && ns[j].rpc && ns[j].id == id;
      assert j != i && ns[j] == ms[j];
    }
  }

  lemma StartAddsServer(ms: seq<Module>, i: nat)
    requires i < |ms|
    ensures Servers(ms[i := ms[i].(rpc := true)]) <= Servers(ms) + {ms[i].id}
  {
  }

  lemma RefAddsNoServer(ms: seq<Module>, i: nat, refs: nat)
    requires i < |ms|
    ensures Servers(ms[i := ms[i].(refs := refs)]) <= Servers(ms)
  {
  }

  lemma EjectAddsNoServer(ms: seq<Module>, i: nat)
    requires i < |ms|
    ensures Servers(EjectAt(ms, i)) <= Servers(ms)
  {
  }

  lemma {:induction false} OthersServers(ms: seq<Module>)
    ensures Servers(Others(ms)) <= Servers(ms)
  {
    if ms != [] {
      OthersServers(ms[1..]);
      assert ms == [ms[0]] + ms[1..];
      ServersConcat([ms[0]], ms[1..]);
      ServersConcat([ms[0]], Others(ms[1..]));
    }
  }

  lemma ServersConcat(a: seq<Module>, b: seq<Module>)
    ensures Servers(a + b) == Servers(a) + Servers(b)
  {
    forall id | id in Servers(a) + Servers(b) ensures id in Servers(a + b) {
      if id in Servers(a) {
        var i :| 0 <= i < |a| && a[i].rpc && a[i].id == id;
        assert (a + b)[i] == a[i];
      } else {
        var i :| 0 <= i < |b| && b[i].rpc && b[i].id == id;
        assert (a + b)[|a| + i] == b[i];
      }
    }
  }

  // ---------------------------------------------------------------- the eject loop

  /**
   What comes of calling `stop_rpc` in a live process: it works, the call fails (it panics, or does
   not get through), the module has no such procedure, or the process is lost.
   */
  datatype StopAnswer = Works | CallFails | NotFound | Lost

  /** One round of the loop. */
  lemma ClearOne(ms: seq<Module>, i: nat, stopped: bool, ejected: bool)
    requires i < |ms| && ms[i].IsBlocker() && ms[i].refs >= 1 && DistinctIds(ms)
    ensures var ns := AfterClear(ms, i, stopped, ejected);
      Others(ns) == Others(ms) && Refs(ns) == Refs(ms) - (if ejected then 1 else 0) && Servers(ns) <= Servers(ms)
  {
    var ns := if stopped then ms[i := ms[i].(rpc := false)] else ms;
    if stopped {
      OneBlockerUpdated(ms, i, ms[i].(rpc := false));
      StopEndsServer(ms, i);
    }
    if ejected {
      EjectTakesOne(ns, i);
      EjectAddsNoServer(ns, i);
    }
  }

  function AfterClear(ms: seq<Module>, i: nat, stopped: bool, ejected: bool): seq<Module>
    requires i < |ms|
  {
    var ns := if stopped then ms[i := ms[i].(rpc := false)] else ms;
    if ejected then EjectAt(ns, i) else ns
  }

  /** `stop_rpc` and eject on one module. */
  method ClearModule(p: Process, i: nat, stopped: bool)
    requires p.Valid() && i < |p.modules| && p.modules[i].IsBlocker()
    modifies p`modules, p`ejects, p`calls
    ensures p.Valid()
    ensures Others(p.modules) == Others(old(p.modules)) && Servers(p.modules) <= Servers(old(p.modules))
    ensures Refs(p.modules) + Failures(p.ejects) < Refs(old(p.modules)) + Failures(old(p.ejects))
  {
    ghost var was := p.modules;
    p.StopRpc(i, stopped);
    var ejected := p.Eject(i);
    ClearOne(was, i, stopped, ejected);
    assert p.modules == AfterClear(was, i, stopped, ejected);
  }

  /**
   The loop that clears leftover blockers. It ends after at most as many rounds as there are
   references to clear and ejects that fail, and leaves every other module in place. A call of
   `stop_rpc` that fails is only logged; a module without it, and a lost process, end the loop with
   an error.
   */
  method EjectLeftovers(p: Process, stops: seq<StopAnswer>) returns (ok: bool, ghost rounds: nat)
    requires p.Valid()
    modifies p`alive, p`modules, p`ejects, p`calls
    ensures p.Valid()
    ensures ok ==> p.alive && p.modules == Others(old(p.modules))
    ensures ok ==> forall m :: m in p.modules ==> !m.IsBlocker()
    ensures !ok ==> !old(p.alive) || NotFound in stops || Lost in stops
    ensures p.alive ==> Others(p.modules) == Others(old(p.modules))
    ensures Servers(p.modules) <= Servers(old(p.modules))
    ensures rounds <= Refs(old(p.modules)) + Failures(old(p.ejects))
  {
    rounds := 0;
    var found: Result<Option<nat>> := p.FindModuleByName(DEFAULT_BLOCKER_FILE_NAME);
    if found.Err? {
      return false, 0;
    }
    var calls := 0;
    while found.value.Some?
      invariant p.Valid() && p.alive && old(p.alive) && found.Ok? && calls >= 0
      invariant found.value.Some? ==> found.value.value < |p.modules| && p.modules[found.value.value].IsBlocker()
      invariant found.value.None? ==> forall m :: m in p.modules ==> !m.IsBlocker()
      invariant Others(p.modules) == Others(old(p.modules)) && Servers(p.modules) <= Servers(old(p.modules))
      invariant rounds + Refs(p.modules) + Failures(p.ejects) <= Refs(old(p.modules)) + Failures(old(p.ejects))
      decreases Refs(p.modules) + Failures(p.ejects)
    {
      var answer := if calls < |stops| then stops[calls] else Works;
      calls := calls + 1;
      if answer.NotFound? {
        return false, rounds;
      }
      if answer.Lost? {
        p.End();
        return false, rounds;
      }
      ClearModule(p, found.value.value, answer.Works?);
      found := p.FindModuleByName(DEFAULT_BLOCKER_FILE_NAME);
      rounds := rounds + 1;
    }
    NoBlockerMeansOthers(p.modules);
    ok := true;
  }

  // ---------------------------------------------------------------- hook, unhook, run, stop

  /** The awaits at which the host's future can be dropped. */
  datatype Await = AtJoin | AtConfig | AtBlocker

  /** What comes of unhooking: the call of `stop_rpc`, and whether the client thread ended without a panic. */
  datatype Unhooking = Unhooking(stop: StopAnswer, joins: bool) {
    /** No server is left behind: it was stopped, or went with its process. */
    predicate Stops() {
      stop.Works? || stop.Lost?
    }
  }

  /** What the world answers during one `hook_spotify`, and where it is dropped, if anywhere. */
  datatype Env = Env(
    unhooking: Unhooking,
    stops: seq<StopAnswer>,
    config: bool,
    blocker: Result<Path>,
    inject: bool,
    startFound: bool,
    startWorks: bool,
    cancel: Option<Await>)

  datatype Outcome = Done | Failed | Cancelled

  /**
   `inject` and `start_rpc` with no await between them; the result is the load whose server now
   runs. A call that fails is a panic of the host, and of the module before it has a server.
   */
  method Deploy(p: Process, path: Path, inject: bool, startFound: bool, startWorks: bool) returns (r: Option<nat>)
    requires p.Valid() && p.alive
    modifies p`modules, p`nextId, p`calls
    ensures p.Valid()
    ensures r.Some? <==> inject && startFound && startWorks
    ensures Servers(p.modules) <= Servers(old(p.modules)) + (if r.Some? then {r.value} else {})
    ensures r.Some? && (forall m :: m in old(p.modules) ==> m.path != path) ==>
      p.modules == old(p.modules) + [Module(r.value, path, 1, true)]
  {
    if !inject {
      return None;
    }
    ghost var was := p.modules;
    var i := p.Inject(path);
    ghost var injected := p.modules;
    if exists m :: m in was && m.path == path {
      RefAddsNoServer(was, i, was[i].refs + 1);
    } else {
      ServersConcat(was, [injected[i]]);
      assert Servers([injected[i]]) == {};
    }
    if !startFound || !startWorks {
      return None;
    }
    StartAddsServer(p.modules, i);
    p.StartRpc(i);
    r := Some(p.modules[i].id);
  }

  /** `m` is loaded last, and no other module is a blocker. */
  ghost predicate LastIsOnlyBlocker(ms: seq<Module>, m: Module) {
    ms != [] && ms[|ms| - 1] == m && forall k :: k in ms[..|ms| - 1] ==> !k.IsBlocker()
  }

  /** `hook_spotify` once nothing is hooked: clear leftovers, inject and start; `id` is the load whose server runs. */
  method ClearAndDeploy(p: Process, env: Env) returns (o: Outcome, id: nat)
    requires p.Valid()
    modifies p
    ensures p.Valid()
    ensures o == Cancelled ==> env.cancel.Some?
    ensures Servers(p.modules) <= Servers(old(p.modules)) + (if o == Done then {id} else {})
    ensures o == Done ==> env.blocker.Ok?
    ensures o == Done && FileName(env.blocker.value) == DEFAULT_BLOCKER_FILE_NAME ==>
      p.modules == Others(old(p.modules)) + [Module(id, env.blocker.value, 1, true)]
    ensures o == Done && FileName(env.blocker.value) == DEFAULT_BLOCKER_FILE_NAME ==>
      LastIsOnlyBlocker(p.modules, Module(id, env.blocker.value, 1, true))
  {
    id := 0;
    var ok, _ := EjectLeftovers(p, env.stops);
    if !ok {
      return Failed, id;
    }
    if env.cancel == Some(AtConfig) {
      return Cancelled, id;
    }
    if !env.config {
      return Failed, id;
    }
    if env.cancel == Some(AtBlocker) {
      return Cancelled, id;
    }
    if env.blocker.Err? {
      return Failed, id;
    }
    var deployed := Deploy(p, env.blocker.value, env.inject, env.startFound, env.startWorks);
    if deployed.None? {
      return Failed, id;
    }
    o, id := Done, deployed.value;
  }

  /** The module is stopped before the only await, and ejected after it. */
  method StopAndEject(p: Process, i: nat, u: Unhooking, cancel: Option<Await>) returns (o: Outcome)
    requires p.Valid() && i < |p.modules| && u.stop.Works?
    modifies p`modules, p`ejects, p`calls
    ensures p.Valid() && o == if cancel == Some(AtJoin) then Cancelled else if u.joins then Done else Failed
    ensures Servers(p.modules) <= Servers(old(p.modules)) - {old(p.modules)[i].id}
    ensures p.modules == Leftover(old(p.modules), i, o == Done && (old(p.ejects) == [] || old(p.ejects)[0]))
  {
    StopEndsServer(p.modules, i);
    p.StopRpc(i, true);
    if cancel == Some(AtJoin) {
      return Cancelled;
    }
    if !u.joins {
      return Failed;
    }
    EjectAddsNoServer(p.modules, i);
    var _ := p.Eject(i);
    o := Done;
  }

  class SpotifyHookState {
    var target: Process?
    var payload: nat

    constructor ()
      ensures target == null
    {
      target := null;
      payload := 0;
    }

    /** The server this state records in `p`. */
    ghost function Own(p: Process): set<nat>
      reads this
    {
      if target == p then {payload} else {}
    }

    ghost predicate Tracks(procs: set<Process>)
      reads this, procs
    {
      && (forall p :: p in procs ==> p.Valid())
      && (target != null ==> target in procs)
    }

    /**
     The state says `Unhooked` before anything else happens, the server is stopped before the only
     await, and then the module is ejected. A module without `stop_rpc` and a client that panicked
     are panics of the host; any other error is only logged.
     */
    method UnhookSpotify(u: Unhooking, cancel: Option<Await>, ghost procs: set<Process>) returns (o: Outcome)
      requires Tracks(procs)
      modifies this, procs
      ensures Tracks(procs) && target == null
      ensures o == Cancelled ==> cancel == Some(AtJoin)
      ensures o == Failed ==> u.stop.NotFound? || (u.stop.Works? && !u.joins)
      ensures forall p :: p in procs ==> Servers(p.modules) <= old(Servers(p.modules))
      ensures u.Stops() ==> forall p :: p in procs ==> Servers(p.modules) <= old(Servers(p.modules) - Own(p))
      ensures forall p :: p in procs && p != old(target) ==> p.modules == old(p.modules) && p.alive == old(p.alive)
      ensures old(target) != null && old(target).alive && u.stop.Works? ==>
        forall i :: 0 <= i < |old(target.modules)| && old(target.modules)[i].id == old(payload) ==>
          var ejected := o == Done && (old(target.ejects) == [] || old(target.ejects)[0]);
          old(target).modules == Leftover(old(target.modules), i, ejected)
      ensures forall p :: p in procs ==> p.nextId == old(p.nextId)
    {
      if target == null {
        return Done;
      }
      var p, id := target, payload;
      target := null;
      var i := p.IndexOf(id);
      if i == |p.modules| {
        return Done;
      }
      match u.stop {
        case Lost =>
          p.End();
          o := Done;
        case NotFound =>
          o := Failed;
        case CallFails =>
          o := Done;
        case Works =>
          o := StopAndEject(p, i, u, cancel);
      }
    }

    /**
     Unhook what is hooked, clear leftovers, inject, start, record. On success `p` holds its other
     modules and one fresh blocker with a running server, if the blocker file has the default name;
     on every other way out nothing is recorded and no server was added.
     */
    method HookSpotify(p: Process, env: Env, ghost procs: set<Process>) returns (o: Outcome)
      requires Tracks(procs) && p in procs
      modifies this, procs
      ensures Tracks(procs)
      ensures o == Done <==> target == p
      ensures o != Done ==> target == null
      ensures o == Cancelled ==> env.cancel.Some?
      ensures forall q :: q in procs ==> Servers(q.modules) <= old(Servers(q.modules)) + Own(q)
      ensures env.unhooking.Stops() ==>
        forall q :: q in procs ==> Servers(q.modules) <= old(Servers(q.modules) - Own(q)) + Own(q)
      ensures o == Done ==> env.blocker.Ok?
      ensures o == Done && FileName(env.blocker.value) == DEFAULT_BLOCKER_FILE_NAME ==>
        LastIsOnlyBlocker(p.modules, Module(payload, env.blocker.value, 1, true))
    {
      o := UnhookSpotify(env.unhooking, env.cancel, procs);
      if o != Done {
        return;
      }
      var id;
      o, id := ClearAndDeploy(p, env);
      if o == Done {
        target, payload := p, id;
      }
    }
  }

  /** What the watch channel or the world brings next; `cancel` drops `run` while the event is handled. */
  datatype Event =
    | Running(process: Process, env: Env)
    | Stopped(unhooking: Unhooking, cancel: Option<Await>)
    | Exits(process: Process)
  {
    /** What is unhooked while it is handled has its server stopped. */
    predicate Stops() {
      (Running? ==> env.unhooking.Stops()) && (Stopped? ==> unhooking.Stops())
    }
  }

  class SpotifyAdBlocker {
    const state: SpotifyHookState

    constructor ()
      ensures fresh(state) && state.target == null
    {
      state := new SpotifyHookState();
    }

    /** `stop`, which nothing cancels. */
    method Stop(u: Unhooking, ghost procs: set<Process>)
      requires state.Tracks(procs)
      modifies state, procs
      ensures state.Tracks(procs) && state.target == null
      ensures u.Stops() ==> forall p :: p in procs ==> Servers(p.modules) <= old(Servers(p.modules) - state.Own(p))
    {
      if state.target != null {
        var _ := state.UnhookSpotify(u, None, procs);
      }
    }

    /** One turn of the loop; `Failed` is a panic of the host. */
    method Handle(e: Event, ghost procs: set<Process>) returns (o: Outcome)
      requires state.Tracks(procs) && (!e.Stopped? ==> e.process in procs)
      modifies state, procs
      ensures state.Tracks(procs)
      ensures o == Failed ==> state.target == null
      ensures o == Done && e.Running? ==> state.target == e.process
      ensures o == Done && e.Stopped? ==> state.target == null
      ensures e.Exits? ==> o == Done && state.target == old(state.target)
      ensures e.Stops() ==>
        forall p :: p in procs ==> Servers(p.modules) <= old(Servers(p.modules) - state.Own(p)) + state.Own(p)
    {
      match e {
        case Running(process, env) =>
          o := state.HookSpotify(process, env, procs);
        case Stopped(u, cancel) =>
          o := state.UnhookSpotify(u, cancel, procs);
        case Exits(process) =>
          process.End();
          o := Done;
      }
    }

    /**
     `run` over any events, dropped at any await of any of them or between two of them, followed by
     `stop`; or a panic, after which nothing follows. If every recorded module's `stop_rpc` can be
     found and called, no server is left running in any process that was not running before.
     */
    method RunThenStop(events: seq<Event>, last: Unhooking, ghost procs: set<Process>) returns (o: Outcome)
      requires state.Tracks(procs) && state.target == null
      requires forall i :: 0 <= i < |events| && !events[i].Stopped? ==> events[i].process in procs
      modifies state, procs
      ensures state.target == null
      ensures last.Stops() && (forall e :: e in events ==> e.Stops()) ==>
        forall p :: p in procs ==> Servers(p.modules) <= old(Servers(p.modules))
    {
      o := Done;
      var i := 0;
      while i < |events| && o == Done
        invariant 0 <= i <= |events|
        invariant state.Tracks(procs)
        invariant o == Failed ==> state.target == null
        invariant (forall e :: e in events ==> e.Stops()) ==>
          forall p :: p in procs ==> Servers(p.modules) <= old(Servers(p.modules)) + state.Own(p)
      {
        o := Handle(events[i], procs);
        i := i + 1;
      }
      if o != Failed {
        Stop(last, procs);
      }
    }
  }
}
