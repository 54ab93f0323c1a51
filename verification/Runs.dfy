/**
 Building runs: what a module does on its own, the full setup from the injection to both hooks being
 on, and what the host does around it.
 */
module Runs {
  import opened Wrappers
  import opened Paths
  import opened Rules
  import opened Detours
  import opened BlockerLoad
  import opened LoadSafety
  import opened LoadStop
  import opened HookProtocol

  /** No module, no host. */
  function Empty(fold: string -> string): World {
    World(map[], 0, Down, 0, fold)
  }

  ghost predicate OnlyResolves(moves: seq<Move>, path: Path) {
    forall m :: m in moves && m.BlockerResolved? ==> m.path == path
  }

  // ---------------------------------------------------------------- inside the module

  /** Some run of the module's own threads leads from `l` to `m`. */
  ghost predicate Gets(re: Regex, l: Load, m: Load) {
    exists acts: seq<Action> :: (forall a :: a in acts ==> IsInner(a)) && Exec(re, l, acts) == Some(m)
  }

  lemma GetsStep(re: Regex, l: Load, a: Action, m: Load)
    requires Next(re, l, a) == Some(m) && IsInner(a)
    ensures Gets(re, l, m)
  {
    ExecOne(re, l, a, m);
    assert forall b :: b in [a] ==> IsInner(b);
  }

  lemma GetsThen(re: Regex, l: Load, k: Load, m: Load)
    requires Gets(re, l, k) && Gets(re, k, m)
    ensures Gets(re, l, m)
  {
    var a: seq<Action> :| (forall x :: x in a ==> IsInner(x)) && Exec(re, l, a) == Some(k);
    var b: seq<Action> :| (forall x :: x in b ==> IsInner(x)) && Exec(re, k, b) == Some(m);
    ExecConcat(re, l, a, k, b);
    assert forall x :: x in a + b ==> IsInner(x);
  }

  /** A run followed by a step of the client. */
  lemma GetsClient(re: Regex, l: Load, k: Load, a: Action, m: Load)
    requires Gets(re, l, k) && IsClient(a) && !a.ClientDies? && NextClient(k, a) == Some(m)
    ensures Gets(re, l, m)
  {
    GetsStep(re, k, a, m);
    GetsThen(re, l, k, m);
  }

  /** A run followed by a step of the RPC thread. */
  lemma GetsThread(re: Regex, l: Load, k: Load, a: Action, m: Load)
    requires Gets(re, l, k) && !IsRemote(a) && !IsClient(a) && !IsSpotify(a) && NextThread(re, k, a) == Some(m)
    ensures Gets(re, l, m)
  {
    GetsStep(re, k, a, m);
    GetsThen(re, l, k, m);
  }

  /** A run followed by a step of a remote procedure under way. */
  lemma GetsRemote(re: Regex, l: Load, k: Load, a: Action, m: Load)
    requires Gets(re, l, k) && IsRemote(a) && IsInner(a) && NextRemote(k, a) == Some(m)
    ensures Gets(re, l, m)
  {
    GetsStep(re, k, a, m);
    GetsThen(re, l, k, m);
  }

  lemma GetsSelf(re: Regex, l: Load)
    ensures Gets(re, l, l)
  {
    var none: seq<Action> := [];
    assert Exec(re, l, none) == Some(l);
  }

  const NOTHING := Config([], [])

  /** A client with nothing to configure, connected and between requests. */
  ghost predicate InSetup(l: Load, next: nat) {
    && HasClient(l) && l.client.value.alive && l.client.value.mode == Mode.Idle
    && l.client.value.next == next && l.client.value.cfg == NOTHING
    && l.thread.Alive? && l.thread.accepted && l.thread.work == Waiting
  }

  ghost predicate SameCore(l: Load, m: Load) {
    |m.gens| == |l.gens| && m.rpcState == l.rpcState && m.call == l.call && m.poisoned == l.poisoned
  }

  /** The server takes the request; one that sets something up is answered at once. */
  lemma Dispatched(re: Regex, l: Load) returns (m: Load)
    requires HasClient(l) && l.client.value.mode == InFlight
    requires l.client.value.cfg == NOTHING && l.client.value.next <= ENABLE_CALL
    requires l.thread.Alive? && l.thread.accepted && l.thread.work == Waiting
    ensures Gets(re, l, m) && SameCore(l, m) && m.detours == l.detours
    ensures var c := l.client.value;
      m.client == Some(c.(mode := if c.next == ENABLE_CALL then Executing else Replied))
    ensures m.thread == l.thread.(work := if l.client.value.next == ENABLE_CALL then Enabling(0) else Waiting)
  {
    assert AllValid(re, []);
    GetsSelf(re, l);
    m := NextDispatch(re, l).value;
    GetsThread(re, l, l, Dispatch, m);
  }

  lemma OneRequest(re: Regex, l: Load, next: nat) returns (m: Load)
    requires InSetup(l, next) && next < ENABLE_CALL
    ensures Gets(re, l, m) && InSetup(m, next + 1) && SameCore(l, m) && m.detours == l.detours
  {
    GetsSelf(re, l);
    var l1 := NextClientSend(l).value;
    GetsClient(re, l, l, ClientSend, l1);
    var l2 := Dispatched(re, l1);
    GetsThen(re, l, l1, l2);
    m := NextClientReply(l2).value;
    GetsClient(re, l, l2, ClientReply, m);
  }

  const NO_FAULT := EnableFaults(true, true, true, true)

  /** The detours after a successful `enable` by generation `gen`. */
  function Enabled(p: Pair<nat, nat>, gen: nat): Pair<nat, nat> {
    Detours.Enable(p, gen, gen, NO_FAULT).0
  }

  ghost predicate InEnable(l: Load, stage: nat) {
    && HasClient(l) && l.client.value.mode == Executing
    && l.thread.Alive? && l.thread.work == Enabling(stage)
  }

  lemma EnableOne(re: Regex, l: Load, stage: nat) returns (m: Load)
    requires InEnable(l, stage) && stage <= 3
    requires EnableStep(l.detours, |l.gens| - 1, stage, true).Some?
    ensures Gets(re, l, m) && SameCore(l, m) && m.detours == EnableStep(l.detours, |l.gens| - 1, stage, true).value
    ensures stage < 3 ==> m == l.(detours := m.detours, thread := l.thread.(work := Enabling(stage + 1)))
    ensures stage == 3 ==> m.client == Some(l.client.value.(mode := Replied)) && m.thread == l.thread.(work := Waiting)
  {
    GetsSelf(re, l);
    m := NextEnableStage(l, true).value;
    GetsThread(re, l, l, EnableStage(true), m);
  }

  /** The remaining steps of `enable`, all succeeding. */
  lemma {:induction false} EnableSteps(re: Regex, l0: Load, l: Load, stage: nat) returns (m: Load)
    requires Gets(re, l0, l) && InEnable(l, stage) && stage <= 3
    requires EnableFrom(l.detours, |l.gens| - 1, stage, NO_FAULT).1
    ensures Gets(re, l0, m) && SameCore(l, m)
    ensures m.detours == EnableFrom(l.detours, |l.gens| - 1, stage, NO_FAULT).0
    ensures m.client == Some(l.client.value.(mode := Replied)) && m.thread == l.thread.(work := Waiting)
    decreases 3 - stage
  {
    var k := EnableOne(re, l, stage);
    GetsThen(re, l0, l, k);
    if stage == 3 {
      m := k;
    } else {
      m := EnableSteps(re, l0, k, stage + 1);
    }
  }

  lemma EnableRequest(re: Regex, l: Load) returns (m: Load)
    requires InSetup(l, ENABLE_CALL)
    ensures Gets(re, l, m) && InSetup(m, SETUP_CALLS) && SameCore(l, m)
    ensures m.detours == Enabled(l.detours, |l.gens| - 1)
  {
    GetsSelf(re, l);
    var l1 := NextClientSend(l).value;
    GetsClient(re, l, l, ClientSend, l1);
    var l2 := Dispatched(re, l1);
    GetsThen(re, l, l1, l2);
    EnableStepsAreEnable(l.detours, |l.gens| - 1, NO_FAULT);
    var l3 := EnableSteps(re, l, l2, 0);
    m := NextClientReply(l3).value;
    GetsClient(re, l, l3, ClientReply, m);
  }

  lemma Connected(re: Regex, l: Load) returns (m: Load)
    requires HasClient(l) && l.client.value.mode == Connecting && l.client.value.next == 0
    requires l.client.value.alive && l.client.value.cfg == NOTHING
    requires l.thread == Alive(false, false, false, Waiting)
    ensures Gets(re, l, m) && InSetup(m, 0) && SameCore(l, m) && m.detours == l.detours
  {
    GetsSelf(re, l);
    var k := NextClientConnect(l).value;
    GetsClient(re, l, l, ClientConnect, k);
    m := NextAccept(k).value;
    GetsThread(re, l, k, Accept, m);
  }

  /** A run up to request `next` goes on until request `last` is due. */
  lemma {:induction false} SetupRequests(re: Regex, l0: Load, l: Load, next: nat, last: nat) returns (m: Load)
    requires Gets(re, l0, l) && InSetup(l, next) && next <= last <= ENABLE_CALL
    ensures Gets(re, l0, m) && InSetup(m, last) && SameCore(l, m) && m.detours == l.detours
    decreases last - next
  {
    if next == last {
      m := l;
    } else {
      var k := OneRequest(re, l, next);
      GetsThen(re, l0, l, k);
      m := SetupRequests(re, l0, k, next + 1, last);
    }
  }

  /** The client connects, makes its four calls, and both hooks are on. */
  lemma Setup(re: Regex, l: Load) returns (m: Load)
    requires HasClient(l) && l.client.value.mode == Connecting && l.client.value.next == 0
    requires l.client.value.alive && l.client.value.cfg == NOTHING
    requires l.thread == Alive(false, false, false, Waiting)
    ensures Gets(re, l, m) && InSetup(m, SETUP_CALLS) && SameCore(l, m)
    ensures m.detours == Enabled(l.detours, |l.gens| - 1)
  {
    var l1 := Connected(re, l);
    var l2 := SetupRequests(re, l, l1, 0, ENABLE_CALL);
    m := EnableRequest(re, l2);
    GetsThen(re, l, l2, m);
  }

  lemma StopDisables(re: Regex, l: Load) returns (m: Load)
    requires l.call == DisablingGai
    ensures Gets(re, l, m) && m == l.(call := Signalling, detours := m.detours)
    ensures l.detours.gai.KeptBy(m.detours.gai)
  {
    GetsSelf(re, l);
    var k := NextStopDisable(l, true).value;
    GetsRemote(re, l, l, StopDisable(true), k);
    m := NextStopDisable(k, true).value;
    GetsRemote(re, l, k, StopDisable(true), m);
  }

  lemma StopEnds(re: Regex, l: Load) returns (m: Load)
    requires l.call == Signalling && l.gens != [] && l.thread.Alive? && l.thread.work == Waiting
    ensures Gets(re, l, m) && m == l.(call := NoCall, gens := m.gens, thread := Exited(false)) && |m.gens| == |l.gens|
  {
    GetsSelf(re, l);
    var l3 := NextStopSignal(l).value;
    GetsRemote(re, l, l, StopSignal, l3);
    var l4 := NextThreadExit(l3).value;
    GetsThread(re, l, l3, ThreadExit, l4);
    m := NextStopReturn(l4).value;
    GetsRemote(re, l, l4, StopReturn, m);
  }

  /** The rest of `stop_rpc` when everything succeeds. */
  lemma FullStop(re: Regex, l: Load) returns (m: Load)
    requires l.call == DisablingGai && l.gens != [] && l.thread.Alive? && l.thread.work == Waiting
    ensures Gets(re, l, m) && |m.gens| == |l.gens| && m.call == NoCall
    ensures m.poisoned == l.poisoned && m.rpcState == l.rpcState && m.client == l.client && m.thread == Exited(false)
    ensures l.detours.gai.KeptBy(m.detours.gai)
  {
    var k := StopDisables(re, l);
    m := StopEnds(re, k);
    GetsThen(re, l, k, m);
  }

  // ---------------------------------------------------------------- around it

  /** Some run that resolves the blocker to `path` only leads from `w` to `v`. */
  ghost predicate Leads(re: Regex, path: Path, w: World, v: World) {
    exists moves :: OnlyResolves(moves, path) && Run(re, w, moves) == Some(v)
  }

  lemma {:induction false} RunConcat(re: Regex, w: World, a: seq<Move>, v: World, b: seq<Move>)
    requires Run(re, w, a) == Some(v)
    ensures Run(re, w, a + b) == Run(re, v, b)
    decreases |a|
  {
    if a == [] {
      assert a + b == b;
    } else {
      assert (a + b)[1..] == a[1..] + b;
      RunConcat(re, Step(re, w, a[0]).value, a[1..], v, b);
    }
  }

  lemma LeadsStep(re: Regex, path: Path, w: World, m: Move, v: World)
    requires Step(re, w, m) == Some(v) && (m.BlockerResolved? ==> m.path == path)
    ensures Leads(re, path, w, v)
  {
    assert [m][1..] == [];
    assert Run(re, w, [m]) == Some(v) && OnlyResolves([m], path);
  }

  lemma LeadsThen(re: Regex, path: Path, w: World, u: World, v: World)
    requires Leads(re, path, w, u) && Leads(re, path, u, v)
    ensures Leads(re, path, w, v)
  {
    var a :| OnlyResolves(a, path) && Run(re, w, a) == Some(u);
    var b :| OnlyResolves(b, path) && Run(re, u, b) == Some(v);
    RunConcat(re, w, a, u, b);
    assert OnlyResolves(a + b, path);
  }

  lemma LeadsAlso(re: Regex, path: Path, w: World, u: World, m: Move, v: World)
    requires Leads(re, path, w, u) && Step(re, u, m) == Some(v) && (m.BlockerResolved? ==> m.path == path)
    ensures Leads(re, path, w, v)
  {
    LeadsStep(re, path, u, m, v);
    LeadsThen(re, path, w, u, v);
  }

  lemma RunOneMore(re: Regex, w: World, key: nat, a: Action, k: Load, rest: seq<Move>)
    requires key in w.slots && IsInner(a) && Next(re, w.slots[key].load, a) == Some(k)
    ensures Run(re, w, [Inner(key, a)] + rest) == Run(re, PutLoad(w, key, k), rest)
  {
  }

  /** What a module does on its own is part of a run of the whole. */
  lemma {:induction false} RunInner(re: Regex, w: World, key: nat, acts: seq<Action>, l: Load)
    returns (moves: seq<Move>)
    requires key in w.slots && Exec(re, w.slots[key].load, acts) == Some(l)
    requires forall a :: a in acts ==> IsInner(a)
    ensures Run(re, w, moves) == Some(PutLoad(w, key, l))
    ensures forall m :: m in moves ==> m.Inner?
    decreases |acts|
  {
    if acts == [] {
      moves := [];
      assert PutLoad(w, key, l) == w;
    } else {
      var k := Next(re, w.slots[key].load, acts[0]).value;
      var v := PutLoad(w, key, k);
      var rest := RunInner(re, v, key, acts[1..], l);
      moves := [Inner(key, acts[0])] + rest;
      RunOneMore(re, w, key, acts[0], k, rest);
      assert PutLoad(v, key, l) == PutLoad(w, key, l);
    }
  }

  lemma LeadsInside(re: Regex, path: Path, w: World, key: nat, l: Load)
    requires key in w.slots && Gets(re, w.slots[key].load, l)
    ensures Leads(re, path, w, PutLoad(w, key, l))
  {
    var acts: seq<Action> :| (forall a :: a in acts ==> IsInner(a)) && Exec(re, w.slots[key].load, acts) == Some(l);
    var moves := RunInner(re, w, key, acts, l);
  }

  lemma LeadsAlsoInside(re: Regex, path: Path, w: World, u: World, key: nat, l: Load)
    requires Leads(re, path, w, u) && key in u.slots && Gets(re, u.slots[key].load, l)
    ensures Leads(re, path, w, PutLoad(u, key, l))
  {
    LeadsInside(re, path, u, key, l);
    LeadsThen(re, path, w, u, PutLoad(u, key, l));
  }

  /** From `Unhooked` to the injection point, when no module has the default name. */
  lemma ToInject(re: Regex, path: Path, w: World, pid: nat) returns (v: World)
    requires w.host.Up? && w.host.pc == Unhooked && !w.host.leaving
    requires forall k :: k in w.slots ==> !HasDefaultName(w.fold, w.slots[k].path)
    ensures Leads(re, path, w, v)
    ensures v.slots == w.slots && v.nextKey == w.nextKey && v.boots == w.boots && v.fold == w.fold
    ensures v.host == Up(w.host.id, NOTHING, path, Pc.Inject(pid), false)
  {
    var v1 := StepSeeRunning(w, pid).value;
    LeadsStep(re, path, w, SeeRunning(pid), v1);
    var v2 := StepFindNone(v1).value;
    LeadsAlso(re, path, w, v1, FindNone, v2);
    var v3 := StepConfigRead(v2, NOTHING).value;
    LeadsAlso(re, path, w, v2, ConfigRead(NOTHING), v3);
    v := StepBlockerResolved(v3, path).value;
    LeadsAlso(re, path, w, v3, BlockerResolved(path), v);
  }

  lemma StartAnswers(re: Regex, l: Load) returns (m: Load)
    requires l.call == Starting
    ensures Gets(re, l, m) && m == l.(call := NoCall, rpcState := true)
  {
    GetsSelf(re, l);
    m := NextStartReturn(l).value;
    GetsRemote(re, l, l, StartReturn, m);
  }

  lemma StartIsIssued(re: Regex, path: Path, w: World, pid: nat, key: nat, l: Load)
    requires w.host.Up? && w.host.pc == Pc.Start(pid, key) && key in w.slots
    requires NextStartCall(w.slots[key].load) == Some(l)
    ensures Leads(re, path, w, AtPc(PutLoad(w, key, l), StartCalled(pid, key)))
  {
    LeadsStep(re, path, w, StartIssued, AtPc(PutLoad(w, key, l), StartCalled(pid, key)));
  }

  /** Two changes of one load amount to the second. */
  lemma SameSlot(w: World, v: World, key: nat, l: Load, m: Load, pc: Pc, next: Pc)
    requires w.host.Up? && key in w.slots && v == AtPc(PutLoad(w, key, l), pc)
    ensures AtPc(PutLoad(v, key, m), next) == AtPc(PutLoad(w, key, m), next)
  {
  }

  lemma StartIsReturned(re: Regex, path: Path, w0: World, w: World, pid: nat, key: nat)
    requires Leads(re, path, w0, w)
    requires w.host.Up? && w.host.pc == StartCalled(pid, key) && key in w.slots
    requires var l := w.slots[key].load;
      l.call == NoCall && !l.poisoned && l.rpcState
    ensures Leads(re, path, w0, AtPc(w, Spawn(pid, key)))
  {
    LeadsAlso(re, path, w0, w, StartReturned, AtPc(w, Spawn(pid, key)));
  }

  /** `start_rpc` is called and returns. */
  lemma CallStart(re: Regex, path: Path, w: World, pid: nat, key: nat) returns (m: Load)
    requires w.host.Up? && w.host.pc == Pc.Start(pid, key) && key in w.slots
    requires var l := w.slots[key].load;
      l.call == NoCall && !l.poisoned && !l.rpcState
    ensures Leads(re, path, w, AtPc(PutLoad(w, key, m), Spawn(pid, key)))
    ensures var l := w.slots[key].load;
      m == l.(gens := l.gens + [EMPTY_GEN], rpcState := true, thread := Alive(false, false, false, Waiting))
  {
    var l := NextStartCall(w.slots[key].load).value;
    StartIsIssued(re, path, w, pid, key, l);
    var v := AtPc(PutLoad(w, key, l), StartCalled(pid, key));
    m := StartAnswers(re, l);
    LeadsAlsoInside(re, path, w, v, key, m);
    StartIsReturned(re, path, w, PutLoad(v, key, m), pid, key);
    SameSlot(w, v, key, l, m, StartCalled(pid, key), Spawn(pid, key));
  }

  /** The host's steps from the injected module to `Hooked`. */
  lemma StartServer(re: Regex, path: Path, w: World, pid: nat, key: nat) returns (m: Load)
    requires w.host.Up? && w.host.pc == Pc.Start(pid, key) && w.host.cfg == NOTHING && key in w.slots
    requires var l := w.slots[key].load;
      l.call == NoCall && !l.poisoned && !l.rpcState && (l.client.Some? ==> l.client.value.gen < |l.gens|)
    ensures Leads(re, path, w, AtPc(PutLoad(w, key, m), Pc.Hooked(pid, key)))
    ensures var l := w.slots[key].load;
      && m.gens == l.gens + [EMPTY_GEN] && m.rpcState && m.call == NoCall && !m.poisoned && m.detours == l.detours
      && m.client == Some(Client(w.host.id, NOTHING, |l.gens|, 0, Connecting, true))
      && m.thread == Alive(false, false, false, Waiting)
  {
    var k := CallStart(re, path, w, pid, key);
    m := NextSpawnClient(k, w.host.id, NOTHING).value;
    var v3 := AtPc(PutLoad(w, key, k), Spawn(pid, key));
    var v4 := StepClientSpawned(v3).value;
    LeadsAlso(re, path, w, v3, ClientSpawned, v4);
    assert v4 == AtPc(PutLoad(w, key, m), Pc.Hooked(pid, key));
  }

  /** From a load that has no server: start one, connect a client, and both hooks are on. */
  lemma StartAndSetup(re: Regex, path: Path, w: World, pid: nat, key: nat) returns (m: Load)
    requires w.host.Up? && w.host.pc == Pc.Start(pid, key) && w.host.cfg == NOTHING && key in w.slots
    requires var l := w.slots[key].load;
      l.call == NoCall && !l.poisoned && !l.rpcState && (l.client.Some? ==> l.client.value.gen < |l.gens|)
    ensures Leads(re, path, w, AtPc(PutLoad(w, key, m), Pc.Hooked(pid, key)))
    ensures var l := w.slots[key].load;
      && InSetup(m, SETUP_CALLS) && m.rpcState && m.call == NoCall && !m.poisoned
      && |m.gens| == |l.gens| + 1 && m.detours == Enabled(l.detours, |l.gens|)
  {
    var k := StartServer(re, path, w, pid, key);
    var v := AtPc(PutLoad(w, key, k), Pc.Hooked(pid, key));
    m := Setup(re, k);
    LeadsInside(re, path, v, key, m);
    LeadsThen(re, path, w, v, PutLoad(v, key, m));
    assert PutLoad(v, key, m) == AtPc(PutLoad(w, key, m), Pc.Hooked(pid, key));
  }

  /** The window is gone and `stop_rpc` is called. */
  lemma StopIsIssued(re: Regex, path: Path, w: World, pid: nat, key: nat, l: Load)
    requires w.host.Up? && w.host.pc == Pc.Hooked(pid, key) && !w.host.leaving && key in w.slots
    requires !w.slots[key].load.poisoned && NextStopCall(w.slots[key].load) == Some(l)
    ensures Leads(re, path, w, AtPc(PutLoad(w, key, l), StopCalled(pid, key, None)))
  {
    var v := AtPc(w, Stop(pid, key, None));
    LeadsStep(re, path, w, SeeStopped, v);
    LeadsAlso(re, path, w, v, StopIssued, AtPc(PutLoad(w, key, l), StopCalled(pid, key, None)));
  }

  /** And it has returned. */
  lemma StopServer(re: Regex, path: Path, w: World, pid: nat, key: nat) returns (m: Load)
    requires w.host.Up? && w.host.pc == Pc.Hooked(pid, key) && !w.host.leaving && key in w.slots
    requires var l := w.slots[key].load;
      l.rpcState && l.call == NoCall && !l.poisoned && InSetup(l, SETUP_CALLS)
    ensures Leads(re, path, w, AtPc(PutLoad(w, key, m), StopCalled(pid, key, None)))
    ensures var l := w.slots[key].load;
      && !m.rpcState && m.call == NoCall && !m.poisoned && |m.gens| == |l.gens| && m.client == l.client
      && m.thread == Exited(false) && l.detours.gai.KeptBy(m.detours.gai)
  {
    var l := NextStopCall(w.slots[key].load).value;
    StopIsIssued(re, path, w, pid, key, l);
    var v := AtPc(PutLoad(w, key, l), StopCalled(pid, key, None));
    m := FullStop(re, l);
    LeadsAlsoInside(re, path, w, v, key, m);
    SameSlot(w, v, key, l, m, v.host.pc, v.host.pc);
  }

  /** The client has ended, and the module is about to be ejected. */
  lemma ToEject(re: Regex, path: Path, w0: World, w: World, pid: nat, key: nat)
    requires Leads(re, path, w0, w)
    requires w.host.Up? && w.host.pc == StopCalled(pid, key, None) && key in w.slots
    requires var l := w.slots[key].load;
      l.call == NoCall && !l.poisoned && ClientFinished(l)
    ensures Leads(re, path, w0, AtPc(w, Pc.Eject(pid, key, None)))
  {
    var v := AtPc(w, Join(pid, key, None));
    LeadsAlso(re, path, w0, w, StopReturned, v);
    LeadsAlso(re, path, w0, v, Joined, AtPc(v, Pc.Eject(pid, key, None)));
  }

  /** And the eject fails. */
  lemma FailToEject(re: Regex, path: Path, w0: World, w: World, pid: nat, key: nat)
    requires Leads(re, path, w0, w)
    requires w.host.Up? && w.host.pc == Pc.Eject(pid, key, None) && !w.host.leaving
    ensures Leads(re, path, w0, AtPc(w, Unhooked))
  {
    LeadsAlso(re, path, w0, w, Ejected(false), AtPc(w, Unhooked));
  }

  function OneSlot(fold: string -> string, path: Path, l: Load, count: nat, pc: Pc): World {
    World(map[0 := Slot(1, path, count, 1, l)], 1, Up(1, NOTHING, path, pc, false), 1, fold)
  }

  /** The same world with the load moved on and the host at `next`. */
  lemma OneSlotPut(fold: string -> string, path: Path, l: Load, m: Load, count: nat, pc: Pc, next: Pc)
    ensures AtPc(PutLoad(OneSlot(fold, path, l, count, pc), 0, m), next) == OneSlot(fold, path, m, count, next)
  {
    var w := OneSlot(fold, path, l, count, pc);
    assert PutLoad(w, 0, m).slots == OneSlot(fold, path, m, count, next).slots;
  }

  lemma FirstInjection(re: Regex, fold: string -> string, path: Path)
    ensures Leads(re, path, Empty(fold), OneSlot(fold, path, FRESH_LOAD, 1, Pc.Start(1, 0)))
  {
    var w0 := StepBoot(Empty(fold)).value;
    LeadsStep(re, path, Empty(fold), Boot, w0);
    var w1 := ToInject(re, path, w0, 1);
    LeadsThen(re, path, Empty(fold), w0, w1);
    var w2 := OneSlot(fold, path, FRESH_LOAD, 1, Pc.Start(1, 0));
    assert StepInjectFresh(w1) == Some(w2);
    LeadsAlso(re, path, Empty(fold), w1, InjectFresh, w2);
  }

  /** Hooking works for a blocker file of any name: both detours come on, with store 0 captured. */
  lemma FirstHook(re: Regex, fold: string -> string, path: Path) returns (l: Load)
    ensures Leads(re, path, Empty(fold), OneSlot(fold, path, l, 1, Pc.Hooked(1, 0)))
    ensures InSetup(l, SETUP_CALLS) && l.rpcState && l.call == NoCall && !l.poisoned && |l.gens| == 1
    ensures l.detours == Pair(Ready(0, 0, true), Ready(0, 0, true))
  {
    FirstInjection(re, fold, path);
    var w2 := OneSlot(fold, path, FRESH_LOAD, 1, Pc.Start(1, 0));
    l := StartAndSetup(re, path, w2, 1, 0);
    OneSlotPut(fold, path, FRESH_LOAD, l, 1, w2.host.pc, Pc.Hooked(1, 0));
    LeadsThen(re, path, Empty(fold), w2, OneSlot(fold, path, l, 1, Pc.Hooked(1, 0)));
  }
}
