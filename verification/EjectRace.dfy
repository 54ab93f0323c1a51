/**
 When a module can be ejected with a hook still on: exactly if an `enable_filtering` is ahead as its
 `stop_rpc` is called. The requests are then served between the two halves of `stop_rpc`.
 */
module EjectRace {
  import opened Wrappers
  import opened Paths
  import opened Rules
  import opened BlockerLoad
  import opened LoadLink
  import opened LoadStop
  import opened HookProtocol
  import opened HookProtocolSafety
  import opened HookProtocolSlots
  import opened HookProtocolShutdown
  import opened Runs

  /** After the stop in question there is no other before the eject. */
  ghost predicate NoMoreStops(moves: seq<Move>) {
    forall m :: m in moves ==> !m.StopIssued? && !m.FindModule?
  }

  /** The module at `key` is about to be ejected with a hook on, and not because its `stop_rpc` panicked. */
  ghost predicate HookOnAt(v: World, pc: Pc, key: nat) {
    && v.host.Up? && v.host.pc == pc && key in v.slots
    && !v.slots[key].load.poisoned && !v.slots[key].load.detours.BothOff()
  }

  /** Some run that goes on from the stop `first` brings the host to `pc` with a hook on. */
  ghost predicate CanEjectHookOn(re: Regex, w: World, first: Move, pc: Pc, key: nat) {
    exists moves, v :: NoMoreStops(moves) && Run(re, w, [first] + moves) == Some(v) && HookOnAt(v, pc, key)
  }

  // ---------------------------------------------------------------- nothing ahead: it cannot happen

  lemma {:induction false} CalmWithoutStops(re: Regex, w: World, moves: seq<Move>)
    requires NoMoreStops(moves)
    ensures CalmRun(re, w, moves)
    decreases |moves|
  {
    if moves != [] && Step(re, w, moves[0]).Some? {
      CalmWithoutStops(re, Step(re, w, moves[0]).value, moves[1..]);
    }
  }

  lemma CalmAfterFirst(re: Regex, w: World, first: Move, moves: seq<Move>)
    requires CalmStop(re, w, first) && NoMoreStops(moves)
    ensures CalmRun(re, w, [first] + moves)
  {
    assert ([first] + moves)[1..] == moves;
    if Step(re, w, first).Some? {
      CalmWithoutStops(re, Step(re, w, first).value, moves);
    }
  }

  lemma CalmStopCannot(re: Regex, w: World, first: Move, pc: Pc, key: nat)
    requires Placed(w) && key in w.slots && Settled(re, w.slots[key].load) && CalmStop(re, w, first)
    requires (pc.Eject? || pc.ClearEject?) && pc.key == key
    ensures !CanEjectHookOn(re, w, first, pc, key)
  {
    forall moves, v | NoMoreStops(moves) && Run(re, w, [first] + moves) == Some(v) ensures !HookOnAt(v, pc, key) {
      CalmAfterFirst(re, w, first, moves);
      SettledRun(re, w, [first] + moves, v, w.slots.Keys - {key});
    }
  }

  // ---------------------------------------------------------------- enable ahead: it can

  /** What the race is made of: steps of the module, and the host seeing its call and its client end. */
  ghost predicate OnlyWaits(moves: seq<Move>) {
    forall m :: m in moves ==> m.Inner? || m.StopReturned? || m.ClearReturned? || m.Joined?
  }

  lemma RunSnoc(re: Regex, w: World, moves: seq<Move>, u: World, m: Move, v: World)
    requires Run(re, w, moves) == Some(u) && Step(re, u, m) == Some(v)
    ensures Run(re, w, moves + [m]) == Some(v)
  {
    RunConcat(re, w, moves, u, [m]);
    assert [m][1..] == [];
  }

  lemma RunCons(re: Regex, w: World, m: Move, u: World, moves: seq<Move>)
    requires Step(re, w, m) == Some(u)
    ensures Run(re, w, [m] + moves) == Run(re, u, moves)
  {
    assert ([m] + moves)[1..] == moves;
  }

  /** The race inside the module, from the call of `stop_rpc` to its return. */
  lemma RacedInside(re: Regex, l: Load) returns (acts: seq<Action>, m: Load)
    requires Linked(l) && l.call == NoCall && !l.poisoned && EnableAhead(re, l)
    ensures NextStopCall(l).Some? && Exec(re, NextStopCall(l).value, acts) == Some(m)
    ensures forall a :: a in acts ==> IsInner(a)
    ensures m.call == NoCall && !m.poisoned && m.detours.cef.IsOn()
    ensures l.client.value.alive ==> ClientFinished(m)
  {
    var stopped := NextStopCall(l).value;
    LinkedRemote(l, StopCall, stopped);
    acts, m := RaceRun(re, stopped);
    if l.client.value.alive {
      var k := NextClientReply(m).value;
      ExecSnoc(re, stopped, acts, m, ClientReply, k);
      acts, m := acts + [ClientReply], k;
    }
  }

  lemma OwnStopRaces(re: Regex, w: World, pid: nat, key: nat, after: Option<nat>)
    returns (moves: seq<Move>, v: World)
    requires w.host.Up? && w.host.pc == Stop(pid, key, after) && key in w.slots
    requires var l := w.slots[key].load;
      Linked(l) && OwnServer(l) && EnableAhead(re, l)
    ensures OnlyWaits(moves) && Run(re, w, [StopIssued] + moves) == Some(v)
    ensures HookOnAt(v, Pc.Eject(pid, key, after), key) && v == AtPc(PutLoad(w, key, v.slots[key].load), v.host.pc)
  {
    var l := w.slots[key].load;
    var acts, m := RacedInside(re, l);
    var w1 := AtPc(PutLoad(w, key, NextStopCall(l).value), StopCalled(pid, key, after));
    var inner := RunInner(re, w1, key, acts, m);
    var w2 := AtPc(PutLoad(w, key, m), StopCalled(pid, key, after));
    SameSlot(w, w1, key, NextStopCall(l).value, m, w1.host.pc, w1.host.pc);
    assert Run(re, w1, inner) == Some(w2);
    moves, v := OwnStopEnds(re, w1, inner, w2, pid, key, after);
    RunCons(re, w, StopIssued, w1, moves);
  }

  lemma OwnStopEnds(re: Regex, w1: World, inner: seq<Move>, w2: World, pid: nat, key: nat, after: Option<nat>)
    returns (moves: seq<Move>, v: World)
    requires OnlyWaits(inner) && Run(re, w1, inner) == Some(w2)
    requires w2.host.Up? && w2.host.pc == StopCalled(pid, key, after) && key in w2.slots
    requires var l := w2.slots[key].load;
      l.call == NoCall && !l.poisoned && ClientFinished(l)
    ensures OnlyWaits(moves) && Run(re, w1, moves) == Some(v) && v == AtPc(w2, Pc.Eject(pid, key, after))
  {
    var w3 := AtPc(w2, Join(pid, key, after));
    RunSnoc(re, w1, inner, w2, StopReturned, w3);
    v := AtPc(w2, Pc.Eject(pid, key, after));
    RunSnoc(re, w1, inner + [StopReturned], w3, Joined, v);
    moves := inner + [StopReturned] + [Joined];
  }

  lemma ClearRaces(re: Regex, w: World, pid: nat, key: nat) returns (moves: seq<Move>, v: World)
    requires w.host.Up? && w.host.pc == Clear(pid) && IsBlocker(w, key, pid)
    requires var l := w.slots[key].load;
      Linked(l) && l.call == NoCall && !l.poisoned && EnableAhead(re, l)
    ensures OnlyWaits(moves) && Run(re, w, [FindModule(key)] + moves) == Some(v)
    ensures HookOnAt(v, ClearEject(pid, key), key)
  {
    var l := w.slots[key].load;
    var acts, m := RacedInside(re, l);
    var w1 := AtPc(PutLoad(w, key, NextStopCall(l).value), ClearCalled(pid, key));
    var inner := RunInner(re, w1, key, acts, m);
    var w2 := PutLoad(w1, key, m);
    v := AtPc(w2, ClearEject(pid, key));
    RunSnoc(re, w1, inner, w2, ClearReturned, v);
    moves := inner + [ClearReturned];
    RunCons(re, w, FindModule(key), w1, moves);
  }

  /** A leftover without a server but with a hook on is ejected as it is. */
  lemma ClearLeaves(re: Regex, w: World, pid: nat, key: nat) returns (v: World)
    requires w.host.Up? && w.host.pc == Clear(pid) && IsBlocker(w, key, pid)
    requires var l := w.slots[key].load;
      l.call == NoCall && !l.poisoned && !l.rpcState && !l.detours.BothOff()
    ensures Run(re, w, [FindModule(key)] + [ClearReturned]) == Some(v) && HookOnAt(v, ClearEject(pid, key), key)
  {
    var u := StepFindModule(w, key).value;
    v := StepClearReturned(u).value;
    assert Run(re, w, []) == Some(w);
    RunSnoc(re, u, [], u, ClearReturned, v);
    assert [] + [ClearReturned] == [ClearReturned];
    RunCons(re, w, FindModule(key), u, [ClearReturned]);
  }

  // ---------------------------------------------------------------- main results

  /**
   In every world a run can reach: from the moment the host calls `stop_rpc` on its own module, some
   run brings it to the eject with a hook on exactly if an `enable_filtering` is ahead then.
   */
  lemma OwnStopEjectsHookOnIff(re: Regex, w0: World, before: seq<Move>, w: World)
    requires Start0(w0) && AllLinked(w0) && Run(re, w0, before) == Some(w)
    requires w.host.Up? && w.host.pc.Stop? && w.host.pc.key in w.slots
    ensures var (pid, key, after) := (w.host.pc.pid, w.host.pc.key, w.host.pc.after);
      EnableAhead(re, w.slots[key].load) <==> CanEjectHookOn(re, w, StopIssued, Pc.Eject(pid, key, after), key)
  {
    var (pid, key, after) := (w.host.pc.pid, w.host.pc.key, w.host.pc.after);
    PlacedRun(re, w0, before, w);
    if EnableAhead(re, w.slots[key].load) {
      var moves, v := OwnStopRaces(re, w, pid, key, after);
    } else {
      CalmStopCannot(re, w, StopIssued, Pc.Eject(pid, key, after), key);
    }
  }

  /**
   The same for a leftover, from the moment the eject loop calls its `stop_rpc`; one without a
   server is ejected with a hook on also if one is on already.
   */
  lemma ClearEjectsHookOnIff(re: Regex, w0: World, before: seq<Move>, w: World, key: nat)
    requires Start0(w0) && AllLinked(w0) && Run(re, w0, before) == Some(w)
    requires w.host.Up? && w.host.pc.Clear? && IsBlocker(w, key, w.host.pc.pid)
    requires w.slots[key].load.call == NoCall && !w.slots[key].load.poisoned
    ensures var l := w.slots[key].load;
      EnableAhead(re, l) || (!l.rpcState && !l.detours.BothOff())
      <==> CanEjectHookOn(re, w, FindModule(key), ClearEject(w.host.pc.pid, key), key)
  {
    var pid, l := w.host.pc.pid, w.slots[key].load;
    PlacedRun(re, w0, before, w);
    if EnableAhead(re, l) {
      var moves, v := ClearRaces(re, w, pid, key);
    } else if !l.rpcState && !l.detours.BothOff() {
      var v := ClearLeaves(re, w, pid, key);
    } else {
      CalmStopCannot(re, w, FindModule(key), ClearEject(pid, key), key);
    }
  }

  /** Such worlds are reached: here the window goes away before the client has connected. */
  lemma EjectedWithHookOn(re: Regex, fold: string -> string, path: Path) returns (l: Load)
    ensures Leads(re, path, Empty(fold), OneSlot(fold, path, l, 1, Pc.Eject(1, 0, None)))
    ensures !l.poisoned && !l.detours.BothOff()
  {
    FirstInjection(re, fold, path);
    var w1 := OneSlot(fold, path, FRESH_LOAD, 1, Pc.Start(1, 0));
    var k := StartServer(re, path, w1, 1, 0);
    var w2 := OneSlot(fold, path, k, 1, Pc.Hooked(1, 0));
    OneSlotPut(fold, path, FRESH_LOAD, k, 1, w1.host.pc, w2.host.pc);
    LeadsThen(re, path, Empty(fold), w1, w2);
    l := StoppedAtOnce(re, fold, path, k);
    LeadsThen(re, path, Empty(fold), w2, OneSlot(fold, path, l, 1, Pc.Eject(1, 0, None)));
  }

  /** The client has yet to connect, and has nothing to configure. */
  ghost predicate JustStarted(l: Load) {
    && |l.gens| == 1 && l.rpcState && l.call == NoCall && !l.poisoned
    && l.client == Some(Client(1, NOTHING, 0, 0, Connecting, true))
    && l.thread == Alive(false, false, false, Waiting)
  }

  lemma StoppedAtOnce(re: Regex, fold: string -> string, path: Path, k: Load) returns (l: Load)
    requires JustStarted(k)
    ensures Leads(re, path, OneSlot(fold, path, k, 1, Pc.Hooked(1, 0)), OneSlot(fold, path, l, 1, Pc.Eject(1, 0, None)))
    ensures !l.poisoned && !l.detours.BothOff()
  {
    var w := OneSlot(fold, path, k, 1, Pc.Hooked(1, 0));
    var u := OneSlot(fold, path, k, 1, Stop(1, 0, None));
    LeadsStep(re, path, w, SeeStopped, u);
    var moves, v := OwnStopRaces(re, u, 1, 0, None);
    l := v.slots[0].load;
    OneSlotPut(fold, path, k, l, 1, u.host.pc, v.host.pc);
    assert OnlyResolves([StopIssued] + moves, path);
    assert Leads(re, path, u, v);
    LeadsThen(re, path, w, u, v);
  }
}
