/**
 What a move of the world means for one module, and what the host knows of the module it is busy
 with, in every run and whatever the blocker files are called.
 */
module HookProtocolSlots {
  import opened Wrappers
  import opened Rules
  import opened BlockerLoad
  import opened LoadSafety
  import opened LoadLink
  import opened HookProtocol
  import opened HookProtocolSafety
  import opened HookProtocolCancel

  predicate HostAt(w: World, key: nat) {
    w.host.Up? && match w.host.pc
    case Start(_, k) => k == key
    case Spawn(_, k) => k == key
    case Stop(_, k, _) => k == key
    case _ => false
  }

  /** The action a move makes on module `key`, if any. */
  function ActOf(w: World, m: Move, key: nat): Option<Action>
    requires key in w.slots
  {
    var l := w.slots[key].load;
    match m
    case Inner(k, a) => if k == key then Some(a) else None
    case FindModule(k) => if k == key && !l.poisoned then Some(StopCall) else None
    case StopIssued => if HostAt(w, key) && !l.poisoned then Some(StopCall) else None
    case StartIssued => if HostAt(w, key) then Some(StartCall) else None
    case ClientSpawned => if HostAt(w, key) then Some(SpawnClient(w.host.id, w.host.cfg)) else None
    case Crash => if l.client.Some? then Some(ClientDies) else None
    case Exit => if l.client.Some? then Some(ClientDies) else None
    case _ => None
  }

  /** Slot `s` becomes `t` by move `m`. */
  ghost predicate SlotStep(re: Regex, w: World, m: Move, key: nat, t: Slot)
    requires key in w.slots
  {
    var s := w.slots[key];
    && (t.owner == s.owner || (m == InjectAgain(key) && w.host.Up? && t.owner == w.host.id))
    && match ActOf(w, m, key)
       case None => t.load == s.load
       case Some(a) => Next(re, s.load, a) == Some(t.load)
  }

  predicate IsFresh(w: World, m: Move, key: nat) {
    m.InjectFresh? && key == w.nextKey
  }

  lemma SlotHost(re: Regex, w: World, m: Move, v: World)
    requires Step(re, w, m) == Some(v)
    requires m.Boot? || m.SeeRunning? || m.SeeStopped? || m.FindNone? || m.ClearReturned? || m.ConfigRead? || m.Cancel?
      || m.BlockerResolved? || m.StartReturned? || m.StopLookupFails? || m.StopReturned? || m.Joined?
    ensures v.slots == w.slots && v.nextKey == w.nextKey
  {
  }

  lemma SlotGone(re: Regex, w: World, m: Move, v: World, key: nat)
    requires Step(re, w, m) == Some(v) && key in v.slots
    requires m.ClearEjected? || m.Ejected? || m.SpotifyExits?
    ensures key in w.slots && SlotStep(re, w, m, key, v.slots[key]) && v.nextKey == w.nextKey
  {
  }

  lemma SlotDown(re: Regex, w: World, m: Move, v: World, key: nat)
    requires Step(re, w, m) == Some(v) && key in v.slots && (m.Crash? || m.Exit?)
    ensures key in w.slots && SlotStep(re, w, m, key, v.slots[key]) && v.nextKey == w.nextKey
  {
  }

  lemma SlotInject(re: Regex, w: World, m: Move, v: World, key: nat)
    requires Step(re, w, m) == Some(v) && key in v.slots && (m.InjectFresh? || m.InjectAgain?)
    ensures w.host.Up? && v.nextKey >= w.nextKey && (m.InjectFresh? ==> v.nextKey > w.nextKey)
    ensures if IsFresh(w, m, key) then v.slots[key].load == FRESH_LOAD && v.slots[key].owner == w.host.id
            else key in w.slots && SlotStep(re, w, m, key, v.slots[key])
  {
  }

  lemma SlotCall(re: Regex, w: World, m: Move, v: World, key: nat)
    requires Step(re, w, m) == Some(v) && key in v.slots
    requires m.FindModule? || m.StopIssued? || m.StartIssued? || m.ClientSpawned?
    ensures key in w.slots && SlotStep(re, w, m, key, v.slots[key]) && v.nextKey == w.nextKey
  {
  }

  lemma SlotInner(re: Regex, w: World, m: Move, v: World, key: nat)
    requires Step(re, w, m) == Some(v) && key in v.slots && m.Inner?
    ensures key in w.slots && SlotStep(re, w, m, key, v.slots[key]) && v.nextKey == w.nextKey
  {
  }

  /** Every module of the new world is a fresh one, or an old one after at most one action of its own. */
  lemma SlotMove(re: Regex, w: World, m: Move, v: World, key: nat)
    requires Step(re, w, m) == Some(v) && key in v.slots
    ensures v.nextKey >= w.nextKey && (m.InjectFresh? ==> v.nextKey > w.nextKey)
    ensures if IsFresh(w, m, key) then w.host.Up? && v.slots[key].load == FRESH_LOAD && v.slots[key].owner == w.host.id
            else key in w.slots && SlotStep(re, w, m, key, v.slots[key])
  {
    match m
    case ClearEjected(_) => SlotGone(re, w, m, v, key);
    case Ejected(_) => SlotGone(re, w, m, v, key);
    case SpotifyExits(_) => SlotGone(re, w, m, v, key);
    case Crash => SlotDown(re, w, m, v, key);
    case Exit => SlotDown(re, w, m, v, key);
    case InjectFresh => SlotInject(re, w, m, v, key);
    case InjectAgain(_) => SlotInject(re, w, m, v, key);
    case FindModule(_) => SlotCall(re, w, m, v, key);
    case StopIssued => SlotCall(re, w, m, v, key);
    case StartIssued => SlotCall(re, w, m, v, key);
    case ClientSpawned => SlotCall(re, w, m, v, key);
    case Inner(_, _) => SlotInner(re, w, m, v, key);
    case _ => SlotHost(re, w, m, v);
  }

  lemma NextKeyGrows(re: Regex, w: World, m: Move, v: World)
    requires Step(re, w, m) == Some(v)
    ensures v.nextKey >= w.nextKey
  {
  }

  // ---------------------------------------------------------------- what the host knows

  /** A registered server, and a client whose host is still there. */
  ghost predicate OwnServer(l: Load) {
    Running(l) && l.client.Some? && l.client.value.alive
  }

  ghost predicate CallOver(w: World, pc: Pc) {
    match pc
    case StartCalled(_, key) => LoadAt(w, key, (l: Load) => StartingUp(l))
    case Spawn(_, key) => LoadAt(w, key, (l: Load) => Running(l))
    case Hooked(_, key) => LoadAt(w, key, (l: Load) => OwnServer(l))
    case Stop(_, key, _) => LoadAt(w, key, (l: Load) => OwnServer(l))
    case ClearCalled(_, key) => LoadAt(w, key, (l: Load) => !l.rpcState && l.call != Starting)
    case ClearEject(_, key) => LoadAt(w, key, (l: Load) => l.poisoned || !Busy(l))
    case StopCalled(_, key, _) => LoadAt(w, key, (l: Load) => !l.rpcState && l.call != Starting)
    case Join(_, key, _) => LoadAt(w, key, (l: Load) => l.poisoned || !Busy(l))
    case Eject(_, key, _) => LoadAt(w, key, (l: Load) => l.poisoned || !Busy(l))
    case _ => true
  }

  ghost predicate Placed(w: World) {
    && (forall k :: k in w.slots ==> k < w.nextKey)
    && (w.host.Up? ==> CallOver(w, w.host.pc))
    && (w.host.Up? && w.host.pc.Start? && w.host.pc.key in w.slots ==> w.slots[w.host.pc.key].owner == w.host.id)
  }

  lemma PlacedHost(re: Regex, w: World, m: Move, v: World)
    requires Placed(w) && Step(re, w, m) == Some(v)
    requires m.Boot? || m.FindNone? || m.ConfigRead? || m.BlockerResolved? || m.StartReturned? || m.StopLookupFails?
    ensures Placed(v)
  {
    SlotHost(re, w, m, v);
  }

  lemma PlacedSee(re: Regex, w: World, m: Move, v: World)
    requires Placed(w) && Step(re, w, m) == Some(v)
    requires m.SeeRunning? || m.SeeStopped? || m.Cancel?
    ensures Placed(v)
  {
    SlotHost(re, w, m, v);
  }

  lemma PlacedClearReturned(w: World, v: World)
    requires Placed(w) && StepClearReturned(w) == Some(v)
    ensures Placed(v)
  {
    assert v.slots == w.slots;
  }

  lemma PlacedStopReturned(w: World, v: World)
    requires Placed(w) && StepStopReturned(w) == Some(v)
    ensures Placed(v)
  {
    assert v.slots == w.slots;
  }

  lemma PlacedJoined(w: World, v: World)
    requires Placed(w) && StepJoined(w) == Some(v)
    ensures Placed(v)
  {
    assert v.slots == w.slots;
  }

  lemma PlacedGone(re: Regex, w: World, m: Move, v: World)
    requires Placed(w) && Step(re, w, m) == Some(v)
    requires m.ClearEjected? || m.Ejected?
    ensures Placed(v)
  {
    forall k | k in v.slots ensures k < v.nextKey {
      SlotGone(re, w, m, v, k);
    }
  }

  lemma PlacedExits(re: Regex, w: World, pid: nat, v: World)
    requires Placed(w) && Step(re, w, SpotifyExits(pid)) == Some(v)
    ensures Placed(v)
  {
  }

  lemma PlacedDown(re: Regex, w: World, m: Move, v: World)
    requires Placed(w) && Step(re, w, m) == Some(v) && (m.Crash? || m.Exit?)
    ensures Placed(v)
  {
    forall k | k in v.slots ensures k < v.nextKey {
      SlotDown(re, w, m, v, k);
    }
  }

  lemma PlacedInject(w: World, key: nat, v: World)
    requires Placed(w) && (StepInjectFresh(w) == Some(v) || StepInjectAgain(w, key) == Some(v))
    ensures Placed(v)
  {
  }

  lemma PlacedStops(re: Regex, w: World, m: Move, v: World)
    requires Placed(w) && Step(re, w, m) == Some(v)
    requires m.FindModule? || m.StopIssued?
    ensures Placed(v)
  {
  }

  lemma PlacedStarts(re: Regex, w: World, m: Move, v: World)
    requires Placed(w) && Step(re, w, m) == Some(v)
    requires m.StartIssued? || m.ClientSpawned?
    ensures Placed(v)
  {
  }

  /** Nothing inside a module takes the client's host away. */
  lemma ClientStaysAlive(re: Regex, l: Load, a: Action, m: Load)
    requires Next(re, l, a) == Some(m) && IsInner(a) && l.client.Some? && l.client.value.alive
    ensures m.client.Some? && m.client.value.alive
  {
    NextDelta(re, l, a, m);
  }

  lemma PlacedInner(re: Regex, w: World, key: nat, a: Action, v: World)
    requires Placed(w) && StepInner(re, w, key, a) == Some(v)
    ensures Placed(v)
  {
    var l, m := w.slots[key].load, v.slots[key].load;
    InnerFrame(re, l, a, m);
    CallEnds(re, l, a, m);
    if l.client.Some? && l.client.value.alive {
      ClientStaysAlive(re, l, a, m);
    }
  }

  lemma PlacedMove(re: Regex, w: World, m: Move, v: World)
    requires Placed(w) && Step(re, w, m) == Some(v)
    ensures Placed(v)
  {
    match m
    case SeeRunning(_) => PlacedSee(re, w, m, v);
    case SeeStopped => PlacedSee(re, w, m, v);
    case Cancel => PlacedSee(re, w, m, v);
    case ClearReturned => PlacedClearReturned(w, v);
    case StopReturned => PlacedStopReturned(w, v);
    case Joined => PlacedJoined(w, v);
    case ClearEjected(_) => PlacedGone(re, w, m, v);
    case Ejected(_) => PlacedGone(re, w, m, v);
    case SpotifyExits(pid) => PlacedExits(re, w, pid, v);
    case Crash => PlacedDown(re, w, m, v);
    case Exit => PlacedDown(re, w, m, v);
    case InjectFresh => PlacedInject(w, 0, v);
    case InjectAgain(key) => PlacedInject(w, key, v);
    case FindModule(_) => PlacedStops(re, w, m, v);
    case StopIssued => PlacedStops(re, w, m, v);
    case StartIssued => PlacedStarts(re, w, m, v);
    case ClientSpawned => PlacedStarts(re, w, m, v);
    case Inner(key, a) => PlacedInner(re, w, key, a, v);
    case _ => PlacedHost(re, w, m, v);
  }

  // ---------------------------------------------------------------- linked modules

  ghost predicate AllLinked(w: World) {
    forall k :: k in w.slots ==> Linked(w.slots[k].load)
  }

  lemma LinkedMove(re: Regex, w: World, m: Move, v: World)
    requires AllLinked(w) && Step(re, w, m) == Some(v)
    ensures AllLinked(v)
  {
    forall k | k in v.slots ensures Linked(v.slots[k].load) {
      SlotMove(re, w, m, v, k);
      if !IsFresh(w, m, k) && ActOf(w, m, k).Some? {
        LinkedNext(re, w.slots[k].load, ActOf(w, m, k).value, v.slots[k].load);
      }
    }
  }

  /** In every run the host knows what it relies on, and every module stays linked. */
  lemma {:induction false} PlacedRun(re: Regex, w: World, moves: seq<Move>, v: World)
    requires Placed(w) && AllLinked(w) && Run(re, w, moves) == Some(v)
    ensures Placed(v) && AllLinked(v)
    decreases |moves|
  {
    if moves != [] {
      var u := Step(re, w, moves[0]).value;
      PlacedMove(re, w, moves[0], u);
      LinkedMove(re, w, moves[0], u);
      PlacedRun(re, u, moves[1..], v);
    }
  }

  // ---------------------------------------------------------------- hosts that have left

  /** No host numbered in `left` has a module with a server. */
  ghost predicate LeftClean(w: World, left: set<nat>) {
    && (forall i :: i in left ==> i <= w.boots && (w.host.Up? ==> i != w.host.id))
    && (forall k :: k in w.slots && w.slots[k].owner in left ==> !Busy(w.slots[k].load))
  }

  lemma IdleStaysIdle(re: Regex, l: Load, a: Action, m: Load)
    requires Next(re, l, a) == Some(m) && !a.StartCall? && !Busy(l)
    ensures !Busy(m)
  {
    if IsRemote(a) {
      assert NextRemote(l, a) == Some(m);
    } else {
      NextDelta(re, l, a, m);
    }
  }

  lemma LeftCleanMove(re: Regex, w: World, m: Move, v: World, left: set<nat>)
    requires Placed(w) && LeftClean(w, left) && Step(re, w, m) == Some(v)
    ensures LeftClean(v, left)
  {
    HostNumber(re, w, m, v);
    forall k | k in v.slots && v.slots[k].owner in left ensures !Busy(v.slots[k].load) {
      SlotMove(re, w, m, v, k);
      if !IsFresh(w, m, k) && ActOf(w, m, k).Some? {
        IdleStaysIdle(re, w.slots[k].load, ActOf(w, m, k).value, v.slots[k].load);
      }
    }
  }

  lemma HostNumber(re: Regex, w: World, m: Move, v: World)
    requires Step(re, w, m) == Some(v)
    ensures v.boots >= w.boots
    ensures v.host.Up? ==> (if m.Boot? then v.host.id == w.boots + 1 else w.host.Up? && v.host.id == w.host.id)
  {
  }
}
