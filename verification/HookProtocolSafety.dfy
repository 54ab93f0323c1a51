/**
 Safety of the hook lifecycle over every run: any leftover modules to begin with, any number of
 host processes one after the other, crashes and cancellation anywhere, any interleaving inside
 the modules. The one thing asked of a run is that the blocker files it injects carry the default
 blocker file name.
 */
module HookProtocolSafety {
  import opened Wrappers
  import opened Paths
  import opened Rules
  import opened BlockerLoad
  import opened LoadSafety
  import opened HookProtocol

  /** Before the first host of the run: modules nobody here injected, in any state. */
  ghost predicate Start0(w: World) {
    && w.host == Down && w.boots == 0
    && forall k :: k in w.slots ==> k < w.nextKey && w.slots[k].owner == 0
  }

  ghost predicate DefaultNames(fold: string -> string, moves: seq<Move>) {
    forall m :: m in moves && m.BlockerResolved? ==> HasDefaultName(fold, m.path)
  }

  // ---------------------------------------------------------------- the invariant

  ghost predicate SlotOk(re: Regex, w: World, k: nat, s: Slot) {
    && k < w.nextKey
    && s.owner <= w.boots
    && (s.owner >= 1 ==> Inv(re, s.load) && HasDefaultName(w.fold, s.path))
  }

  ghost predicate NoBlocker(w: World, pid: nat) {
    forall k :: k in w.slots ==> !IsBlocker(w, k, pid)
  }

  ghost predicate OnlyBlocker(w: World, pid: nat, key: nat) {
    forall k :: k in w.slots && IsBlocker(w, k, pid) ==> k == key
  }

  /** The module of the current host, unless Spotify has exited. */
  ghost predicate Own(w: World, pid: nat, key: nat) {
    && w.host.Up?
    && OnlyBlocker(w, pid, key)
    && (key in w.slots ==> w.slots[key].pid == pid && w.slots[key].owner == w.host.id)
  }

  ghost predicate LoadAt(w: World, key: nat, p: Load -> bool) {
    key in w.slots ==> p(w.slots[key].load)
  }

  ghost predicate Running(l: Load) {
    l.rpcState && l.call == NoCall && !l.poisoned
  }

  ghost predicate StartingUp(l: Load) {
    || (l.call == Starting && !l.rpcState && !l.poisoned)
    || Running(l)
    || (l.poisoned && l.call == NoCall && !l.rpcState)
  }

  ghost predicate PcOk(w: World, pc: Pc) {
    w.host.Up? &&
    match pc
    case ReadConfig(pid) => NoBlocker(w, pid)
    case ReadBlocker(pid) => NoBlocker(w, pid)
    case Inject(pid) => NoBlocker(w, pid) && HasDefaultName(w.fold, w.host.payload)
    case Start(pid, key) => Own(w, pid, key) && LoadAt(w, key, (l: Load) => l.gens == [])
    case StartCalled(pid, key) =>
      Own(w, pid, key) && LoadAt(w, key, (l: Load) => l.client.None? && l.gens != [] && StartingUp(l))
    case Spawn(pid, key) =>
      Own(w, pid, key) && LoadAt(w, key, (l: Load) => l.client.None? && l.gens != [] && Running(l))
    case Hooked(pid, key) => Own(w, pid, key) && LoadAt(w, key, (l: Load) => l.client.Some? && Running(l))
    case Stop(pid, key, _) => Own(w, pid, key) && LoadAt(w, key, (l: Load) => Running(l))
    case StopCalled(pid, key, _) => LoadAt(w, key, (l: Load) => !l.rpcState && l.call != Starting)
    case _ => true
  }

  ghost predicate WInv(re: Regex, w: World) {
    && (forall k :: k in w.slots ==> SlotOk(re, w, k, w.slots[k]))
    && (w.host.Up? ==> w.host.id == w.boots && w.host.id >= 1 && PcOk(w, w.host.pc))
  }

  lemma InvStart0(re: Regex, w: World)
    requires Start0(w)
    ensures WInv(re, w)
  {
  }

  // ---------------------------------------------------------------- one step at a time

  lemma StepSeeKeeps(re: Regex, w: World, m: Move, v: World)
    requires WInv(re, w) && Step(re, w, m) == Some(v)
    requires m.SeeRunning? || m.SeeStopped? || m.Cancel?
    ensures WInv(re, v)
  {
    assert v.slots == w.slots;
  }

  lemma StepHostKeeps(re: Regex, w: World, m: Move, v: World)
    requires WInv(re, w) && Step(re, w, m) == Some(v)
    requires m.ConfigRead? || m.ClearReturned? || m.StopLookupFails? || m.Joined?
    ensures WInv(re, v)
  {
    assert v.slots == w.slots;
  }

  lemma StepResolvedKeeps(re: Regex, w: World, path: Path, v: World)
    requires WInv(re, w) && StepBlockerResolved(w, path) == Some(v) && HasDefaultName(w.fold, path)
    ensures WInv(re, v)
  {
  }

  lemma StepFindNoneKeeps(re: Regex, w: World, v: World)
    requires WInv(re, w) && StepFindNone(w) == Some(v)
    ensures WInv(re, v)
  {
  }

  lemma StepStartReturnedKeeps(re: Regex, w: World, v: World)
    requires WInv(re, w) && StepStartReturned(w) == Some(v)
    ensures WInv(re, v)
  {
    assert v.slots == w.slots;
  }

  lemma StepStopReturnedKeeps(re: Regex, w: World, v: World)
    requires WInv(re, w) && StepStopReturned(w) == Some(v)
    ensures WInv(re, v)
  {
    assert v.slots == w.slots;
  }

  /** A process that ends, or a module that is ejected, only takes slots away. */
  lemma FewerSlotsKeep(re: Regex, w: World, pc: Pc, v: World)
    requires WInv(re, w) && w.nextKey == v.nextKey && w.boots == v.boots
    requires w.host.Up? ==> v.host == w.host.(pc := pc)
    requires w.host.Down? ==> v.host == w.host
    requires forall k :: k in v.slots ==> k in w.slots && v.slots[k] == w.slots[k]
    requires w.host.Up? ==> pc == w.host.pc || pc.Clear? || pc.Unhooked? || pc.Stopped?
    requires v.fold == w.fold
    ensures WInv(re, v)
  {
    forall k | k in v.slots ensures SlotOk(re, v, k, v.slots[k]) {
      assert SlotOk(re, w, k, w.slots[k]);
    }
  }

  lemma StepClearEjectedKeeps(re: Regex, w: World, ok: bool, v: World)
    requires WInv(re, w) && StepClearEjected(w, ok) == Some(v)
    ensures WInv(re, v)
  {
  }

  lemma StepEjectedKeeps(re: Regex, w: World, ok: bool, v: World)
    requires WInv(re, w) && StepEjected(w, ok) == Some(v)
    ensures WInv(re, v)
  {
  }

  lemma StepDownKeeps(re: Regex, w: World, m: Move, v: World)
    requires WInv(re, w) && Step(re, w, m) == Some(v) && (m.Crash? || m.Exit?)
    ensures WInv(re, v)
  {
    forall k | k in v.slots ensures SlotOk(re, v, k, v.slots[k]) {
      assert SlotOk(re, w, k, w.slots[k]);
      var l := w.slots[k].load;
      if w.slots[k].owner >= 1 && l.client.Some? {
        InvClient(re, l, ClientDies, NextClientDies(l).value);
      }
    }
  }

  lemma StepBootKeeps(re: Regex, w: World, v: World)
    requires WInv(re, w) && StepBoot(w) == Some(v)
    ensures WInv(re, v)
  {
    assert v.slots == w.slots;
    forall k | k in v.slots ensures SlotOk(re, v, k, v.slots[k]) {
      assert SlotOk(re, w, k, w.slots[k]);
    }
  }

  lemma StepInjectKeeps(re: Regex, w: World, v: World)
    requires WInv(re, w) && StepInjectFresh(w) == Some(v)
    ensures WInv(re, v)
  {
    InvFresh(re);
    forall k | k in v.slots ensures SlotOk(re, v, k, v.slots[k]) {
      if k != w.nextKey {
        assert SlotOk(re, w, k, w.slots[k]);
      }
    }
    forall k | k in v.slots && IsBlocker(v, k, w.host.pc.pid) ensures k == w.nextKey {
      assert k in w.slots ==> !IsBlocker(w, k, w.host.pc.pid);
    }
  }

  /** With the default name, nothing the host injects is already loaded. */
  lemma NeverInjectedAgain(re: Regex, w: World, key: nat)
    requires WInv(re, w)
    ensures StepInjectAgain(w, key) == None
  {
    assert IsPayload(w, key) ==> IsBlocker(w, key, w.host.pc.pid);
  }

  /** Replacing the load of one slot keeps the invariant if the new load fits where the host is. */
  lemma PutLoadKeeps(re: Regex, w: World, key: nat, l: Load, pc: Pc)
    requires WInv(re, w) && w.host.Up? && key in w.slots
    requires w.slots[key].owner >= 1 ==> Inv(re, l)
    requires var v := AtPc(PutLoad(w, key, l), pc);
      PcOk(v, pc)
    ensures WInv(re, AtPc(PutLoad(w, key, l), pc))
  {
    var v := AtPc(PutLoad(w, key, l), pc);
    forall k | k in v.slots ensures SlotOk(re, v, k, v.slots[k]) {
      assert SlotOk(re, w, k, w.slots[k]);
    }
  }

  lemma SameBlockers(w: World, key: nat, l: Load, pid: nat)
    requires key in w.slots
    ensures forall k :: IsBlocker(PutLoad(w, key, l), k, pid) <==> IsBlocker(w, k, pid)
  {
  }

  lemma StepStartIssuedKeeps(re: Regex, w: World, v: World)
    requires WInv(re, w) && StepStartIssued(w) == Some(v)
    ensures WInv(re, v)
  {
    var (pid, key) := (w.host.pc.pid, w.host.pc.key);
    var s := w.slots[key];
    assert SlotOk(re, w, key, s);
    var l := NextStartCall(s.load).value;
    assert Blank(s.load);
    InvStart(re, s.load, l);
    SameBlockers(w, key, l, pid);
    PutLoadKeeps(re, w, key, l, StartCalled(pid, key));
  }

  lemma StepClientSpawnedKeeps(re: Regex, w: World, v: World)
    requires WInv(re, w) && StepClientSpawned(w) == Some(v)
    ensures WInv(re, v)
  {
    var (pid, key) := (w.host.pc.pid, w.host.pc.key);
    var s := w.slots[key];
    assert SlotOk(re, w, key, s);
    var l := NextSpawnClient(s.load, w.host.id, w.host.cfg).value;
    InvSpawn(re, s.load, w.host.id, w.host.cfg, l);
    SameBlockers(w, key, l, pid);
    PutLoadKeeps(re, w, key, l, HookProtocol.Hooked(pid, key));
  }

  lemma StepFindModuleKeeps(re: Regex, w: World, key: nat, v: World)
    requires WInv(re, w) && StepFindModule(w, key) == Some(v)
    ensures WInv(re, v)
  {
    var s := w.slots[key];
    assert SlotOk(re, w, key, s);
    if s.load.poisoned {
      assert v.slots == w.slots;
    } else {
      var l := NextStopCall(s.load).value;
      if s.owner >= 1 {
        InvStop(re, s.load, StopCall, l);
      }
      PutLoadKeeps(re, w, key, l, ClearCalled(w.host.pc.pid, key));
    }
  }

  lemma StepStopIssuedKeeps(re: Regex, w: World, v: World)
    requires WInv(re, w) && StepStopIssued(w) == Some(v)
    ensures WInv(re, v)
  {
    var (pid, key, after) := (w.host.pc.pid, w.host.pc.key, w.host.pc.after);
    if key !in w.slots || w.slots[key].load.poisoned {
      assert v.slots == w.slots;
    } else {
      var s := w.slots[key];
      assert SlotOk(re, w, key, s);
      var l := NextStopCall(s.load).value;
      InvStop(re, s.load, StopCall, l);
      PutLoadKeeps(re, w, key, l, StopCalled(pid, key, after));
    }
  }

  /** The facts about a load that the host relies on. */
  ghost predicate LoadFrame(l: Load, m: Load) {
    && |m.gens| == |l.gens|
    && (m.client.Some? <==> l.client.Some?)
    && (Running(l) ==> Running(m))
    && (StartingUp(l) ==> StartingUp(m))
    && (!l.rpcState && l.call != Starting ==> !m.rpcState && m.call != Starting)
  }

  lemma RemoteFrame(l: Load, a: Action, m: Load)
    requires IsRemote(a) && NextRemote(l, a) == Some(m) && IsInner(a)
    ensures LoadFrame(l, m)
  {
  }

  /** They survive everything that happens inside the module meanwhile. */
  lemma InnerFrame(re: Regex, l: Load, a: Action, m: Load)
    requires Next(re, l, a) == Some(m) && IsInner(a)
    ensures LoadFrame(l, m)
  {
    if IsRemote(a) {
      RemoteFrame(l, a, m);
    } else {
      NextDelta(re, l, a, m);
    }
  }

  lemma PcFrame(w: World, key: nat, m: Load)
    requires w.host.Up? && PcOk(w, w.host.pc) && key in w.slots && LoadFrame(w.slots[key].load, m)
    ensures PcOk(PutLoad(w, key, m), w.host.pc)
  {
  }

  lemma StepInnerKeeps(re: Regex, w: World, key: nat, a: Action, v: World)
    requires WInv(re, w) && StepInner(re, w, key, a) == Some(v)
    ensures WInv(re, v)
  {
    var s := w.slots[key];
    assert SlotOk(re, w, key, s);
    var l := Next(re, s.load, a).value;
    InnerFrame(re, s.load, a, l);
    if s.owner >= 1 {
      InvNext(re, s.load, a, l);
    }
    forall k | k in v.slots ensures SlotOk(re, v, k, v.slots[k]) {
      assert SlotOk(re, w, k, w.slots[k]);
    }
    if w.host.Up? {
      PcFrame(w, key, l);
    }
  }

  lemma StepKeeps(re: Regex, w: World, m: Move, v: World)
    requires WInv(re, w) && Step(re, w, m) == Some(v)
    requires m.BlockerResolved? ==> HasDefaultName(w.fold, m.path)
    ensures WInv(re, v)
  {
    match m
    case Boot => StepBootKeeps(re, w, v);
    case Crash => StepDownKeeps(re, w, m, v);
    case Exit => StepDownKeeps(re, w, m, v);
    case SeeRunning(_) => StepSeeKeeps(re, w, m, v);
    case SeeStopped => StepSeeKeeps(re, w, m, v);
    case FindNone => StepFindNoneKeeps(re, w, v);
    case FindModule(key) => StepFindModuleKeeps(re, w, key, v);
    case ClearReturned => StepHostKeeps(re, w, m, v);
    case ClearEjected(ok) => StepClearEjectedKeeps(re, w, ok, v);
    case ConfigRead(_) => StepHostKeeps(re, w, m, v);
    case BlockerResolved(path) => StepResolvedKeeps(re, w, path, v);
    case InjectFresh => StepInjectKeeps(re, w, v);
    case InjectAgain(key) => NeverInjectedAgain(re, w, key);
    case StartIssued => StepStartIssuedKeeps(re, w, v);
    case StartReturned => StepStartReturnedKeeps(re, w, v);
    case ClientSpawned => StepClientSpawnedKeeps(re, w, v);
    case StopIssued => StepStopIssuedKeeps(re, w, v);
    case StopLookupFails => StepHostKeeps(re, w, m, v);
    case StopReturned => StepStopReturnedKeeps(re, w, v);
    case Joined => StepHostKeeps(re, w, m, v);
    case Ejected(ok) => StepEjectedKeeps(re, w, ok, v);
    case Cancel => StepSeeKeeps(re, w, m, v);
    case SpotifyExits(_) => FewerSlotsKeep(re, w, if w.host.Up? then w.host.pc else Stopped, v);
    case Inner(key, a) => StepInnerKeeps(re, w, key, a, v);
  }

  lemma FoldStays(re: Regex, w: World, m: Move, v: World)
    requires Step(re, w, m) == Some(v)
    ensures v.fold == w.fold
  {
  }

  lemma {:induction false} RunKeeps(re: Regex, w: World, moves: seq<Move>, v: World)
    requires WInv(re, w) && Run(re, w, moves) == Some(v) && DefaultNames(w.fold, moves)
    ensures WInv(re, v)
    decreases |moves|
  {
    if moves != [] {
      var u := Step(re, w, moves[0]).value;
      StepKeeps(re, w, moves[0], u);
      FoldStays(re, w, moves[0], u);
      RunKeeps(re, u, moves[1..], v);
    }
  }

  lemma FromStart(re: Regex, w: World, moves: seq<Move>, v: World)
    requires Start0(w) && Run(re, w, moves) == Some(v) && DefaultNames(w.fold, moves)
    ensures WInv(re, v)
  {
    InvStart0(re, w);
    RunKeeps(re, w, moves, v);
  }

  // ---------------------------------------------------------------- main results

  /** An enabled detour consults the store that the server of its load writes. */
  ghost predicate Coherent(l: Load) {
    && (l.detours.gai.IsOn() ==> l.gens != [] && l.detours.gai.filters == l.detours.gai.log == |l.gens| - 1)
    && (l.detours.cef.IsOn() ==> l.gens != [] && l.detours.cef.filters == l.detours.cef.log == |l.gens| - 1)
  }

  lemma EnabledDetoursUseTheLiveStore(re: Regex, w: World, moves: seq<Move>, v: World, k: nat)
    requires Start0(w) && Run(re, w, moves) == Some(v) && DefaultNames(w.fold, moves)
    requires k in v.slots && v.slots[k].owner >= 1
    ensures Coherent(v.slots[k].load)
    ensures |v.slots[k].load.gens| <= 1
  {
    FromStart(re, w, moves, v);
    assert SlotOk(re, v, k, v.slots[k]);
  }

  /** What a module decided, is deciding, and could decide now, all follow one configuration. */
  ghost predicate Follows(re: Regex, l: Load, cfg: Config) {
    && (forall d :: d in l.decisions ==> DecisionRight(re, cfg, d))
    && (forall p :: p in l.pending && p.verdict.Some? ==> (p.verdict.value <==> ShouldBlock(re, cfg, p.hook, p.url)))
    && (forall hook, url {:trigger ShouldBlock(re, cfg, hook, url)} ::
          var d := DetourOf(l.detours, hook);
          d.IsOn() && d.filters < |l.gens| ==>
            (Allows(re, l.gens[d.filters].table.Of(hook), url) <==> !ShouldBlock(re, cfg, hook, url)))
  }

  /**
   In every run, a module whose client was spawned with configuration `cfg` blocks exactly what
   `cfg` says, from the first enabled call on, and lets everything else pass; a module without a
   client has blocked nothing.
   */
  lemma DecisionsFollowTheConfiguration(re: Regex, w: World, moves: seq<Move>, v: World, k: nat)
    requires Start0(w) && Run(re, w, moves) == Some(v) && DefaultNames(w.fold, moves)
    requires k in v.slots && v.slots[k].owner >= 1
    ensures var l := v.slots[k].load;
      if l.client.Some? then Follows(re, l, l.client.value.cfg)
      else l.detours.BothOff() && forall d :: d in l.decisions ==> !d.blocked
  {
    FromStart(re, w, moves, v);
    assert SlotOk(re, v, k, v.slots[k]);
    var l := v.slots[k].load;
    if l.client.Some? {
      var c, g := l.client.value, l.gens[0];
      forall hook, url | DetourOf(l.detours, hook).IsOn()
        ensures Allows(re, g.table.Of(hook), url) <==> !ShouldBlock(re, c.cfg, hook, url)
      {
        ConfiguredCheck(re, c.cfg, hook, url);
        assert g.table.Of(hook) == RulesFor(c.cfg, hook);
      }
    }
  }

  /** The host's logger hears an initial part of what its module's detours sent, every flag true to the rules. */
  lemma LogsAreDeliveredInOrder(re: Regex, w: World, moves: seq<Move>, v: World, k: nat)
    requires Start0(w) && Run(re, w, moves) == Some(v) && DefaultNames(w.fold, moves)
    requires k in v.slots && v.slots[k].owner >= 1 && v.slots[k].load.client.Some?
    ensures var (l, c) := (v.slots[k].load, v.slots[k].load.client.value);
      && |l.gens| == 1
      && (l.gens[0].snapshot.Some? ==> l.gens[0].snapshot.value == [c.logger])
      && |l.gens[0].heard| <= |l.gens[0].sent|
      && (forall i :: 0 <= i < |l.gens[0].heard| ==> l.gens[0].heard[i] == (c.logger, l.gens[0].sent[i]))
      && (forall m :: m in l.gens[0].sent ==> (m.blocked <==> ShouldBlock(re, c.cfg, m.hook, m.url)))
      && (c.alive && l.thread.Alive? ==> |l.gens[0].heard| + |l.gens[0].queue| == |l.gens[0].sent|)
  {
    FromStart(re, w, moves, v);
    assert SlotOk(re, v, k, v.slots[k]);
  }

  /**
   When the host has hooked Spotify, its module is the only blocker there and has a server, whose
   thread runs untold or failed of itself.
   */
  lemma HookedMeansOneRunningBlocker(re: Regex, w: World, moves: seq<Move>, v: World)
    requires Start0(w) && Run(re, w, moves) == Some(v) && DefaultNames(w.fold, moves)
    requires v.host.Up? && v.host.pc.Hooked? && v.host.pc.key in v.slots
    ensures var (pid, key) := (v.host.pc.pid, v.host.pc.key);
      && IsBlocker(v, key, pid) && v.slots[key].owner == v.host.id
      && v.slots[key].load.rpcState && ServerUp(v.slots[key].load.thread)
      && forall k :: IsBlocker(v, k, pid) ==> k == key
  {
    FromStart(re, w, moves, v);
    assert SlotOk(re, v, v.host.pc.key, v.slots[v.host.pc.key]);
  }
}
