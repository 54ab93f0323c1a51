/**
 The eject loop looks for modules by the default blocker file name, while `--blocker` may name any
 file. This module shows that the default name is exactly what store coherence needs.
 */
module StaleStore {
  import opened Wrappers
  import opened Paths
  import opened Rules
  import opened Detours
  import opened BlockerLoad
  import opened LoadSafety
  import opened HookProtocol
  import opened HookProtocolSafety
  import opened Runs
  import Resolver

  /** Once a detour has captured a store it keeps it for the rest of the load. */
  lemma {:induction false} CapturedForTheLoad(re: Regex, l: Load, acts: seq<Action>, m: Load)
    requires Exec(re, l, acts) == Some(m)
    ensures l.detours.gai.KeptBy(m.detours.gai) && l.detours.cef.KeptBy(m.detours.cef)
    decreases |acts|
  {
    if acts != [] {
      var k := Next(re, l, acts[0]).value;
      NextDelta(re, l, acts[0], k);
      CapturedForTheLoad(re, k, acts[1..], m);
    }
  }

  lemma LeaveLoaded(re: Regex, fold: string -> string, path: Path, w: World, m: Load)
    requires Leads(re, path, w, OneSlot(fold, path, m, 1, StopCalled(1, 0, None)))
    requires m.call == NoCall && !m.poisoned && ClientFinished(m)
    ensures Leads(re, path, w, OneSlot(fold, path, m, 1, Unhooked))
  {
    var v := OneSlot(fold, path, m, 1, StopCalled(1, 0, None));
    ToEject(re, path, w, v, 1, 0);
    FailToEject(re, path, w, AtPc(v, Pc.Eject(1, 0, None)), 1, 0);
    assert AtPc(AtPc(v, Pc.Eject(1, 0, None)), Unhooked) == OneSlot(fold, path, m, 1, Unhooked);
  }

  /** The module is unhooked but stays loaded, its detours still holding store 0. */
  lemma LeftBehind(re: Regex, fold: string -> string, path: Path, l: Load) returns (m: Load)
    requires InSetup(l, SETUP_CALLS) && l.rpcState && l.call == NoCall && !l.poisoned && |l.gens| == 1
    requires l.detours.gai == Ready(0, 0, true)
    ensures Leads(re, path, OneSlot(fold, path, l, 1, Pc.Hooked(1, 0)), OneSlot(fold, path, m, 1, Unhooked))
    ensures !m.rpcState && m.call == NoCall && !m.poisoned && |m.gens| == 1 && m.client == l.client
    ensures m.detours.gai.Ready? && m.detours.gai.filters == 0
  {
    var w := OneSlot(fold, path, l, 1, Pc.Hooked(1, 0));
    m := StopServer(re, path, w, 1, 0);
    OneSlotPut(fold, path, l, m, 1, w.host.pc, StopCalled(1, 0, None));
    LeaveLoaded(re, fold, path, w, m);
  }

  lemma SecondInjection(re: Regex, fold: string -> string, path: Path, l: Load)
    requires !HasDefaultName(fold, path)
    ensures Leads(re, path, OneSlot(fold, path, l, 1, Unhooked), OneSlot(fold, path, l, 2, Pc.Start(1, 0)))
  {
    var w := OneSlot(fold, path, l, 1, Unhooked);
    var w1 := ToInject(re, path, w, 1);
    var w2 := OneSlot(fold, path, l, 2, Pc.Start(1, 0));
    assert IsPayload(w1, 0);
    assert StepInjectAgain(w1, 0).value.slots == w2.slots;
    LeadsAlso(re, path, w, w1, InjectAgain(0), w2);
  }

  /** The next hook finds no module to eject and starts a second server in the same load. */
  lemma SecondHook(re: Regex, fold: string -> string, path: Path, l: Load) returns (m: Load)
    requires !HasDefaultName(fold, path)
    requires !l.rpcState && l.call == NoCall && !l.poisoned && |l.gens| == 1
    requires l.client.Some? ==> l.client.value.gen == 0
    requires l.detours.gai.Ready? && l.detours.gai.filters == 0
    ensures Leads(re, path, OneSlot(fold, path, l, 1, Unhooked), OneSlot(fold, path, m, 2, Pc.Hooked(1, 0)))
    ensures |m.gens| == 2 && m.detours.gai.IsOn() && m.detours.gai.filters == 0
  {
    var w := OneSlot(fold, path, l, 1, Unhooked);
    SecondInjection(re, fold, path, l);
    var w2 := OneSlot(fold, path, l, 2, Pc.Start(1, 0));
    m := StartAndSetup(re, path, w2, 1, 0);
    OneSlotPut(fold, path, l, m, 2, w2.host.pc, Pc.Hooked(1, 0));
    LeadsThen(re, path, w, w2, OneSlot(fold, path, m, 2, Pc.Hooked(1, 0)));
  }

  /** Hooked, unhooked with a failing eject, hooked again: the detours decide by a store no server writes. */
  lemma StaleRun(re: Regex, fold: string -> string, path: Path) returns (m: Load)
    requires !HasDefaultName(fold, path)
    ensures Leads(re, path, Empty(fold), OneSlot(fold, path, m, 2, Pc.Hooked(1, 0)))
    ensures !Coherent(m)
  {
    var l := FirstHook(re, fold, path);
    var k := LeftBehind(re, fold, path, l);
    m := SecondHook(re, fold, path, k);
    LeadsThen(re, path, Empty(fold), OneSlot(fold, path, l, 1, Pc.Hooked(1, 0)), OneSlot(fold, path, k, 1, Unhooked));
    LeadsThen(re, path, Empty(fold), OneSlot(fold, path, k, 1, Unhooked), OneSlot(fold, path, m, 2, Pc.Hooked(1, 0)));
  }

  ghost predicate AlwaysCoherent(re: Regex, fold: string -> string, path: Path) {
    forall moves, v, k ::
      Run(re, Empty(fold), moves) == Some(v) && OnlyResolves(moves, path) && k in v.slots && v.slots[k].owner >= 1
      ==> Coherent(v.slots[k].load)
  }

  /** With the default file name every run is coherent; with any other name some run is not. */
  lemma CoherentIffDefaultName(re: Regex, fold: string -> string, path: Path)
    ensures AlwaysCoherent(re, fold, path) <==> HasDefaultName(fold, path)
  {
    if HasDefaultName(fold, path) {
      forall moves, v, k |
        Run(re, Empty(fold), moves) == Some(v) && OnlyResolves(moves, path) && k in v.slots && v.slots[k].owner >= 1
        ensures Coherent(v.slots[k].load)
      {
        EnabledDetoursUseTheLiveStore(re, Empty(fold), moves, v, k);
      }
    } else {
      var m := StaleRun(re, fold, path);
      var v := OneSlot(fold, path, m, 2, Pc.Hooked(1, 0));
      assert !Coherent(v.slots[0].load);
    }
  }

  // ---------------------------------------------------------------- hosts started without `--blocker`

  /** Every injected file is one the resolver found without being given a path, on whatever file system. */
  ghost predicate FoundWithoutOption(moves: seq<Move>) {
    forall m :: m in moves && m.BlockerResolved? ==>
      exists e, n :: Resolver.ResolveBlocker(e, n, None).outcome == Resolver.Found(m.path)
  }

  lemma SearchFindsDefaultName(fold: string -> string, moves: seq<Move>)
    requires FoundWithoutOption(moves)
    ensures DefaultNames(fold, moves)
  {
    forall m | m in moves && m.BlockerResolved? ensures HasDefaultName(fold, m.path) {
      var e, n :| Resolver.ResolveBlocker(e, n, None).outcome == Resolver.Found(m.path);
      Resolver.FoundName(e, n, None);
    }
  }

  /** Without `--blocker` the detours are on the live store in every run. */
  lemma WithoutOptionCoherent(re: Regex, w: World, moves: seq<Move>, v: World, k: nat)
    requires Start0(w) && Run(re, w, moves) == Some(v) && FoundWithoutOption(moves)
    requires k in v.slots && v.slots[k].owner >= 1
    ensures Coherent(v.slots[k].load)
  {
    SearchFindsDefaultName(w.fold, moves);
    EnabledDetoursUseTheLiveStore(re, w, moves, v, k);
  }
}
