/**
 How a host leaves: `run` dropped at any await, then `stop`. Nothing here depends on the names of
 the blocker files, so a host may come upon a module that an earlier one left running.
 */
module HookProtocolCancel {
  import opened Wrappers
  import opened Rules
  import opened BlockerLoad
  import opened LoadSafety
  import opened HookProtocol
  import opened HookProtocolSafety

  ghost predicate NoLookupFailure(moves: seq<Move>) {
    StopLookupFails !in moves
  }

  /** `start_rpc` or `stop_rpc` has work left, or a server is registered. */
  predicate Busy(l: Load) {
    l.rpcState || l.call != NoCall
  }

  /** No server: none registered, and a thread still alive has been told to end. */
  predicate RpcStopped(l: Load) {
    !Busy(l) && (l.thread.Alive? ==> l.thread.signalled)
  }

  predicate StopsServer(l: Load) {
    l.call == DisablingGai || l.call == DisablingCef || l.call == Signalling || l.call == Joining
  }

  /** The module whose server the host is responsible for at this point of its code. */
  predicate Attends(pc: Pc, key: nat) {
    && (pc.Start? || pc.StartCalled? || pc.Spawn? || pc.Hooked? || pc.Stop? || pc.StopCalled?)
    && pc.key == key
  }

  // ---------------------------------------------------------------- a call inside a module

  /** A remote call goes on or ends, and one that stops the server ends with the thread gone. */
  ghost predicate Ends(l: Load, m: Load) {
    && (StopsServer(m) ==> StopsServer(l))
    && (StopsServer(l) && m.call == NoCall && !m.poisoned ==> !m.thread.Alive?)
    && (l.call == Starting && m.call == NoCall ==> m.rpcState || m.poisoned)
    && (l.rpcState && !StopsServer(l) ==> m.rpcState)
    && (l.poisoned ==> m.poisoned)
    && (!Busy(l) ==> !Busy(m))
  }

  lemma RemoteEnds(l: Load, a: Action, m: Load)
    requires IsRemote(a) && NextRemote(l, a) == Some(m) && IsInner(a)
    ensures Ends(l, m)
  {
  }

  lemma CallEnds(re: Regex, l: Load, a: Action, m: Load)
    requires Next(re, l, a) == Some(m) && IsInner(a)
    ensures Ends(l, m)
  {
    if IsRemote(a) {
      RemoteEnds(l, a, m);
    } else {
      NextDelta(re, l, a, m);
    }
  }

  // ---------------------------------------------------------------- every server is answered for

  /** Only the module the host answers for can be busy, of those it injected last. */
  ghost predicate Attended(w: World)
    requires w.host.Up?
  {
    forall k :: k in w.slots && w.slots[k].owner == w.host.id && Busy(w.slots[k].load) ==> Attends(w.host.pc, k)
  }

  ghost predicate Answered(w: World) {
    && (forall k :: k in w.slots ==> w.slots[k].owner <= w.boots && Tended(w.slots[k].load))
    && (w.host.Up? ==>
          && w.host.id == w.boots
          && Attended(w)
          && (w.host.pc.StopCalled? ==>
                LoadAt(w, w.host.pc.key, (l: Load) => !l.rpcState && l.call != Starting)))
  }

  /** Moves that change nothing but the host. */
  predicate IsHostOnly(m: Move) {
    m.FindNone? || m.ConfigRead? || m.BlockerResolved? || m.StartReturned?
  }

  lemma AnsweredWait(re: Regex, w: World, m: Move, v: World)
    requires Answered(w) && Step(re, w, m) == Some(v)
    requires m.ClearReturned? || m.Joined?
    ensures Answered(v)
  {
    assert v.slots == w.slots;
  }

  lemma AnsweredSee(re: Regex, w: World, m: Move, v: World)
    requires Answered(w) && Step(re, w, m) == Some(v)
    requires m.SeeRunning? || m.SeeStopped? || m.Cancel?
    ensures Answered(v)
  {
    assert v.slots == w.slots;
  }

  lemma AnsweredBoot(w: World, v: World)
    requires Answered(w) && StepBoot(w) == Some(v)
    ensures Answered(v)
  {
  }

  lemma AnsweredReturn(w: World, v: World)
    requires Answered(w) && StepStopReturned(w) == Some(v)
    ensures Answered(v)
  {
    assert v.slots == w.slots;
  }

  lemma AnsweredHostOnly(re: Regex, w: World, m: Move, v: World)
    requires Answered(w) && Step(re, w, m) == Some(v) && IsHostOnly(m)
    ensures Answered(v)
  {
    assert v.slots == w.slots;
  }

  lemma AnsweredClear(w: World, ok: bool, v: World)
    requires Answered(w) && StepClearEjected(w, ok) == Some(v)
    ensures Answered(v)
  {
  }

  lemma AnsweredEject(w: World, ok: bool, v: World)
    requires Answered(w) && StepEjected(w, ok) == Some(v)
    ensures Answered(v)
  {
  }

  lemma AnsweredInject(w: World, key: nat, v: World)
    requires Answered(w) && (StepInjectFresh(w) == Some(v) || StepInjectAgain(w, key) == Some(v))
    ensures Answered(v)
  {
  }

  lemma AnsweredExits(re: Regex, w: World, pid: nat, v: World)
    requires Answered(w) && Step(re, w, SpotifyExits(pid)) == Some(v)
    ensures Answered(v)
  {
  }

  lemma AnsweredDown(re: Regex, w: World, m: Move, v: World)
    requires Answered(w) && Step(re, w, m) == Some(v) && (m.Crash? || m.Exit?)
    ensures Answered(v)
  {
  }

  lemma AnsweredStart(w: World, v: World)
    requires Answered(w) && StepStartIssued(w) == Some(v)
    ensures Answered(v)
  {
    TendedRemote(w.slots[w.host.pc.key].load, StartCall, v.slots[w.host.pc.key].load);
  }

  lemma AnsweredSpawn(w: World, v: World)
    requires Answered(w) && StepClientSpawned(w) == Some(v)
    ensures Answered(v)
  {
  }

  lemma AnsweredFind(w: World, key: nat, v: World)
    requires Answered(w) && StepFindModule(w, key) == Some(v)
    ensures Answered(v)
  {
    if !w.slots[key].load.poisoned {
      TendedRemote(w.slots[key].load, StopCall, v.slots[key].load);
    }
  }

  lemma AnsweredStop(w: World, v: World)
    requires Answered(w) && StepStopIssued(w) == Some(v)
    ensures Answered(v)
  {
    var key := w.host.pc.key;
    if key in w.slots && !w.slots[key].load.poisoned {
      TendedRemote(w.slots[key].load, StopCall, v.slots[key].load);
    }
  }

  lemma AnsweredInner(re: Regex, w: World, key: nat, a: Action, v: World)
    requires Answered(w) && StepInner(re, w, key, a) == Some(v)
    ensures Answered(v)
  {
    var l, m := w.slots[key].load, v.slots[key].load;
    TendedNext(re, l, a, m);
    CallEnds(re, l, a, m);
    InnerFrame(re, l, a, m);
  }

  lemma AnsweredStep(re: Regex, w: World, m: Move, v: World)
    requires Answered(w) && Step(re, w, m) == Some(v) && !m.StopLookupFails?
    ensures Answered(v)
  {
    match m
    case SeeRunning(_) => AnsweredSee(re, w, m, v);
    case SeeStopped => AnsweredSee(re, w, m, v);
    case Cancel => AnsweredSee(re, w, m, v);
    case ClearReturned => AnsweredWait(re, w, m, v);
    case Joined => AnsweredWait(re, w, m, v);
    case Boot => AnsweredBoot(w, v);
    case StopReturned => AnsweredReturn(w, v);
    case Crash => AnsweredDown(re, w, m, v);
    case Exit => AnsweredDown(re, w, m, v);
    case StartIssued => AnsweredStart(w, v);
    case ClientSpawned => AnsweredSpawn(w, v);
    case FindModule(key) => AnsweredFind(w, key, v);
    case StopIssued => AnsweredStop(w, v);
    case Inner(key, a) => AnsweredInner(re, w, key, a, v);
    case ClearEjected(ok) => AnsweredClear(w, ok, v);
    case Ejected(ok) => AnsweredEject(w, ok, v);
    case SpotifyExits(pid) => AnsweredExits(re, w, pid, v);
    case InjectFresh => AnsweredInject(w, 0, v);
    case InjectAgain(key) => AnsweredInject(w, key, v);
    case _ => AnsweredHostOnly(re, w, m, v);
  }

  lemma {:induction false} AnsweredRun(re: Regex, w: World, moves: seq<Move>, v: World)
    requires Answered(w) && Run(re, w, moves) == Some(v) && NoLookupFailure(moves)
    ensures Answered(v)
    decreases |moves|
  {
    if moves != [] {
      var u := Step(re, w, moves[0]).value;
      AnsweredStep(re, w, moves[0], u);
      AnsweredRun(re, u, moves[1..], v);
    }
  }

  /**
   Wherever `run` was dropped, once `stop` is done no module that this host injected last has a
   server left; and at every earlier moment at most one of them has, the one the host still answers
   for. The blocker file may have any name. Of the modules there are to begin with it is asked that
   their threads are where the code can bring them, which `LoadSafety.TendedNext` shows it does.
   */
  lemma StoppedHostLeavesNoServer(re: Regex, w: World, moves: seq<Move>, v: World, k: nat)
    requires Start0(w) && (forall key :: key in w.slots ==> Tended(w.slots[key].load))
    requires Run(re, w, moves) == Some(v) && NoLookupFailure(moves)
    requires v.host.Up? && k in v.slots && v.slots[k].owner == v.host.id
    ensures v.host.pc == Stopped ==> RpcStopped(v.slots[k].load)
    ensures !RpcStopped(v.slots[k].load) ==> Attends(v.host.pc, k)
  {
    AnsweredRun(re, w, moves, v);
  }
}
