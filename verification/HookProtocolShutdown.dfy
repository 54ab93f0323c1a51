/**
 The state in which modules are ejected. Nothing here depends on the names of the blocker files;
 about a module that was there to begin with, something has to be known.
 */
module HookProtocolShutdown {
  import opened Wrappers
  import opened Rules
  import opened BlockerLoad
  import opened LoadSafety
  import opened LoadLink
  import opened LoadStop
  import opened HookProtocol
  import opened HookProtocolSafety
  import opened HookProtocolCancel
  import opened HookProtocolSlots

  /** Nothing will turn a detour on while `stop_rpc` runs, nor after it returned. */
  ghost predicate Settled(re: Regex, l: Load) {
    && Linked(l)
    && (StopsServer(l) ==> Quiet(re, l))
    && (!Busy(l) && !l.poisoned ==> l.detours.BothOff() && !l.thread.Alive?)
  }

  /** `others` are the modules nothing is known about. */
  ghost predicate AllSettled(re: Regex, w: World, others: set<nat>) {
    && Placed(w)
    && (forall k :: k in others ==> k < w.nextKey)
    && (forall k :: k in w.slots && k !in others ==> Settled(re, w.slots[k].load))
  }

  /** `stop_rpc` is called on `key` only when no `enable_filtering` can follow. */
  ghost predicate CalmStop(re: Regex, w: World, m: Move) {
    && (m.FindModule? && m.key in w.slots ==> !EnableAhead(re, w.slots[m.key].load))
    && (m.StopIssued? && w.host.Up? && w.host.pc.Stop? && w.host.pc.key in w.slots ==>
          !EnableAhead(re, w.slots[w.host.pc.key].load))
  }

  ghost predicate CalmRun(re: Regex, w: World, moves: seq<Move>)
    decreases |moves|
  {
    moves == [] ||
    (CalmStop(re, w, moves[0])
     && match Step(re, w, moves[0])
        case None => true
        case Some(v) => CalmRun(re, v, moves[1..]))
  }

  // ---------------------------------------------------------------- one load

  lemma SettledCall(re: Regex, l: Load, a: Action, m: Load)
    requires Settled(re, l) && Next(re, l, a) == Some(m)
    requires a.StopCall? || a.StartCall? || a.SpawnClient?
    requires (a.StopCall? ==> !EnableAhead(re, l)) && (a.SpawnClient? ==> Running(l))
    ensures Settled(re, m)
  {
    LinkedRemote(l, a, m);
  }

  lemma SettledDies(re: Regex, l: Load, m: Load)
    requires Settled(re, l) && Next(re, l, ClientDies) == Some(m)
    ensures Settled(re, m)
  {
    LinkedNext(re, l, ClientDies, m);
    if StopsServer(l) {
      QuietStep(re, l, ClientDies, m);
    }
  }

  lemma IdleStaysOff(re: Regex, l: Load, a: Action, m: Load)
    requires Next(re, l, a) == Some(m) && IsInner(a) && !Busy(l) && !l.thread.Alive? && l.detours.BothOff()
    ensures !m.thread.Alive? && m.detours.BothOff()
  {
    NextDelta(re, l, a, m);
  }

  lemma SettledInner(re: Regex, l: Load, a: Action, m: Load)
    requires Settled(re, l) && Next(re, l, a) == Some(m) && IsInner(a)
    ensures Settled(re, m)
  {
    LinkedNext(re, l, a, m);
    CallEnds(re, l, a, m);
    if StopsServer(l) {
      QuietStep(re, l, a, m);
    } else if !Busy(l) && !l.poisoned {
      IdleStaysOff(re, l, a, m);
    }
  }

  /** Every action keeps a module settled, but for a `stop_rpc` that is not calm. */
  lemma SettledAct(re: Regex, l: Load, a: Action, m: Load)
    requires Settled(re, l) && Next(re, l, a) == Some(m)
    requires (a.StopCall? ==> !EnableAhead(re, l)) && (a.SpawnClient? ==> Running(l))
    ensures Settled(re, m)
  {
    match a
    case StopCall => SettledCall(re, l, a, m);
    case StartCall => SettledCall(re, l, a, m);
    case SpawnClient(_, _) => SettledCall(re, l, a, m);
    case ClientDies => SettledDies(re, l, m);
    case _ => SettledInner(re, l, a, m);
  }

  // ---------------------------------------------------------------- every move

  /** What is asked of the actions that moves make. */
  lemma CalmAct(re: Regex, w: World, m: Move, v: World, key: nat)
    requires Placed(w) && CalmStop(re, w, m) && Step(re, w, m) == Some(v) && key in w.slots
    ensures var l := w.slots[key].load;
      ActOf(w, m, key).Some? ==>
        var a := ActOf(w, m, key).value;
        (a.StopCall? ==> !EnableAhead(re, l)) && (a.SpawnClient? ==> Running(l))
  {
  }

  lemma SettledMove(re: Regex, w: World, m: Move, v: World, others: set<nat>)
    requires AllSettled(re, w, others) && CalmStop(re, w, m) && Step(re, w, m) == Some(v)
    ensures AllSettled(re, v, others)
  {
    PlacedMove(re, w, m, v);
    forall k | k in v.slots && k !in others ensures Settled(re, v.slots[k].load) {
      SlotMove(re, w, m, v, k);
      if !IsFresh(w, m, k) && ActOf(w, m, k).Some? {
        CalmAct(re, w, m, v, k);
        SettledAct(re, w.slots[k].load, ActOf(w, m, k).value, v.slots[k].load);
      }
    }
    NextKeyGrows(re, w, m, v);
  }

  lemma {:induction false} SettledRun(re: Regex, w: World, moves: seq<Move>, v: World, others: set<nat>)
    requires AllSettled(re, w, others) && Run(re, w, moves) == Some(v) && CalmRun(re, w, moves)
    ensures AllSettled(re, v, others)
    decreases |moves|
  {
    if moves != [] {
      var u := Step(re, w, moves[0]).value;
      SettledMove(re, w, moves[0], u, others);
      SettledRun(re, u, moves[1..], v, others);
    }
  }

  /** From any leftovers; the settled ones stay so. */
  lemma SettledFrom(re: Regex, w: World, moves: seq<Move>, v: World, k: nat)
    requires Start0(w) && Run(re, w, moves) == Some(v) && CalmRun(re, w, moves) && k in v.slots
    requires k in w.slots ==> Settled(re, w.slots[k].load)
    ensures Placed(v) && Settled(re, v.slots[k].load)
  {
    var others := set j | j in w.slots && !Settled(re, w.slots[j].load);
    SettledRun(re, w, moves, v, others);
  }

  /**
   If every `stop_rpc` is called at a moment when no `enable_filtering` can follow, a module is
   ejected only with both hooks off, so no detour is left pointing into unmapped code. The exception
   is a module whose `stop_rpc` panicked. Of a module that was there to begin with it is asked that
   it was settled then. Module `EjectRace` shows that every stop that is not calm can go wrong.
   */
  lemma EjectedOnlyWithHooksOff(re: Regex, w: World, moves: seq<Move>, v: World)
    requires Start0(w) && Run(re, w, moves) == Some(v) && CalmRun(re, w, moves)
    requires v.host.Up? && (v.host.pc.ClearEject? || v.host.pc.Eject?) && v.host.pc.key in v.slots
    requires v.host.pc.key in w.slots ==> Settled(re, w.slots[v.host.pc.key].load)
    ensures var l := v.slots[v.host.pc.key].load;
      l.poisoned || (l.detours.BothOff() && !l.thread.Alive?)
  {
    SettledFrom(re, w, moves, v, v.host.pc.key);
  }

  /**
   Once `stop` is done, wherever `run` was dropped, Spotify is unfiltered: every module the host
   injected last has both hooks off, unless its `stop_rpc` panicked.
   */
  lemma StoppedHostLeavesHooksOff(re: Regex, w: World, moves: seq<Move>, v: World, k: nat)
    requires Start0(w) && (forall key :: key in w.slots ==> Tended(w.slots[key].load))
    requires Run(re, w, moves) == Some(v) && NoLookupFailure(moves) && CalmRun(re, w, moves)
    requires v.host.Up? && v.host.pc == Stopped && k in v.slots && v.slots[k].owner == v.host.id
    requires k in w.slots ==> Settled(re, w.slots[k].load)
    ensures var l := v.slots[k].load;
      RpcStopped(l) && (l.poisoned || (l.detours.BothOff() && !l.thread.Alive?))
  {
    StoppedHostLeavesNoServer(re, w, moves, v, k);
    SettledFrom(re, w, moves, v, k);
  }
}
