/**
 When `stop_rpc` leaves the hooks off. It disables the detours before the RPC thread is told to
 stop, so a setup request still on its way can turn them on again behind its back.
 */
module LoadStop {
  import opened Wrappers
  import opened Rules
  import opened BlockerLoad
  import opened LoadSafety
  import opened LoadLink

  predicate IsServed(c: Client, call: nat) {
    c.next > call || (c.next == call && c.mode == Replied)
  }

  /** What the server still has to accept before the client may send `enable_filtering`. */
  predicate SetupAcceptable(re: Regex, c: Client) {
    && (IsServed(c, 1) || (|c.cfg.allow| < LIST_LIMIT && AllValid(re, c.cfg.allow)))
    && (IsServed(c, 2) || (|c.cfg.deny| < LIST_LIMIT && AllValid(re, c.cfg.deny)))
  }

  /** `enable_filtering` is being run, has been sent, or will be sent by a client still setting up. */
  predicate EnableAhead(re: Regex, l: Load) {
    && l.thread.Alive? && HasClient(l)
    && var c := l.client.value;
    && c.mode != Broken && !IsServed(c, ENABLE_CALL)
    && (c.mode == Executing
        || (c.mode == InFlight && c.next == ENABLE_CALL)
        || (c.alive && SetupAcceptable(re, c)))
  }

  /** The host is inside the call, so it neither starts a server nor spawns a client. */
  ghost predicate HostWaits(acts: seq<Action>) {
    forall a :: a in acts ==> !a.StartCall? && !a.SpawnClient?
  }

  /** Neither the host nor its end has a part in it. */
  ghost predicate OwnSteps(acts: seq<Action>) {
    forall a :: a in acts ==> !a.StartCall? && !a.SpawnClient? && !a.StopCall? && !a.ClientDies?
  }

  /** From the moment `stop_rpc` has taken `RPC_STATE` to its normal return. */
  ghost predicate StopRun(re: Regex, l: Load, acts: seq<Action>, m: Load) {
    && l.call == DisablingGai && !l.poisoned
    && HostWaits(acts)
    && acts != [] && acts[|acts| - 1] == StopReturn
    && Exec(re, l, acts) == Some(m)
    && !m.poisoned
  }

  // ---------------------------------------------------------------- nothing ahead: hooks stay off

  /** How far `stop_rpc` got, and which detours it has turned off by then. */
  ghost predicate Phase(l: Load) {
    && l.call != Starting && !l.rpcState
    && (l.call == DisablingCef ==> !l.detours.gai.IsOn())
    && (l.call == Signalling || l.call == Joining ==> l.detours.BothOff())
    && (l.call == NoCall && !l.poisoned ==> l.detours.BothOff())
  }

  ghost predicate Quiet(re: Regex, l: Load) {
    Linked(l) && !EnableAhead(re, l) && Phase(l)
  }

  lemma ClientKept(re: Regex, l: Load, a: Action, m: Load)
    requires Next(re, l, a) == Some(m) && !a.StartCall? && !a.SpawnClient? && !MovesClient(a)
    ensures m.client == l.client && (m.thread.Alive? ==> l.thread.Alive?)
  {
    NextDelta(re, l, a, m);
  }

  lemma NothingAheadServed(re: Regex, l: Load, m: Load)
    requires Linked(l) && !EnableAhead(re, l) && NextDispatch(re, l) == Some(m)
    ensures !EnableAhead(re, m)
  {
  }

  lemma EnablingIsAhead(re: Regex, l: Load, ok: bool)
    requires Linked(l) && NextEnableStage(l, ok).Some?
    ensures EnableAhead(re, l)
  {
  }

  lemma NothingAheadSent(re: Regex, l: Load, a: Action, m: Load)
    requires !EnableAhead(re, l) && IsClient(a) && NextClient(l, a) == Some(m)
    ensures !EnableAhead(re, m)
  {
  }

  lemma NothingAheadStays(re: Regex, l: Load, a: Action, m: Load)
    requires Linked(l) && !EnableAhead(re, l)
    requires Next(re, l, a) == Some(m) && !a.StartCall? && !a.SpawnClient?
    ensures !EnableAhead(re, m)
  {
    if !MovesClient(a) {
      ClientKept(re, l, a, m);
    } else if a.Dispatch? {
      NothingAheadServed(re, l, m);
    } else if a.EnableStage? {
      EnablingIsAhead(re, l, a.ok);
    } else {
      NothingAheadSent(re, l, a, m);
    }
  }

  lemma PhaseRemote(l: Load, a: Action, m: Load)
    requires Phase(l) && IsRemote(a) && NextRemote(l, a) == Some(m) && !a.StartCall?
    ensures Phase(m)
  {
  }

  lemma PhaseStep(re: Regex, l: Load, a: Action, m: Load)
    requires Phase(l) && Next(re, l, a) == Some(m)
    requires !a.StartCall? && !a.EnableStage?
    ensures Phase(m)
  {
    if IsRemote(a) {
      PhaseRemote(l, a, m);
    } else {
      NextDelta(re, l, a, m);
    }
  }

  lemma QuietStep(re: Regex, l: Load, a: Action, m: Load)
    requires Quiet(re, l) && Next(re, l, a) == Some(m) && !a.StartCall? && !a.SpawnClient?
    ensures Quiet(re, m)
  {
    LinkedNext(re, l, a, m);
    NothingAheadStays(re, l, a, m);
    PhaseStep(re, l, a, m);
  }

  lemma {:induction false} QuietExec(re: Regex, l: Load, acts: seq<Action>, m: Load)
    requires Quiet(re, l) && HostWaits(acts) && Exec(re, l, acts) == Some(m)
    ensures Quiet(re, m)
    decreases |acts|
  {
    if acts != [] {
      var k := Next(re, l, acts[0]).value;
      QuietStep(re, l, acts[0], k);
      QuietExec(re, k, acts[1..], m);
    }
  }

  // ---------------------------------------------------------------- enable ahead: a run that ends with hooks on

  /** `stop_rpc` has disabled the detours and has yet to send the disconnect signal. */
  ghost predicate BeforeSignal(l: Load) {
    && Linked(l) && l.call == Signalling && !l.poisoned && !l.rpcState
    && l.thread.Alive? && !l.thread.signalled
  }

  function Rank(l: Load): nat
    requires l.client.Some?
  {
    match l.client.value.mode
    case Connecting => 9
    case Idle => 8
    case InFlight => if l.thread.Alive? && l.thread.accepted then 6 else 7
    case Executing =>
      if l.thread.Alive? && l.thread.work.Enabling? && l.thread.work.stage <= 4 then 5 - l.thread.work.stage else 0
    case Replied => 0
    case Broken => 0
  }

  /** `enable_filtering` has been served and has turned the second hook on. */
  ghost predicate EnableDone(l: Load) {
    && l.detours.cef.IsOn() && l.thread.Alive? && l.thread.work == Waiting
    && l.client.Some? && l.client.value.mode == Replied && l.client.value.next == ENABLE_CALL
  }

  /** The next action on the way to the hooks being on. */
  function Toward(l: Load): Action
    requires l.client.Some?
  {
    match l.client.value.mode
    case Connecting => ClientConnect
    case Idle => ClientSend
    case InFlight => if l.thread.Alive? && l.thread.accepted then Dispatch else Accept
    case Executing => EnableStage(true)
    case Replied => ClientReply
    case Broken => ClientLost
  }

  /** One action closer, with `stop_rpc` where it was. */
  ghost predicate Nearer(l: Load, m: Load) {
    && l.client.Some? && m.client.Some? && m.client.value.alive == l.client.value.alive
    && l.client.value.next <= ENABLE_CALL
    && (m.client.value.next > l.client.value.next || (m.client.value.next == l.client.value.next && Rank(m) < Rank(l)))
    && m.thread.Alive? && !m.thread.signalled
    && m.call == l.call && m.poisoned == l.poisoned && m.rpcState == l.rpcState
  }

  lemma TowardClient(re: Regex, l: Load) returns (m: Load)
    requires BeforeSignal(l) && EnableAhead(re, l)
    requires l.client.value.mode == Connecting || l.client.value.mode == Idle || l.client.value.mode == Replied
    ensures Next(re, l, Toward(l)) == Some(m) && Nearer(l, m) && EnableAhead(re, m)
  {
    match l.client.value.mode {
      case Connecting => m := NextClientConnect(l).value;
      case Idle => m := NextClientSend(l).value;
      case Replied => m := NextClientReply(l).value;
    }
  }

  lemma TowardServer(re: Regex, l: Load) returns (m: Load)
    requires BeforeSignal(l) && EnableAhead(re, l)
    requires l.client.value.mode == InFlight
    ensures Next(re, l, Toward(l)) == Some(m) && Nearer(l, m) && EnableAhead(re, m)
  {
    m := if l.thread.accepted then NextDispatch(re, l).value else NextAccept(l).value;
  }

  lemma TowardHook(re: Regex, l: Load) returns (m: Load)
    requires BeforeSignal(l) && EnableAhead(re, l)
    requires l.client.value.mode == Executing
    ensures Next(re, l, Toward(l)) == Some(m) && Nearer(l, m)
    ensures EnableAhead(re, m) || EnableDone(m)
  {
    m := NextEnableStage(l, true).value;
  }

  /** One more action of a run that ends with a hook on. */
  lemma TowardStep(re: Regex, l: Load) returns (m: Load)
    requires BeforeSignal(l) && EnableAhead(re, l)
    ensures Next(re, l, Toward(l)) == Some(m) && BeforeSignal(m) && Nearer(l, m)
    ensures EnableAhead(re, m) || EnableDone(m)
  {
    match l.client.value.mode {
      case InFlight => m := TowardServer(re, l);
      case Executing => m := TowardHook(re, l);
      case _ => m := TowardClient(re, l);
    }
    LinkedNext(re, l, Toward(l), m);
  }

  lemma {:induction false} Drive(re: Regex, l: Load) returns (acts: seq<Action>, m: Load)
    requires BeforeSignal(l) && EnableAhead(re, l)
    ensures Exec(re, l, acts) == Some(m) && OwnSteps(acts) && BeforeSignal(m) && EnableDone(m)
    ensures m.client.value.alive == l.client.value.alive
    decreases 4 - l.client.value.next, Rank(l)
  {
    var k := TowardStep(re, l);
    if EnableAhead(re, k) {
      var rest;
      rest, m := Drive(re, k);
      acts := [Toward(l)] + rest;
      assert acts[1..] == rest;
    } else {
      acts, m := [Toward(l)], k;
      assert acts[1..] == [];
    }
  }

  lemma {:induction false} ExecConcat(re: Regex, l: Load, a: seq<Action>, m: Load, b: seq<Action>)
    requires Exec(re, l, a) == Some(m)
    ensures Exec(re, l, a + b) == Exec(re, m, b)
    decreases |a|
  {
    if a == [] {
      assert a + b == b;
    } else {
      assert (a + b)[1..] == a[1..] + b;
      ExecConcat(re, Next(re, l, a[0]).value, a[1..], m, b);
    }
  }

  lemma ExecOne(re: Regex, l: Load, a: Action, m: Load)
    requires Next(re, l, a) == Some(m)
    ensures Exec(re, l, [a]) == Some(m)
  {
  }

  lemma ExecSnoc(re: Regex, l: Load, acts: seq<Action>, m: Load, a: Action, n: Load)
    requires Exec(re, l, acts) == Some(m) && Next(re, m, a) == Some(n)
    ensures Exec(re, l, acts + [a]) == Some(n)
  {
    ExecConcat(re, l, acts, m, [a]);
    ExecOne(re, m, a, n);
  }

  /** `stop_rpc` up to the disconnect signal, both steps succeeding. */
  lemma StopToSignal(re: Regex, l: Load) returns (acts: seq<Action>, m: Load)
    requires Linked(l) && l.call == DisablingGai && !l.poisoned && !l.rpcState && EnableAhead(re, l)
    ensures Exec(re, l, acts) == Some(m) && OwnSteps(acts)
    ensures BeforeSignal(m) && EnableAhead(re, m) && m.client == l.client
  {
    var k := NextStopDisable(l, true).value;
    LinkedNext(re, l, StopDisable(true), k);
    ExecOne(re, l, StopDisable(true), k);
    m := NextStopDisable(k, true).value;
    LinkedNext(re, k, StopDisable(true), m);
    ExecSnoc(re, l, [StopDisable(true)], k, StopDisable(true), m);
    acts := [StopDisable(true)] + [StopDisable(true)];
  }

  /** The signal is sent, the thread ends and `stop_rpc` returns. */
  lemma SignalToReturn(re: Regex, l: Load) returns (m: Load)
    requires BeforeSignal(l) && EnableDone(l)
    ensures Exec(re, l, [StopSignal] + [ThreadExit] + [StopReturn]) == Some(m)
    ensures m == l.(call := NoCall, thread := Exited(false), gens := m.gens) && |m.gens| == |l.gens|
  {
    var l1 := NextStopSignal(l).value;
    ExecOne(re, l, StopSignal, l1);
    var l2 := NextThreadExit(l1).value;
    ExecSnoc(re, l, [StopSignal], l1, ThreadExit, l2);
    m := NextStopReturn(l2).value;
    ExecSnoc(re, l, [StopSignal] + [ThreadExit], l2, StopReturn, m);
  }

  /**
   The requests are served after the detours have been disabled and before the disconnect signal,
   while the thread of `stop_rpc` is held up between the two.
   */
  lemma RaceRun(re: Regex, l: Load) returns (acts: seq<Action>, m: Load)
    requires Linked(l) && l.call == DisablingGai && !l.poisoned && !l.rpcState && EnableAhead(re, l)
    ensures StopRun(re, l, acts, m) && OwnSteps(acts)
    ensures m.detours.cef.IsOn() && m.thread == Exited(false) && !m.rpcState && m.call == NoCall
    ensures m.client.Some? && m.client.value.mode == Replied && m.client.value.next == ENABLE_CALL
    ensures m.client.value.alive == l.client.value.alive
  {
    var first, l1 := StopToSignal(re, l);
    var mid, l2 := Drive(re, l1);
    ExecConcat(re, l, first, l1, mid);
    m := SignalToReturn(re, l2);
    ExecConcat(re, l, first + mid, l2, [StopSignal] + [ThreadExit] + [StopReturn]);
    acts := first + mid + ([StopSignal] + [ThreadExit] + [StopReturn]);
  }

  /**
   `stop_rpc` can return with a hook enabled exactly when, as it starts, an `enable_filtering`
   request is being served, is under way, or can still come from a client whose setup would be
   accepted.
   */
  lemma StopLeavesHookOnIff(re: Regex, l: Load)
    requires Linked(l) && l.call == DisablingGai && !l.poisoned && !l.rpcState
    ensures EnableAhead(re, l) <==> exists acts, m :: StopRun(re, l, acts, m) && !m.detours.BothOff()
  {
    if EnableAhead(re, l) {
      var acts, m := RaceRun(re, l);
    } else {
      forall acts, m | StopRun(re, l, acts, m) ensures m.detours.BothOff() {
        QuietExec(re, l, acts, m);
        LastReturns(re, l, acts, m);
      }
    }
  }

  lemma {:induction false} LastReturns(re: Regex, l: Load, acts: seq<Action>, m: Load)
    requires acts != [] && acts[|acts| - 1] == StopReturn && Exec(re, l, acts) == Some(m)
    ensures m.call == NoCall
    decreases |acts|
  {
    var k := Next(re, l, acts[0]).value;
    if |acts| == 1 {
      assert acts[1..] == [];
    } else {
      assert acts[1..][|acts| - 2] == StopReturn;
      LastReturns(re, k, acts[1..], m);
    }
  }

  // ---------------------------------------------------------------- after the thread has been joined

  /** With no RPC thread, hooks only ever turn off until `start_rpc` makes a new one. */
  lemma {:induction false} JoinedStaysOff(re: Regex, l: Load, acts: seq<Action>, m: Load)
    requires !l.thread.Alive? && (forall a :: a in acts ==> !a.StartCall?)
    requires Exec(re, l, acts) == Some(m)
    ensures !m.thread.Alive?
    ensures m.detours.gai.IsOn() ==> l.detours.gai.IsOn()
    ensures m.detours.cef.IsOn() ==> l.detours.cef.IsOn()
    decreases |acts|
  {
    if acts != [] {
      var k := Next(re, l, acts[0]).value;
      NextDelta(re, l, acts[0], k);
      JoinedStaysOff(re, k, acts[1..], m);
    }
  }

  /** Whatever else interleaves, hooks that are off stay off unless `enable` runs. */
  lemma {:induction false} OffUnlessEnabled(re: Regex, l: Load, acts: seq<Action>, m: Load)
    requires l.detours.BothOff() && (forall a :: a in acts ==> !a.EnableStage?)
    requires Exec(re, l, acts) == Some(m)
    ensures m.detours.BothOff()
    decreases |acts|
  {
    if acts != [] {
      var k := Next(re, l, acts[0]).value;
      NextDelta(re, l, acts[0], k);
      OffUnlessEnabled(re, k, acts[1..], m);
    }
  }
}
