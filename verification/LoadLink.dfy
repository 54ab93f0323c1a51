/**
 What every interleaving keeps inside a load, however many servers and clients it has had: who is
 at work on which request.
 */
module LoadLink {
  import opened Wrappers
  import opened Rules
  import opened BlockerLoad
  import opened LoadSafety

  ghost predicate ClientLinked(l: Load, c: Client) {
    && c.gen < |l.gens|
    && (c.mode == InFlight ==>
          && c.next < SETUP_CALLS
          && (c.next == 1 ==> |c.cfg.allow| < LIST_LIMIT)
          && (c.next == 2 ==> |c.cfg.deny| < LIST_LIMIT))
    && (c.mode == Executing ==> HasClient(l) && c.next == ENABLE_CALL && l.thread.Alive? && l.thread.work.Enabling?)
    && (c.mode == Replied ==> c.next < SETUP_CALLS)
    && (c.mode == Broken ==> c.next < SETUP_CALLS)
  }

  /** The RPC thread is inside `enable`, at a stage that follows from the detours. */
  ghost predicate EnableLinked(l: Load) {
    && HasClient(l) && l.client.value.mode == Executing
    && l.thread.Alive? && l.thread.work.Enabling? && l.thread.work.stage <= 3
    && (l.thread.work.stage >= 1 ==> l.detours.gai.Ready?)
    && (l.thread.work.stage >= 2 ==> l.detours.cef.Ready?)
  }

  ghost predicate Linked(l: Load) {
    && Tended(l) && Serving(l)
    && (l.thread.Alive? ==> l.gens != [])
    && (l.thread.Alive? && l.thread.signalled ==> l.call == Joining || l.poisoned)
    && (l.thread.Alive? && l.thread.work.Enabling? ==> EnableLinked(l))
    && (l.client.Some? ==> ClientLinked(l, l.client.value))
  }

  lemma LinkedRemote(l: Load, a: Action, m: Load)
    requires Linked(l) && IsRemote(a) && NextRemote(l, a) == Some(m)
    ensures Linked(m)
  {
    TendedRemote(l, a, m);
  }

  lemma LinkedClient(l: Load, a: Action, m: Load)
    requires Linked(l) && IsClient(a) && NextClient(l, a) == Some(m)
    ensures Linked(m)
  {
    ClientOnly(l, a, m);
  }

  lemma LinkedSpotify(re: Regex, l: Load, a: Action, m: Load)
    requires Linked(l) && IsSpotify(a) && NextSpotify(re, l, a) == Some(m)
    ensures Linked(m)
  {
  }

  lemma LinkedDispatch(re: Regex, l: Load, m: Load)
    requires Linked(l) && NextDispatch(re, l) == Some(m)
    ensures Linked(m)
  {
  }

  lemma LinkedEnableStage(l: Load, ok: bool, m: Load)
    requires Linked(l) && NextEnableStage(l, ok) == Some(m)
    ensures Linked(m)
  {
  }

  lemma LinkedThread(re: Regex, l: Load, a: Action, m: Load)
    requires Linked(l) && !IsRemote(a) && !IsClient(a) && !IsSpotify(a) && NextThread(re, l, a) == Some(m)
    requires !a.Dispatch? && !a.EnableStage?
    ensures Linked(m)
  {
    ThreadDelta(re, l, a, m);
  }

  /** Every action of every thread keeps the links. */
  lemma LinkedNext(re: Regex, l: Load, a: Action, m: Load)
    requires Linked(l) && Next(re, l, a) == Some(m)
    ensures Linked(m)
  {
    if IsRemote(a) {
      LinkedRemote(l, a, m);
    } else if IsClient(a) {
      LinkedClient(l, a, m);
    } else if IsSpotify(a) {
      LinkedSpotify(re, l, a, m);
    } else {
      match a
      case Dispatch => LinkedDispatch(re, l, m);
      case EnableStage(ok) => LinkedEnableStage(l, ok, m);
      case _ => LinkedThread(re, l, a, m);
    }
  }

  lemma {:induction false} LinkedExec(re: Regex, l: Load, acts: seq<Action>, m: Load)
    requires Linked(l) && Exec(re, l, acts) == Some(m)
    ensures Linked(m)
    decreases |acts|
  {
    if acts != [] {
      var k := Next(re, l, acts[0]).value;
      LinkedNext(re, l, acts[0], k);
      LinkedExec(re, k, acts[1..], m);
    }
  }

  /** Every load a module can get into is linked. */
  lemma EveryLoadIsLinked(re: Regex, acts: seq<Action>, m: Load)
    requires Exec(re, FRESH_LOAD, acts) == Some(m)
    ensures Linked(m)
  {
    LinkedExec(re, FRESH_LOAD, acts, m);
  }
}
