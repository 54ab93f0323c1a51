/**
 Many host instances and the singleton mutex: the branch of `main` that takes it, the polling
 successor of an update, and the end of `run`, as in burnt-sushi/src/main.rs and `restart` in
 burnt-sushi/src/provisioning/update.rs. Each instance takes the mutex on its main thread, so an
 instance's number stands for that thread. Instances that ignore the singleton are left out.
 */
module Singleton {
  import opened Wrappers
  import NamedMutex

  type Kernel = NamedMutex.Kernel

  // ---------------------------------------------------------------- one instance

  /** What one `try_lock` returned. */
  datatype Try = Locked | Held | Error

  datatype Entry = Enter | AlreadyRunning | LockFailed | StillPolling

  /**
   The guard decision of `main` over the results of successive `try_lock` calls; `StillPolling`
   when they run out while it waits for its predecessor.
   */
  method SingletonGuard(polls: seq<Try>, waits: bool) returns (r: Entry, used: nat)
    requires polls != []
    ensures 1 <= used <= |polls|
    ensures forall i :: 0 <= i < used - 1 ==> polls[i] == Held
    ensures !waits ==> used == 1
    ensures r == Enter <==> polls[used - 1] == Locked
    ensures r == LockFailed <==> polls[used - 1] == Error
    ensures r == AlreadyRunning <==> polls[used - 1] == Held && !waits
    ensures r == StillPolling ==> used == |polls|
  {
    var guard := polls[0];
    used := 1;
    if waits {
      while guard == Held
        invariant 1 <= used <= |polls| && guard == polls[used - 1]
        invariant forall i :: 0 <= i < used - 1 ==> polls[i] == Held
        decreases |polls| - used
      {
        if used == |polls| {
          return StillPolling, used;
        }
        guard := polls[used];
        used := used + 1;
      }
    }
    match guard {
      case Locked => r := Enter;
      case Held => r := AlreadyRunning;
      case Error => r := LockFailed;
    }
  }

  // ---------------------------------------------------------------- many instances

  /** `Returned` is past `app.stop()` and still holds the guard; `Dead` ended in any other way than by returning. */
  datatype Pc = Starting | Polling | Running | Stopping | Returned | Ended | Refused | Dead

  datatype Instance = Instance(waits: bool, predecessor: Option<nat>, pc: Pc)

  datatype World = World(kernel: Kernel, instances: map<nat, Instance>, next: nat)

  const EMPTY := World(NamedMutex.FREE, map[], 0)

  datatype Action =
    | Launch(waits: bool)
    | TryLock(id: nat)
    | TryFails(id: nat)
    | RestartAs(id: nat)
    | Quit(id: nat)
    | StopDone(id: nat)
    | Leave(id: nat)
    | Dies(id: nat)

  function At(w: World, id: nat, pc: Pc): World
    requires id in w.instances
  {
    w.(instances := w.instances[id := w.instances[id].(pc := pc)])
  }

  function Add(w: World, i: Instance): World {
    w.(instances := w.instances[w.next := i], next := w.next + 1)
  }

  predicate InRun(pc: Pc) {
    pc == Running || pc == Stopping
  }

  predicate Holds(pc: Pc) {
    InRun(pc) || pc == Returned
  }

  predicate Gone(pc: Pc) {
    pc == Ended || pc == Refused || pc == Dead
  }

  function Step(w: World, a: Action): Option<World> {
    match a
    case Launch(waits) => Some(Add(w, Instance(waits, None, Starting)))
    case TryLock(id) =>
      if id !in w.instances || !(w.instances[id].pc == Starting || w.instances[id].pc == Polling) then None
      else
        (match NamedMutex.Acquire(w.kernel, id)
         case Some(k) => Some(At(w, id, Running).(kernel := k))
         case None => Some(At(w, id, if w.instances[id].waits then Polling else Refused)))
    case TryFails(id) =>
      if id in w.instances && (w.instances[id].pc == Starting || w.instances[id].pc == Polling) then
        Some(At(w, id, Refused))
      else None
    case RestartAs(id) =>
      if id in w.instances && InRun(w.instances[id].pc) then Some(Add(w, Instance(true, Some(id), Starting))) else None
    case Quit(id) =>
      if id in w.instances && w.instances[id].pc == Running then Some(At(w, id, Stopping)) else None
    case StopDone(id) =>
      if id in w.instances && w.instances[id].pc == Stopping then Some(At(w, id, Returned)) else None
    case Leave(id) =>
      if id in w.instances && w.instances[id].pc == Returned then
        (match NamedMutex.Release(w.kernel, id)
         case None => None
         case Some(k) => Some(At(w, id, Ended).(kernel := k)))
      else None
    case Dies(id) =>
      if id in w.instances && !Gone(w.instances[id].pc) then
        Some(At(w, id, Dead).(kernel := NamedMutex.ThreadEnds(w.kernel, id)))
      else None
  }

  function Exec(w: World, acts: seq<Action>): Option<World>
    decreases |acts|
  {
    if acts == [] then Some(w)
    else
      match Step(w, acts[0])
      case None => None
      case Some(v) => Exec(v, acts[1..])
  }

  ghost predicate Inv(w: World) {
    && (forall id :: id in w.instances ==> id < w.next)
    && (forall id :: id in w.instances ==> (Holds(w.instances[id].pc) <==> w.kernel.owner == Some(id)))
    && (w.kernel.owner.Some? ==> w.kernel.owner.value in w.instances && w.kernel.count == 1)
    && (forall id :: id in w.instances && w.instances[id].predecessor.Some? ==>
          && w.instances[id].predecessor.value in w.instances
          && w.instances[id].predecessor.value < id
          && w.instances[id].waits
          && var p := w.instances[w.instances[id].predecessor.value].pc;
             Holds(p) || p == Ended || p == Dead)
  }

  /** Moving one instance keeps the invariant if the kernel moves with it. */
  lemma InvAt(w: World, id: nat, pc: Pc, k: Kernel)
    requires Inv(w) && id in w.instances
    requires Holds(w.instances[id].pc) ==> Holds(pc) || pc == Ended || pc == Dead
    requires w.instances[id].pc == Ended || w.instances[id].pc == Dead ==> pc == w.instances[id].pc
    requires if Holds(pc) then
               k.owner == Some(id) && k.count == 1 && (w.kernel.owner.None? || w.kernel.owner == Some(id))
             else if w.kernel.owner == Some(id) then k.owner.None? else k == w.kernel
    ensures Inv(At(w, id, pc).(kernel := k))
  {
  }

  lemma InvAdd(w: World, i: Instance)
    requires Inv(w) && i.pc == Starting
    requires i.predecessor.Some? ==>
      i.waits && i.predecessor.value in w.instances && Holds(w.instances[i.predecessor.value].pc)
    ensures Inv(Add(w, i))
  {
  }

  lemma InvStep(w: World, a: Action, v: World)
    requires Inv(w) && Step(w, a) == Some(v)
    ensures Inv(v)
  {
    match a
    case Launch(waits) => InvAdd(w, Instance(waits, None, Starting));
    case RestartAs(id) => InvAdd(w, Instance(true, Some(id), Starting));
    case TryLock(id) =>
      assert v == At(w, id, v.instances[id].pc).(kernel := v.kernel);
      InvAt(w, id, v.instances[id].pc, v.kernel);
    case TryFails(id) => InvAt(w, id, Refused, w.kernel);
    case Quit(id) => InvAt(w, id, Stopping, w.kernel);
    case StopDone(id) => InvAt(w, id, Returned, w.kernel);
    case Leave(id) => InvAt(w, id, Ended, v.kernel);
    case Dies(id) => InvAt(w, id, Dead, v.kernel);
  }

  lemma {:induction false} InvExec(w: World, acts: seq<Action>, v: World)
    requires Inv(w) && Exec(w, acts) == Some(v)
    ensures Inv(v)
    decreases |acts|
  {
    if acts != [] {
      var u := Step(w, acts[0]).value;
      InvStep(w, acts[0], u);
      InvExec(u, acts[1..], v);
    }
  }

  /** At most one instance is inside `run`, however many there are and however they end. */
  lemma AtMostOneRuns(acts: seq<Action>, w: World, i: nat, j: nat)
    requires Exec(EMPTY, acts) == Some(w)
    requires i in w.instances && j in w.instances && Holds(w.instances[i].pc) && Holds(w.instances[j].pc)
    ensures i == j
  {
    InvExec(EMPTY, acts, w);
  }

  /** A successor is inside `run` only after its predecessor came back from `run`, `stop` included, or died. */
  lemma SuccessorRunsAfterPredecessor(acts: seq<Action>, w: World, i: nat)
    requires Exec(EMPTY, acts) == Some(w)
    requires i in w.instances && Holds(w.instances[i].pc) && w.instances[i].predecessor.Some?
    ensures var p := w.instances[i].predecessor.value;
      p in w.instances && p < i && (w.instances[p].pc == Ended || w.instances[p].pc == Dead)
  {
    InvExec(EMPTY, acts, w);
  }

  /** An instance that ended well has left with the guard given back, and before that finished `stop`. */
  lemma EndedHasStopped(acts: seq<Action>, w: World, id: nat)
    requires Exec(EMPTY, acts) == Some(w) && id in w.instances && w.instances[id].pc == Ended
    ensures exists i, j :: 0 <= i < j < |acts| && acts[i] == StopDone(id) && acts[j] == Leave(id)
  {
    var j := LeftAt(EMPTY, acts, w, id);
    var u := After(EMPTY, acts, j, w);
    var _ := StoppedAt(EMPTY, acts[..j], u, id);
  }

  predicate IsAt(w: World, id: nat, pc: Pc) {
    id in w.instances && w.instances[id].pc == pc
  }

  /** The state after the first `j` actions of a run. */
  lemma {:induction false} After(v: World, acts: seq<Action>, j: nat, w: World) returns (u: World)
    requires Exec(v, acts) == Some(w) && j <= |acts|
    ensures Exec(v, acts[..j]) == Some(u)
    ensures j < |acts| ==> Step(u, acts[j]).Some?
    decreases j
  {
    if j == 0 {
      u := v;
    } else {
      u := After(Step(v, acts[0]).value, acts[1..], j - 1, w);
      assert acts[..j][1..] == acts[1..][..j - 1];
    }
  }

  lemma {:induction false} LeftAt(v: World, acts: seq<Action>, w: World, id: nat) returns (j: nat)
    requires Exec(v, acts) == Some(w) && IsAt(w, id, Ended) && !IsAt(v, id, Ended)
    ensures j < |acts| && acts[j] == Leave(id)
    decreases |acts|
  {
    var u := Step(v, acts[0]).value;
    if IsAt(u, id, Ended) {
      j := 0;
    } else {
      j := LeftAt(u, acts[1..], w, id);
      j := j + 1;
    }
  }

  lemma {:induction false} StoppedAt(v: World, acts: seq<Action>, w: World, id: nat) returns (i: nat)
    requires Exec(v, acts) == Some(w) && IsAt(w, id, Returned) && !IsAt(v, id, Returned)
    ensures i < |acts| && acts[i] == StopDone(id)
    decreases |acts|
  {
    var u := Step(v, acts[0]).value;
    if IsAt(u, id, Returned) {
      i := 0;
    } else {
      i := StoppedAt(u, acts[1..], w, id);
      i := i + 1;
    }
  }

  /** The successor does get in: once nobody holds the mutex, its next poll takes it. */
  lemma FreeMutexIsTaken(acts: seq<Action>, w: World, id: nat)
    requires Exec(EMPTY, acts) == Some(w) && id in w.instances
    requires w.instances[id].pc == Starting || w.instances[id].pc == Polling
    ensures (forall j :: j in w.instances ==> !Holds(w.instances[j].pc))
       <==> Step(w, TryLock(id)).value.instances[id].pc == Running
  {
    InvExec(EMPTY, acts, w);
  }
}
