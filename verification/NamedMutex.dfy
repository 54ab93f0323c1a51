/**
 The named mutex of burnt-sushi/src/named_mutex.rs over a re-entrant operating-system mutex that
 is abandoned when its owner ends. `force_unlock` is not part of this model.
 */
module NamedMutex {
  import opened Wrappers

  /** The kernel object: owning thread, how often it holds it, and whether an owner ended holding it. */
  datatype Kernel = Kernel(owner: Option<nat>, count: nat, abandoned: bool)

  const FREE := Kernel(None, 0, false)

  /** `WaitForSingleObject` by `thread`: `None` while another thread owns the mutex. */
  function Acquire(k: Kernel, thread: nat): Option<Kernel> {
    if k.owner.None? then Some(Kernel(Some(thread), 1, false))
    else if k.owner.value == thread then Some(k.(count := k.count + 1))
    else None
  }

  /** `ReleaseMutex` by `thread`: `None` when it does not own the mutex. */
  function Release(k: Kernel, thread: nat): Option<Kernel> {
    if k.owner != Some(thread) || k.count == 0 then None
    else if k.count == 1 then Some(Kernel(None, 0, k.abandoned))
    else Some(k.(count := k.count - 1))
  }

  function ThreadEnds(k: Kernel, thread: nat): Kernel {
    if k.owner == Some(thread) then Kernel(None, 0, true) else k
  }

  // ---------------------------------------------------------------- the objects

  class KernelMutex {
    var k: Kernel

    constructor ()
      ensures k == FREE
    {
      k := FREE;
    }

    /** `fails` is a system error other than a timeout. */
    method Wait(thread: nat, fails: bool) returns (signalled: bool)
      modifies this
      ensures signalled <==> !fails && Acquire(old(k), thread).Some?
      ensures k == if signalled then Acquire(old(k), thread).value else old(k)
    {
      var a := Acquire(k, thread);
      signalled := !fails && a.Some?;
      if signalled {
        k := a.value;
      }
    }

    method ReleaseMutex(thread: nat) returns (ok: bool)
      modifies this
      ensures ok <==> Release(old(k), thread).Some?
      ensures k == if ok then Release(old(k), thread).value else old(k)
    {
      var r := Release(k, thread);
      ok := r.Some?;
      if ok {
        k := r.value;
      }
    }
  }

  /** A guard, held on the thread that made it; a null handle means already released. */
  class Guard {
    var handle: KernelMutex?
    const thread: nat

    constructor (handle: KernelMutex, thread: nat)
      ensures this.handle == handle && this.thread == thread
    {
      this.handle := handle;
      this.thread := thread;
    }
  }

  /** `Unavailable` is the timeout of `try_lock`, and that `lock` is still waiting. */
  datatype Locking = Locked(guard: Guard) | Unavailable | Error

  class Mutex {
    const handle: KernelMutex
    ghost var guards: set<Guard>

    /** The recursion count is the number of live guards, and they all belong to the owner. */
    ghost predicate Valid()
      reads this, handle, guards
    {
      && handle.k.count == |guards|
      && (handle.k.owner.None? <==> guards == {})
      && (forall g :: g in guards ==> g.handle == handle && handle.k.owner == Some(g.thread))
    }

    constructor ()
      ensures Valid() && fresh(handle) && guards == {}
    {
      handle := new KernelMutex();
      guards := {};
    }

    method TryLock(thread: nat, fails: bool) returns (r: Locking)
      requires Valid()
      modifies this, handle
      ensures Valid()
      ensures r.Error? <==> fails
      ensures r.Unavailable? <==> !fails && old(handle.k.owner).Some? && old(handle.k.owner) != Some(thread)
      ensures !r.Locked? ==> guards == old(guards) && handle.k == old(handle.k)
      ensures r.Locked? ==>
        && fresh(r.guard) && r.guard.thread == thread && guards == old(guards) + {r.guard}
        && handle.k.count == old(handle.k.count) + 1
    {
      var signalled := handle.Wait(thread, fails);
      if !signalled {
        return if fails then Error else Unavailable;
      }
      var g := new Guard(handle, thread);
      guards := guards + {g};
      r := Locked(g);
    }

    /** The state of an infinite wait: it is over once the mutex is free or already owned. */
    method Lock(thread: nat, fails: bool) returns (r: Locking)
      requires Valid()
      modifies this, handle
      ensures Valid()
      ensures r.Error? <==> fails
      ensures r.Locked? <==> !fails && (old(handle.k.owner).None? || old(handle.k.owner) == Some(thread))
      ensures !r.Locked? ==> guards == old(guards) && handle.k == old(handle.k)
      ensures r.Locked? ==>
        && fresh(r.guard) && r.guard.thread == thread && guards == old(guards) + {r.guard}
        && handle.k.count == old(handle.k.count) + 1
    {
      var signalled := handle.Wait(thread, fails);
      if !signalled {
        return if fails then Error else Unavailable;
      }
      var g := new Guard(handle, thread);
      guards := guards + {g};
      r := Locked(g);
    }

    /** `Drop`: releases unless the handle was nulled. */
    method Drop(g: Guard)
      requires g in guards ==> Valid()
      requires g !in guards ==> g.handle == null
      modifies this, handle
      ensures old(g in guards) ==> Valid() && guards == old(guards) - {g} && handle.k.count == old(handle.k.count) - 1
      ensures old(g !in guards) ==> guards == old(guards) && handle.k == old(handle.k)
    {
      if g.handle != null {
        var ok := handle.ReleaseMutex(g.thread);
        assert ok;
        guards := guards - {g};
      }
    }

    /** `unlock` takes the guard, releases it, nulls its handle, and the guard is then dropped without effect. */
    method Unlock(g: Guard) returns (ok: bool)
      requires Valid() && g in guards
      modifies this, handle, g
      ensures ok && Valid() && g.handle == null
      ensures guards == old(guards) - {g} && handle.k.count == old(handle.k.count) - 1
    {
      ok := handle.ReleaseMutex(g.thread);
      if ok {
        g.handle := null;
        guards := guards - {g};
      }
      Drop(g);
    }
  }

  // ---------------------------------------------------------------- any sequence of calls by any threads

  datatype Op =
    | TryLockBy(thread: nat)
    | LockBy(thread: nat)
    | UnlockGuard(guard: nat)
    | DropGuard(guard: nat)
    | EndThread(thread: nat)

  /** `live` maps each guard in existence to its thread; `released` lists the guards whose release went through. */
  datatype State = State(kernel: Kernel, live: map<nat, nat>, made: nat, released: seq<nat>, refused: nat)

  const INITIAL := State(FREE, map[], 0, [], 0)

  function MakeGuard(s: State, k: Kernel, thread: nat): State {
    s.(kernel := k, live := s.live[s.made := thread], made := s.made + 1)
  }

  function Without(m: map<nat, nat>, g: nat): map<nat, nat> {
    map h | h in m && h != g :: m[h]
  }

  function Give(s: State, guard: nat): State
    requires guard in s.live
  {
    var rest := Without(s.live, guard);
    match Release(s.kernel, s.live[guard])
    case None => s.(live := rest, refused := s.refused + 1)
    case Some(k) => s.(kernel := k, live := rest, released := s.released + [guard])
  }

  function Step(s: State, op: Op): Option<State> {
    match op
    case TryLockBy(t) =>
      (match Acquire(s.kernel, t)
       case None => Some(s)
       case Some(k) => Some(MakeGuard(s, k, t)))
    case LockBy(t) =>
      (match Acquire(s.kernel, t)
       case None => None
       case Some(k) => Some(MakeGuard(s, k, t)))
    case UnlockGuard(g) => if g in s.live then Some(Give(s, g)) else None
    case DropGuard(g) => if g in s.live then Some(Give(s, g)) else None
    case EndThread(t) =>
      Some(s.(kernel := ThreadEnds(s.kernel, t), live := map g | g in s.live && s.live[g] != t :: s.live[g]))
  }

  function Exec(s: State, ops: seq<Op>): Option<State>
    decreases |ops|
  {
    if ops == [] then Some(s)
    else
      match Step(s, ops[0])
      case None => None
      case Some(t) => Exec(t, ops[1..])
  }

  ghost predicate Conserved(s: State) {
    && s.kernel.count == |s.live|
    && (s.kernel.owner.None? <==> s.live == map[])
    && (forall g :: g in s.live ==> s.kernel.owner == Some(s.live[g]) && g < s.made)
    && (forall i :: 0 <= i < |s.released| ==> s.released[i] < s.made && s.released[i] !in s.live)
    && (forall i, j :: 0 <= i < j < |s.released| ==> s.released[i] != s.released[j])
    && s.refused == 0
  }

  lemma WithoutOne(m: map<nat, nat>, g: nat)
    requires g in m
    ensures |Without(m, g)| == |m| - 1
  {
    assert Without(m, g).Keys == m.Keys - {g};
    assert |Without(m, g).Keys| == |m.Keys| - 1;
  }

  lemma WithOne(m: map<nat, nat>, g: nat, t: nat)
    requires g !in m
    ensures |m[g := t]| == |m| + 1
  {
  }

  lemma GiveConserves(s: State, g: nat)
    requires Conserved(s) && g in s.live
    ensures Conserved(Give(s, g))
  {
    WithoutOne(s.live, g);
    var t := Give(s, g);
    if t.live == map[] {
      assert |t.live| == 0;
    } else {
      var h :| h in t.live;
      assert |t.live.Keys| >= 1;
    }
  }

  lemma StepConserves(s: State, op: Op, t: State)
    requires Conserved(s) && Step(s, op) == Some(t)
    ensures Conserved(t)
  {
    match op
    case TryLockBy(_) => WithOne(s.live, s.made, op.thread);
    case LockBy(_) => WithOne(s.live, s.made, op.thread);
    case UnlockGuard(g) => GiveConserves(s, g);
    case DropGuard(g) => GiveConserves(s, g);
    case EndThread(x) =>
      if s.kernel.owner == Some(x) {
        assert t.live == map[];
      } else {
        assert t.live == s.live;
      }
  }

  lemma {:induction false} ExecConserves(s: State, ops: seq<Op>, t: State)
    requires Conserved(s) && Exec(s, ops) == Some(t)
    ensures Conserved(t)
    decreases |ops|
  {
    if ops != [] {
      var u := Step(s, ops[0]).value;
      StepConserves(s, ops[0], u);
      ExecConserves(u, ops[1..], t);
    }
  }

  /**
   Whatever threads lock, unlock, drop or end: the recursion count is the number of live guards, the
   live guards all belong to the owner, no release is ever refused, and no guard releases twice.
   */
  lemma MutexConservation(ops: seq<Op>, t: State)
    requires Exec(INITIAL, ops) == Some(t)
    ensures t.kernel.count == |t.live| && t.refused == 0
    ensures forall g :: g in t.live ==> t.kernel.owner == Some(t.live[g])
    ensures forall g, h :: g in t.live && h in t.live ==> t.live[g] == t.live[h]
    ensures forall i, j :: 0 <= i < j < |t.released| ==> t.released[i] != t.released[j]
    ensures forall i :: 0 <= i < |t.released| ==> t.released[i] !in t.live
  {
    ExecConserves(INITIAL, ops, t);
  }
}
