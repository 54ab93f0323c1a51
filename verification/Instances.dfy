/**
 The singleton and the hooks together: many instances of the program, each of which boots a host of
 its own when it gets the mutex. Nothing in a step keeps two hosts from being up at once; that this
 never happens is proved, and with it that all results about one host at a time are about this machine.
 */
module Instances {
  import opened Wrappers
  import opened Rules
  import opened HookProtocol
  import opened HookProtocolSafety
  import opened HookProtocolCancel
  import opened LoadSafety
  import opened HookProtocolSlots
  import Singleton

  /** `world.host` is not used; `hosts` has one for each instance that got the mutex, `ids` its number. */
  datatype Machine = Machine(single: Singleton.World, world: World, hosts: map<nat, Host>, ids: map<nat, nat>)

  /** A step of an instance's `main`, of the host inside its `run`, or of the modules and Spotify. */
  datatype Event = Main(a: Singleton.Action) | Hooks(id: nat, m: Move) | Modules(m: Move)

  predicate IsHostMove(m: Move) {
    !m.Boot? && !m.Crash? && !m.Exit? && !m.Cancel? && !m.Inner? && !m.SpotifyExits?
  }

  /** The world as one host sees it. */
  function SeenBy(j: Machine, host: Host): World {
    j.world.(host := host)
  }

  /** The host of `id` makes a move. */
  function HostStep(re: Regex, j: Machine, id: nat, m: Move): Option<Machine> {
    if id !in j.hosts then None
    else
      match Step(re, SeenBy(j, j.hosts[id]), m)
      case None => None
      case Some(v) => Some(j.(world := v.(host := Down), hosts := j.hosts[id := v.host]))
  }

  function PcOf(s: Singleton.World, id: nat): Singleton.Pc {
    if id in s.instances then s.instances[id].pc else Singleton.Starting
  }

  /** What a step of `main` does to the hosts: entering `run` boots one, leaving it or dying ends it. */
  function MainStep(re: Regex, j: Machine, a: Singleton.Action, s: Singleton.World): Option<Machine> {
    var k := j.(single := s);
    match a
    case TryLock(id) =>
      if PcOf(s, id) != Singleton.Running then Some(k)
      else
        (match Step(re, SeenBy(j, Down), Boot)
         case None => None
         case Some(v) =>
           Some(k.(world := v.(host := Down), hosts := j.hosts[id := v.host], ids := j.ids[id := v.boots])))
    case Quit(id) => HostStep(re, k, id, Cancel)
    case StopDone(id) =>
      if id in j.hosts && j.hosts[id].Up? && j.hosts[id].pc == Stopped then Some(k) else None
    case Leave(id) => HostStep(re, k, id, Exit)
    case Dies(id) => if id in j.hosts && j.hosts[id].Up? then HostStep(re, k, id, Crash) else Some(k)
    case _ => Some(k)
  }

  function Advance(re: Regex, j: Machine, e: Event): Option<Machine> {
    match e
    case Main(a) =>
      (match Singleton.Step(j.single, a)
       case None => None
       case Some(s) => MainStep(re, j, a, s))
    case Hooks(id, m) =>
      if Singleton.InRun(PcOf(j.single, id)) && IsHostMove(m) then HostStep(re, j, id, m) else None
    case Modules(m) =>
      if !m.Inner? && !m.SpotifyExits? then None
      else
        match Step(re, SeenBy(j, Down), m)
        case None => None
        case Some(v) => Some(j.(world := v))
  }

  function Play(re: Regex, j: Machine, events: seq<Event>): Option<Machine>
    decreases |events|
  {
    if events == [] then Some(j)
    else
      match Advance(re, j, events[0])
      case None => None
      case Some(k) => Play(re, k, events[1..])
  }

  ghost predicate Start(j: Machine) {
    && j.single == Singleton.EMPTY && j.hosts == map[] && j.ids == map[]
    && Start0(j.world)
  }

  // ---------------------------------------------------------------- one host at a time

  /** The host of the instance that holds the mutex. */
  function Active(j: Machine): Host {
    match j.single.kernel.owner
    case Some(id) => if id in j.hosts then j.hosts[id] else Down
    case None => Down
  }

  /** The machine as a world with one host. */
  function OneHost(j: Machine): World {
    SeenBy(j, Active(j))
  }

  /** An instance holds the mutex exactly while its host is up. */
  ghost predicate CoupledAt(j: Machine, id: nat) {
    && (Singleton.Holds(PcOf(j.single, id)) <==> id in j.hosts && j.hosts[id].Up?)
    && (id in j.hosts && j.hosts[id].Up? ==>
          && id in j.ids && j.ids[id] == j.hosts[id].id
          && (PcOf(j.single, id) == Singleton.Returned ==> j.hosts[id].pc == Stopped))
  }

  ghost predicate Coupled(j: Machine) {
    && Singleton.Inv(j.single) && j.world.host == Down
    && (forall id :: id in j.hosts || id in j.ids ==> id in j.single.instances)
    && (forall id :: id in j.single.instances ==> CoupledAt(j, id))
  }

  /** The move of the one-host world that an event is, if it is one. */
  function MoveOf(j: Machine, e: Event): Option<Move> {
    match e
    case Hooks(_, m) => Some(m)
    case Modules(m) => Some(m)
    case Main(TryLock(id)) =>
      (match Singleton.Step(j.single, Singleton.TryLock(id))
       case Some(s) => if PcOf(s, id) == Singleton.Running then Some(Boot) else None
       case None => None)
    case Main(Quit(_)) => Some(Cancel)
    case Main(Leave(_)) => Some(Exit)
    case Main(Dies(id)) => if id in j.hosts && j.hosts[id].Up? then Some(Crash) else None
    case Main(_) => None
  }

  /** What one event does to the one-host world. */
  ghost predicate Follows(re: Regex, j: Machine, e: Event, k: Machine) {
    match MoveOf(j, e)
    case None => OneHost(k) == OneHost(j)
    case Some(m) => Step(re, OneHost(j), m) == Some(OneHost(k))
  }

  /** The instance an action moves. */
  function MovedBy(a: Singleton.Action): Option<nat> {
    match a
    case Launch(_) => None
    case RestartAs(_) => None
    case TryLock(id) => Some(id)
    case TryFails(id) => Some(id)
    case Quit(id) => Some(id)
    case StopDone(id) => Some(id)
    case Leave(id) => Some(id)
    case Dies(id) => Some(id)
  }

  lemma OnlyOneMoves(s: Singleton.World, a: Singleton.Action, t: Singleton.World)
    requires Singleton.Inv(s) && Singleton.Step(s, a) == Some(t)
    ensures forall id :: id in s.instances ==> id in t.instances
    ensures forall id :: id in t.instances && MovedBy(a) != Some(id) ==> PcOf(t, id) == PcOf(s, id)
    ensures MovedBy(a).Some? ==> t.instances.Keys == s.instances.Keys
  {
  }

  /** One instance and its host move, and fit together afterwards. */
  lemma CoupledBy(j: Machine, k: Machine, id: nat)
    requires Coupled(j) && Singleton.Inv(k.single) && k.world.host == Down
    requires id in k.single.instances && CoupledAt(k, id)
    requires k.single.instances.Keys == j.single.instances.Keys
    requires forall i :: i in j.single.instances && i != id ==> PcOf(k.single, i) == PcOf(j.single, i)
    requires k.hosts - {id} == j.hosts - {id} && k.ids - {id} == j.ids - {id}
    ensures Coupled(k)
  {
    forall i | i in k.hosts || i in k.ids ensures i in k.single.instances {
      if i != id {
        assert i in k.hosts - {id} || i in k.ids - {id};
      }
    }
    forall i | i in k.single.instances ensures CoupledAt(k, i) {
      if i != id {
        assert CoupledAt(j, i);
        assert i in k.hosts <==> i in k.hosts - {id};
        assert i in j.hosts <==> i in j.hosts - {id};
        assert i in k.ids <==> i in k.ids - {id};
        assert i in j.ids <==> i in j.ids - {id};
        assert i in k.hosts ==> (k.hosts - {id})[i] == (j.hosts - {id})[i];
        assert i in k.ids ==> (k.ids - {id})[i] == (j.ids - {id})[i];
      }
    }
  }

  lemma ActiveIs(j: Machine, id: nat)
    requires Coupled(j) && id in j.single.instances && Singleton.Holds(PcOf(j.single, id))
    ensures id in j.hosts && j.hosts[id].Up? && id in j.ids && j.ids[id] == j.hosts[id].id && Active(j) == j.hosts[id]
  {
    assert CoupledAt(j, id);
  }

  lemma NoneActive(j: Machine)
    requires Coupled(j) && forall id :: id in j.single.instances ==> !Singleton.Holds(PcOf(j.single, id))
    ensures Active(j) == Down
  {
  }

  /** A host at work, or leaving, or gone. */
  lemma CoupledHost(re: Regex, j: Machine, id: nat, m: Move, s: Singleton.World, k: Machine)
    requires Coupled(j) && id in j.single.instances && Singleton.Holds(PcOf(j.single, id))
    requires Singleton.Inv(s) && s.instances.Keys == j.single.instances.Keys
    requires forall i :: i in j.single.instances && i != id ==> PcOf(s, i) == PcOf(j.single, i)
    requires HostStep(re, j.(single := s), id, m) == Some(k) && !m.Boot?
    requires Singleton.Holds(PcOf(s, id)) <==> !m.Crash? && !m.Exit?
    requires PcOf(s, id) != Singleton.Returned
    ensures Coupled(k)
  {
    ActiveIs(j, id);
    HostKept(re, SeenBy(j, j.hosts[id]), m, SeenBy(k, k.hosts[id]));
    assert k.hosts - {id} == j.hosts - {id};
    CoupledBy(j, k, id);
  }

  lemma HostFollows(re: Regex, j: Machine, id: nat, m: Move, s: Singleton.World, k: Machine)
    requires Coupled(j) && id in j.single.instances && Singleton.Holds(PcOf(j.single, id))
    requires HostStep(re, j.(single := s), id, m) == Some(k) && !m.Boot? && Coupled(k)
    requires if m.Crash? || m.Exit? then s.kernel.owner.None? else Singleton.Holds(PcOf(s, id)) && id in s.instances
    ensures Step(re, OneHost(j), m) == Some(OneHost(k))
  {
    ActiveIs(j, id);
    if m.Crash? || m.Exit? {
      HostKept(re, SeenBy(j, j.hosts[id]), m, SeenBy(k, k.hosts[id]));
    } else {
      ActiveIs(k, id);
    }
  }

  /** A move of the host leaves it the same host, or none. */
  lemma HostKept(re: Regex, w: World, m: Move, v: World)
    requires !m.Boot? && w.host.Up? && Step(re, w, m) == Some(v)
    ensures if m.Crash? || m.Exit? then v.host == Down else v.host.Up? && v.host.id == w.host.id
  {
  }

  lemma CoupledHooks(re: Regex, j: Machine, id: nat, m: Move, k: Machine)
    requires Coupled(j) && Advance(re, j, Hooks(id, m)) == Some(k)
    ensures Coupled(k) && Follows(re, j, Hooks(id, m), k)
  {
    CoupledHost(re, j, id, m, j.single, k);
    HostFollows(re, j, id, m, j.single, k);
  }

  lemma CoupledModules(re: Regex, j: Machine, m: Move, k: Machine)
    requires Coupled(j) && Advance(re, j, Modules(m)) == Some(k)
    ensures Coupled(k) && Follows(re, j, Modules(m), k)
  {
    assert forall id :: id in j.single.instances ==> (CoupledAt(j, id) <==> CoupledAt(k, id));
  }

  /** Steps of `main` that change no host and leave the mutex with whoever has it. */
  lemma CoupledOutside(j: Machine, a: Singleton.Action, s: Singleton.World)
    requires Coupled(j) && Singleton.Step(j.single, a) == Some(s) && s.kernel.owner == j.single.kernel.owner
    requires forall id :: MovedBy(a) == Some(id) && id in j.hosts && j.hosts[id].Up? ==>
      PcOf(s, id) == Singleton.Returned ==> j.hosts[id].pc == Stopped
    ensures Coupled(j.(single := s)) && OneHost(j.(single := s)) == OneHost(j)
  {
    Singleton.InvStep(j.single, a, s);
    OnlyOneMoves(j.single, a, s);
    var k := j.(single := s);
    forall id | id in s.instances ensures CoupledAt(k, id) {
      if id in j.single.instances {
        assert CoupledAt(j, id);
      }
      assert Singleton.Holds(PcOf(s, id)) <==> s.kernel.owner == Some(id);
    }
  }

  /** `main` gets the mutex with `s`, and boots a host. */
  ghost predicate Enters(re: Regex, j: Machine, id: nat, s: Singleton.World, k: Machine) {
    && Singleton.Step(j.single, Singleton.TryLock(id)) == Some(s)
    && PcOf(s, id) == Singleton.Running
    && MainStep(re, j, Singleton.TryLock(id), s) == Some(k)
  }

  lemma CoupledEnter(re: Regex, j: Machine, id: nat, s: Singleton.World, k: Machine)
    requires Coupled(j) && Enters(re, j, id, s, k)
    ensures Coupled(k)
  {
    Singleton.InvStep(j.single, Singleton.TryLock(id), s);
    OnlyOneMoves(j.single, Singleton.TryLock(id), s);
    assert k.hosts - {id} == j.hosts - {id} && k.ids - {id} == j.ids - {id};
    CoupledBy(j, k, id);
  }

  lemma EnterBoots(re: Regex, j: Machine, id: nat, s: Singleton.World, k: Machine)
    requires Coupled(j) && Enters(re, j, id, s, k) && Coupled(k)
    ensures Step(re, OneHost(j), Boot) == Some(OneHost(k))
  {
    NobodyHolds(j.single, id, s);
    NoneActive(j);
    OnlyOneMoves(j.single, Singleton.TryLock(id), s);
    ActiveIs(k, id);
  }

  /** Whoever gets the mutex finds nobody holding it. */
  lemma NobodyHolds(s: Singleton.World, id: nat, t: Singleton.World)
    requires Singleton.Inv(s) && Singleton.Step(s, Singleton.TryLock(id)) == Some(t) && PcOf(t, id) == Singleton.Running
    ensures s.kernel.owner.None? && forall i :: i in s.instances ==> !Singleton.Holds(PcOf(s, i))
  {
  }

  lemma CoupledTry(re: Regex, j: Machine, id: nat, k: Machine)
    requires Coupled(j) && Advance(re, j, Main(Singleton.TryLock(id))) == Some(k)
    ensures Coupled(k) && Follows(re, j, Main(Singleton.TryLock(id)), k)
  {
    if PcOf(k.single, id) == Singleton.Running {
      CoupledEnter(re, j, id, k.single, k);
      EnterBoots(re, j, id, k.single, k);
    } else {
      CoupledOutside(j, Singleton.TryLock(id), k.single);
    }
  }

  lemma CoupledQuit(re: Regex, j: Machine, id: nat, k: Machine)
    requires Coupled(j) && Advance(re, j, Main(Singleton.Quit(id))) == Some(k)
    ensures Coupled(k) && Follows(re, j, Main(Singleton.Quit(id)), k)
  {
    Singleton.InvStep(j.single, Singleton.Quit(id), k.single);
    OnlyOneMoves(j.single, Singleton.Quit(id), k.single);
    CoupledHost(re, j, id, Cancel, k.single, k);
    HostFollows(re, j, id, Cancel, k.single, k);
  }

  lemma CoupledStopDone(re: Regex, j: Machine, id: nat, k: Machine)
    requires Coupled(j) && Advance(re, j, Main(Singleton.StopDone(id))) == Some(k)
    ensures Coupled(k) && Follows(re, j, Main(Singleton.StopDone(id)), k)
  {
    CoupledOutside(j, Singleton.StopDone(id), k.single);
  }

  lemma CoupledLeave(re: Regex, j: Machine, id: nat, k: Machine)
    requires Coupled(j) && Advance(re, j, Main(Singleton.Leave(id))) == Some(k)
    ensures Coupled(k) && Follows(re, j, Main(Singleton.Leave(id)), k)
  {
    Singleton.InvStep(j.single, Singleton.Leave(id), k.single);
    OnlyOneMoves(j.single, Singleton.Leave(id), k.single);
    CoupledHost(re, j, id, Exit, k.single, k);
    HostFollows(re, j, id, Exit, k.single, k);
  }

  lemma CoupledDies(re: Regex, j: Machine, id: nat, k: Machine)
    requires Coupled(j) && Advance(re, j, Main(Singleton.Dies(id))) == Some(k)
    ensures Coupled(k) && Follows(re, j, Main(Singleton.Dies(id)), k)
  {
    assert CoupledAt(j, id);
    if Singleton.Holds(PcOf(j.single, id)) {
      Singleton.InvStep(j.single, Singleton.Dies(id), k.single);
      OnlyOneMoves(j.single, Singleton.Dies(id), k.single);
      CoupledHost(re, j, id, Crash, k.single, k);
      HostFollows(re, j, id, Crash, k.single, k);
    } else {
      CoupledOutside(j, Singleton.Dies(id), k.single);
    }
  }

  lemma CoupledNext(re: Regex, j: Machine, e: Event, k: Machine)
    requires Coupled(j) && Advance(re, j, e) == Some(k)
    ensures Coupled(k) && Follows(re, j, e, k)
  {
    match e
    case Hooks(id, m) => CoupledHooks(re, j, id, m, k);
    case Modules(m) => CoupledModules(re, j, m, k);
    case Main(TryLock(id)) => CoupledTry(re, j, id, k);
    case Main(Quit(id)) => CoupledQuit(re, j, id, k);
    case Main(StopDone(id)) => CoupledStopDone(re, j, id, k);
    case Main(Leave(id)) => CoupledLeave(re, j, id, k);
    case Main(Dies(id)) => CoupledDies(re, j, id, k);
    case Main(a) => CoupledOutside(j, a, k.single);
  }

  /** The moves of a whole run. */
  function MovesOf(re: Regex, j: Machine, events: seq<Event>): seq<Move>
    decreases |events|
  {
    if events == [] then []
    else
      match Advance(re, j, events[0])
      case None => []
      case Some(k) =>
        (match MoveOf(j, events[0])
         case None => MovesOf(re, k, events[1..])
         case Some(m) => [m] + MovesOf(re, k, events[1..]))
  }

  lemma {:induction false} OneHostRuns(re: Regex, j: Machine, events: seq<Event>, k: Machine)
    requires Coupled(j) && Play(re, j, events) == Some(k)
    ensures Coupled(k) && Run(re, OneHost(j), MovesOf(re, j, events)) == Some(OneHost(k))
    decreases |events|
  {
    if events != [] {
      var i := Advance(re, j, events[0]).value;
      CoupledNext(re, j, events[0], i);
      OneHostRuns(re, i, events[1..], k);
      if m :| MoveOf(j, events[0]) == Some(m) {
        assert ([m] + MovesOf(re, i, events[1..]))[1..] == MovesOf(re, i, events[1..]);
      }
    }
  }

  /**
   Any number of instances, however they start, race for the mutex, restart and die: at most one
   host is up, and the run is one of the one-host world, so all that holds of those runs holds here.
   */
  lemma ManyInstancesAreOneHost(re: Regex, j: Machine, events: seq<Event>, k: Machine)
    requires Start(j) && Play(re, j, events) == Some(k)
    ensures Run(re, j.world, MovesOf(re, j, events)) == Some(OneHost(k))
    ensures forall a, b :: a in k.hosts && b in k.hosts && k.hosts[a].Up? && k.hosts[b].Up? ==> a == b
  {
    assert OneHost(j) == j.world;
    OneHostRuns(re, j, events, k);
  }

  // ---------------------------------------------------------------- the handover

  /** The numbers of the hosts whose instance ended well. */
  function LeftOf(j: Machine): set<nat> {
    set id | id in j.ids && PcOf(j.single, id) == Singleton.Ended :: j.ids[id]
  }

  ghost predicate Handed(w: World, left: set<nat>) {
    Placed(w) && Answered(w) && LeftClean(w, left)
  }

  /** Only giving the mutex back makes an instance one that ended well, and none stops being one. */
  lemma EndedBy(s: Singleton.World, a: Singleton.Action, t: Singleton.World, id: nat)
    requires Singleton.Inv(s) && Singleton.Step(s, a) == Some(t)
    ensures PcOf(t, id) == Singleton.Ended <==> PcOf(s, id) == Singleton.Ended || a == Singleton.Leave(id)
  {
  }

  function LeftAfter(w: World, m: Move, left: set<nat>): set<nat> {
    if m == Exit && w.host.Up? then left + {w.host.id} else left
  }

  /** Only an instance that enters `run` gets a number. */
  lemma NumberedBy(re: Regex, j: Machine, e: Event, k: Machine)
    requires Advance(re, j, e) == Some(k)
    ensures forall id :: id in k.ids && PcOf(k.single, id) != Singleton.Running ==>
      id in j.ids && k.ids[id] == j.ids[id]
    ensures !e.Main? ==> k.single == j.single && k.ids == j.ids
  {
  }

  /** Who has left now and had not before is the one that gives the mutex back. */
  lemma LeftNow(re: Regex, j: Machine, e: Event, k: Machine, id: nat)
    requires Coupled(j) && Advance(re, j, e) == Some(k)
    requires id in k.ids && PcOf(k.single, id) == Singleton.Ended
    ensures k.ids[id] in LeftOf(j)
      || (e == Main(Singleton.Leave(id)) && OneHost(j).host.Up? && k.ids[id] == OneHost(j).host.id)
  {
    NumberedBy(re, j, e, k);
    if e.Main? {
      EndedBy(j.single, e.a, k.single, id);
      if e.a == Singleton.Leave(id) {
        ActiveIs(j, id);
      }
    }
  }

  lemma LeftBy(re: Regex, j: Machine, e: Event, k: Machine)
    requires Coupled(j) && Advance(re, j, e) == Some(k)
    ensures LeftOf(k) <= match MoveOf(j, e) case None => LeftOf(j) case Some(m) => LeftAfter(OneHost(j), m, LeftOf(j))
  {
    forall id | id in k.ids && PcOf(k.single, id) == Singleton.Ended
      ensures k.ids[id] in LeftOf(j)
        || (MoveOf(j, e) == Some(Exit) && k.ids[id] in LeftAfter(OneHost(j), Exit, LeftOf(j)))
    {
      LeftNow(re, j, e, k, id);
    }
  }

  /** A host that is done with `stop` answers for no server, so its number joins the others. */
  lemma DoneIsClean(w: World, left: set<nat>)
    requires Answered(w) && LeftClean(w, left) && w.host.Up? && w.host.pc == Stopped
    ensures forall k :: k in w.slots && w.slots[k].owner == w.host.id ==> !Busy(w.slots[k].load)
  {
  }

  lemma ExitIsClean(re: Regex, w: World, v: World, left: set<nat>)
    requires Placed(w) && Answered(w) && LeftClean(w, left) && Step(re, w, Exit) == Some(v)
    ensures LeftClean(v, left + {w.host.id})
  {
    DoneIsClean(w, left);
    LeftCleanMove(re, w, Exit, v, left);
    forall k | k in v.slots && v.slots[k].owner == w.host.id ensures !Busy(v.slots[k].load) {
      SlotMove(re, w, Exit, v, k);
    }
  }

  ghost predicate NoFailedLookup(events: seq<Event>) {
    forall e :: e in events ==> !e.Hooks? || e.m != StopLookupFails
  }

  lemma HandedMove(re: Regex, w: World, m: Move, v: World, left: set<nat>)
    requires Handed(w, left) && Step(re, w, m) == Some(v) && m != StopLookupFails
    ensures Handed(v, LeftAfter(w, m, left))
  {
    PlacedMove(re, w, m, v);
    AnsweredStep(re, w, m, v);
    if m == Exit {
      ExitIsClean(re, w, v, left);
    } else {
      LeftCleanMove(re, w, m, v, left);
    }
  }

  lemma FewerLeft(w: World, left: set<nat>, more: set<nat>)
    requires left <= more && Handed(w, more)
    ensures Handed(w, left)
  {
  }

  lemma HandedNext(re: Regex, j: Machine, e: Event, k: Machine)
    requires Coupled(j) && Handed(OneHost(j), LeftOf(j)) && Advance(re, j, e) == Some(k)
    requires e.Hooks? ==> e.m != StopLookupFails
    ensures Coupled(k) && Handed(OneHost(k), LeftOf(k))
  {
    var w, v, left := OneHost(j), OneHost(k), LeftOf(j);
    CoupledNext(re, j, e, k);
    LeftBy(re, j, e, k);
    match MoveOf(j, e)
    case None => FewerLeft(v, LeftOf(k), left);
    case Some(m) =>
      HandedMove(re, w, m, v, left);
      FewerLeft(v, LeftOf(k), LeftAfter(w, m, left));
  }

  lemma {:induction false} HandedRun(re: Regex, j: Machine, events: seq<Event>, k: Machine)
    requires Coupled(j) && Handed(OneHost(j), LeftOf(j)) && Play(re, j, events) == Some(k) && NoFailedLookup(events)
    ensures Coupled(k) && Handed(OneHost(k), LeftOf(k))
    decreases |events|
  {
    if events != [] {
      var i := Advance(re, j, events[0]).value;
      HandedNext(re, j, events[0], i);
      HandedRun(re, i, events[1..], k);
    }
  }

  /**
   While a restarted successor is inside `run`, its predecessor has died, or it has finished `stop`
   and there is no server in any module it injected last.
   */
  lemma SuccessorFindsNoServer(re: Regex, j: Machine, events: seq<Event>, k: Machine, i: nat)
    requires Start(j) && (forall key :: key in j.world.slots ==> Tended(j.world.slots[key].load))
    requires Play(re, j, events) == Some(k) && NoFailedLookup(events)
    requires i in k.single.instances && Singleton.Holds(k.single.instances[i].pc)
    requires k.single.instances[i].predecessor.Some?
    ensures var p := k.single.instances[i].predecessor.value;
      PcOf(k.single, p) == Singleton.Dead
      || (PcOf(k.single, p) == Singleton.Ended
          && forall key :: p in k.ids && key in k.world.slots && k.world.slots[key].owner == k.ids[p] ==>
               RpcStopped(k.world.slots[key].load))
  {
    HandedRun(re, j, events, k);
    var p := k.single.instances[i].predecessor.value;
    if PcOf(k.single, p) == Singleton.Ended && p in k.ids {
      assert k.ids[p] in LeftOf(k);
    }
  }
}
