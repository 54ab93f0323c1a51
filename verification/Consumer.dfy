/**
 The scanner and the consumer of its channel over the real hook state: `SpotifyAdBlocker::run` in
 burnt-sushi/src/blocker.rs, with the scanner's steps and the world's answers given from outside.
 */
module Consumer {
  import opened Wrappers
  import opened Scanner
  import HookState

  /** A step of the scanner, or the consumer taking the latest version and handling it to the end. */
  datatype Turn =
    | Scans(a: Action)
    | Handles(env: HookState.Env, shutdownWithSpotify: bool)
    | SpotifyExits(pid: nat)

  predicate IsScannerStep(a: Action) {
    !a.Wake? && !a.Handled?
  }

  predicate KnownPid(v: SpotifyState, pids: set<nat>) {
    v.Running? ==> v.info.pid in pids
  }

  /** The processes a step of the scanner can bring up. */
  predicate Shows(a: Action, pids: set<nat>) {
    && (a.Shown? ==> a.info.pid in pids)
    && (a.ScanEnds? && a.found.Some? ==> a.found.value.pid in pids)
  }

  /** The one process recorded as hooked, if any, is the one the system says. */
  ghost predicate Tied(s: System, target: HookState.Process?, processes: map<nat, HookState.Process>) {
    match s.hooked
    case None => target == null
    case Some(pid) => pid in processes && target == processes[pid]
  }

  ghost predicate PidsKnown(s: System, pids: set<nat>) {
    && KnownPid(s.value, pids)
    && (s.scanner.Publishing? ==> KnownPid(s.scanner.next, pids))
  }

  /** The states a system can get into. */
  ghost predicate Reached(s: System) {
    exists acts :: Exec(INITIAL, acts) == Some(s)
  }

  lemma {:induction false} ExecSnoc(s: System, acts: seq<Action>, t: System, a: Action, u: System)
    requires Exec(s, acts) == Some(t) && Next(t, a) == Some(u)
    ensures Exec(s, acts + [a]) == Some(u)
    decreases |acts|
  {
    if acts == [] {
      assert [] + [a] == [a] && [a][1..] == [];
    } else {
      assert (acts + [a])[1..] == acts[1..] + [a];
      ExecSnoc(Next(s, acts[0]).value, acts[1..], t, a, u);
    }
  }

  lemma ReachedNext(s: System, a: Action, t: System)
    requires Reached(s) && Next(s, a) == Some(t)
    ensures Reached(t)
  {
    var acts :| Exec(INITIAL, acts) == Some(s);
    ExecSnoc(INITIAL, acts, s, a, t);
  }

  lemma ReachedAgrees(s: System)
    requires Reached(s) && !s.consumer.Handling? && s.seen == s.version
    ensures s.hooked == Target(s.value)
  {
    var acts :| Exec(INITIAL, acts) == Some(s);
    ConsumerAgrees(acts, s);
  }

  /** A version is taken and handled. */
  lemma Turned(s: System, woken: System, shutdownWithSpotify: bool)
    requires Reached(s) && Next(s, Wake) == Some(woken)
    ensures Next(woken, Handled(shutdownWithSpotify)).Some?
    ensures var t := Next(woken, Handled(shutdownWithSpotify)).value;
      && Reached(t) && t.value == s.value && t.scanner == s.scanner && t.hooked == Target(s.value)
      && t.seen == t.version == s.version && !t.consumer.Handling?
  {
    ReachedNext(s, Wake, woken);
    ReachedNext(woken, Handled(shutdownWithSpotify), Next(woken, Handled(shutdownWithSpotify)).value);
  }

  /** The consumer and the processes there can be. */
  class Run {
    const app: HookState.SpotifyAdBlocker
    const processes: map<nat, HookState.Process>
    var system: System

    constructor (processes: map<nat, HookState.Process>)
      ensures this.processes == processes && system == INITIAL
      ensures fresh(app) && fresh(app.state) && app.state.target == null
    {
      app := new HookState.SpotifyAdBlocker();
      this.processes := processes;
      system := INITIAL;
    }

    ghost predicate Valid()
      reads this, app.state, processes.Values
    {
      && app.state.Tracks(processes.Values)
      && Reached(system) && PidsKnown(system, processes.Keys) && !system.consumer.Handling?
      && Tied(system, app.state.target, processes)
    }

    /** A step of the scanner; a publish finds the consumer waiting, so it goes through. */
    method Scan(a: Action) returns (ok: bool)
      requires Valid() && IsScannerStep(a) && Shows(a, processes.Keys)
      modifies this`system
      ensures Valid()
      ensures ok <==> Next(old(system), a).Some?
      ensures system == if ok then Next(old(system), a).value else old(system)
    {
      var next := Next(system, a);
      if next.None? {
        return false;
      }
      ReachedNext(system, a, next.value);
      system := next.value;
      ok := true;
    }

    /**
     One turn of the loop: wake on a version not seen yet, handle its value, wait again. Only if that
     works out is the run still one whose state is told here; else the host has panicked or is leaving.
     */
    method HandleLatest(env: HookState.Env, shutdownWithSpotify: bool) returns (o: HookState.Outcome)
      requires Valid() && system.consumer == Waiting && !system.frozen && system.seen < system.version
      modifies this`system, app.state, processes.Values
      ensures app.state.Tracks(processes.Values)
      ensures o == HookState.Done ==> Valid() && system.seen == system.version == old(system.version)
      ensures o == HookState.Done ==> system.value == old(system.value) && system.hooked == Target(system.value)
    {
      var woken := Next(system, Wake).value;
      var v := woken.consumer.state;
      match v {
        case Running(info) =>
          o := app.Handle(HookState.Running(processes[info.pid], env), processes.Values);
        case Stopped =>
          o := app.Handle(HookState.Stopped(env.unhooking, env.cancel), processes.Values);
      }
      if o == HookState.Done {
        Turned(system, woken, shutdownWithSpotify);
        system := Next(woken, Handled(shutdownWithSpotify)).value;
      }
    }

    /**
     The loop over any turns, until one is not possible or handling fails. As long as every handling
     works out, whenever the consumer has seen the last version, the hook state records exactly the
     published process, or nothing if Stopped was published.
     */
    method Follow(turns: seq<Turn>) returns (ok: bool)
      requires Valid()
      requires forall t :: t in turns && t.Scans? ==> IsScannerStep(t.a) && Shows(t.a, processes.Keys)
      modifies this`system, app.state, processes.Values
      ensures ok ==> Valid()
      ensures ok && system.seen == system.version ==>
        match system.value
        case Running(info) => info.pid in processes && app.state.target == processes[info.pid]
        case Stopped => app.state.target == null
    {
      ok := true;
      var i := 0;
      while i < |turns| && ok
        invariant 0 <= i <= |turns|
        invariant ok ==> Valid()
      {
        match turns[i] {
          case Scans(a) =>
            ok := Scan(a);
          case Handles(env, shutdown) =>
            if system.consumer == Waiting && !system.frozen && system.seen < system.version {
              var o := HandleLatest(env, shutdown);
              ok := o == HookState.Done;
            }
          case SpotifyExits(pid) =>
            if pid in processes {
              processes[pid].End();
            }
        }
        i := i + 1;
      }
      if ok && system.seen == system.version {
        ReachedAgrees(system);
      }
    }
  }
}
