/**
 The Spotify scanner and the consumer of its watch channel, as in
 burnt-sushi/src/spotify_process_scanner.rs and the loop of burnt-sushi/src/blocker.rs.

 A watch channel keeps only the last value and a version. The consumer keeps the read guard of
 `borrow()` while it hooks or unhooks, and both sides run on one thread, so a publish attempted
 meanwhile blocks that thread for good: `frozen`.
 */
module Scanner {
  import opened Wrappers

  datatype Info = Info(pid: nat, window: nat)

  datatype SpotifyState = Running(info: Info) | Stopped

  // ---------------------------------------------------------------- the scanner's searches

  /** A process of the scan and its windows; reading on in the window list can fail. */
  datatype Candidate = Candidate(pid: nat, isSpotify: bool, windows: seq<Result<nat>>)

  /** Position (i, j) of the scan holds an error or a main window. */
  predicate EndsScan(ps: seq<Candidate>, isMain: nat -> bool, i: nat, j: nat) {
    && i < |ps| && ps[i].isSpotify && j < |ps[i].windows|
    && (ps[i].windows[j].Err? || isMain(ps[i].windows[j].value))
  }

  /** Nothing before (i, j) ends the scan. */
  ghost predicate QuietBefore(ps: seq<Candidate>, isMain: nat -> bool, i: nat, j: nat) {
    forall a: nat, b: nat :: a < i || (a == i && b < j) ==> !EndsScan(ps, isMain, a, b)
  }

  /** `scan`: the first main window of the first Spotify process that has one. */
  method Scan(ps: seq<Candidate>, isMain: nat -> bool) returns (r: Result<Option<Info>>)
    ensures r == Ok(None) ==> forall i: nat, j: nat :: !EndsScan(ps, isMain, i, j)
    ensures r.Err? ==> exists i: nat, j: nat ::
      EndsScan(ps, isMain, i, j) && QuietBefore(ps, isMain, i, j) && ps[i].windows[j].Err?
    ensures r.Ok? && r.value.Some? ==> exists i: nat, j: nat ::
      && EndsScan(ps, isMain, i, j) && QuietBefore(ps, isMain, i, j)
      && ps[i].windows[j] == Ok(r.value.value.window) && ps[i].pid == r.value.value.pid
  {
    var i := 0;
    while i < |ps|
      invariant 0 <= i <= |ps|
      invariant QuietBefore(ps, isMain, i, 0)
    {
      var ws := ps[i].windows;
      if ps[i].isSpotify {
        var j := 0;
        while j < |ws|
          invariant 0 <= j <= |ws|
          invariant QuietBefore(ps, isMain, i, j)
        {
          if ws[j].Err? {
            assert EndsScan(ps, isMain, i, j);
            return Err;
          }
          if isMain(ws[j].value) {
            assert EndsScan(ps, isMain, i, j);
            return Ok(Some(Info(ps[i].pid, ws[j].value)));
          }
          j := j + 1;
        }
      }
      i := i + 1;
    }
    r := Ok(None);
  }

  /** A window event; `owner` is the process of its window when that can be told, `thread` where it came from. */
  datatype WindowEvent = WindowEvent(window: Option<nat>, owner: Option<nat>, isSpotify: bool, thread: nat)

  /** What comes of listening: a new state, the end of the stream, a system error, or a failed assertion. */
  datatype Listening = Heard(state: SpotifyState) | StreamEnded | Failed | Panicked

  predicate ShowsSpotify(e: WindowEvent, isMain: nat -> bool) {
    e.window.Some? && e.owner.Some? && e.isSpotify && isMain(e.window.value)
  }

  /** `listen_stopped`; installing the event hook and removing it can fail. */
  method ListenStopped(events: seq<WindowEvent>, isMain: nat -> bool, hooks: bool, unhooks: bool) returns (r: Listening)
    ensures r.Failed? <==> !hooks || !unhooks
    ensures !r.Panicked?
    ensures r.StreamEnded? <==> hooks && unhooks && forall i :: 0 <= i < |events| ==> !ShowsSpotify(events[i], isMain)
    ensures r.Heard? ==> exists i ::
        && 0 <= i < |events| && ShowsSpotify(events[i], isMain)
        && r.state == Running(Info(events[i].owner.value, events[i].window.value))
        && forall j :: 0 <= j < i ==> !ShowsSpotify(events[j], isMain)
  {
    if !hooks {
      return Failed;
    }
    var i := 0;
    while i < |events|
      invariant 0 <= i <= |events|
      invariant forall j :: 0 <= j < i ==> !ShowsSpotify(events[j], isMain)
    {
      var e := events[i];
      if e.window.Some? && e.owner.Some? {
        if e.isSpotify && isMain(e.window.value) {
          return if unhooks then Heard(Running(Info(e.owner.value, e.window.value))) else Failed;
        }
      }
      i := i + 1;
    }
    r := if unhooks then StreamEnded else Failed;
  }

  /** The event ends `listen_running`: it is the main window's own, or comes from another thread. */
  predicate EndsListening(e: WindowEvent, info: Info, thread: nat) {
    e.thread != thread || e.window == Some(info.window)
  }

  ghost predicate FirstEnd(events: seq<WindowEvent>, info: Info, thread: nat, i: nat) {
    && i < |events| && EndsListening(events[i], info, thread)
    && forall j :: 0 <= j < i ==> !EndsListening(events[j], info, thread)
  }

  /** `listen_running`: only the main window's own destruction counts; events of other threads are not expected. */
  method ListenRunning(events: seq<WindowEvent>, info: Info, thread: nat, hooks: bool, unhooks: bool)
    returns (r: Listening)
    ensures r.Heard? ==>
      r.state == Stopped && exists i: nat :: FirstEnd(events, info, thread, i) && events[i].thread == thread
    ensures r.Panicked? ==> hooks && exists i: nat :: FirstEnd(events, info, thread, i) && events[i].thread != thread
    ensures r.StreamEnded? <==> hooks && unhooks && forall e :: e in events ==> !EndsListening(e, info, thread)
    ensures r.Failed? <==> !hooks || (!unhooks && !r.Panicked?)
  {
    if !hooks {
      return Failed;
    }
    var i := 0;
    while i < |events|
      invariant 0 <= i <= |events|
      invariant forall j :: 0 <= j < i ==> !EndsListening(events[j], info, thread)
    {
      if events[i].thread != thread {
        assert FirstEnd(events, info, thread, i);
        return Panicked;
      }
      if events[i].window == Some(info.window) {
        assert FirstEnd(events, info, thread, i);
        return if unhooks then Heard(Stopped) else Failed;
      }
      i := i + 1;
    }
    r := if unhooks then StreamEnded else Failed;
  }

  // ---------------------------------------------------------------- scanner and consumer together

  /** `Publishing` has seen its event and only has to remove its event hook. */
  datatype ScannerPc = Scanning | Listening | Publishing(next: SpotifyState)

  datatype ConsumerPc = Waiting | Handling(state: SpotifyState) | ShutDown

  /**
   `hooked` is the process the hook state records. `published` and `handled` record the past: the
   values sent, and the versions the consumer has handled to the end.
   */
  datatype System = System(
    value: SpotifyState,
    version: nat,
    seen: nat,
    scanner: ScannerPc,
    consumer: ConsumerPc,
    hooked: Option<nat>,
    frozen: bool,
    published: seq<SpotifyState>,
    handled: seq<nat>)

  const INITIAL := System(Stopped, 0, 0, Scanning, Waiting, None, false, [], [])

  datatype Action =
    | ScanEnds(found: Option<Info>)
    | Shown(info: Info)
    | Destroyed
    | Publish
    | Wake
    | Handled(shutdownWithSpotify: bool)

  function Send(s: System, v: SpotifyState): System {
    if s.consumer.Handling? then s.(frozen := true)
    else s.(value := v, version := s.version + 1, scanner := Listening, published := s.published + [v])
  }

  function Target(v: SpotifyState): Option<nat> {
    match v
    case Running(info) => Some(info.pid)
    case Stopped => None
  }

  function Next(s: System, a: Action): Option<System> {
    if s.frozen then None
    else
      match a
      case ScanEnds(found) =>
        if s.scanner != Scanning then None
        else if found.None? then Some(s.(scanner := Listening))
        else Some(Send(s, Running(found.value)))
      case Shown(info) =>
        if s.scanner == Listening && s.value == Stopped then Some(s.(scanner := Publishing(Running(info)))) else None
      case Destroyed =>
        if s.scanner == Listening && s.value.Running? then Some(s.(scanner := Publishing(Stopped))) else None
      case Publish =>
        if s.scanner.Publishing? then Some(Send(s, s.scanner.next)) else None
      case Wake =>
        if s.consumer == Waiting && s.seen < s.version then
          Some(s.(seen := s.version, consumer := Handling(s.value)))
        else None
      case Handled(shutdown) =>
        if !s.consumer.Handling? then None
        else
          var v := s.consumer.state;
          Some(s.(hooked := Target(v), handled := s.handled + [s.seen],
                  consumer := if v == Stopped && shutdown then ShutDown else Waiting))
  }

  function Exec(s: System, acts: seq<Action>): Option<System>
    decreases |acts|
  {
    if acts == [] then Some(s)
    else
      match Next(s, acts[0])
      case None => None
      case Some(t) => Exec(t, acts[1..])
  }

  /** The value of a version: what was published as that version, `Stopped` before the first. */
  function ValueOf(published: seq<SpotifyState>, version: nat): SpotifyState
    requires version <= |published|
  {
    if version == 0 then Stopped else published[version - 1]
  }

  ghost predicate Alternates(published: seq<SpotifyState>) {
    forall i :: 0 <= i < |published| ==> (published[i].Running? <==> i % 2 == 0)
  }

  ghost predicate Inv(s: System) {
    && s.version == |s.published| && s.seen <= s.version
    && s.value == ValueOf(s.published, s.version)
    && Alternates(s.published)
    && (s.scanner == Scanning ==> s.version == 0)
    && (s.scanner.Publishing? ==> (s.scanner.next.Running? <==> s.value == Stopped))
    && (s.consumer.Handling? ==> s.seen == s.version >= 1 && s.consumer.state == s.value)
    && (forall i, j :: 0 <= i < j < |s.handled| ==> s.handled[i] < s.handled[j])
    && (forall i :: 0 <= i < |s.handled| ==> 1 <= s.handled[i] <= s.seen)
    && (s.consumer.Handling? ==> forall i :: 0 <= i < |s.handled| ==> s.handled[i] < s.seen)
    && (!s.consumer.Handling? ==> s.seen == if s.handled == [] then 0 else s.handled[|s.handled| - 1])
    && s.hooked == Target(if s.handled == [] then Stopped else ValueOf(s.published, s.handled[|s.handled| - 1]))
  }

  lemma InvNext(s: System, a: Action, t: System)
    requires Inv(s) && Next(s, a) == Some(t)
    ensures Inv(t)
  {
    match a
    case ScanEnds(found) => if found.Some? { InvSend(s, Running(found.value)); }
    case Publish => InvSend(s, s.scanner.next);
    case Handled(shutdown) => InvHandled(s, shutdown, t);
    case _ =>
  }

  lemma InvHandled(s: System, shutdown: bool, t: System)
    requires Inv(s) && Next(s, Handled(shutdown)) == Some(t)
    ensures Inv(t)
  {
  }

  /** Publishing the other kind of state. */
  lemma InvSend(s: System, v: SpotifyState)
    requires Inv(s) && (v.Running? <==> s.value == Stopped)
    ensures Inv(Send(s, v))
  {
    if !s.consumer.Handling? {
      var published := s.published + [v];
      assert forall i :: 0 <= i < |s.published| ==> published[i] == s.published[i];
    }
  }

  lemma {:induction false} InvExec(s: System, acts: seq<Action>, t: System)
    requires Inv(s) && Exec(s, acts) == Some(t)
    ensures Inv(t)
    decreases |acts|
  {
    if acts != [] {
      var u := Next(s, acts[0]).value;
      InvNext(s, acts[0], u);
      InvExec(u, acts[1..], t);
    }
  }

  /** Published states alternate, a Running first. */
  lemma PublishedAlternate(acts: seq<Action>, s: System)
    requires Exec(INITIAL, acts) == Some(s)
    ensures Alternates(s.published)
    ensures s.value == ValueOf(s.published, |s.published|)
  {
    InvExec(INITIAL, acts, s);
  }

  /**
   Versions may be skipped, never repeated or handled out of order. The hook state always is the one
   of the last version handled, so whenever the consumer has caught up it is hooked to exactly the
   published process, or to none when Stopped was published last.
   */
  lemma ConsumerAgrees(acts: seq<Action>, s: System)
    requires Exec(INITIAL, acts) == Some(s)
    ensures forall i, j :: 0 <= i < j < |s.handled| ==> s.handled[i] < s.handled[j] <= |s.published|
    ensures s.handled != [] ==> 1 <= s.handled[|s.handled| - 1] <= |s.published|
    ensures s.handled != [] ==> s.hooked == Target(s.published[s.handled[|s.handled| - 1] - 1])
    ensures !s.consumer.Handling? && s.seen == s.version ==> s.hooked == Target(s.value)
  {
    InvExec(INITIAL, acts, s);
  }

  /** Spotify opens and closes its window while the consumer is still hooking: the host never moves again. */
  lemma CanFreeze(info: Info)
    ensures exists acts, s :: Exec(INITIAL, acts) == Some(s) && s.frozen && forall a :: Next(s, a) == None
  {
    var s1 := Next(INITIAL, ScanEnds(Some(info))).value;
    var s2 := Next(s1, Wake).value;
    var s3 := Next(s2, Destroyed).value;
    var s4 := Next(s3, Publish).value;
    var acts := [ScanEnds(Some(info)), Wake, Destroyed, Publish];
    assert [Publish][1..] == [];
    assert Exec(s3, [Publish]) == Some(s4);
    assert [Destroyed, Publish][1..] == [Publish];
    assert Exec(s2, [Destroyed, Publish]) == Some(s4);
    assert [Wake, Destroyed, Publish][1..] == [Destroyed, Publish];
    assert Exec(s1, [Wake, Destroyed, Publish]) == Some(s4);
    assert acts[1..] == [Wake, Destroyed, Publish];
    assert Exec(INITIAL, acts) == Some(s4);
  }

  /** A step freezes the host exactly if it publishes while the consumer is handling a state. */
  lemma FreezesIff(acts: seq<Action>, s: System, a: Action, t: System)
    requires Exec(INITIAL, acts) == Some(s) && Next(s, a) == Some(t)
    ensures t.frozen <==> s.consumer.Handling? && a == Publish
  {
    InvExec(INITIAL, acts, s);
    NotFrozenBefore(s, a, t);
  }

  lemma NotFrozenBefore(s: System, a: Action, t: System)
    requires Next(s, a) == Some(t)
    ensures !s.frozen
  {
  }
}
