/** Self-update: the executable swap and the weekly check marker, as in burnt-sushi/src/provisioning/update.rs. */
module Update {
  import opened Wrappers
  import opened Paths

  // ---------------------------------------------------------------- file names

  /** The position of the last dot, `|name|` when there is none. */
  function LastDot(name: string): (i: nat)
    ensures i <= |name|
    ensures i < |name| ==> name[i] == '.'
    ensures forall j :: 0 <= j < |name| && name[j] == '.' ==> i < |name| && j <= i
  {
    if name == [] then 0
    else
      var n := |name| - 1;
      if name[n] == '.' then n
      else
        var i := LastDot(name[..n]);
        assert forall j :: 0 <= j < n ==> name[j] == name[..n][j];
        if i < n then i else |name|
  }

  /** `Path::with_extension`: a leading dot does not start an extension. */
  function WithExtension(p: Path, ext: string): Path {
    if p == [] then p
    else
      var name := FileName(p);
      var i := LastDot(name);
      var stem := if i == 0 then name else name[..i];
      p[..|p| - 1] + [stem + "." + ext]
  }

  const BACKUP_EXTENSION := "exe.bak"

  /** Every path with a file name. */
  lemma BackupIsAnotherFile(p: Path)
    requires p != []
    ensures WithExtension(p, BACKUP_EXTENSION) != p
  {
    var name, bak := FileName(p), FileName(WithExtension(p, BACKUP_EXTENSION));
    var i := LastDot(name);
    assert 0 < i < |name| ==> bak[i + 4] == '.';
    assert bak != name;
  }

  // ---------------------------------------------------------------- the swap

  type Image = seq<nat>

  type Files = map<Path, Image>

  /** The disk, and every state it has been in. */
  class Disk {
    var files: Files
    ghost var history: seq<Files>

    constructor (files: Files)
      ensures this.files == files && history == [files]
    {
      this.files := files;
      history := [files];
    }

    /** `rename`, atomic, replacing the target; `fault` is the system error if it fails. */
    method Rename(from: Path, to: Path, fault: Option<int>) returns (error: Option<int>)
      requires from in files
      modifies this
      ensures error == fault
      ensures files == if fault.Some? then old(files) else (old(files) - {from})[to := old(files)[from]]
      ensures history == old(history) + [files]
    {
      error := fault;
      if fault.None? {
        files := (files - {from})[to := files[from]];
      }
      history := history + [files];
    }

    /** `copy`, byte by byte; it can stop after any number of them. */
    method Copy(from: Path, to: Path, stopsAfter: Option<nat>) returns (ok: bool)
      requires from in files && from != to
      modifies this
      ensures ok <==> stopsAfter.None? || stopsAfter.value >= |old(files)[from]|
      ensures ok ==> files == old(files)[to := old(files)[from]]
      ensures files - {to} == old(files) - {to}
      ensures |history| >= |old(history)| && history[..|old(history)|] == old(history)
      ensures forall f :: f in history[|old(history)|..] ==> f - {to} == old(files) - {to}
    {
      var image := files[from];
      var n := 0;
      ghost var before := files;
      ghost var past := history;
      files := files[to := []];
      history := history + [files];
      while n < |image| && (stopsAfter.None? || n < stopsAfter.value)
        invariant 0 <= n <= |image|
        invariant stopsAfter.Some? ==> n <= stopsAfter.value
        invariant files == before[to := image[..n]]
        invariant |history| >= |past| && history[..|past|] == past
        invariant forall f :: f in history[|past|..] ==> f - {to} == before - {to}
      {
        n := n + 1;
        files := files[to := image[..n]];
        assert files - {to} == before - {to};
        ghost var h := history;
        history := history + [files];
        assert history[|past|..] == h[|past|..] + [files];
      }
      ok := n == |image|;
      assert image[..|image|] == image;
    }
  }

  const ERROR_NOT_SAME_DEVICE := 17

  datatype SwapFaults = SwapFaults(moveOld: Option<int>, moveNew: Option<int>, copyStopsAfter: Option<nat>)

  /** Whether the swap goes through, said of its faults alone. */
  predicate SwapWorks(o: SwapFaults, size: nat) {
    && o.moveOld.None?
    && (o.moveNew.None?
        || (o.moveNew.value == ERROR_NOT_SAME_DEVICE && (o.copyStopsAfter.None? || o.copyStopsAfter.value >= size)))
  }

  /** The old image is whole at its own path or at the backup path. */
  ghost predicate OldIsSafe(f: Files, cur: Path, image: Image) {
    || (cur in f && f[cur] == image)
    || (WithExtension(cur, BACKUP_EXTENSION) in f && f[WithExtension(cur, BACKUP_EXTENSION)] == image)
  }

  /**
   The swap: move the running executable aside, put the new one in its place. In every state the
   disk passes through the old image is safe; success puts the new image in place and the old one
   at the backup path; no other file is touched.
   */
  method UpdateViaExeSwap(disk: Disk, tmp: Path, cur: Path, o: SwapFaults) returns (ok: bool)
    requires cur != [] && cur in disk.files && tmp in disk.files
    requires tmp != cur && tmp != WithExtension(cur, BACKUP_EXTENSION)
    modifies disk
    ensures ok <==> SwapWorks(o, |old(disk.files)[tmp]|)
    ensures ok ==> cur in disk.files && disk.files[cur] == old(disk.files)[tmp]
    ensures ok ==>
      var bak := WithExtension(cur, BACKUP_EXTENSION);
      bak in disk.files && disk.files[bak] == old(disk.files)[cur]
    ensures o.moveOld.Some? ==> disk.files == old(disk.files)
    ensures |disk.history| >= |old(disk.history)| && disk.history[..|old(disk.history)|] == old(disk.history)
    ensures forall f :: f in disk.history[|old(disk.history)|..] ==> OldIsSafe(f, cur, old(disk.files)[cur])
    ensures OldIsSafe(disk.files, cur, old(disk.files)[cur])
    ensures var touched := {tmp, cur, WithExtension(cur, BACKUP_EXTENSION)};
      disk.files - touched == old(disk.files) - touched
  {
    BackupIsAnotherFile(cur);
    ghost var n := |disk.history|;
    ghost var image := disk.files[cur];
    var movedBin := WithExtension(cur, BACKUP_EXTENSION);
    var error := disk.Rename(cur, movedBin, o.moveOld);
    if error.Some? {
      return false;
    }
    assert disk.history[n..] == [disk.files];
    ghost var moved := disk.files;
    error := disk.Rename(tmp, cur, o.moveNew);
    assert disk.history[n..] == [moved, disk.files];
    if error.None? {
      return true;
    }
    if error.value != ERROR_NOT_SAME_DEVICE {
      return false;
    }
    ghost var past := disk.history;
    ok := disk.Copy(tmp, cur, o.copyStopsAfter);
    assert movedBin in moved - {cur};
    ghost var touched := {tmp, cur, movedBin};
    assert (disk.files - {cur}) - touched == disk.files - touched;
    assert (moved - {cur}) - touched == moved - touched;
    assert (disk.files - {cur})[movedBin] == image;
    forall f | f in disk.history[n..] ensures OldIsSafe(f, cur, image) {
      if f in disk.history[|past|..] {
        assert (f - {cur})[movedBin] == image;
      } else {
        assert f in past[n..];
      }
    }
  }

  /** Where `update` got to. */
  datatype Outcome = Skipped | NoRelease | Declined | Failed | Restarted(viaMsi: bool)

  /** The answers of the world to one `update`; `msi` is that of the installer, if the program was installed by it. */
  datatype World = World(
    check: bool,
    release: Result<bool>,
    approved: bool,
    msi: Option<bool>,
    asset: bool,
    downloaded: bool,
    swap: SwapFaults,
    spawned: bool)

  /** The new program is in place, by the installer or by the swap. */
  predicate Replaced(w: World, size: nat) {
    if w.msi.Some? then w.msi.value else SwapWorks(w.swap, size)
  }

  /**
   `update`: the new executable is started only after the installer or the swap went through. What
   the installer itself does to the disk is not part of this model.
   */
  method PerformUpdate(disk: Disk, tmp: Path, cur: Path, w: World) returns (r: Outcome)
    requires cur != [] && cur in disk.files
    requires w.downloaded ==> tmp in disk.files && tmp != cur && tmp != WithExtension(cur, BACKUP_EXTENSION)
    modifies disk
    ensures r.Restarted? <==>
      && w.check && w.release == Ok(true) && w.approved && w.asset && w.downloaded
      && Replaced(w, |old(disk.files)[tmp]|) && w.spawned
    ensures r.Restarted? ==> (r.viaMsi <==> w.msi.Some?)
    ensures r == Restarted(false) ==> w.downloaded && cur in disk.files && disk.files[cur] == old(disk.files)[tmp]
    ensures r == Skipped || r == NoRelease || r == Declined || !w.downloaded || w.msi.Some? ==>
      disk.files == old(disk.files)
    ensures OldIsSafe(disk.files, cur, old(disk.files)[cur])
  {
    if !w.check {
      return Skipped;
    }
    if w.release.Err? {
      return Failed;
    }
    if !w.release.value {
      return NoRelease;
    }
    if !w.approved {
      return Declined;
    }
    if !w.asset || !w.downloaded {
      return Failed;
    }
    var ok;
    if w.msi.Some? {
      ok := w.msi.value;
    } else {
      ok := UpdateViaExeSwap(disk, tmp, cur, w.swap);
    }
    if !ok || !w.spawned {
      return Failed;
    }
    r := Restarted(w.msi.Some?);
  }

  // ---------------------------------------------------------------- the check marker

  /** In seconds. */
  const UPDATE_CHECK_INTERVAL := 168 * 60 * 60

  /** One call of `should_check_for_update`; the marker's directory may be unknown and writing it may fail. */
  datatype Call = Call(now: int, metered: bool, markerPath: bool, writes: bool)

  predicate CheckedRecently(marker: Option<int>, now: int) {
    marker.Some? && now >= marker.value && now - marker.value < UPDATE_CHECK_INTERVAL
  }

  /** The decision and the modification time of the marker afterwards. */
  function Check(marker: Option<int>, c: Call): (bool, Option<int>) {
    if c.metered then (false, marker)
    else if !c.markerPath then (true, marker)
    else if CheckedRecently(marker, c.now) then (false, marker)
    else (true, if c.writes then Some(c.now) else marker)
  }

  class Marker {
    var modified: Option<int>

    method ShouldCheckForUpdate(c: Call) returns (proceed: bool)
      modifies this
      ensures (proceed, modified) == Check(old(modified), c)
    {
      if c.metered {
        return false;
      }
      if !c.markerPath {
        return true;
      }
      if modified.Some? && c.now >= modified.value && c.now - modified.value < UPDATE_CHECK_INTERVAL {
        return false;
      }
      if c.writes {
        modified := Some(c.now);
      }
      proceed := true;
    }
  }

  /** The marker after a trace of calls. */
  function MarkerAfter(marker: Option<int>, calls: seq<Call>): Option<int> {
    if calls == [] then marker
    else Check(MarkerAfter(marker, calls[..|calls| - 1]), calls[|calls| - 1]).1
  }

  predicate Proceeds(marker: Option<int>, calls: seq<Call>, i: nat)
    requires i < |calls|
  {
    Check(MarkerAfter(marker, calls[..i]), calls[i]).0
  }

  ghost predicate Reliable(calls: seq<Call>) {
    && (forall i :: 0 <= i < |calls| ==> calls[i].markerPath && calls[i].writes)
    && (forall i, j :: 0 <= i <= j < |calls| ==> calls[i].now <= calls[j].now)
  }

  /** After a call that proceeded, the marker is at least as recent as it. */
  lemma {:induction false} MarkerKeepsUp(marker: Option<int>, calls: seq<Call>, i: nat, j: nat)
    requires Reliable(calls) && i < j <= |calls| && Proceeds(marker, calls, i)
    ensures var m := MarkerAfter(marker, calls[..j]); m.Some? && calls[i].now <= m.value <= calls[j - 1].now
    decreases j
  {
    assert calls[..j][..j - 1] == calls[..j - 1];
    if j > i + 1 {
      MarkerKeepsUp(marker, calls, i, j - 1);
    }
  }

  /** With a clock that never goes back and a marker that gets written, two checks are a week apart. */
  lemma ChecksAreAWeekApart(marker: Option<int>, calls: seq<Call>, i: nat, j: nat)
    requires Reliable(calls) && i < j < |calls| && Proceeds(marker, calls, i) && Proceeds(marker, calls, j)
    ensures calls[j].now - calls[i].now >= UPDATE_CHECK_INTERVAL
  {
    MarkerKeepsUp(marker, calls, i, j);
  }

  /** A call that does not go ahead leaves the marker alone. */
  lemma {:induction false} MarkerStays(marker: Option<int>, calls: seq<Call>, i: nat, j: nat)
    requires i < j <= |calls| && (forall k :: i < k < j ==> !Proceeds(marker, calls, k))
    ensures MarkerAfter(marker, calls[..j]) == MarkerAfter(marker, calls[..i + 1])
    decreases j
  {
    if j > i + 1 {
      assert calls[..j][..j - 1] == calls[..j - 1];
      MarkerStays(marker, calls, i, j - 1);
      assert !Proceeds(marker, calls, j - 1);
    }
  }

  /**
   On any trace, whatever the clock and the marker do: when the next call that is not held back by
   a metered connection goes ahead after one that did. A clock set back lets it through at once, and
   so does a marker that was not written.
   */
  lemma NextCheckProceedsIff(marker: Option<int>, calls: seq<Call>, i: nat, j: nat)
    requires i < j < |calls| && Proceeds(marker, calls, i) && !calls[j].metered
    requires forall k :: i < k < j ==> !Proceeds(marker, calls, k)
    ensures var (c, d) := (calls[i], calls[j]);
      Proceeds(marker, calls, j) <==>
        || !d.markerPath
        || (c.markerPath && c.writes && (d.now < c.now || d.now - c.now >= UPDATE_CHECK_INTERVAL))
        || (!(c.markerPath && c.writes) && !CheckedRecently(MarkerAfter(marker, calls[..i]), d.now))
  {
    MarkerStays(marker, calls, i, j);
    assert calls[..i + 1][..i] == calls[..i];
  }

  /** A clock set back by a minute: the second check comes at once. */
  const SET_BACK: seq<Call> := [Call(600, false, true, true), Call(600, true, true, true), Call(540, false, true, true)]

  /** A marker that could not be written: the same an hour later. */
  const UNWRITTEN: seq<Call> := [Call(0, false, true, false), Call(3600, false, true, true)]

  /** Without its assumptions `ChecksAreAWeekApart` fails. */
  lemma ChecksCanBeCloser()
    ensures Proceeds(None, SET_BACK, 0) && Proceeds(None, SET_BACK, 2)
    ensures SET_BACK[2].now - SET_BACK[0].now < UPDATE_CHECK_INTERVAL
    ensures Proceeds(None, UNWRITTEN, 0) && Proceeds(None, UNWRITTEN, 1)
    ensures UNWRITTEN[1].now - UNWRITTEN[0].now < UPDATE_CHECK_INTERVAL
  {
    assert SET_BACK[..1][..0] == [] && SET_BACK[..2][..1] == SET_BACK[..1];
    assert MarkerAfter(None, SET_BACK[..1]) == Some(600);
    assert MarkerAfter(None, SET_BACK[..2]) == Some(600);
    assert UNWRITTEN[..1][..0] == [];
    assert MarkerAfter(None, UNWRITTEN[..1]) == None;
  }
}
