/** The log file of burnt-sushi/src/logger/file.rs. */
module LogFile {
  import opened Wrappers
  import opened Utf8

  const MAX_SIZE := 10 * 1024 * 1024
  const KEPT_SIZE := 1024 * 1024

  // ---------------------------------------------------------------- truncation

  /** `t` is what follows some newline of `c`. */
  ghost predicate IsLineTail(c: seq<byte>, t: seq<byte>) {
    exists i :: 0 <= i < |c| && c[i] == NEWLINE && t == c[i + 1..]
  }

  /** The tail of `c` that starts after the first newline, from `from` on, that leaves little enough. */
  function TruncatedFrom(c: seq<byte>, from: nat): seq<byte>
    requires from <= |c|
    decreases |c| - from
  {
    if from == |c| then []
    else if c[from] == NEWLINE && |c| - (from + 1) <= KEPT_SIZE then c[from + 1..]
    else TruncatedFrom(c, from + 1)
  }

  function Truncated(c: seq<byte>): seq<byte> {
    TruncatedFrom(c, 0)
  }

  lemma {:induction false} TruncatedFromIsLongest(c: seq<byte>, from: nat)
    requires from <= |c|
    ensures var t := TruncatedFrom(c, from);
      && |t| <= KEPT_SIZE
      && (t == [] || IsLineTail(c, t))
      && (forall i :: from <= i < |c| && c[i] == NEWLINE && |c| - (i + 1) <= KEPT_SIZE ==> |c| - (i + 1) <= |t|)
    decreases |c| - from
  {
    if from < |c| && !(c[from] == NEWLINE && |c| - (from + 1) <= KEPT_SIZE) {
      TruncatedFromIsLongest(c, from + 1);
    }
  }

  /** Truncation keeps the longest tail that begins a line and is at most 1 MiB, nothing if there is none. */
  lemma TruncationIsLongest(c: seq<byte>)
    ensures |Truncated(c)| <= KEPT_SIZE
    ensures Truncated(c) == [] || IsLineTail(c, Truncated(c))
    ensures forall t :: IsLineTail(c, t) && |t| <= KEPT_SIZE ==> |t| <= |Truncated(c)|
  {
    TruncatedFromIsLongest(c, 0);
  }

  /** The cut falls between code points. */
  lemma TruncationKeepsUtf8(c: seq<byte>)
    requires Valid(c)
    ensures Valid(Truncated(c))
  {
    TruncationIsLongest(c);
    if Truncated(c) != [] {
      var i :| 0 <= i < |c| && c[i] == NEWLINE && Truncated(c) == c[i + 1..];
      ValidAfterNewline(c, i);
    }
  }

  method Truncate(contents: seq<byte>) returns (truncated: seq<byte>)
    requires Valid(contents)
    ensures truncated == Truncated(contents)
    ensures Valid(truncated)
  {
    truncated := [];
    var index := 0;
    while index < |contents|
      invariant 0 <= index <= |contents| && truncated == []
      invariant Truncated(contents) == TruncatedFrom(contents, index)
    {
      if contents[index] == NEWLINE {
        var succeeding := contents[index + 1..];
        if |succeeding| > KEPT_SIZE {
          index := index + 1;
          continue;
        }
        truncated := truncated + succeeding;
        break;
      }
      index := index + 1;
    }
    TruncationKeepsUtf8(contents);
  }

  // ---------------------------------------------------------------- the file and its writer

  /** An open file: in append mode writes go to the end, otherwise to `position`. */
  datatype Handle = Handle(append: bool, position: nat)

  class LogDisk {
    var bytes: seq<byte>

    constructor ()
      ensures bytes == []
    {
      bytes := [];
    }
  }

  /** The contents right after opening. */
  function Opened(f: seq<byte>): seq<byte> {
    if |f| > MAX_SIZE then Truncated(f) else f
  }

  /**
   A system error while opening: before the size is known, while reading the file that is due for
   truncation or clearing it, or while writing back, after `kept` bytes.
   */
  datatype Fault = NoFault | Opening | Reading | WritingBack(kept: nat)

  /** Opening works: only a file due for truncation has to be read, and it must be UTF-8. */
  predicate Opens(f: seq<byte>, fault: Fault) {
    fault != Opening && (|f| <= MAX_SIZE || (Valid(f) && fault == NoFault))
  }

  function Line(message: seq<byte>): seq<byte> {
    message + [NEWLINE]
  }

  /** What gets into the file of a message's line. */
  function Written(message: seq<byte>, stopsAfter: Option<nat>): seq<byte> {
    match stopsAfter
    case None => Line(message)
    case Some(n) => if n <= |Line(message)| then Line(message)[..n] else Line(message)
  }

  /** Writing `data` over `f` from `at` on. */
  function Overwrite(f: seq<byte>, at: nat, data: seq<byte>): seq<byte>
    requires at <= |f|
  {
    f[..at] + data + (if at + |data| <= |f| then f[at + |data|..] else [])
  }

  class FileLog {
    const disk: LogDisk
    var file: Option<Handle>

    constructor (disk: LogDisk)
      ensures this.disk == disk && file == None
    {
      this.disk := disk;
      file := None;
    }

    /** With one writer, the next write goes to the end of the file. */
    ghost predicate Ready()
      reads this, disk
    {
      file.Some? && (file.value.append || file.value.position == |disk.bytes|)
    }

    /**
     Opens once. A failed write-back leaves the first bytes of the tail that was to be kept; any
     other failure leaves the file as it was.
     */
    method OpenFile(fault: Fault) returns (ok: bool)
      requires file.Some? ==> Ready()
      modifies this, disk
      ensures ok <==> old(file).Some? || Opens(old(disk.bytes), fault)
      ensures ok ==> Ready()
      ensures ok ==> disk.bytes == if old(file).None? then Opened(old(disk.bytes)) else old(disk.bytes)
      ensures !ok ==> file == None
      ensures !ok && disk.bytes != old(disk.bytes) ==>
        fault.WritingBack? && |disk.bytes| <= fault.kept && disk.bytes <= Truncated(old(disk.bytes))
    {
      if file.Some? {
        return true;
      }
      if fault == Opening {
        return false;
      }
      var handle := Handle(true, 0);
      if |disk.bytes| > MAX_SIZE {
        handle := Handle(false, 0);
        if !Valid(disk.bytes) || fault == Reading {
          return false;
        }
        var truncated := Truncate(disk.bytes);
        disk.bytes := [];
        if fault.WritingBack? {
          disk.bytes := if fault.kept < |truncated| then truncated[..fault.kept] else truncated;
          return false;
        }
        disk.bytes := truncated;
        handle := Handle(false, |truncated|);
      }
      file := Some(handle);
      ok := true;
    }

    method Write(data: seq<byte>)
      requires Ready()
      modifies this, disk
      ensures Ready() && disk.bytes == old(disk.bytes) + data
    {
      if file.value.append {
        disk.bytes := disk.bytes + data;
      } else {
        disk.bytes := Overwrite(disk.bytes, file.value.position, data);
        file := Some(Handle(false, file.value.position + |data|));
      }
    }

    /**
     One message and its newline. Failing to open is a panic, and so is a write that stops after some
     bytes, which leaves those in the file.
     */
    method Log(message: seq<byte>, fault: Fault, stopsAfter: Option<nat>) returns (ok: bool)
      requires file.Some? ==> Ready()
      modifies this, disk
      ensures ok <==> (old(file).Some? || Opens(old(disk.bytes), fault)) && stopsAfter.None?
      ensures ok ==> Ready()
      ensures old(file).Some? || Opens(old(disk.bytes), fault) ==>
        var start := if old(file).None? then Opened(old(disk.bytes)) else old(disk.bytes);
        disk.bytes == start + Written(message, stopsAfter)
    {
      ok := OpenFile(fault);
      if ok {
        Write(Written(message, stopsAfter));
        ok := stopsAfter.None?;
      }
    }
  }

  // ---------------------------------------------------------------- any number of sessions

  function Lines(messages: seq<seq<byte>>): seq<byte> {
    if messages == [] then []
    else Lines(messages[..|messages| - 1]) + Line(messages[|messages| - 1])
  }

  /** The file after one run of the program that logged `messages`; it is opened by the first of them. */
  function Session(f: seq<byte>, messages: seq<seq<byte>>): seq<byte> {
    if messages == [] then f else Opened(f) + Lines(messages)
  }

  ghost predicate AllValid(messages: seq<seq<byte>>) {
    forall m :: m in messages ==> Valid(m)
  }

  lemma SessionGrows(f: seq<byte>, messages: seq<seq<byte>>, i: nat)
    requires i < |messages|
    ensures Session(f, messages[..i + 1])
         == (if i == 0 then Opened(f) else Session(f, messages[..i])) + Line(messages[i])
  {
    assert messages[..i + 1][..i] == messages[..i];
    var start, line := Opened(f), Line(messages[i]);
    assert start + (Lines(messages[..i]) + line) == start + Lines(messages[..i]) + line;
    if i == 0 {
      assert Opened(f) + Lines(messages[..0]) == Opened(f);
    }
  }

  /** A session of the real writer does what `Session` says and never panics on a UTF-8 file. */
  method RunSession(disk: LogDisk, messages: seq<seq<byte>>) returns (ok: bool)
    requires Valid(disk.bytes) && AllValid(messages)
    modifies disk
    ensures ok && disk.bytes == Session(old(disk.bytes), messages)
  {
    var log := new FileLog(disk);
    var i := 0;
    ok := true;
    while i < |messages|
      invariant 0 <= i <= |messages| && ok
      invariant log.disk == disk && fresh(log)
      invariant log.file.None? <==> i == 0
      invariant log.file.Some? ==> log.Ready()
      invariant disk.bytes == Session(old(disk.bytes), messages[..i])
    {
      SessionGrows(old(disk.bytes), messages, i);
      ok := log.Log(messages[i], NoFault, None);
      i := i + 1;
    }
    assert messages[..i] == messages;
  }

  /** The file after all sessions, starting from an empty one. */
  function File(sessions: seq<seq<seq<byte>>>): seq<byte> {
    if sessions == [] then []
    else Session(File(sessions[..|sessions| - 1]), sessions[|sessions| - 1])
  }

  /** Everything ever logged. */
  function Everything(sessions: seq<seq<seq<byte>>>): seq<byte> {
    if sessions == [] then []
    else Everything(sessions[..|sessions| - 1]) + Lines(sessions[|sessions| - 1])
  }

  /** `f` is what `all` says from some line on. */
  ghost predicate FromSomeLine(f: seq<byte>, all: seq<byte>) {
    exists p :: 0 <= p <= |all| && f == all[p..] && (p == 0 || all[p - 1] == NEWLINE)
  }

  lemma EndsWithNewline(messages: seq<seq<byte>>)
    requires messages != []
    ensures Lines(messages) != [] && Lines(messages)[|Lines(messages)| - 1] == NEWLINE
  {
  }

  lemma {:induction false} EverythingEndsWithNewline(sessions: seq<seq<seq<byte>>>)
    ensures var e := Everything(sessions); e == [] || e[|e| - 1] == NEWLINE
  {
    if sessions != [] {
      EverythingEndsWithNewline(sessions[..|sessions| - 1]);
      if sessions[|sessions| - 1] != [] {
        EndsWithNewline(sessions[|sessions| - 1]);
      }
    }
  }

  /** What follows a line break within a tail of `all` is a tail of `all` from some line on. */
  lemma TailOfTail(all: seq<byte>, p: nat, i: nat)
    requires p <= |all| && i < |all| - p && all[p + i] == NEWLINE
    ensures FromSomeLine(all[p..][i + 1..], all)
  {
    assert all[p..][i + 1..] == all[p + i + 1..];
  }

  /** A line tail of what starts at some line starts at some line. */
  lemma LineTailFromSomeLine(f: seq<byte>, all: seq<byte>, t: seq<byte>)
    requires FromSomeLine(f, all) && IsLineTail(f, t)
    ensures FromSomeLine(t, all)
  {
    var p :| 0 <= p <= |all| && f == all[p..] && (p == 0 || all[p - 1] == NEWLINE);
    var i :| 0 <= i < |f| && f[i] == NEWLINE && t == f[i + 1..];
    TailOfTail(all, p, i);
  }

  /** Truncating once more leaves a later line to start from. */
  lemma OpenedFromSomeLine(f: seq<byte>, all: seq<byte>)
    requires FromSomeLine(f, all) && (all == [] || all[|all| - 1] == NEWLINE)
    ensures FromSomeLine(Opened(f), all)
  {
    var t := Opened(f);
    if t != f {
      TruncationIsLongest(f);
      if t == [] {
        assert t == all[|all|..];
      } else {
        LineTailFromSomeLine(f, all, t);
      }
    }
  }

  lemma MoreFromSomeLine(f: seq<byte>, all: seq<byte>, more: seq<byte>)
    requires FromSomeLine(f, all)
    ensures FromSomeLine(f + more, all + more)
  {
    var p :| 0 <= p <= |all| && f == all[p..] && (p == 0 || all[p - 1] == NEWLINE);
    assert f + more == (all + more)[p..];
  }

  /** Over any sessions, the file is everything ever logged from some line on. */
  lemma {:induction false} FileIsARecentPast(sessions: seq<seq<seq<byte>>>)
    ensures FromSomeLine(File(sessions), Everything(sessions))
  {
    if sessions == [] {
      assert File(sessions) == Everything(sessions)[0..];
    } else {
      var before, last := sessions[..|sessions| - 1], sessions[|sessions| - 1];
      FileIsARecentPast(before);
      if last == [] {
        assert Everything(sessions) == Everything(before);
      } else {
        EverythingEndsWithNewline(before);
        OpenedFromSomeLine(File(before), Everything(before));
        MoreFromSomeLine(Opened(File(before)), Everything(before), Lines(last));
      }
    }
  }

  /** Opening leaves at most 10 MiB, and behind them stands every message of the session, in full and in order. */
  lemma SessionIsKept(sessions: seq<seq<seq<byte>>>)
    requires sessions != [] && sessions[|sessions| - 1] != []
    ensures var (f, last) := (File(sessions), sessions[|sessions| - 1]);
      exists kept :: |kept| <= MAX_SIZE && f == kept + Lines(last)
  {
    var before := File(sessions[..|sessions| - 1]);
    TruncationIsLongest(before);
    assert |Opened(before)| <= MAX_SIZE;
  }

  lemma {:induction false} LinesAreUtf8(messages: seq<seq<byte>>)
    requires AllValid(messages)
    ensures Valid(Lines(messages))
  {
    if messages != [] {
      var n := |messages| - 1;
      LinesAreUtf8(messages[..n]);
      assert [NEWLINE][1..] == [];
      ValidConcat(messages[n], [NEWLINE]);
      ValidConcat(Lines(messages[..n]), Line(messages[n]));
    }
  }

  /** The file stays UTF-8, so opening it never fails on its contents. */
  lemma {:induction false} FileIsUtf8(sessions: seq<seq<seq<byte>>>)
    requires forall s :: s in sessions ==> AllValid(s)
    ensures Valid(File(sessions))
  {
    if sessions != [] {
      var n := |sessions| - 1;
      FileIsUtf8(sessions[..n]);
      if |File(sessions[..n])| > MAX_SIZE {
        TruncationKeepsUtf8(File(sessions[..n]));
      }
      LinesAreUtf8(sessions[n]);
      ValidConcat(Opened(File(sessions[..n])), Lines(sessions[n]));
    }
  }
}
