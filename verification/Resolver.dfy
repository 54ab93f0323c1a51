/**
 Where the blocker module and the filter configuration come from, as in burnt-sushi/src/resolver.rs,
 over an abstract file system. Versions, text decoding and TOML are given as functions; so is which
 directories and files the system lets the host create. All names, `DEFAULT_BLOCKER_FILE_NAME` and
 `FILTER_NAME` among them, are taken as the system folds them, so equal paths are the same file.
 */
module Resolver {
  import opened Wrappers
  import opened Paths

  datatype Node = Dir | File(content: string)

  type Nodes = map<Path, Node>

  /** What comes of a write; a failing one may leave part of a file behind. */
  datatype Write = Written | Refused | Partial(content: string)

  /** `Panic` is the `unwrap` of the parent of a path that has none. */
  datatype Outcome<+T> = Found(value: T) | NotFound | Panic

  datatype Env = Env(
    embeddedBlocker: string,
    embeddedFilters: string,
    isCurrent: string -> bool,
    isText: string -> bool,
    parses: string -> Option<nat>,
    exeDir: Option<Path>,
    tempParent: Option<Path>,
    mayCreateDir: Path -> bool,
    write: Path -> Write)

  const FILTER_NAME := "filter.toml"
  const AUTHOR := "OpenByteDev"
  const APP_DIR := "BurntSushi v0.3.3"

  function SiblingBlocker(e: Env): Option<Path> {
    if e.exeDir.None? then None else Some(e.exeDir.value + [DEFAULT_BLOCKER_FILE_NAME])
  }

  function TempBlocker(e: Env): Option<Path> {
    if e.tempParent.None? then None else Some(e.tempParent.value + [AUTHOR, APP_DIR, DEFAULT_BLOCKER_FILE_NAME])
  }

  function SiblingFilters(e: Env): Option<Path> {
    if e.exeDir.None? then None else Some(e.exeDir.value + [FILTER_NAME])
  }

  predicate IsFile(n: Nodes, p: Path) {
    p in n && n[p].File?
  }

  predicate IsDir(n: Nodes, p: Path) {
    p in n && n[p].Dir?
  }

  /** The first `j + 1` components of a path. */
  function Upto(p: Path, j: nat): Path
    requires j < |p|
  {
    p[..j + 1]
  }

  predicate Above(q: Path, p: Path) {
    |q| < |p| && q == p[..|q|]
  }

  // ---------------------------------------------------------------- what the file operations do

  /** `create_dir_all(p)` from its first `k` components on; it stops at the first component it cannot have. */
  function MakeDirs(e: Env, n: Nodes, p: Path, k: nat): (Nodes, bool)
    requires k <= |p|
    decreases |p| - k
  {
    if k == |p| then (n, true)
    else
      var q := Upto(p, k);
      if IsFile(n, q) then (n, false)
      else if IsDir(n, q) then MakeDirs(e, n, p, k + 1)
      else if e.mayCreateDir(q) then MakeDirs(e, n[q := Dir], p, k + 1)
      else (n, false)
  }

  function WriteFile(e: Env, n: Nodes, p: Path, content: string): (Nodes, bool) {
    if IsDir(n, p) then (n, false)
    else
      match e.write(p)
      case Written => (n[p := File(content)], true)
      case Refused => (n, false)
      case Partial(c) => (n[p := File(c)], false)
  }

  /** Create the parent directories of `p`, then write it. */
  function Place(e: Env, n: Nodes, p: Path, content: string): (Nodes, bool)
    requires p != []
  {
    var (m, ok) := MakeDirs(e, n, p[..|p| - 1], 0);
    if ok then WriteFile(e, m, p, content) else (m, false)
  }

  /** The file system, the outcome, and whether a file was written in full. */
  datatype Loaded<+T> = Loaded(nodes: Nodes, outcome: Outcome<T>, wrote: bool)

  function LoadBlocker(e: Env, n: Nodes, p: Path, checkVersion: bool, writeIfAbsent: bool): Loaded<Path> {
    if IsFile(n, p) && (checkVersion ==> e.isCurrent(n[p].content)) then Loaded(n, Found(p), false)
    else if !writeIfAbsent then Loaded(n, NotFound, false)
    else if p == [] then Loaded(n, Panic, false)
    else
      var (m, ok) := Place(e, n, p, e.embeddedBlocker);
      Loaded(m, if ok then Found(p) else NotFound, ok)
  }

  function ResolveBlocker(e: Env, n: Nodes, provided: Option<Path>): Loaded<Path> {
    var first := if provided.Some? then LoadBlocker(e, n, provided.value, false, true) else Loaded(n, NotFound, false);
    if !first.outcome.NotFound? then first
    else
      var sibling := SiblingBlocker(e);
      var second := if sibling.Some? then LoadBlocker(e, first.nodes, sibling.value, true, false) else first;
      if !second.outcome.NotFound? then second
      else if TempBlocker(e).Some? then LoadBlocker(e, second.nodes, TempBlocker(e).value, true, true)
      else second
  }

  // ---------------------------------------------------------------- filter configurations

  function Parse(e: Env, text: string): Outcome<nat> {
    match e.parses(text)
    case Some(cfg) => Found(cfg)
    case None => NotFound
  }

  predicate IsReadable(e: Env, n: Nodes, p: Path) {
    IsFile(n, p) && e.isText(n[p].content)
  }

  function LoadConfig(e: Env, n: Nodes, path: Option<Path>, writeIfAbsent: bool): Loaded<nat> {
    match path
    case None => Loaded(n, Parse(e, e.embeddedFilters), false)
    case Some(p) =>
      if IsReadable(e, n, p) then Loaded(n, Parse(e, n[p].content), false)
      else if !writeIfAbsent then Loaded(n, NotFound, false)
      else if p == [] then Loaded(n, Panic, false)
      else
        var (m, ok) := Place(e, n, p, e.embeddedFilters);
        Loaded(m, if ok then Parse(e, e.embeddedFilters) else NotFound, ok)
  }

  function ResolveConfig(e: Env, n: Nodes, provided: Option<Path>): Loaded<nat> {
    var first := if provided.Some? then LoadConfig(e, n, provided, true) else Loaded(n, NotFound, false);
    if !first.outcome.NotFound? then first
    else
      var second := if SiblingFilters(e).Some? then LoadConfig(e, first.nodes, SiblingFilters(e), false) else first;
      if !second.outcome.NotFound? then second
      else LoadConfig(e, second.nodes, None, false)
  }

  // ---------------------------------------------------------------- the code

  class FileSystem {
    var nodes: Nodes

    method CreateDirAll(e: Env, p: Path) returns (ok: bool)
      modifies this
      ensures (nodes, ok) == MakeDirs(e, old(nodes), p, 0)
    {
      var k := 0;
      while k < |p|
        invariant 0 <= k <= |p|
        invariant MakeDirs(e, nodes, p, k) == MakeDirs(e, old(nodes), p, 0)
      {
        var q := Upto(p, k);
        if IsFile(nodes, q) {
          return false;
        }
        if !IsDir(nodes, q) {
          if !e.mayCreateDir(q) {
            return false;
          }
          nodes := nodes[q := Dir];
        }
        k := k + 1;
      }
      ok := true;
    }

    method WriteAll(e: Env, p: Path, content: string) returns (ok: bool)
      modifies this
      ensures (nodes, ok) == WriteFile(e, old(nodes), p, content)
    {
      if IsDir(nodes, p) {
        return false;
      }
      match e.write(p) {
        case Written =>
          nodes := nodes[p := File(content)];
          ok := true;
        case Refused =>
          ok := false;
        case Partial(c) =>
          nodes := nodes[p := File(c)];
          ok := false;
      }
    }

    method TryLoadBlocker(e: Env, p: Path, checkVersion: bool, writeIfAbsent: bool)
      returns (o: Outcome<Path>, wrote: bool)
      modifies this
      ensures Loaded(nodes, o, wrote) == LoadBlocker(e, old(nodes), p, checkVersion, writeIfAbsent)
    {
      wrote := false;
      if IsFile(nodes, p) {
        if !checkVersion || e.isCurrent(nodes[p].content) {
          return Found(p), false;
        }
      }
      if !writeIfAbsent {
        return NotFound, false;
      }
      if p == [] {
        return Panic, false;
      }
      var ok := CreateDirAll(e, p[..|p| - 1]);
      if !ok {
        return NotFound, false;
      }
      wrote := WriteAll(e, p, e.embeddedBlocker);
      o := if wrote then Found(p) else NotFound;
    }

    method Resolve(e: Env, provided: Option<Path>) returns (o: Outcome<Path>, wrote: bool)
      modifies this
      ensures Loaded(nodes, o, wrote) == ResolveBlocker(e, old(nodes), provided)
    {
      if provided.Some? {
        o, wrote := TryLoadBlocker(e, provided.value, false, true);
        if !o.NotFound? {
          return;
        }
      }
      var sibling := SiblingBlocker(e);
      if sibling.Some? {
        o, wrote := TryLoadBlocker(e, sibling.value, true, false);
        if !o.NotFound? {
          return;
        }
      }
      var temp := TempBlocker(e);
      if temp.Some? {
        o, wrote := TryLoadBlocker(e, temp.value, true, true);
        return;
      }
      o, wrote := NotFound, false;
    }

    method TryLoadConfig(e: Env, path: Option<Path>, writeIfAbsent: bool) returns (o: Outcome<nat>, wrote: bool)
      modifies this
      ensures Loaded(nodes, o, wrote) == LoadConfig(e, old(nodes), path, writeIfAbsent)
    {
      wrote := false;
      if path.None? {
        return Parse(e, e.embeddedFilters), false;
      }
      var p := path.value;
      if IsReadable(e, nodes, p) {
        return Parse(e, nodes[p].content), false;
      }
      if !writeIfAbsent {
        return NotFound, false;
      }
      if p == [] {
        return Panic, false;
      }
      var ok := CreateDirAll(e, p[..|p| - 1]);
      if !ok {
        return NotFound, false;
      }
      wrote := WriteAll(e, p, e.embeddedFilters);
      o := if wrote then Parse(e, e.embeddedFilters) else NotFound;
    }

    method ResolveFilterConfig(e: Env, provided: Option<Path>) returns (o: Outcome<nat>)
      modifies this
      ensures var r := ResolveConfig(e, old(nodes), provided); o == r.outcome && nodes == r.nodes
    {
      var wrote;
      if provided.Some? {
        o, wrote := TryLoadConfig(e, provided, true);
        if !o.NotFound? {
          return;
        }
      }
      var sibling := SiblingFilters(e);
      if sibling.Some? {
        o, wrote := TryLoadConfig(e, sibling, false);
        if !o.NotFound? {
          return;
        }
      }
      o, wrote := TryLoadConfig(e, None, false);
    }
  }

  // ---------------------------------------------------------------- what the file operations keep

  /** From `n` to `m`, only `target` and the directories above it changed, and only as the system allows. */
  ghost predicate Grows(e: Env, n: Nodes, m: Nodes, target: Path) {
    && (forall q :: IsDir(n, q) ==> IsDir(m, q))
    && (forall q :: IsFile(n, q) ==> IsFile(m, q) && (q != target ==> m[q] == n[q]))
    && (forall q :: q in m && q !in n && q != target ==> Above(q, target) && m[q] == Dir && e.mayCreateDir(q))
    && (IsDir(m, target) ==> IsDir(n, target))
  }

  lemma {:induction false} MakeDirsGrows(e: Env, n: Nodes, p: Path, k: nat, target: Path)
    requires k <= |p| && Above(p, target)
    ensures Grows(e, n, MakeDirs(e, n, p, k).0, target)
    ensures forall q :: q !in n && q in MakeDirs(e, n, p, k).0 ==> q != target
    ensures target in n ==> MakeDirs(e, n, p, k).0[target] == n[target]
    decreases |p| - k
  {
    if k < |p| {
      var q := Upto(p, k);
      assert Above(q, target);
      if IsDir(n, q) {
        MakeDirsGrows(e, n, p, k + 1, target);
      } else if !IsFile(n, q) && e.mayCreateDir(q) {
        var made := n[q := Dir];
        MakeDirsGrows(e, made, p, k + 1, target);
        assert IsDir(made, q);
        assert forall r :: IsDir(n, r) ==> IsDir(made, r);
        assert forall r :: IsFile(n, r) ==> IsFile(made, r) && made[r] == n[r];
      }
    }
  }

  lemma PlaceGrows(e: Env, n: Nodes, p: Path, content: string)
    requires p != []
    ensures Grows(e, n, Place(e, n, p, content).0, p)
  {
    MakeDirsGrows(e, n, p[..|p| - 1], 0, p);
  }

  lemma LoadGrows(e: Env, n: Nodes, p: Path, checkVersion: bool, writeIfAbsent: bool)
    ensures Grows(e, n, LoadBlocker(e, n, p, checkVersion, writeIfAbsent).nodes, p)
    ensures !writeIfAbsent ==> LoadBlocker(e, n, p, checkVersion, writeIfAbsent).nodes == n
  {
    if p != [] {
      PlaceGrows(e, n, p, e.embeddedBlocker);
    }
  }

  /** A found blocker is a file, and of the current version where that is checked. */
  lemma LoadFinds(e: Env, n: Nodes, p: Path, checkVersion: bool, writeIfAbsent: bool)
    requires e.isCurrent(e.embeddedBlocker)
    ensures var l := LoadBlocker(e, n, p, checkVersion, writeIfAbsent);
      && (l.outcome.Found? ==>
            l.outcome.value == p && IsFile(l.nodes, p) && (checkVersion ==> e.isCurrent(l.nodes[p].content)))
      && (l.wrote ==> l.outcome.Found?)
  {
  }

  /** Any blocker but the provided one has the default name. */
  lemma FoundName(e: Env, n: Nodes, provided: Option<Path>)
    ensures var o := ResolveBlocker(e, n, provided).outcome;
      o.Found? && Some(o.value) != provided ==> FileName(o.value) == DEFAULT_BLOCKER_FILE_NAME
  {
  }

  lemma Untouched(e: Env, n: Nodes, m: Nodes, target: Path, q: Path)
    requires Grows(e, n, m, target) && q != target && !Above(q, target)
    ensures (q in m <==> q in n) && (q in n ==> m[q] == n[q])
  {
    assert IsDir(n, q) ==> IsDir(m, q);
    assert IsFile(n, q) ==> IsFile(m, q);
  }

  /** `q` is one of the places `resolve_blocker` may touch: the two it writes, and the directories above them. */
  predicate MayTouch(e: Env, provided: Option<Path>, q: Path) {
    || (provided.Some? && (q == provided.value || Above(q, provided.value)))
    || (TempBlocker(e).Some? && (q == TempBlocker(e).value || Above(q, TempBlocker(e).value)))
  }

  /**
   A resolved blocker is a regular file, the one provided or one of the current version and the
   default name; nothing but the provided and the temporary location and the directories above them
   changes; and the search panics only for a provided path without a parent.
   */
  lemma ResolvedBlocker(e: Env, n: Nodes, provided: Option<Path>)
    requires e.isCurrent(e.embeddedBlocker)
    ensures var r := ResolveBlocker(e, n, provided);
      && (r.outcome.Found? ==>
            && IsFile(r.nodes, r.outcome.value)
            && (Some(r.outcome.value) == provided
                || (e.isCurrent(r.nodes[r.outcome.value].content)
                    && FileName(r.outcome.value) == DEFAULT_BLOCKER_FILE_NAME)))
      && (forall q :: !MayTouch(e, provided, q) ==> (q in r.nodes <==> q in n) && (q in n ==> r.nodes[q] == n[q]))
      && (r.outcome.Panic? ==> provided == Some([]))
  {
    var first := if provided.Some? then LoadBlocker(e, n, provided.value, false, true) else Loaded(n, NotFound, false);
    if provided.Some? {
      LoadGrows(e, n, provided.value, false, true);
      LoadFinds(e, n, provided.value, false, true);
    }
    if SiblingBlocker(e).Some? {
      LoadFinds(e, first.nodes, SiblingBlocker(e).value, true, false);
      LoadGrows(e, first.nodes, SiblingBlocker(e).value, true, false);
    }
    if TempBlocker(e).Some? {
      LoadGrows(e, first.nodes, TempBlocker(e).value, true, true);
      LoadFinds(e, first.nodes, TempBlocker(e).value, true, true);
    }
    FoundName(e, n, provided);
    var r := ResolveBlocker(e, n, provided);
    forall q | !MayTouch(e, provided, q) ensures (q in r.nodes <==> q in n) && (q in n ==> r.nodes[q] == n[q]) {
      if provided.Some? {
        Untouched(e, n, first.nodes, provided.value, q);
      }
      if r.nodes != first.nodes {
        Untouched(e, first.nodes, r.nodes, TempBlocker(e).value, q);
      }
    }
  }

  // ---------------------------------------------------------------- calling it again

  /** Loading `p` for writing fails here and changes nothing. */
  ghost predicate Blocked(e: Env, n: Nodes, p: Path) {
    p != [] && !IsFile(n, p) && Place(e, n, p, e.embeddedBlocker) == (n, false)
  }

  /** Where directory creation stops, said without following it. */
  ghost predicate StopsAt(e: Env, n: Nodes, p: Path, k: nat) {
    && k < |p|
    && (forall j :: 0 <= j < k ==> IsDir(n, Upto(p, j)))
    && (IsFile(n, Upto(p, k)) || (Upto(p, k) !in n && !e.mayCreateDir(Upto(p, k))))
  }

  ghost predicate AllDirs(n: Nodes, p: Path) {
    forall j :: 0 <= j < |p| ==> IsDir(n, Upto(p, j))
  }

  /** After directory creation the directories are all there, or it stopped at one it cannot have. */
  lemma {:induction false} MakeDirsSettles(e: Env, n: Nodes, p: Path, k: nat)
    requires k <= |p| && forall j :: 0 <= j < k ==> IsDir(n, Upto(p, j))
    ensures var (m, ok) := MakeDirs(e, n, p, k);
      if ok then AllDirs(m, p) else exists j: nat :: StopsAt(e, m, p, j)
    decreases |p| - k
  {
    if k < |p| {
      var q := Upto(p, k);
      if IsDir(n, q) {
        MakeDirsSettles(e, n, p, k + 1);
      } else if !IsFile(n, q) && e.mayCreateDir(q) {
        MakeDirsSettles(e, n[q := Dir], p, k + 1);
      } else {
        assert StopsAt(e, n, p, k);
      }
    }
  }

  lemma {:induction false} AllDirsMakesNothing(e: Env, n: Nodes, p: Path, k: nat)
    requires k <= |p| && AllDirs(n, p)
    ensures MakeDirs(e, n, p, k) == (n, true)
    decreases |p| - k
  {
    if k < |p| {
      AllDirsMakesNothing(e, n, p, k + 1);
    }
  }

  lemma {:induction false} StoppedMakesNothing(e: Env, n: Nodes, p: Path, j: nat, k: nat)
    requires k <= j && StopsAt(e, n, p, j)
    ensures MakeDirs(e, n, p, k) == (n, false)
    decreases j - k
  {
    if k < j {
      StoppedMakesNothing(e, n, p, j, k + 1);
    }
  }

  /** Why a load for writing is blocked. */
  ghost predicate Obstacle(e: Env, n: Nodes, p: Path) {
    && p != [] && !IsFile(n, p)
    && var dir := p[..|p| - 1];
       || (exists j: nat :: StopsAt(e, n, dir, j))
       || (AllDirs(n, dir) && (IsDir(n, p) || e.write(p).Refused?))
  }

  lemma ObstacleBlocks(e: Env, n: Nodes, p: Path)
    requires Obstacle(e, n, p)
    ensures Blocked(e, n, p)
  {
    var dir := p[..|p| - 1];
    if AllDirs(n, dir) {
      AllDirsMakesNothing(e, n, dir, 0);
    } else {
      var j: nat :| StopsAt(e, n, dir, j);
      StoppedMakesNothing(e, n, dir, j, 0);
    }
  }

  /** A failed load for writing that left no file has met an obstacle. */
  lemma FailureMeetsObstacle(e: Env, n: Nodes, p: Path)
    requires LoadBlocker(e, n, p, false, true).outcome.NotFound? && !IsFile(LoadBlocker(e, n, p, false, true).nodes, p)
    ensures Obstacle(e, LoadBlocker(e, n, p, false, true).nodes, p)
  {
    MakeDirsSettles(e, n, p[..|p| - 1], 0);
  }

  /** Loading something else leaves an obstacle standing. */
  lemma ObstacleStays(e: Env, n: Nodes, m: Nodes, p: Path, target: Path)
    requires Obstacle(e, n, p) && Grows(e, n, m, target) && target != p
    ensures Obstacle(e, m, p)
  {
    var dir := p[..|p| - 1];
    assert IsDir(n, p) ==> IsDir(m, p);
    assert forall j: nat :: j < |dir| && IsDir(n, Upto(dir, j)) ==> IsDir(m, Upto(dir, j));
    if exists j: nat :: StopsAt(e, n, dir, j) {
      var j: nat :| StopsAt(e, n, dir, j);
      assert IsFile(n, Upto(dir, j)) ==> IsFile(m, Upto(dir, j));
      assert StopsAt(e, m, dir, j);
    }
  }

  /** The write to `p` fails with part of a file left there. */
  ghost predicate LeavesPart(e: Env, n: Nodes, p: Path) {
    && p != [] && !IsFile(n, p)
    && var (m, ok) := MakeDirs(e, n, p[..|p| - 1], 0);
       ok && !IsDir(m, p) && e.write(p).Partial?
  }

  /** A blocker of the current version stands next to the executable. */
  predicate SiblingIsCurrent(e: Env, n: Nodes) {
    SiblingBlocker(e).Some? && var s := SiblingBlocker(e).value; IsFile(n, s) && e.isCurrent(n[s].content)
  }

  /** The part passes for a blocker of the current version, in a place where the same search finds it. */
  ghost predicate PartTaken(e: Env, n: Nodes, p: Path) {
    && e.write(p).Partial? && e.isCurrent(e.write(p).content)
    && (SiblingBlocker(e) == Some(p) || (TempBlocker(e) == Some(p) && !SiblingIsCurrent(e, n)))
  }

  /**
   After a successful search, calling it again at once returns the same path, changes nothing and
   writes nothing, exactly unless the write to the provided path fails and leaves part of a file
   there that the first search does not itself take.
   */
  lemma SecondCall(e: Env, n: Nodes, provided: Option<Path>)
    requires e.isCurrent(e.embeddedBlocker) && ResolveBlocker(e, n, provided).outcome.Found?
    ensures var r := ResolveBlocker(e, n, provided);
      ResolveBlocker(e, r.nodes, provided) == Loaded(r.nodes, r.outcome, false)
      <==> !(provided.Some? && LeavesPart(e, n, provided.value) && !PartTaken(e, n, provided.value))
  {
    SecondCallByResult(e, n, provided);
    if provided.Some? {
      FirstLoad(e, n, provided.value);
      if LoadBlocker(e, n, provided.value, false, true).outcome.NotFound? {
        PartLeft(e, n, provided.value);
      }
    }
  }

  /** What the first load leaves at the provided path. */
  lemma FirstLoad(e: Env, n: Nodes, p: Path)
    ensures LoadBlocker(e, n, p, false, true).outcome.Found? ==> !LeavesPart(e, n, p)
    ensures LoadBlocker(e, n, p, false, true).outcome.NotFound? ==>
      (IsFile(LoadBlocker(e, n, p, false, true).nodes, p) <==> LeavesPart(e, n, p))
    ensures LeavesPart(e, n, p) ==> LoadBlocker(e, n, p, false, true).nodes[p] == File(e.write(p).content)
  {
    if p != [] && !IsFile(n, p) {
      MakeDirsGrows(e, n, p[..|p| - 1], 0, p);
    }
  }

  /** When the provided path was of no use, the search ends at it exactly if its part is taken. */
  lemma PartLeft(e: Env, n: Nodes, p: Path)
    requires LoadBlocker(e, n, p, false, true).outcome.NotFound? && ResolveBlocker(e, n, Some(p)).outcome.Found?
    ensures var r := ResolveBlocker(e, n, Some(p));
      (r.outcome.value == p || !IsFile(r.nodes, p)) <==> !(LeavesPart(e, n, p) && !PartTaken(e, n, p))
  {
    var k, r := LoadBlocker(e, n, p, false, true).nodes, ResolveBlocker(e, n, Some(p));
    FirstLoad(e, n, p);
    LoadGrows(e, n, p, false, true);
    if SiblingBlocker(e).Some? && SiblingBlocker(e).value != p {
      SameFile(e, n, k, p, SiblingBlocker(e).value);
    }
    if r.nodes != k {
      LoadGrows(e, k, TempBlocker(e).value, true, true);
      if TempBlocker(e).value != p {
        SameFile(e, k, r.nodes, TempBlocker(e).value, p);
      }
    }
  }

  /** A file other than the target is one before exactly if it is one after, and keeps its contents. */
  lemma SameFile(e: Env, n: Nodes, m: Nodes, target: Path, q: Path)
    requires Grows(e, n, m, target) && q != target
    ensures (IsFile(m, q) <==> IsFile(n, q)) && (IsFile(n, q) ==> m[q] == n[q])
  {
    assert IsDir(n, q) ==> IsDir(m, q);
  }

  /** The same, said of the path the first search found. */
  lemma SecondCallByResult(e: Env, n: Nodes, provided: Option<Path>)
    requires e.isCurrent(e.embeddedBlocker) && ResolveBlocker(e, n, provided).outcome.Found?
    ensures var r := ResolveBlocker(e, n, provided);
      ResolveBlocker(e, r.nodes, provided) == Loaded(r.nodes, r.outcome, false)
      <==> (provided.None? || provided.value == r.outcome.value || !IsFile(r.nodes, provided.value))
  {
    var r := ResolveBlocker(e, n, provided);
    var first := if provided.Some? then LoadBlocker(e, n, provided.value, false, true) else Loaded(n, NotFound, false);
    var unused := provided.None? || (provided.value != r.outcome.value && !IsFile(r.nodes, provided.value));
    if first.outcome.NotFound? && unused {
      SecondAfterProvided(e, n, first.nodes, provided);
    }
  }

  /** A system on which every write fails half-way. */
  const FULL_DISK := Env("blocker", "filters", (s: string) => s == "blocker", (s: string) => true,
                         (s: string) => None, Some(["app"]), None, (q: Path) => true, (q: Path) => Partial("bl"))

  /** The first call takes the sibling, the second the part of a file that the first one left. */
  lemma SecondCallDiffers()
    ensures var p, s := ["data", "my.dll"], ["app", DEFAULT_BLOCKER_FILE_NAME];
      var n := map[s := File("blocker")];
      var r := ResolveBlocker(FULL_DISK, n, Some(p));
      r.outcome == Found(s) && ResolveBlocker(FULL_DISK, r.nodes, Some(p)).outcome == Found(p) && p != s
  {
    var p, s := ["data", "my.dll"], ["app", DEFAULT_BLOCKER_FILE_NAME];
    var n := map[s := File("blocker")];
    assert p[..1] == ["data"];
    assert Upto(["data"], 0) == ["data"];
    var made := n[["data"] := Dir];
    assert MakeDirs(FULL_DISK, made, ["data"], 1) == (made, true);
    assert MakeDirs(FULL_DISK, n, p[..1], 0) == (made, true);
    assert LoadBlocker(FULL_DISK, n, p, false, true) == Loaded(made[p := File("bl")], NotFound, false);
    assert s != p;
    assert ["app"] + [DEFAULT_BLOCKER_FILE_NAME] == s;
  }

  lemma NoFileBefore(e: Env, n: Nodes, m: Nodes, target: Path, q: Path)
    requires Grows(e, n, m, target) && !IsFile(m, q)
    ensures !IsFile(n, q)
  {
  }

  /** The case in which the provided path was of no use the first time. */
  lemma SecondAfterProvided(e: Env, n: Nodes, k: Nodes, provided: Option<Path>)
    requires e.isCurrent(e.embeddedBlocker) && ResolveBlocker(e, n, provided).outcome.Found?
    requires provided.None? ==> k == n
    requires provided.Some? ==> LoadBlocker(e, n, provided.value, false, true) == Loaded(k, NotFound, false)
    requires var r := ResolveBlocker(e, n, provided);
      provided.None? || (provided.value != r.outcome.value && !IsFile(r.nodes, provided.value))
    ensures var r := ResolveBlocker(e, n, provided);
      ResolveBlocker(e, r.nodes, provided) == Loaded(r.nodes, r.outcome, false)
  {
    var r := ResolveBlocker(e, n, provided);
    var p := r.outcome.value;
    if r.nodes != k {
      LoadGrows(e, k, TempBlocker(e).value, true, true);
    }
    if provided.Some? {
      if r.nodes != k {
        NoFileBefore(e, k, r.nodes, p, provided.value);
      }
      FailureMeetsObstacle(e, n, provided.value);
      if r.nodes != k {
        ObstacleStays(e, k, r.nodes, provided.value, p);
      }
      ObstacleBlocks(e, r.nodes, provided.value);
    }
    SiblingAgain(e, k, r.nodes, p);
  }

  /** The sibling that was passed over is passed over again, unless it is the very file just written. */
  lemma SiblingAgain(e: Env, k: Nodes, m: Nodes, p: Path)
    requires SiblingBlocker(e).Some? && p != SiblingBlocker(e).value ==>
      LoadBlocker(e, k, SiblingBlocker(e).value, true, false).outcome.NotFound?
    requires m != k ==> Grows(e, k, m, p)
    ensures SiblingBlocker(e).Some? && p != SiblingBlocker(e).value ==>
      LoadBlocker(e, m, SiblingBlocker(e).value, true, false) == Loaded(m, NotFound, false)
  {
    if SiblingBlocker(e).Some? && p != SiblingBlocker(e).value && m != k {
      var s := SiblingBlocker(e).value;
      assert IsFile(k, s) ==> IsFile(m, s) && m[s] == k[s];
      assert IsDir(k, s) ==> IsDir(m, s);
    }
  }

  // ---------------------------------------------------------------- filter configurations

  /** The text at `path` parses. */
  predicate Parses(e: Env, n: Nodes, path: Option<Path>) {
    path.Some? && IsReadable(e, n, path.value) && e.parses(n[path.value].content).Some?
  }

  /** The first try wrote the default configuration to the provided path. */
  predicate WroteDefault(e: Env, n: Nodes, provided: Option<Path>) {
    && provided.Some? && provided.value != []
    && !IsReadable(e, n, provided.value) && Place(e, n, provided.value, e.embeddedFilters).1
  }

  /** A file readable as text keeps its contents, malformed or not. */
  lemma ReadableFilesAreKept(e: Env, n: Nodes, provided: Option<Path>, q: Path)
    requires IsReadable(e, n, q)
    ensures var m := ResolveConfig(e, n, provided).nodes; q in m && m[q] == n[q]
  {
    if provided.Some? && provided.value != [] && !IsReadable(e, n, provided.value) {
      PlaceGrows(e, n, provided.value, e.embeddedFilters);
    }
  }

  /** Only the provided path can become a file. */
  lemma SiblingTextIsKept(e: Env, n: Nodes, provided: Option<Path>, q: Path)
    requires Some(q) != provided
    ensures var m := ResolveConfig(e, n, provided).nodes;
      (IsFile(m, q) <==> IsFile(n, q)) && (IsFile(n, q) ==> m[q] == n[q])
  {
    if provided.Some? && provided.value != [] && !IsReadable(e, n, provided.value) {
      PlaceGrows(e, n, provided.value, e.embeddedFilters);
      var m := Place(e, n, provided.value, e.embeddedFilters).0;
      assert IsDir(n, q) ==> IsDir(m, q);
    }
  }

  /**
   The first configuration in the order provided, default just written there, sibling, default;
   the sibling's text is read from `s`.
   */
  function FirstConfig(e: Env, n: Nodes, s: Nodes, provided: Option<Path>): nat
    requires e.parses(e.embeddedFilters).Some?
  {
    if Parses(e, n, provided) then e.parses(n[provided.value].content).value
    else if !WroteDefault(e, n, provided) && Parses(e, s, SiblingFilters(e)) then
      e.parses(s[SiblingFilters(e).value].content).value
    else e.parses(e.embeddedFilters).value
  }

  /**
   With a default that parses the search always succeeds, but for a provided path without a parent,
   and takes the first source that parses, all of them as they were before the search. Only when the
   provided path is the sibling itself does what the failed write left there count.
   */
  lemma ResolvedConfig(e: Env, n: Nodes, provided: Option<Path>)
    requires e.parses(e.embeddedFilters).Some?
    ensures var r := ResolveConfig(e, n, provided);
      var s := if provided.Some? && provided == SiblingFilters(e) then r.nodes else n;
      && (r.outcome.Panic? <==> provided == Some([]) && !IsReadable(e, n, []))
      && !r.outcome.NotFound?
      && (r.outcome.Found? ==> r.outcome.value == FirstConfig(e, n, s, provided))
  {
    if SiblingFilters(e).Some? && provided != SiblingFilters(e) {
      SiblingTextIsKept(e, n, provided, SiblingFilters(e).value);
    }
  }
}
