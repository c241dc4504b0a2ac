/** `Syncer.sync` on two directory trees (ai4s/jobq/ext/background_dirsync.py).

    A tree maps relative paths to files. Source and destination are disjoint,
    nothing else touches them during a sync and no operation fails. */
module DirSync {
  import opened Basics

  /** Path components below the root of a tree. */
  type Path = seq<string>

  datatype File = File(content: int, mtime: real, ctime: real)

  type Tree = map<Path, File>

  /** `skip`: the name or the relative path matches an exclude pattern and no include pattern. */
  datatype Config = Config(skip: Path -> bool, deleteAfterCopy: bool, removeIfNotInSource: bool)

  /** Directories that match are not entered, so a file is skipped with any of its ancestors. */
  predicate Skipped(cfg: Config, p: Path) {
    exists k :: 1 <= k <= |p| && cfg.skip(p[..k])
  }

  /** Python's `int(x)`. */
  function Truncate(x: real): int {
    if x >= 0.0 then x.Floor else -((-x).Floor)
  }

  /** `_needs_update`. */
  predicate NeedsUpdate(source: File, target: File) {
    || Truncate((source.mtime - target.mtime) * 1000.0) > 0
    || Truncate((source.ctime - target.mtime) * 1000.0) > 0
  }

  /** `shutil.copy2` at time `now`: content and modification time are kept. */
  function Copied(source: File, now: real): File {
    File(source.content, source.mtime, now)
  }

  datatype World = World(src: Option<Tree>, dst: Tree, preExisting: Option<set<Path>>)

  predicate MustCopy(cfg: Config, src: Tree, dst: Tree, p: Path) {
    p in src && !Skipped(cfg, p) && (p !in dst || NeedsUpdate(src[p], dst[p]))
  }

  predicate MustRemove(cfg: Config, src: Tree, pre: set<Path>, p: Path) {
    && !cfg.deleteAfterCopy && cfg.removeIfNotInSource
    && !Skipped(cfg, p) && p !in pre && p !in src
  }

  /** The destination once the source files in `done` have been dealt with. */
  function CopyPhase(cfg: Config, src: Tree, dst: Tree, done: set<Path>, now: real): Tree {
    dst + Copies(cfg, src, dst, done, now)
  }

  function Copies(cfg: Config, src: Tree, dst: Tree, done: set<Path>, now: real): Tree {
    map p | p in done && p in src && MustCopy(cfg, src, dst, p) :: Copied(src[p], now)
  }

  /** The source at that point. */
  function SourceLeft(cfg: Config, src: Tree, dst: Tree, done: set<Path>): Tree {
    if cfg.deleteAfterCopy then map p | p in src && !(p in done && MustCopy(cfg, src, dst, p)) :: src[p]
    else src
  }

  function RemovePhase(cfg: Config, src: Tree, dst: Tree, pre: set<Path>): Tree {
    map p | p in dst && !MustRemove(cfg, src, pre, p) :: dst[p]
  }

  /** What one sync makes of the world. */
  function SyncStep(cfg: Config, w: World, now: real): World {
    if w.src.None? then w
    else
      var src := w.src.value;
      var pre := if w.preExisting.None? then w.dst.Keys else w.preExisting.value;
      var copied := CopyPhase(cfg, src, w.dst, src.Keys, now);
      var left := SourceLeft(cfg, src, w.dst, src.Keys);
      World(Some(left), RemovePhase(cfg, src, copied, pre), Some(pre))
  }

  /** Dealing with one more file. */
  lemma CopyOne(cfg: Config, src: Tree, dst: Tree, done: set<Path>, p: Path, now: real)
    requires p in src && p !in done
    ensures var soFar := CopyPhase(cfg, src, dst, done, now);
            && (p in soFar <==> p in dst) && (p in dst ==> soFar[p] == dst[p])
            && CopyPhase(cfg, src, dst, done + {p}, now)
               == (if MustCopy(cfg, src, dst, p) then soFar[p := Copied(src[p], now)] else soFar)
  {
    var copies := Copies(cfg, src, dst, done, now);
    var more := Copies(cfg, src, dst, done + {p}, now);
    if MustCopy(cfg, src, dst, p) {
      assert more == copies[p := Copied(src[p], now)];
      assert dst + copies[p := Copied(src[p], now)] == (dst + copies)[p := Copied(src[p], now)];
    } else {
      assert more == copies;
    }
  }

  lemma LeaveOne(cfg: Config, src: Tree, dst: Tree, done: set<Path>, p: Path)
    requires p in src && p !in done
    ensures SourceLeft(cfg, src, dst, done + {p})
            == if cfg.deleteAfterCopy && MustCopy(cfg, src, dst, p) then SourceLeft(cfg, src, dst, done) - {p}
               else SourceLeft(cfg, src, dst, done)
  {
    if cfg.deleteAfterCopy {
      var left, more := SourceLeft(cfg, src, dst, done), SourceLeft(cfg, src, dst, done + {p});
      forall q ensures q in more <==> q in left && (q != p || !MustCopy(cfg, src, dst, p)) {
        assert q in done + {p} <==> q in done || q == p;
      }
      assert more == if MustCopy(cfg, src, dst, p) then left - {p} else left;
    }
  }

  class Syncer {
    const cfg: Config
    var src: Option<Tree>                  // `None`: the source is not a directory
    var dst: Tree
    var preExisting: Option<set<Path>>     // `pre_existing_files_on_dst`

    function View(): World
      reads this
    {
      World(src, dst, preExisting)
    }

    constructor (cfg: Config, src: Option<Tree>, dst: Tree)
      ensures this.cfg == cfg && View() == World(src, dst, None)
    {
      this.cfg, this.src, this.dst, preExisting := cfg, src, dst, None;
    }

    method ScanPreexistingOnDestination()
      modifies this`preExisting
      ensures preExisting == Some(dst.Keys)
    {
      var found: set<Path>, todo := {}, dst.Keys;
      while todo != {}
        invariant found + todo == dst.Keys
        decreases todo
      {
        var p :| p in todo;
        found, todo := found + {p}, todo - {p};
      }
      preExisting := Some(found);
    }

    /** Walks the source and copies what is missing or newer. */
    method CopyFiles(now: real)
      requires src.Some?
      modifies this`src, this`dst
      ensures dst == CopyPhase(cfg, old(src.value), old(dst), old(src.value).Keys, now)
      ensures src == Some(SourceLeft(cfg, old(src.value), old(dst), old(src.value).Keys))
    {
      var files := src.value;
      var todo := files.Keys;
      ghost var before, done := dst, {};
      assert CopyPhase(cfg, files, before, done, now) == before && SourceLeft(cfg, files, before, done) == files;
      while todo != {}
        invariant done + todo == files.Keys && done !! todo
        invariant dst == CopyPhase(cfg, files, before, done, now)
        invariant src == Some(SourceLeft(cfg, files, before, done))
        decreases todo
      {
        var p :| p in todo;
        CopyOne(cfg, files, before, done, p, now);
        LeaveOne(cfg, files, before, done, p);
        todo, done := todo - {p}, done + {p};
        if !Skipped(cfg, p) && (p !in dst || NeedsUpdate(files[p], dst[p])) {
          dst := dst[p := Copied(files[p], now)];
          if cfg.deleteAfterCopy {
            src := Some(src.value - {p});
          }
        }
      }
      assert done == files.Keys;
    }

    /** Walks the destination and removes what is not in the source. */
    method RemoveFiles()
      requires src.Some? && preExisting.Some? && !cfg.deleteAfterCopy && cfg.removeIfNotInSource
      modifies this`dst
      ensures dst == RemovePhase(cfg, src.value, old(dst), preExisting.value)
    {
      var before, todo := dst, dst.Keys;
      while todo != {}
        invariant todo <= before.Keys
        invariant dst == map p | p in before
                           && (p in todo || !MustRemove(cfg, src.value, preExisting.value, p)) :: before[p]
        decreases todo
      {
        var p :| p in todo;
        todo := todo - {p};
        if !Skipped(cfg, p) && p !in preExisting.value && p !in src.value {
          dst := dst - {p};
        }
      }
    }

    method Sync(now: real)
      modifies this
      ensures View() == SyncStep(cfg, old(View()), now)
      // what was missing or stale has the content and modification time of the source
      ensures old(src).Some? ==>
                forall p :: p in old(src.value) && MustCopy(cfg, old(src.value), old(dst), p) ==>
                  p in dst && SameFile(dst[p], old(src.value)[p])
    {
      if src.None? {
        return;
      }
      if preExisting.None? {
        ScanPreexistingOnDestination();
      }
      CopyFiles(now);
      if !cfg.deleteAfterCopy && cfg.removeIfNotInSource {
        RemoveFiles();
      }
    }
  }

  // ---- what one sync achieves ----

  /** What a file shows to a reader. */
  ghost predicate SameFile(f: File, g: File) {
    f.content == g.content && f.mtime == g.mtime
  }

  /** A pattern that excludes a directory excludes everything below it: no sync copies, removes or changes
      such a file at either end. */
  lemma ExcludedStays(cfg: Config, w: World, now: real, p: Path, k: nat)
    requires 1 <= k <= |p| && cfg.skip(p[..k])
    ensures var w' := SyncStep(cfg, w, now);
            && (p in w'.dst <==> p in w.dst) && (p in w.dst ==> w'.dst[p] == w.dst[p])
            && (w'.src.Some? <==> w.src.Some?)
            && (w.src.Some? ==> (p in w'.src.value <==> p in w.src.value)
                                && (p in w.src.value ==> w'.src.value[p] == w.src.value[p]))
  {
    assert Skipped(cfg, p);
  }

  /** Exactly which paths the destination has afterwards. */
  lemma SyncedPaths(cfg: Config, w: World, now: real, p: Path)
    requires w.src.Some?
    ensures var w', pre := SyncStep(cfg, w, now), if w.preExisting.None? then w.dst.Keys else w.preExisting.value;
            p in w'.dst <==>
              || (p in w.src.value && !Skipped(cfg, p))
              || (p in w.dst && !MustRemove(cfg, w.src.value, pre, p))
  {
    if p in w.src.value && !Skipped(cfg, p) && p !in w.dst {
      assert MustCopy(cfg, w.src.value, w.dst, p);
    }
  }

  /** Every source file that is not skipped ends at the destination, not older than the source by a
      millisecond or more, and with the source's content if it was missing or stale. */
  lemma SourceArrives(cfg: Config, w: World, now: real, p: Path)
    requires w.src.Some? && p in w.src.value && forall k :: 1 <= k <= |p| ==> !cfg.skip(p[..k])
    ensures var w', f := SyncStep(cfg, w, now), w.src.value[p];
            && p in w'.dst
            && f.mtime - w'.dst[p].mtime < 0.001
            && (p !in w.dst || f.mtime - w.dst[p].mtime >= 0.001 || f.ctime - w.dst[p].mtime >= 0.001 ==>
                  w'.dst[p].content == f.content && w'.dst[p].mtime == f.mtime)
            && (p in w.dst && f.mtime - w.dst[p].mtime < 0.001 && f.ctime - w.dst[p].mtime < 0.001 ==>
                  w'.dst[p] == w.dst[p])
  {
    SyncedPaths(cfg, w, now, p);
    if p in w.dst {
      Stale(w.src.value[p], w.dst[p]);
    }
  }

  /** Stale means older than the source by a millisecond or more, by either of its times. */
  lemma Stale(f: File, g: File)
    ensures NeedsUpdate(f, g) <==> f.mtime - g.mtime >= 0.001 || f.ctime - g.mtime >= 0.001
  {
    var modified, changed := (f.mtime - g.mtime) * 1000.0, (f.ctime - g.mtime) * 1000.0;
    assert Truncate(modified) > 0 <==> modified >= 1.0;
    assert Truncate(changed) > 0 <==> changed >= 1.0;
  }

  /** A path is removed only if it is absent from the source, not skipped and was not there first;
      files that are neither removed nor copied stay as they are. */
  lemma OnlyStrangersRemoved(cfg: Config, w: World, now: real, p: Path)
    requires p in w.dst
    ensures var w' := SyncStep(cfg, w, now);
            p !in w'.dst ==>
              && w.src.Some? && p !in w.src.value && !Skipped(cfg, p)
              && w.preExisting.Some? && p !in w.preExisting.value
    ensures var w' := SyncStep(cfg, w, now);
            p in w'.dst && (w.src.None? || p !in w.src.value || Skipped(cfg, p)) ==> w'.dst[p] == w.dst[p]
  {
  }

  // ---- any number of syncs ----

  /** Between syncs the source may change in any way. */
  datatype Event = SyncAt(now: real) | SourceBecomes(src: Option<Tree>)

  function Apply(cfg: Config, w: World, e: Event): World {
    match e
    case SyncAt(now) => SyncStep(cfg, w, now)
    case SourceBecomes(src) => w.(src := src)
  }

  function After(cfg: Config, w: World, events: seq<Event>): World
    decreases |events|
  {
    if events == [] then w else After(cfg, Apply(cfg, w, events[0]), events[1..])
  }

  /** What was at the destination before the first sync is never removed, across all syncs. */
  lemma {:induction false} PreExistingSurvives(cfg: Config, src: Option<Tree>, dst: Tree, events: seq<Event>)
    ensures dst.Keys <= After(cfg, World(src, dst, None), events).dst.Keys
    decreases |events|
  {
    PreExistingKept(cfg, dst.Keys, World(src, dst, None), events);
  }

  lemma {:induction false} PreExistingKept(cfg: Config, first: set<Path>, w: World, events: seq<Event>)
    requires first <= w.dst.Keys
    requires match w.preExisting case Some(pre) => first <= pre case None => w.dst.Keys == first
    ensures first <= After(cfg, w, events).dst.Keys
    decreases |events|
  {
    if events != [] {
      var w' := Apply(cfg, w, events[0]);
      if events[0].SyncAt? {
        forall p | p in first ensures p in w'.dst {
          OnlyStrangersRemoved(cfg, w, events[0].now, p);
        }
      }
      PreExistingKept(cfg, first, w', events[1..]);
    }
  }

  /** A copy keeps the modification time but is compared with the source's change time as well: a
      file copied by one sync is copied again by the next, unchanged, exactly if its change time
      is later than its modification time by a millisecond or more. */
  lemma CopiedAgain(cfg: Config, w: World, now: real, p: Path)
    requires w.src.Some? && !cfg.deleteAfterCopy
    requires p in w.src.value && !Skipped(cfg, p) && MustCopy(cfg, w.src.value, w.dst, p)
    ensures var w', f := SyncStep(cfg, w, now), w.src.value[p];
            MustCopy(cfg, w'.src.value, w'.dst, p) <==> f.ctime - f.mtime >= 0.001
  {
    if p in w.dst {
      Stale(w.src.value[p], w.dst[p]);
    }
    SourceArrives(cfg, w, now, p);
    Stale(w.src.value[p], SyncStep(cfg, w, now).dst[p]);
  }

  /** When copied files are deleted from the source, the second sync has nothing left to do. */
  lemma SyncTwiceMoving(cfg: Config, w: World, now: real, later: real)
    requires w.src.Some? && cfg.deleteAfterCopy
    ensures var w1 := SyncStep(cfg, w, now); SyncStep(cfg, w1, later) == w1
  {
    var w1 := SyncStep(cfg, w, now);
    var src, pre := w1.src.value, w1.preExisting.value;
    forall p ensures !MustCopy(cfg, src, w1.dst, p) {
    }
    assert CopyPhase(cfg, src, w1.dst, src.Keys, later) == w1.dst;
    assert SourceLeft(cfg, src, w1.dst, src.Keys) == src;
    assert RemovePhase(cfg, src, w1.dst, pre) == w1.dst;
  }

  /** Syncing again without a change of the source changes no path, no content and no modification time. */
  lemma SyncTwice(cfg: Config, w: World, now: real, later: real)
    requires w.src.Some?
    ensures var w1 := SyncStep(cfg, w, now);
            var w2 := SyncStep(cfg, w1, later);
            && w2.src == w1.src && w2.preExisting == w1.preExisting
            && w2.dst.Keys == w1.dst.Keys
            && forall p :: p in w1.dst ==> SameFile(w2.dst[p], w1.dst[p])
  {
    if cfg.deleteAfterCopy {
      SyncTwiceMoving(cfg, w, now, later);
    } else {
      SyncTwiceKeeping(cfg, w, now, later);
    }
  }

  lemma SyncTwiceKeeping(cfg: Config, w: World, now: real, later: real)
    requires w.src.Some? && !cfg.deleteAfterCopy
    ensures var w1 := SyncStep(cfg, w, now);
            var w2 := SyncStep(cfg, w1, later);
            && w2.src == w1.src && w2.preExisting == w1.preExisting
            && w2.dst.Keys == w1.dst.Keys
            && forall p :: p in w1.dst ==> SameFile(w2.dst[p], w1.dst[p])
  {
    var w1 := SyncStep(cfg, w, now);
    var w2 := SyncStep(cfg, w1, later);
    forall p ensures p in w2.dst <==> p in w1.dst {
      SyncedPaths(cfg, w, now, p);
      SyncedPaths(cfg, w1, later, p);
    }
    forall p | p in w1.dst ensures SameFile(w2.dst[p], w1.dst[p]) {
      if p in w.src.value && !Skipped(cfg, p) {
        SourceArrives(cfg, w, now, p);
        SourceArrives(cfg, w1, later, p);
      } else {
        OnlyStrangersRemoved(cfg, w1, later, p);
      }
    }
  }
}
