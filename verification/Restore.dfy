/** Putting a downloaded backup in place of the database, all or nothing. */
module Restore {
  import opened Prelude

  type Bytes = seq<bv8>

  type Files = map<string, Bytes>

  const SUFFIXES := ["", "-wal", "-shm"]

  /** The i-th of the files SQLite keeps for one database. */
  function Part(db: string, i: nat): string
    requires i < 3
  {
    db + SUFFIXES[i]
  }

  /** The database path the old files are kept under. */
  function AsideDb(db: string, stamp: string): string { db + ".before-restore-" + stamp }

  lemma PartsDiffer(db: string, i: nat, j: nat)
    requires i < 3 && j < 3
    ensures Part(db, i) == Part(db, j) ==> i == j
  {
    var p, q := Part(db, i), Part(db, j);
    assert p[|db|..] == SUFFIXES[i] && q[|db|..] == SUFFIXES[j];
    assert |SUFFIXES[0]| == 0 && |SUFFIXES[1]| == |SUFFIXES[2]| == 4 && SUFFIXES[1][1] != SUFFIXES[2][1];
  }

  lemma PartIsNotAside(db: string, stamp: string, i: nat, j: nat)
    requires i < 3 && j < 3
    ensures Part(db, i) != Part(AsideDb(db, stamp), j)
  {
    var p, q := Part(db, i), Part(AsideDb(db, stamp), j);
    assert q[|db|] == '.';
    if |p| > |db| { assert p[|db|] == '-'; }
  }

  /** The files after a rename, which replaces whatever was at the new name. */
  function Moved(f: Files, from: string, to: string): Files
    requires from in f
  {
    (f - {from})[to := f[from]]
  }

  /** The files after the first n parts have been moved aside, those there are. */
  function SetAside(f: Files, db: string, stamp: string, n: nat): Files
    requires n <= 3
  {
    if n == 0 then f else
      var g := SetAside(f, db, stamp, n - 1);
      if Part(db, n - 1) in g then Moved(g, Part(db, n - 1), Part(AsideDb(db, stamp), n - 1)) else g
  }

  /** No file is in the way of the names to set aside. */
  ghost predicate Fresh(f: Files, db: string, stamp: string) {
    forall i: nat :: i < 3 ==> Part(AsideDb(db, stamp), i) !in f
  }

  /** path is none of the database's own names and none of the names to set aside. */
  ghost predicate Elsewhere(path: string, db: string, stamp: string) {
    forall i: nat :: i < 3 ==> path != Part(db, i) && path != Part(AsideDb(db, stamp), i)
  }

  /** f has at path what g has. */
  predicate SameAt(f: Files, g: Files, path: string) {
    (path in f <==> path in g) && (path in f ==> f[path] == g[path])
  }

  /** f has at path what g has at from. */
  predicate Kept(f: Files, path: string, g: Files, from: string) {
    (path in f <==> from in g) && (path in f ==> f[path] == g[from])
  }

  /** Where every file is once n parts have been set aside. */
  lemma {:induction false} SetAsideAt(f: Files, db: string, stamp: string, n: nat)
    requires n <= 3 && Fresh(f, db, stamp)
    ensures var g := SetAside(f, db, stamp, n);
      && (forall i: nat :: i < n ==> Part(db, i) !in g && Kept(g, Part(AsideDb(db, stamp), i), f, Part(db, i)))
      && (forall i: nat :: n <= i < 3 ==> SameAt(g, f, Part(db, i)) && Part(AsideDb(db, stamp), i) !in g)
      && (forall p :: Elsewhere(p, db, stamp) ==> SameAt(g, f, p))
  {
    hide Part, AsideDb;
    forall i: nat, j: nat | i < 3 && j < 3
      ensures Part(db, i) == Part(db, j) ==> i == j
      ensures Part(AsideDb(db, stamp), i) == Part(AsideDb(db, stamp), j) ==> i == j
      ensures Part(db, i) != Part(AsideDb(db, stamp), j)
    {
      PartsDiffer(db, i, j);
      PartsDiffer(AsideDb(db, stamp), i, j);
      PartIsNotAside(db, stamp, i, j);
    }
    if n > 0 {
      SetAsideAt(f, db, stamp, n - 1);
      var g := SetAside(f, db, stamp, n);
      forall p | Elsewhere(p, db, stamp)
        ensures SameAt(g, f, p)
      {
        assert p != Part(db, n - 1) && p != Part(AsideDb(db, stamp), n - 1);
      }
    }
  }

  /** The names the first n parts are kept under, for those there are. */
  function AsideNames(f: Files, db: string, stamp: string, n: nat): seq<string>
    requires n <= 3
  {
    if n == 0 then [] else
      AsideNames(f, db, stamp, n - 1) + if Part(db, n - 1) in f then [Part(AsideDb(db, stamp), n - 1)] else []
  }

  /** A rename to a free name is undone by the rename back. */
  lemma MovedBack(f: Files, from: string, to: string)
    requires from in f && to !in f
    ensures Moved(Moved(f, from, to), to, from) == f
  {
    var g := Moved(Moved(f, from, to), to, from);
    assert g.Keys == f.Keys;
  }

  /** The backup to restore: the named one, or the newest of the list. */
  function Chosen(names: seq<string>, wanted: string): Option<string> {
    if names == [] then None
    else if wanted == "" then Some(names[|names| - 1])
    else if wanted in names then Some(wanted)
    else None
  }

  /** What the disk holds after a successful restore, path by path. */
  ghost predicate Replaced(after: Files, before: Files, db: string, stamp: string, staged: string, content: Bytes) {
    && db in after && after[db] == content
    && Part(db, 1) !in after && Part(db, 2) !in after
    && (forall i: nat :: i < 3 ==> Kept(after, Part(AsideDb(db, stamp), i), before, Part(db, i)))
    && (forall p :: p != staged && Elsewhere(p, db, stamp) ==> SameAt(after, before, p))
    && staged !in after
  }

  /** The file system: every call either does its work or fails and changes nothing. */
  class Disk {
    var files: Files

    constructor (files: Files)
      ensures this.files == files
    {
      this.files := files;
    }

    method Rename(from: string, to: string) returns (ok: bool)
      modifies this
      ensures ok ==> from in old(files) && files == Moved(old(files), from, to)
      ensures !ok ==> files == old(files)
    {
      ok := *;
      if ok && from in files { files := Moved(files, from, to); } else { ok := false; }
    }

    /** A rename that undoes one that just succeeded, and succeeds too. */
    method RenameBack(from: string, to: string)
      requires from in files
      modifies this
      ensures files == Moved(old(files), from, to)
    {
      files := Moved(files, from, to);
    }

    method Remove(path: string)
      modifies this
      ensures files == old(files) - {path}
    {
      files := files - {path};
    }

    /** Writes the decompressed backup to a new file; a download that fails leaves no file. */
    method Download(content: Option<Bytes>, dest: string) returns (ok: bool)
      modifies this
      ensures ok ==> dest !in old(files) && content.Some? && files == old(files)[dest := content.value]
      ensures !ok ==> files == old(files)
    {
      ok := *;
      if ok && dest !in files && content.Some? { files := files[dest := content.value]; } else { ok := false; }
    }

    /** trail is every state of the disk from before the first rename to now. */
    ghost predicate Trail(trail: seq<Files>, aside: seq<string>, original: seq<string>)
      reads this
    {
      && |trail| == |aside| + 1 == |original| + 1
      && files == trail[|aside|]
      && (forall i :: 0 <= i < |aside| ==>
            original[i] in trail[i] && aside[i] !in trail[i] && trail[i + 1] == Moved(trail[i], original[i], aside[i]))
    }

    /** Undoes the renames, newest first. */
    method PutBack(aside: seq<string>, original: seq<string>, ghost trail: seq<Files>)
      requires Trail(trail, aside, original)
      modifies this
      ensures files == trail[0]
    {
      var i := |aside|;
      while i > 0
        invariant 0 <= i <= |aside|
        invariant files == trail[i]
      {
        i := i - 1;
        MovedBack(trail[i], original[i], aside[i]);
        RenameBack(aside[i], original[i]);
      }
    }

    /** Moves what there is of the old database out of the way, or undoes what it did. */
    method MoveAside(db: string, stamp: string) returns (ok: bool, aside: seq<string>, moved: seq<string>, ghost trail: seq<Files>)
      requires Fresh(files, db, stamp)
      modifies this
      ensures !ok ==> files == old(files)
      ensures ok ==> Trail(trail, aside, moved) && trail[0] == old(files) && files == SetAside(old(files), db, stamp, 3)
      ensures ok ==> aside == AsideNames(old(files), db, stamp, 3)
    {
      hide Part, AsideDb, Fresh, SetAside;
      ok, aside, moved, trail := true, [], [], [files];
      SetAsideNone(files, db, stamp);
      for i := 0 to 3
        invariant ok && Trail(trail, aside, moved) && trail[0] == old(files)
        invariant files == SetAside(old(files), db, stamp, i) && aside == AsideNames(old(files), db, stamp, i)
      {
        SetAsideStep(old(files), db, stamp, i);
        var path := Part(db, i);
        if path in files {
          var to := Part(AsideDb(db, stamp), i);
          ok := Rename(path, to);
          if !ok {
            PutBack(aside, moved, trail);
            return;
          }
          aside, moved, trail := aside + [to], moved + [path], trail + [files];
        }
      }
    }

    /**
     * Restores one backup. `fetched` is what downloading a name yields, `usable` whether SQLite's check passes.
     * A failure at any call leaves the files as they were; staged is removed in the end whatever happened.
     */
    method Restore(
      names: seq<string>, wanted: string, db: string, staged: string, stamp: string,
      fetched: string -> Option<Bytes>, usable: Bytes -> bool)
      returns (restored: Option<string>, aside: seq<string>)
      requires Fresh(files, db, stamp)
      requires Elsewhere(staged, db, stamp)
      modifies this
      ensures Chosen(names, wanted).None? ==> restored.None? && files == old(files)
      ensures Chosen(names, wanted).Some? && restored.None? ==> files == old(files) - {staged}
      ensures restored.Some? ==>
        && restored == Chosen(names, wanted) && staged !in old(files)
        && fetched(restored.value).Some? && usable(fetched(restored.value).value)
        && Replaced(files, old(files), db, stamp, staged, fetched(restored.value).value)
        && aside == AsideNames(old(files), db, stamp, 3)
    {
      hide Part, AsideDb, Fresh, SetAside, Replaced;
      restored, aside := None, [];
      var name := Chosen(names, wanted);
      if name.None? { return; }
      var ok := Download(fetched(name.value), staged);
      if !ok {
        Remove(staged);
        return;
      }
      if usable(files[staged]) {
        StillFresh(old(files), db, stamp, staged, files[staged]);
        ghost var before := files;
        var moved: seq<string>;
        ghost var trail: seq<Files>;
        ok, aside, moved, trail := MoveAside(db, stamp);
        if ok {
          PartIsDb(db);
          var content := fetched(name.value).value;
          StagedThere(before, db, stamp, staged);
          ok := Rename(staged, db);
          if ok {
            restored := name;
            AllReplaced(old(files), before, files, db, stamp, staged, content);
            return;
          }
          PutBack(aside, moved, trail);
        }
      }
      Remove(staged);
      aside := [];
    }
  }

  lemma SetAsideNone(f: Files, db: string, stamp: string)
    ensures SetAside(f, db, stamp, 0) == f
  {
  }

  lemma SetAsideStep(f: Files, db: string, stamp: string, n: nat)
    requires n < 3 && Fresh(f, db, stamp)
    ensures var g := SetAside(f, db, stamp, n);
      && Part(AsideDb(db, stamp), n) !in g
      && (Part(db, n) in g <==> Part(db, n) in f)
      && SetAside(f, db, stamp, n + 1)
         == if Part(db, n) in g then Moved(g, Part(db, n), Part(AsideDb(db, stamp), n)) else g
  {
    hide Part, AsideDb;
    SetAsideAt(f, db, stamp, n);
  }

  lemma PartIsDb(db: string)
    ensures Part(db, 0) == db
  {
  }

  lemma StillFresh(f: Files, db: string, stamp: string, staged: string, content: Bytes)
    requires Fresh(f, db, stamp) && Elsewhere(staged, db, stamp)
    ensures Fresh(f[staged := content], db, stamp)
    ensures AsideNames(f[staged := content], db, stamp, 3) == AsideNames(f, db, stamp, 3)
  {
    hide Part, AsideDb;
    forall n: nat | n < 3 ensures Part(db, n) in f[staged := content] <==> Part(db, n) in f {
      assert staged != Part(db, n);
    }
    assert AsideNames(f[staged := content], db, stamp, 1) == AsideNames(f, db, stamp, 1);
    assert AsideNames(f[staged := content], db, stamp, 2) == AsideNames(f, db, stamp, 2);
  }

  lemma StagedThere(f: Files, db: string, stamp: string, staged: string)
    requires Fresh(f, db, stamp) && staged in f
    requires Elsewhere(staged, db, stamp)
    ensures SameAt(SetAside(f, db, stamp, 3), f, staged)
  {
    hide Part, AsideDb;
    SetAsideAt(f, db, stamp, 3);
  }

  lemma AllReplaced(before: Files, downloaded: Files, after: Files, db: string, stamp: string, staged: string, content: Bytes)
    requires Fresh(before, db, stamp) && Fresh(downloaded, db, stamp) && staged !in before
    requires Elsewhere(staged, db, stamp)
    requires downloaded == before[staged := content]
    requires staged in SetAside(downloaded, db, stamp, 3)
    requires after == Moved(SetAside(downloaded, db, stamp, 3), staged, Part(db, 0))
    ensures Replaced(after, before, db, stamp, staged, content)
  {
    hide AsideDb, Fresh, SetAside;
    SetAsideAt(downloaded, db, stamp, 3);
    PartIsDb(db);
    forall i: nat | i < 3
      ensures Part(AsideDb(db, stamp), i) != db
      ensures Part(db, i) == db ==> i == 0
    {
      PartIsNotAside(db, stamp, 0, i);
      PartsDiffer(db, i, 0);
    }
    forall p | p != staged && Elsewhere(p, db, stamp)
      ensures SameAt(after, before, p)
    {
      assert p != Part(db, 0);
    }
  }
}
