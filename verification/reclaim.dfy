/**
  Reclaiming what a killed job left on disk. A process can be killed between any two
  file operations, so the disk keeps every tree it went through: what is proved of the
  trace is proved of a crash at any instant. Which operations are refused is an input.
 */
module Reclaim {
  import opened Prelude

  datatype Path = Path(root: string, name: string)

  /** A directory with what is in it, or something else under that name (a file, a symbolic link). */
  datatype Node = Folder(files: set<string>) | Other

  type Tree = map<Path, Node>

  const SUCCESS := "_SUCCESS"
  const INCOMPLETE := "_INCOMPLETE"

  /** One directory of a journal entry (`console.BaselineJobDir`). */
  datatype JobDir = JobDir(root: string, resolvedRoot: string, name: string)

  datatype Outcome = Removed | Kept(published: bool) | Absent | Failed

  datatype Discard = Gone | GoneWithLeftovers | Refused | Nothing | Failure

  // ------------------------------------------------------------------ names

  predicate IsDigit(c: char) {
    '0' <= c <= '9'
  }

  /** The form snapshot directories are written in: 2026-08-23T14-50-30Z. */
  predicate IsSnapshotName(name: string) {
    && |name| == 20 && name[4] == '-' && name[7] == '-' && name[10] == 'T' && name[13] == '-' && name[16] == '-' && name[19] == 'Z'
    && forall i | 0 <= i < 20 && i !in [4, 7, 10, 13, 16, 19] :: IsDigit(name[i])
  }

  function DiscardingName(name: string): string {
    "." + name + ".discarding"
  }

  predicate IsDiscardingName(name: string) {
    |name| == 32 && name == DiscardingName(name[1..21]) && IsSnapshotName(name[1..21])
  }

  const STAGING_PREFIXES := ["dump-", "baseline-", "pgbaseline-", "refresh-"]

  predicate IsStagingName(name: string) {
    exists i | 0 <= i < |STAGING_PREFIXES| :: STAGING_PREFIXES[i] < name
  }

  predicate IsPlainName(name: string) {
    name !in ["", ".", ".."] && '/' !in name && '\\' !in name
  }

  /** A directory on its way out is in no listing. */
  lemma DiscardingIsUnlisted(name: string)
    ensures !IsSnapshotName(DiscardingName(name))
    ensures IsSnapshotName(name) ==> IsDiscardingName(DiscardingName(name))
  {
    assert DiscardingName(name)[0] == '.';
    if IsSnapshotName(name) {
      assert DiscardingName(name)[1..21] == name;
    }
  }

  /** Fourteen digits written as a snapshot directory is named. */
  function Dashed(d: string): string
    requires |d| == 14
  {
    d[..4] + "-" + d[4..6] + "-" + d[6..8] + "T" + d[8..10] + "-" + d[10..12] + "-" + d[12..] + "Z"
  }

  function Digits(name: string): string
    requires |name| == 20
  {
    name[..4] + name[5..7] + name[8..10] + name[11..13] + name[14..16] + name[17..19]
  }

  predicate AllDigits(d: string) {
    forall i | 0 <= i < |d| :: '0' <= d[i] <= '9'
  }

  lemma DashedHasTheForm(d: string)
    requires |d| == 14 && AllDigits(d)
    ensures IsSnapshotName(Dashed(d))
  {
    var name := Dashed(d);
    forall i | 0 <= i < 20 && i !in [4, 7, 10, 13, 16, 19]
      ensures IsDigit(name[i])
    {
      assert name[i] == d[if i < 4 then i else if i < 7 then i - 1 else if i < 10 then i - 2 else if i < 13 then i - 3 else if i < 16 then i - 4 else i - 5];
    }
  }

  lemma FormIsDashed(name: string)
    requires IsSnapshotName(name)
    ensures Dashed(Digits(name)) == name
  {
    var d := Digits(name);
    assert d[..4] == name[..4] && d[4..6] == name[5..7] && d[6..8] == name[8..10];
    assert d[8..10] == name[11..13] && d[10..12] == name[14..16] && d[12..] == name[17..19];
    assert name == name[..4] + [name[4]] + name[5..7] + [name[7]] + name[8..10] + [name[10]] + name[11..13] + [name[13]] + name[14..16] + [name[16]] + name[17..19] + [name[19]];
  }

  lemma FormHasDigits(name: string)
    requires IsSnapshotName(name)
    ensures AllDigits(Digits(name))
  {
    forall i | 0 <= i < 14
      ensures IsDigit(Digits(name)[i])
    {
    }
  }

  /** Those names, and no others, are taken for snapshots. */
  lemma SnapshotNamesExactly(name: string)
    ensures IsSnapshotName(name) <==> exists d: string | |d| == 14 && AllDigits(d) :: name == Dashed(d)
  {
    if IsSnapshotName(name) {
      FormIsDashed(name);
      FormHasDigits(name);
    }
    if d: string :| |d| == 14 && AllDigits(d) && name == Dashed(d) {
      DashedHasTheForm(d);
    }
  }

  /** And these for scratch: one of the four prefixes with something after it. */
  lemma StagingNamesExactly(name: string)
    ensures IsStagingName(name) <==> "dump-" < name || "baseline-" < name || "pgbaseline-" < name || "refresh-" < name
  {
    assert STAGING_PREFIXES[0] == "dump-" && STAGING_PREFIXES[1] == "baseline-" && STAGING_PREFIXES[2] == "pgbaseline-" && STAGING_PREFIXES[3] == "refresh-";
  }

  // ---------------------------------------------------------------- readers

  /** `baseline.SnapshotComplete`: a directory with neither marker counts as complete. */
  predicate Complete(files: set<string>) {
    SUCCESS in files || INCOMPLETE !in files
  }

  /** Only the marker of an unfinished write, without that of a finished one, makes a directory incomplete; one from before there were markers is complete. */
  lemma MarkersDecide(files: set<string>)
    ensures !Complete(files) <==> "_INCOMPLETE" in files && "_SUCCESS" !in files
  {
  }

  /** A snapshot a reader would find and restore from. */
  predicate Readable(t: Tree, p: Path) {
    p in t && IsSnapshotName(p.name) && t[p].Folder? && Complete(t[p].files) && t[p].files != {}
  }

  /** Readers find the same snapshots with the same contents in both trees. */
  ghost predicate SameReads(a: Tree, b: Tree) {
    forall p :: (Readable(a, p) <==> Readable(b, p)) && (Readable(a, p) ==> a[p] == b[p])
  }

  /** Only the directory itself, and directories already on their way out beside it, differ. */
  ghost predicate Framed(a: Tree, b: Tree, d: Path) {
    forall q | q != d && !(q.root == d.root && IsDiscardingName(q.name)) :: SameAt(a, b, q)
  }

  /** Nothing but directories is ever made. */
  ghost predicate NoNewOthers(a: Tree, b: Tree) {
    forall q <- b | b[q].Other? :: q in a && a[q].Other?
  }

  ghost predicate Harmless(a: Tree, b: Tree, d: Path) {
    SameReads(a, b) && Framed(a, b, d) && NoNewOthers(a, b)
  }

  /** Nothing but one path differs, and that one only lost files. */
  ghost predicate Shrunk(a: Tree, b: Tree, p: Path)
    requires p in a && a[p].Folder?
  {
    && (forall q | q != p :: SameAt(a, b, q))
    && (p in b ==> b[p].Folder? && b[p].files <= a[p].files)
  }

  lemma ShrunkIsHarmless(a: Tree, b: Tree, p: Path, d: Path)
    requires p in a && a[p].Folder? && Shrunk(a, b, p)
    requires !IsSnapshotName(p.name) && (p == d || (p.root == d.root && IsDiscardingName(p.name)))
    ensures Harmless(a, b, d)
  {
    forall q
      ensures (Readable(a, q) <==> Readable(b, q)) && (Readable(a, q) ==> a[q] == b[q])
    {
      assert q != p ==> SameAt(a, b, q);
    }
    forall q <- b | b[q].Other?
      ensures q in a && a[q].Other?
    {
      assert q != p ==> SameAt(a, b, q);
    }
  }

  lemma HarmlessOn(a: Tree, b: Tree, c: Tree, d: Path)
    requires Harmless(a, b, d) && Harmless(b, c, d)
    ensures Harmless(a, c, d)
  {
    forall q | q != d && !(q.root == d.root && IsDiscardingName(q.name))
      ensures SameAt(a, c, q)
    {
      assert SameAt(a, b, q) && SameAt(b, c, q);
    }
    forall q
      ensures (Readable(a, q) <==> Readable(c, q)) && (Readable(a, q) ==> a[q] == c[q])
    {
      assert Readable(a, q) <==> Readable(b, q);
    }
  }

  /** What deleting in place would risk: with the marker gone first, the rest reads as a complete snapshot. */
  lemma InPlaceDeleteExposesAPartialSnapshot(t: Tree, p: Path)
    requires p in t && IsSnapshotName(p.name) && t[p].Folder? && !Complete(t[p].files) && t[p].files != {INCOMPLETE}
    ensures Shrunk(t, t[p := Folder(t[p].files - {INCOMPLETE})], p)
    ensures Readable(t[p := Folder(t[p].files - {INCOMPLETE})], p) && !SameReads(t, t[p := Folder(t[p].files - {INCOMPLETE})])
  {
    var t' := t[p := Folder(t[p].files - {INCOMPLETE})];
    assert t[p].files == t'[p].files + {INCOMPLETE};
    assert Readable(t', p) && !Readable(t, p);
  }

  /** The rename takes an incomplete snapshot out of every listing in one step. */
  lemma RenameIsHarmless(a: Tree, p: Path, q: Path)
    requires p in a && a[p].Folder? && !Complete(a[p].files) && q.root == p.root
    requires IsDiscardingName(q.name) && !IsSnapshotName(q.name)
    ensures Harmless(a, (a - {p})[q := a[p]], p)
  {
    var b := (a - {p})[q := a[p]];
    forall r
      ensures (Readable(a, r) <==> Readable(b, r)) && (Readable(a, r) ==> a[r] == b[r])
    {
      assert r != p && r != q ==> SameAt(a, b, r);
    }
  }

  lemma EmptyGoesHarmlessly(a: Tree, p: Path)
    requires p in a && a[p] == Folder({})
    ensures Harmless(a, a - {p}, p)
  {
    var b := a - {p};
    forall q
      ensures (Readable(a, q) <==> Readable(b, q)) && (Readable(a, q) ==> a[q] == b[q])
    {
      assert q != p ==> SameAt(a, b, q);
    }
  }

  // -------------------------------------------------------- the two verdicts

  predicate IsAbsolute(root: string) {
    root != "" && root[0] == '/'
  }

  /** The journal is file data: the name must be one the program makes, and the parent must still be the one the job wrote under. */
  predicate Trusted(roots: map<string, Option<string>>, d: JobDir) {
    && IsPlainName(d.name) && (IsSnapshotName(d.name) || IsStagingName(d.name))
    && IsAbsolute(d.root) && d.root in roots && roots[d.root] == Some(d.resolvedRoot)
  }

  function PathOf(d: JobDir): Path {
    Path(d.root, d.name)
  }

  /** A killed job's leftover: scratch, an unpublished snapshot, or a snapshot directory with nothing in it. */
  predicate Leftover(t: Tree, p: Path) {
    p in t && t[p].Folder? && (IsSnapshotName(p.name) ==> !Complete(t[p].files) || t[p].files == {})
  }

  predicate IsEmptyFolder(t: Tree, p: Path) {
    p in t && t[p] == Folder({})
  }

  /** A path an entry's trusted directories let a reclaim touch. */
  ghost predicate Listed(roots: map<string, Option<string>>, dirs: seq<JobDir>, q: Path) {
    exists i | 0 <= i < |dirs| :: Trusted(roots, dirs[i]) && q.root == dirs[i].root && (q.name == dirs[i].name || IsDiscardingName(q.name))
  }

  /** A published snapshot. */
  predicate IsPublished(t: Tree, p: Path) {
    Readable(t, p) && SUCCESS in t[p].files
  }

  /** Nothing of this directory is left to remove (an empty one may stay when it could not be read). */
  ghost predicate Settled(roots: map<string, Option<string>>, t: Tree, d: JobDir) {
    Trusted(roots, d) && Leftover(t, PathOf(d)) ==> IsEmptyFolder(t, PathOf(d))
  }

  /** What was there of this directory to remove is gone, an empty one included. */
  ghost predicate Cleared(roots: map<string, Option<string>>, t: Tree, d: JobDir) {
    Trusted(roots, d) ==> !Leftover(t, PathOf(d))
  }

  /** Something that is not a directory holds the name this directory would be moved to. */
  ghost predicate Blocked(roots: map<string, Option<string>>, t: Tree, d: JobDir) {
    Trusted(roots, d) && Obstructed(t, PathOf(d))
  }

  // Of the first `n` directories of an entry, and a reclaim that took tree `a` to tree `t`:

  ghost predicate AllSettled(roots: map<string, Option<string>>, t: Tree, dirs: seq<JobDir>, n: nat)
    requires n <= |dirs|
  {
    forall i | 0 <= i < n :: Settled(roots, t, dirs[i])
  }

  ghost predicate AllCleared(roots: map<string, Option<string>>, t: Tree, dirs: seq<JobDir>, n: nat)
    requires n <= |dirs|
  {
    forall i | 0 <= i < n :: Cleared(roots, t, dirs[i])
  }

  ghost predicate NoneBlocked(roots: map<string, Option<string>>, a: Tree, dirs: seq<JobDir>, n: nat)
    requires n <= |dirs|
  {
    forall i | 0 <= i < n :: !Blocked(roots, a, dirs[i])
  }

  ghost predicate NonePublished(roots: map<string, Option<string>>, a: Tree, dirs: seq<JobDir>, n: nat)
    requires n <= |dirs|
  {
    forall i | 0 <= i < n && Trusted(roots, dirs[i]) :: !IsPublished(a, PathOf(dirs[i]))
  }

  /**
    It is dropped only when they are settled; when nothing was refused and no name was
    taken, it is dropped and they are cleared; and a published one is reported.
   */
  ghost predicate EntryDone(roots: map<string, Option<string>>, a: Tree, t: Tree, dirs: seq<JobDir>, n: nat, dropped: bool, published: Option<Path>, clean: bool)
    requires n <= |dirs|
  {
    && (dropped ==> AllSettled(roots, t, dirs, n))
    && (clean && NoneBlocked(roots, a, dirs, n) ==> dropped && AllCleared(roots, t, dirs, n))
    && (published.Some? ==> IsPublished(a, published.value))
    && (clean && published.None? ==> NonePublished(roots, a, dirs, n))
  }

  lemma ReadsOn(a: Tree, b: Tree, c: Tree)
    requires SameReads(a, b) && SameReads(b, c)
    ensures SameReads(a, c)
  {
    forall q
      ensures (Readable(a, q) <==> Readable(c, q)) && (Readable(a, q) ==> a[q] == c[q])
    {
      assert Readable(a, q) <==> Readable(b, q);
    }
  }

  /** What a reclaim of one directory leaves of the trusted ones before it. */
  lemma PathsStay(roots: map<string, Option<string>>, a: Tree, b: Tree, dirs: seq<JobDir>, i: nat, j: nat)
    requires j < i < |dirs| && Trusted(roots, dirs[j])
    requires Framed(a, b, PathOf(dirs[i])) && (SameAt(a, b, PathOf(dirs[i])) || PathOf(dirs[i]) !in b)
    ensures SameAt(a, b, PathOf(dirs[j])) || PathOf(dirs[j]) !in b
  {
    var q := PathOf(dirs[j]);
    NamesAreNotDiscarding(q.name);
    assert q != PathOf(dirs[i]) ==> SameAt(a, b, q);
  }

  /** What the reclaim of one directory promises of it. */
  ghost predicate DirDone(roots: map<string, Option<string>>, a: Tree, before: Tree, t: Tree, d: JobDir, r: Outcome, clean: bool) {
    && Framed(before, t, PathOf(d))
    && (!r.Failed? ==> Settled(roots, t, d) && (SameAt(before, t, PathOf(d)) || PathOf(d) !in t))
    && (clean && !Blocked(roots, a, d) ==> !r.Failed? && Cleared(roots, t, d))
    && (r.Kept? && r.published ==> IsPublished(a, PathOf(d)))
    && (clean && Trusted(roots, d) && IsPublished(a, PathOf(d)) ==> r == Kept(true))
  }

  lemma SettledStays(roots: map<string, Option<string>>, before: Tree, t: Tree, dirs: seq<JobDir>, i: nat)
    requires i < |dirs| && Framed(before, t, PathOf(dirs[i])) && (SameAt(before, t, PathOf(dirs[i])) || PathOf(dirs[i]) !in t)
    ensures AllSettled(roots, before, dirs, i) ==> AllSettled(roots, t, dirs, i)
    ensures AllCleared(roots, before, dirs, i) ==> AllCleared(roots, t, dirs, i)
  {
    forall j | 0 <= j < i
      ensures (Settled(roots, before, dirs[j]) ==> Settled(roots, t, dirs[j])) && (Cleared(roots, before, dirs[j]) ==> Cleared(roots, t, dirs[j]))
    {
      if Trusted(roots, dirs[j]) {
        PathsStay(roots, before, t, dirs, i, j);
      }
    }
  }

  lemma OneMoreDir(roots: map<string, Option<string>>, a: Tree, before: Tree, t: Tree, dirs: seq<JobDir>, i: nat, r: Outcome,
                   dropped: bool, published: Option<Path>, clean: bool, cleanDir: bool, clean': bool)
    requires i < |dirs| && EntryDone(roots, a, before, dirs, i, dropped, published, clean) && (clean' ==> clean && cleanDir)
    requires DirDone(roots, a, before, t, dirs[i], r, cleanDir)
    ensures EntryDone(roots, a, t, dirs, i + 1, dropped && !r.Failed?, if r == Kept(true) then Some(PathOf(dirs[i])) else published, clean')
  {
    if !r.Failed? {
      SettledStays(roots, before, t, dirs, i);
    }
  }

  lemma NamesAreNotDiscarding(name: string)
    requires IsSnapshotName(name) || IsStagingName(name)
    ensures !IsDiscardingName(name)
  {
    assert name[0] != '.';
    assert forall n :: DiscardingName(n)[0] == '.';
  }

  ghost predicate ToSweep(t: Tree, root: string, todo: set<Path>) {
    forall q <- todo :: q in t && q.root == root && IsDiscardingName(q.name) && t[q].Folder?
  }

  /** Every directory on its way out is still to be swept; anything else under such a name was there before. */
  ghost predicate OthersOrLeft(a: Tree, b: Tree, root: string, todo: set<Path>) {
    forall q <- b | q.root == root && IsDiscardingName(q.name) :: q in todo || (b[q].Other? && q in a && a[q].Other?)
  }

  lemma OneLess(a: Tree, b: Tree, c: Tree, root: string, todo: set<Path>, q: Path)
    requires forall r | r != q :: SameAt(b, c, r)
    ensures OthersOrLeft(a, b, root, todo + {q}) && q !in c ==> OthersOrLeft(a, c, root, todo)
  {
    forall r <- c
      ensures r != q ==> SameAt(b, c, r)
    {
    }
  }

  /** Something that is not a directory holds the name the snapshot would be moved to. */
  predicate Obstructed(t: Tree, p: Path) {
    var q := Path(p.root, DiscardingName(p.name));
    IsSnapshotName(p.name) && q in t && t[q].Other?
  }

  // ------------------------------------------------------------------- disk

  class Disk {
    // Which file operations the system refuses, and how many it was asked for.
    const refused: nat -> bool
    var ops: nat
    var nodes: Tree
    var roots: map<string, Option<string>>
    ghost var trace: seq<Tree>

    constructor (nodes: Tree, roots: map<string, Option<string>>, refused: nat -> bool)
      ensures this.nodes == nodes && this.roots == roots && trace == [nodes] && ops == 0 && this.refused == refused
    {
      this.nodes := nodes;
      this.roots := roots;
      trace := [nodes];
      ops := 0;
      this.refused := refused;
    }

    /** None of these operations is refused. */
    ghost predicate Granted(from: nat, to: nat) {
      forall k | from <= k < to :: !refused(k)
    }

    method Ask() returns (ok: bool)
      modifies this`ops
      ensures ops == old(ops) + 1 && (ok <==> !refused(old(ops)))
    {
      ok := !refused(ops);
      ops := ops + 1;
    }

    /** Every tree the disk went through since `n` steps ago, and the tree now, is harmless. */
    ghost predicate HarmlessSince(a: Tree, n: nat, d: Path)
      reads this
    {
      Harmless(a, nodes, d) && forall k | n <= k < |trace| :: Harmless(a, trace[k], d)
    }

    method Write(t: Tree)
      modifies this`nodes, this`trace
      ensures nodes == t && trace == old(trace) + [t]
    {
      nodes := t;
      trace := trace + [t];
    }

    /** `os.RemoveAll`: children go one by one in no particular order, and it may stop anywhere. */
    method RemoveAll(p: Path) returns (ok: bool)
      requires p in nodes && nodes[p].Folder?
      modifies this`nodes, this`trace, this`ops
      ensures old(trace) <= trace
      ensures forall k | |old(trace)| <= k < |trace| :: Shrunk(old(nodes), trace[k], p)
      ensures Shrunk(old(nodes), nodes, p) && (ok <==> p !in nodes)
      ensures ops >= old(ops) && (!ok ==> !Granted(old(ops), ops))
    {
      var left := nodes[p].files;
      ghost var before := nodes;
      while left != {}
        invariant p in nodes && nodes[p] == Folder(left) && left <= before[p].files && ops >= old(ops)
        invariant forall q | q != p :: SameAt(before, nodes, q)
        invariant old(trace) <= trace
        invariant forall k | |old(trace)| <= k < |trace| :: Shrunk(before, trace[k], p)
        decreases |left|
      {
        var unlinked := Ask();
        if !unlinked {
          return false;
        }
        var f :| f in left;
        left := left - {f};
        OthersStay(before, nodes, nodes[p := Folder(left)], p);
        Write(nodes[p := Folder(left)]);
      }
      var emptied := Ask();
      if !emptied {
        return false;
      }
      OthersStay(before, nodes, nodes - {p}, p);
      Write(nodes - {p});
      return true;
    }

    /** `os.Rename` of a directory: one step, refused where something is in the way. */
    method Rename(p: Path, q: Path) returns (ok: bool)
      requires p in nodes && nodes[p].Folder? && p != q
      modifies this`nodes, this`trace, this`ops
      ensures ok ==> nodes == (old(nodes) - {p})[q := old(nodes)[p]] && trace == old(trace) + [nodes]
      ensures !ok ==> nodes == old(nodes) && trace == old(trace) && (!Granted(old(ops), ops) || q in nodes)
      ensures ops >= old(ops)
    {
      var allowed := Ask();
      if !allowed {
        return false;
      }
      if q in nodes && nodes[q] != Folder({}) {
        return false;
      }
      Write((nodes - {p})[q := nodes[p]]);
      return true;
    }

    /** `reconstruct.DiscardUnpublishedSnapshot`. */
    method DiscardUnpublished(p: Path) returns (r: Discard)
      requires IsSnapshotName(p.name)
      modifies this`nodes, this`trace, this`ops
      ensures old(trace) <= trace && HarmlessSince(old(nodes), |old(trace)|, p)
      ensures r.Gone? || r.GoneWithLeftovers? ==>
                p !in nodes && p in old(nodes) && old(nodes)[p].Folder? && !Complete(old(nodes)[p].files)
      ensures r.Refused? || r.Nothing? || r.Failure? ==> nodes == old(nodes)
      ensures r.Nothing? ==> p !in nodes
      ensures r.Refused? ==> p in nodes && (nodes[p].Folder? ==> Complete(nodes[p].files))
      ensures ops >= old(ops)
      ensures r.Failure? || r.GoneWithLeftovers? ==> !Granted(old(ops), ops) || Path(p.root, DiscardingName(p.name)) in old(nodes)
    {
      if p !in nodes {
        return Nothing;
      }
      var looked := Ask();
      if !looked {
        return Failure;
      }
      if nodes[p].Other? || Complete(nodes[p].files) {
        return Refused;
      }
      var q := Path(p.root, DiscardingName(p.name));
      DiscardingIsUnlisted(p.name);
      ghost var before := nodes;
      var moved := Rename(p, q);
      if !moved {
        return Failure;
      }
      RenameIsHarmless(before, p, q);
      ghost var aside, n := nodes, |trace|;
      var ok := RemoveAll(q);
      assert SameAt(aside, nodes, p);
      EachShrinkIsHarmless(before, aside, n, q, p);
      return if ok then Gone else GoneWithLeftovers;
    }

    ghost method EachShrinkIsHarmless(a: Tree, b: Tree, n: nat, q: Path, p: Path)
      requires Harmless(a, b, p) && q in b && b[q].Folder?
      requires !IsSnapshotName(q.name) && (q == p || (q.root == p.root && IsDiscardingName(q.name)))
      requires Shrunk(b, nodes, q) && forall k | n <= k < |trace| :: Shrunk(b, trace[k], q)
      ensures HarmlessSince(a, n, p)
    {
      ShrunkIsHarmless(b, nodes, q, p);
      HarmlessOn(a, b, nodes, p);
      forall k | n <= k < |trace|
        ensures Harmless(a, trace[k], p)
      {
        ShrunkIsHarmless(b, trace[k], q, p);
        HarmlessOn(a, b, trace[k], p);
      }
    }

    /** `reconstruct.SweepDiscardedSnapshots`: finishes the deletes an earlier discard did not. */
    method SweepDiscarded(d: Path) returns (ok: bool)
      modifies this`nodes, this`trace, this`ops
      ensures old(trace) <= trace && HarmlessSince(old(nodes), |old(trace)|, d)
      ensures !IsDiscardingName(d.name) ==> SameAt(old(nodes), nodes, d)
      ensures ops >= old(ops) && (!ok ==> !Granted(old(ops), ops))
      ensures Granted(old(ops), ops) ==> forall q <- nodes | q.root == d.root && IsDiscardingName(q.name) :: nodes[q].Other? && q in old(nodes) && old(nodes)[q].Other?
    {
      ok := true;
      var listed := Ask();
      if !listed {
        return;
      }
      var todo := set q | q in nodes && q.root == d.root && IsDiscardingName(q.name) && nodes[q].Folder?;
      while todo != {}
        invariant old(trace) <= trace && Sweeping(old(nodes), |old(trace)|, d, todo)
        invariant ops >= old(ops) && (!ok ==> !Granted(old(ops), ops))
        invariant Granted(old(ops), ops) ==> OthersOrLeft(old(nodes), nodes, d.root, todo)
        decreases |todo|
      {
        var q :| q in todo;
        var gone := SweepOne(old(nodes), |old(trace)|, q, d, todo);
        todo := todo - {q};
        ok := ok && gone;
      }
    }

    /** Where a sweep beside this directory stands. */
    ghost predicate Sweeping(a: Tree, n: nat, d: Path, todo: set<Path>)
      reads this
    {
      HarmlessSince(a, n, d) && ToSweep(nodes, d.root, todo) && (!IsDiscardingName(d.name) ==> SameAt(a, nodes, d))
    }

    method SweepOne(ghost a: Tree, ghost n: nat, q: Path, d: Path, todo: set<Path>) returns (gone: bool)
      requires n <= |trace| && Sweeping(a, n, d, todo) && q in todo
      modifies this`nodes, this`trace, this`ops
      ensures old(trace) <= trace && Sweeping(a, n, d, todo - {q})
      ensures ops >= old(ops) && (!gone ==> !Granted(old(ops), ops))
      ensures gone && OthersOrLeft(a, old(nodes), d.root, todo) ==> OthersOrLeft(a, nodes, d.root, todo - {q})
    {
      assert q.name[0] == '.';
      gone := RemoveAll(q);
      if !IsDiscardingName(d.name) {
        assert q != d && SameAt(old(nodes), nodes, d);
      }
      EachShrinkIsHarmless(a, old(nodes), |old(trace)|, q, d);
      forall r <- todo - {q}
        ensures r in nodes && nodes[r].Folder?
      {
        assert SameAt(old(nodes), nodes, r);
      }
      assert todo == todo - {q} + {q};
      OneLess(a, old(nodes), nodes, d.root, todo - {q}, q);
      forall k | n <= k < |trace|
        ensures Harmless(a, trace[k], d)
      {
        assert k < |old(trace)| ==> trace[k] == old(trace)[k];
      }
    }

    /** `reclaimSnapshotDir`: a published snapshot stays, an unpublished one goes, a markerless one stays unless empty. */
    method ReclaimSnapshotDir(p: Path) returns (r: Outcome)
      requires IsSnapshotName(p.name) && p in nodes && nodes[p].Folder?
      modifies this`nodes, this`trace, this`ops
      ensures old(trace) <= trace && HarmlessSince(old(nodes), |old(trace)|, p)
      ensures r.Removed? ==> p !in nodes && Leftover(old(nodes), p)
      ensures r.Kept? ==> nodes == old(nodes) && (Leftover(nodes, p) ==> IsEmptyFolder(nodes, p))
      ensures r.Kept? && r.published ==> IsPublished(nodes, p)
      ensures IsPublished(old(nodes), p) ==> r == Kept(true)
      ensures !r.Absent?
      ensures ops >= old(ops)
      ensures r.Failed? || (r.Kept? && Leftover(nodes, p)) ==> !Granted(old(ops), ops) || Path(p.root, DiscardingName(p.name)) in old(nodes)
    {
      if SUCCESS in nodes[p].files {
        return Kept(true);
      }
      ghost var before := nodes;
      var d := DiscardUnpublished(p);
      match d {
        case GoneWithLeftovers => return Failed;
        case Gone => return Removed;
        case Failure => return Failed;
        case Nothing => assert false;
        case Refused =>
          var listed := Ask();
          if !listed {
            return Kept(false);
          }
          if nodes[p].files != {} {
            return Kept(false);
          }
          var gone := Ask();
          if !gone {
            return Failed;
          }
          EmptyGoesHarmlessly(nodes, p);
          HarmlessOn(before, nodes, nodes - {p}, p);
          Write(nodes - {p});
          return Removed;
      }
    }

    /** The checks that come before anything is touched; `None` when they all pass. */
    method CheckJobDir(d: JobDir) returns (r: Option<Outcome>)
      ensures r.None? <==> Trusted(roots, d)
      ensures r.None? <==>
              && d.name != "" && d.name != "." && d.name != ".." && '/' !in d.name && '\\' !in d.name
              && (IsSnapshotName(d.name) || IsStagingName(d.name))
              && d.root != "" && d.root[0] == '/' && d.root in roots && roots[d.root].Some? && roots[d.root].value == d.resolvedRoot
      ensures r.Some? ==> r.value == Kept(false) || (r.value == Absent && d.root !in roots)
    {
      if !IsPlainName(d.name) || (!IsSnapshotName(d.name) && !IsStagingName(d.name)) {
        return Some(Kept(false));
      }
      if !IsAbsolute(d.root) {
        return Some(Kept(false));
      }
      if d.root !in roots {
        return Some(Absent);
      }
      if roots[d.root] != Some(d.resolvedRoot) {
        return Some(Kept(false));
      }
      return None;
    }

    /** `reclaimJobDir`. */
    method ReclaimJobDir(d: JobDir) returns (r: Outcome)
      modifies this`nodes, this`trace, this`ops
      ensures old(trace) <= trace && HarmlessSince(old(nodes), |old(trace)|, PathOf(d))
      ensures r.Removed? ==> Trusted(roots, d) && Leftover(old(nodes), PathOf(d)) && PathOf(d) !in nodes
      ensures r.Kept? || r.Absent? ==> SameAt(old(nodes), nodes, PathOf(d)) || PathOf(d) !in nodes
      ensures (r.Kept? || r.Absent?) && Trusted(roots, d) && Leftover(nodes, PathOf(d)) ==> IsEmptyFolder(nodes, PathOf(d))
      ensures !Trusted(roots, d) ==> (r == Kept(false) || r.Absent?) && nodes == old(nodes) && trace == old(trace)
      ensures r.Kept? && r.published ==> IsPublished(nodes, PathOf(d))
      ensures ops >= old(ops)
      ensures Granted(old(ops), ops) && Trusted(roots, d) && IsPublished(old(nodes), PathOf(d)) ==> r == Kept(true)
      ensures Granted(old(ops), ops) && !Blocked(roots, old(nodes), d) ==> !r.Failed? && Cleared(roots, nodes, d)
      ensures Granted(old(ops), ops) && Trusted(roots, d) && Leftover(old(nodes), PathOf(d)) && !Obstructed(old(nodes), PathOf(d)) ==> r.Removed?
    {
      var p := PathOf(d);
      var refused := CheckJobDir(d);
      if refused.Some? {
        return refused.value;
      }
      if IsSnapshotName(d.name) {
        r := SweepAndReclaim(p);
      } else {
        r := ReclaimScratch(p);
      }
    }

    method ReclaimScratch(p: Path) returns (r: Outcome)
      requires !IsSnapshotName(p.name)
      modifies this`nodes, this`trace, this`ops
      ensures old(trace) <= trace && HarmlessSince(old(nodes), |old(trace)|, p)
      ensures r.Removed? ==> Leftover(old(nodes), p) && p !in nodes
      ensures r.Kept? || r.Absent? ==> nodes == old(nodes) && !Leftover(nodes, p) && r != Kept(true)
      ensures ops >= old(ops) && (r.Failed? ==> !Granted(old(ops), ops))
    {
      if p !in nodes {
        return Absent;
      }
      var looked := Ask();
      if !looked {
        return Failed;
      }
      if nodes[p].Other? {
        return Kept(false);
      }
      var ok := RemoveAll(p);
      EachShrinkIsHarmless(old(nodes), old(nodes), |old(trace)|, p, p);
      return if ok then Removed else Failed;
    }

    /** Leftovers of an earlier discard first, so that the rename below finds its target free. */
    method SweepAndReclaim(p: Path) returns (r: Outcome)
      requires IsSnapshotName(p.name)
      modifies this`nodes, this`trace, this`ops
      ensures old(trace) <= trace && HarmlessSince(old(nodes), |old(trace)|, p)
      ensures r.Removed? ==> Leftover(old(nodes), p) && p !in nodes
      ensures r.Kept? || r.Absent? ==> SameAt(old(nodes), nodes, p) && (Leftover(nodes, p) ==> IsEmptyFolder(nodes, p))
      ensures r.Kept? && r.published ==> IsPublished(nodes, p)
      ensures ops >= old(ops)
      ensures Granted(old(ops), ops) && IsPublished(old(nodes), p) ==> r == Kept(true)
      ensures Granted(old(ops), ops) && !Obstructed(old(nodes), p) ==> !r.Failed?
      ensures Granted(old(ops), ops) && Leftover(old(nodes), p) && !Obstructed(old(nodes), p) ==> r.Removed?
    {
      NamesAreNotDiscarding(p.name);
      DiscardingIsUnlisted(p.name);
      var swept := SweepDiscarded(p);
      if !swept {
        return Failed;
      }
      if p !in nodes {
        return Absent;
      }
      var looked := Ask();
      if !looked {
        return Failed;
      }
      if nodes[p].Other? {
        return Kept(false);
      }
      ghost var middle, k := nodes, |trace|;
      assert SameAt(old(nodes), middle, p);
      assert Granted(old(ops), ops) && Path(p.root, DiscardingName(p.name)) in middle ==> Obstructed(old(nodes), p);
      r := ReclaimSnapshotDir(p);
      TraceChains(old(nodes), |old(trace)|, middle, k, p);
    }

    ghost method TraceChains(a: Tree, n: nat, b: Tree, k: nat, p: Path)
      requires n <= k <= |trace| && Harmless(a, b, p)
      requires forall i | n <= i < k :: Harmless(a, trace[i], p)
      requires HarmlessSince(b, k, p)
      ensures HarmlessSince(a, n, p)
    {
      HarmlessOn(a, b, nodes, p);
      forall i | n <= i < |trace|
        ensures Harmless(a, trace[i], p)
      {
        if k <= i {
          HarmlessOn(a, b, trace[i], p);
        }
      }
    }

    /** Readers never saw a difference since `m` steps ago, and only listed paths differ. */
    ghost predicate OnlyListed(a: Tree, m: nat, dirs: seq<JobDir>)
      reads this
    {
      && SameReads(a, nodes) && (forall k | m <= k < |trace| :: SameReads(a, trace[k])) && NoNewOthers(a, nodes)
      && (forall q | !Listed(roots, dirs, q) :: SameAt(a, nodes, q))
    }

    /**
      `reclaimJob` once the lock is taken: every listed directory in turn. The entry is
      dropped only when nothing failed, and then nothing it lists is left to remove. When
      the system refuses nothing and no name is taken, it is dropped and every trusted
      leftover is gone.
     */
    method ReclaimEntry(dirs: seq<JobDir>) returns (dropped: bool, published: Option<Path>)
      modifies this`nodes, this`trace, this`ops
      ensures old(trace) <= trace && ops >= old(ops) && OnlyListed(old(nodes), |old(trace)|, dirs)
      ensures EntryDone(roots, old(nodes), nodes, dirs, |dirs|, dropped, published, Granted(old(ops), ops))
    {
      dropped, published := true, None;
      for i := 0 to |dirs|
        invariant old(trace) <= trace && ops >= old(ops) && OnlyListed(old(nodes), |old(trace)|, dirs)
        invariant EntryDone(roots, old(nodes), nodes, dirs, i, dropped, published, Granted(old(ops), ops))
      {
        ghost var before, was := nodes, ops;
        var r := ReclaimListed(old(nodes), |old(trace)|, dirs, i);
        OneMoreDir(roots, old(nodes), before, nodes, dirs, i, r, dropped, published, Granted(old(ops), was), Granted(was, ops), Granted(old(ops), ops));
        if r.Failed? {
          dropped := false;
        }
        if r == Kept(true) {
          published := Some(PathOf(dirs[i]));
        }
      }
    }

    method ReclaimListed(ghost a: Tree, ghost m: nat, dirs: seq<JobDir>, i: nat) returns (r: Outcome)
      requires i < |dirs| && m <= |trace| && OnlyListed(a, m, dirs)
      modifies this`nodes, this`trace, this`ops
      ensures old(trace) <= trace && ops >= old(ops) && OnlyListed(a, m, dirs)
      ensures DirDone(roots, a, old(nodes), nodes, dirs[i], r, Granted(old(ops), ops))
    {
      r := ReclaimJobDir(dirs[i]);
      ReadsChain(a, m, old(nodes), |old(trace)|, PathOf(dirs[i]));
      FrameChain(a, old(nodes), dirs, i);
    }

    ghost method ReadsChain(a: Tree, m: nat, b: Tree, n: nat, d: Path)
      requires m <= n <= |trace| && SameReads(a, b) && HarmlessSince(b, n, d)
      requires forall k | m <= k < n :: SameReads(a, trace[k])
      ensures SameReads(a, nodes) && forall k | m <= k < |trace| :: SameReads(a, trace[k])
    {
      ReadsOn(a, b, nodes);
      forall k | m <= k < |trace|
        ensures SameReads(a, trace[k])
      {
        if n <= k {
          ReadsOn(a, b, trace[k]);
        }
      }
    }

    ghost method FrameChain(a: Tree, b: Tree, dirs: seq<JobDir>, i: nat)
      requires i < |dirs| && (forall q | !Listed(roots, dirs, q) :: SameAt(a, b, q))
      requires Framed(b, nodes, PathOf(dirs[i])) && (!Trusted(roots, dirs[i]) ==> nodes == b)
      ensures forall q | !Listed(roots, dirs, q) :: SameAt(a, nodes, q)
    {
      forall q | !Listed(roots, dirs, q)
        ensures SameAt(a, nodes, q)
      {
        assert SameAt(a, b, q);
        if Trusted(roots, dirs[i]) {
          assert SameAt(b, nodes, q);
        }
      }
    }
  }
}
