/**
  The dump command's output directory: a previous dump is moved aside, the new one is
  written, and the old one is deleted or put back. Which file operations are refused and
  what mydumper writes are inputs; the process may die between any two steps, so the
  trees it went through are kept.
 */
module DumpDir {

  import opened Prelude

  type Contents = map<string, string>

  datatype Node = Folder(files: Contents) | Other

  type Tree = map<string, Node>

  const MARKERS := {"metadata", "metadata.partial", "bintrail_dump_started_at_utc"}

  /** `looksLikeDumpDir`: whether a listing holds any of the markers. */
  method LooksLikeDump(names: set<string>) returns (found: bool)
    ensures found <==> names * MARKERS != {}
  {
    var left := names;
    while left != {}
      invariant left <= names && (names - left) * MARKERS == {}
      decreases |left|
    {
      var name :| name in left;
      if name in MARKERS {
        assert name in names * MARKERS;
        return true;
      }
      left := left - {name};
    }
    return false;
  }

  /** A non-empty directory that carries a marker of an earlier dump. */
  predicate IsDump(n: Node) {
    n.Folder? && n.files.Keys * MARKERS != {}
  }

  predicate IsFree(t: Tree, dir: string) {
    dir !in t || t[dir] == Folder(map[])
  }

  /** The output directory is free, or a dump whose backup's name is free. */
  predicate CanPrepare(t: Tree, dir: string, backup: string) {
    IsFree(t, dir) || (IsDump(t[dir]) && backup !in t)
  }

  /** The old dump, whole, is at its own path or at the backup's. */
  predicate HasDump(t: Tree, dir: string, backup: string, was: Node) {
    (dir in t && t[dir] == was) || (backup in t && t[backup] == was)
  }

  ghost predicate OnlyTouches(a: Tree, b: Tree, dir: string, backup: string) {
    forall q | q != dir && q != backup :: SameAt(a, b, q)
  }

  /** A run of mydumper: what the output directory holds after each of its writes, and whether it exits well. */
  datatype Mydumper = Mydumper(writes: seq<Contents>, ok: bool)

  /** The tree after the first `n` writes. */
  function Written(t: Tree, dir: string, writes: seq<Contents>, n: nat): Tree
    requires n <= |writes|
  {
    if n == 0 then t else t[dir := Folder(writes[n - 1])]
  }

  /** From a place in the trace on, the trees are those of the writes, one after the other. */
  ghost predicate Wrote(trace: seq<Tree>, from: nat, t: Tree, dir: string, writes: seq<Contents>) {
    from + |writes| <= |trace| && forall k | from <= k < from + |writes| :: trace[k] == Written(t, dir, writes, k - from + 1)
  }

  /** The old dump moved aside. */
  function Aside(t: Tree, dir: string, backup: string): Tree
    requires dir in t
  {
    (t - {dir})[backup := t[dir]]
  }

  datatype Prep = Prep(dir: string, backup: Option<string>)

  datatype Outcome = Refused | Failed | Succeeded

  class FileSystem {
    // Which operations the system refuses, and how many it was asked for.
    const refused: nat -> bool
    var ops: nat
    var nodes: Tree
    ghost var trace: seq<Tree>

    constructor (nodes: Tree, refused: nat -> bool)
      ensures this.nodes == nodes && trace == [nodes] && ops == 0 && this.refused == refused
    {
      this.nodes := nodes;
      trace := [nodes];
      ops := 0;
      this.refused := refused;
    }

    /** None of these operations is refused. */
    ghost predicate Granted(from: nat, to: nat) {
      forall k | from <= k < to :: !refused(k)
    }

    method Ask() returns (ok: bool)
      modifies this`ops
      ensures ops == old(ops) + 1 && (ok <==> !refused(old(ops)))
    {
      ok := !refused(ops);
      ops := ops + 1;
    }

    /** What holds of every tree since a point in the trace, and of the tree now. */
    ghost predicate SafeSince(n: nat, a: Tree, dir: string, backup: string, was: Node)
      reads this
    {
      && HasDump(nodes, dir, backup, was) && OnlyTouches(a, nodes, dir, backup)
      && forall k | n <= k < |trace| :: HasDump(trace[k], dir, backup, was) && OnlyTouches(a, trace[k], dir, backup)
    }

    /** Nothing but these two paths differs in any tree since a point in the trace. */
    ghost predicate TouchesSince(n: nat, a: Tree, dir: string, backup: string)
      reads this
    {
      OnlyTouches(a, nodes, dir, backup) && forall k | n <= k < |trace| :: OnlyTouches(a, trace[k], dir, backup)
    }

    method Write(t: Tree)
      modifies this`nodes, this`trace
      ensures nodes == t && trace == old(trace) + [t]
    {
      nodes := t;
      trace := trace + [t];
    }

    /** `os.RemoveAll`: absent is fine; children go in no particular order and it may stop anywhere. */
    method RemoveAll(p: string) returns (ok: bool)
      modifies this`nodes, this`trace, this`ops
      ensures old(trace) <= trace && ops >= old(ops) && (!ok ==> !Granted(old(ops), ops))
      ensures forall q | q != p :: SameAt(old(nodes), nodes, q)
      ensures forall k, q | |old(trace)| <= k < |trace| && q != p :: SameAt(old(nodes), trace[k], q)
      ensures ok ==> p !in nodes
    {
      if p !in nodes {
        return true;
      }
      var steps: int := *;
      while steps > 0 && p in nodes && nodes[p].Folder?
        invariant p in nodes && old(trace) <= trace && ops == old(ops)
        invariant forall q | q != p :: SameAt(old(nodes), nodes, q)
        invariant forall k, q | |old(trace)| <= k < |trace| && q != p :: SameAt(old(nodes), trace[k], q)
        decreases steps
      {
        steps := steps - 1;
        var files := nodes[p].files;
        var left: set<string> := *;
        var next := nodes[p := Folder(map f | f in files && f in left :: files[f])];
        OthersStay(old(nodes), nodes, next, p);
        Write(next);
      }
      var granted := Ask();
      if !granted {
        return false;
      }
      OthersStay(old(nodes), nodes, nodes - {p}, p);
      Write(nodes - {p});
      return true;
    }

    /** `os.Rename` of a directory onto a path that is free. */
    method Rename(p: string, q: string) returns (ok: bool)
      requires p in nodes && q !in nodes
      modifies this`nodes, this`trace, this`ops
      ensures ok ==> nodes == (old(nodes) - {p})[q := old(nodes)[p]] && trace == old(trace) + [nodes] && ops >= old(ops)
      ensures !ok ==> nodes == old(nodes) && trace == old(trace) && ops >= old(ops) && !Granted(old(ops), ops)
    {
      var granted := Ask();
      if !granted {
        return false;
      }
      Write((nodes - {p})[q := nodes[p]]);
      return true;
    }

    /** `prepareDumpOutputDir`: nothing is deleted, and only a recognizable earlier dump is moved. */
    method Prepare(dir: string, suffix: string) returns (prep: Option<Prep>)
      requires suffix != ""
      modifies this`nodes, this`trace, this`ops
      ensures ops >= old(ops)
      ensures prep.None? ==> nodes == old(nodes) && trace == old(trace)
      ensures dir in old(nodes) && !IsFree(old(nodes), dir) && !IsDump(old(nodes)[dir]) ==> prep.None?
      ensures prep.Some? && prep.value.backup.None? ==> prep.value.dir == dir && IsFree(nodes, dir) && nodes == old(nodes) && trace == old(trace)
      ensures prep.Some? && prep.value.backup.Some? ==>
                && prep.value == Prep(dir, Some(dir + suffix)) && dir in old(nodes) && IsDump(old(nodes)[dir]) && dir + suffix !in old(nodes)
                && nodes == Aside(old(nodes), dir, dir + suffix) && trace == old(trace) + [nodes]
      ensures Granted(old(ops), ops) ==> (prep.Some? <==> CanPrepare(old(nodes), dir, dir + suffix))
      ensures prep.Some? ==> (prep.value.backup.None? <==> IsFree(old(nodes), dir))
    {
      var granted := Ask();
      if !granted {
        return None;
      }
      if dir !in nodes {
        return Some(Prep(dir, None));
      }
      if nodes[dir].Other? {
        return None;
      }
      if nodes[dir].files == map[] {
        return Some(Prep(dir, None));
      }
      var dump := LooksLikeDump(nodes[dir].files.Keys);
      if !dump {
        return None;
      }
      var backup := dir + suffix;
      if backup in nodes {
        return None;
      }
      assert |backup| > |dir|;
      var moved := Rename(dir, backup);
      if !moved {
        return None;
      }
      return Some(Prep(dir, Some(backup)));
    }

    /** The dump itself. */
    method Dump(dir: string, run: Mydumper)
      modifies this`nodes, this`trace
      ensures nodes == Written(old(nodes), dir, run.writes, |run.writes|)
      ensures old(trace) <= trace && |trace| == |old(trace)| + |run.writes| && Wrote(trace, |old(trace)|, old(nodes), dir, run.writes)
    {
      for i := 0 to |run.writes|
        invariant nodes == Written(old(nodes), dir, run.writes, i)
        invariant old(trace) <= trace && |trace| == |old(trace)| + i
        invariant forall k | |old(trace)| <= k < |old(trace)| + i :: trace[k] == Written(old(nodes), dir, run.writes, k - |old(trace)| + 1)
      {
        assert nodes[dir := Folder(run.writes[i])] == Written(old(nodes), dir, run.writes, i + 1);
        Write(nodes[dir := Folder(run.writes[i])]);
      }
    }

    /** `commit`: the old dump goes, once the new one is complete. */
    method CommitDump(prep: Prep)
      modifies this`nodes, this`trace, this`ops
      ensures old(trace) <= trace && ops >= old(ops)
      ensures forall q | !(prep.backup.Some? && prep.backup.value == q) :: SameAt(old(nodes), nodes, q)
      ensures forall k, q | |old(trace)| <= k < |trace| && !(prep.backup.Some? && prep.backup.value == q) :: SameAt(old(nodes), trace[k], q)
      ensures prep.backup.Some? && Granted(old(ops), ops) ==> prep.backup.value !in nodes
    {
      if prep.backup.None? {
        return;
      }
      var _ := RemoveAll(prep.backup.value);
    }

    /** `rollback`: partial output goes and the old dump comes back, or stays where it was put. */
    method Rollback(prep: Prep, ghost a: Tree, ghost n: nat, ghost was: Node)
      requires prep.backup.Some? && prep.backup.value != prep.dir && n <= |trace|
      requires SafeSince(n, a, prep.dir, prep.backup.value, was) && prep.backup.value in nodes && nodes[prep.backup.value] == was
      modifies this`nodes, this`trace, this`ops
      ensures old(trace) <= trace && ops >= old(ops) && SafeSince(n, a, prep.dir, prep.backup.value, was)
      ensures Granted(old(ops), ops) ==> prep.dir in nodes && nodes[prep.dir] == was && prep.backup.value !in nodes
    {
      var dir, backup := prep.dir, prep.backup.value;
      var gone := RemoveAll(dir);
      assert SameAt(old(nodes), nodes, backup);
      StillSafe(old(nodes), |old(trace)|, n, a, dir, backup, was);
      if !gone {
        return;
      }
      ghost var cleared := nodes;
      var back := Rename(backup, dir);
      if back {
        forall q | q != dir && q != backup
          ensures SameAt(a, nodes, q)
        {
          assert SameAt(a, cleared, q);
        }
      }
    }

    /** What only touches the output directory leaves the moved dump, and everything else, alone. */
    ghost method StillSafe(b: Tree, k0: nat, n: nat, a: Tree, dir: string, backup: string, was: Node)
      requires n <= k0 <= |trace| && dir != backup && backup in b && b[backup] == was && OnlyTouches(a, b, dir, backup)
      requires forall k | n <= k < k0 :: HasDump(trace[k], dir, backup, was) && OnlyTouches(a, trace[k], dir, backup)
      requires forall q | q != dir :: SameAt(b, nodes, q)
      requires forall k, q | k0 <= k < |trace| && q != dir :: SameAt(b, trace[k], q)
      ensures SafeSince(n, a, dir, backup, was)
    {
      assert SameAt(b, nodes, backup);
      forall q | q != dir && q != backup
        ensures SameAt(a, nodes, q)
      {
        assert SameAt(a, b, q) && SameAt(b, nodes, q);
      }
      forall k | k0 <= k < |trace|
        ensures HasDump(trace[k], dir, backup, was) && OnlyTouches(a, trace[k], dir, backup)
      {
        assert SameAt(b, trace[k], backup);
        forall q | q != dir && q != backup
          ensures SameAt(a, trace[k], q)
        {
          assert SameAt(a, b, q) && SameAt(b, trace[k], q);
        }
      }
    }

    ghost method StillTouches(b: Tree, k0: nat, n: nat, a: Tree, p: string, dir: string, backup: string)
      requires n <= k0 <= |trace| && p in {dir, backup} && OnlyTouches(a, b, dir, backup)
      requires forall k | n <= k < k0 :: OnlyTouches(a, trace[k], dir, backup)
      requires forall q | q != p :: SameAt(b, nodes, q)
      requires forall k, q | k0 <= k < |trace| && q != p :: SameAt(b, trace[k], q)
      ensures TouchesSince(n, a, dir, backup)
    {
      forall q | q != dir && q != backup
        ensures SameAt(a, nodes, q)
      {
        assert SameAt(a, b, q) && SameAt(b, nodes, q);
      }
      forall k, q | k0 <= k < |trace| && q != dir && q != backup
        ensures SameAt(a, trace[k], q)
      {
        assert SameAt(a, b, q) && SameAt(b, trace[k], q);
      }
    }

    /** The writes of the dump change the output directory only. */
    ghost method WritesTouch(b: Tree, k0: nat, dir: string, writes: seq<Contents>)
      requires k0 + |writes| == |trace| && Wrote(trace, k0, b, dir, writes) && nodes == Written(b, dir, writes, |writes|)
      ensures forall q | q != dir :: SameAt(b, nodes, q)
      ensures forall k, q | k0 <= k < |trace| && q != dir :: SameAt(b, trace[k], q)
    {
      forall k, q | k0 <= k < |trace| && q != dir
        ensures SameAt(b, trace[k], q)
      {
        assert trace[k] == Written(b, dir, writes, k - k0 + 1);
      }
    }

    /** The output directory holds what the dump last wrote in every tree from a place in the trace on, and now. */
    ghost predicate Holds(n: nat, t: Tree, dir: string)
      reads this
    {
      SameAt(t, nodes, dir) && forall k | n <= k < |trace| :: SameAt(t, trace[k], dir)
    }

    /**
      The dump command around its output directory. It goes ahead whenever the directory
      can be prepared and the system refuses nothing, and ends as mydumper does; a refusal
      changes nothing. The trace is the move of an earlier dump, if there was one, and then
      each write; `done` is where the last write is. Up to there, and to the end when it
      failed, the earlier dump is whole at its path or at the backup's in every tree; from
      there on the output of a dump that went well stays; nothing else is ever touched.
     */
    method RunDump(dir: string, suffix: string, run: Mydumper) returns (outcome: Outcome, ghost done: nat)
      requires suffix != ""
      modifies this`nodes, this`trace, this`ops
      ensures old(trace) <= trace && ops >= old(ops)
      ensures outcome.Refused? ==> nodes == old(nodes) && trace == old(trace)
      ensures !CanPrepare(old(nodes), dir, dir + suffix) ==> outcome.Refused?
      ensures Granted(old(ops), ops) && CanPrepare(old(nodes), dir, dir + suffix) ==> !outcome.Refused?
      ensures !outcome.Refused? ==> outcome == if run.ok then Succeeded else Failed
      ensures TouchesSince(|old(trace)|, old(nodes), dir, if IsFree(old(nodes), dir) then dir else dir + suffix)
      ensures !outcome.Refused? && IsFree(old(nodes), dir) ==>
                && done == |old(trace)| + |run.writes| == |trace| && nodes == Written(old(nodes), dir, run.writes, |run.writes|)
                && Wrote(trace, |old(trace)|, old(nodes), dir, run.writes)
      ensures !outcome.Refused? && !IsFree(old(nodes), dir) ==>
                && done == |old(trace)| + 1 + |run.writes| <= |trace|
                && Overwrote(|old(trace)|, done, old(nodes), dir, dir + suffix, run, outcome)
                && (Granted(old(ops), ops) ==> dir + suffix !in nodes && (outcome.Failed? ==> dir in nodes && nodes[dir] == old(nodes)[dir]))
    {
      done := |trace|;
      ghost var a, n := nodes, |trace|;
      var prep := Prepare(dir, suffix);
      if prep.None? {
        return Refused, done;
      }
      if prep.value.backup.None? {
        Dump(dir, run);
        WritesTouch(a, n, dir, run.writes);
        StillTouches(a, n, n, a, dir, dir, dir);
        return if run.ok then Succeeded else Failed, |trace|;
      }
      assert |dir + suffix| > |dir|;
      outcome, done := DumpOverBackup(dir, dir + suffix, a, n, run);
    }

    /** What a dump over an earlier one leaves in the trace. */
    ghost predicate Overwrote(n: nat, done: nat, a: Tree, dir: string, backup: string, run: Mydumper, outcome: Outcome)
      requires dir in a && n < done <= |trace|
      reads this
    {
      && trace[n] == Aside(a, dir, backup) && Wrote(trace, n + 1, Aside(a, dir, backup), dir, run.writes)
      && (forall k | n <= k < done :: HasDump(trace[k], dir, backup, a[dir]))
      && (outcome.Failed? ==> HasDump(nodes, dir, backup, a[dir]) && forall k | done <= k < |trace| :: HasDump(trace[k], dir, backup, a[dir]))
      && (outcome.Succeeded? ==> Holds(done, Written(Aside(a, dir, backup), dir, run.writes, |run.writes|), dir))
    }

    /** The new dump, and then the end of the old one or its return. */
    method DumpOverBackup(dir: string, backup: string, ghost a: Tree, ghost n: nat, run: Mydumper) returns (outcome: Outcome, ghost done: nat)
      requires dir != backup && dir in a && backup !in a && |trace| == n + 1 && trace[n] == nodes == Aside(a, dir, backup)
      modifies this`nodes, this`trace, this`ops
      ensures old(trace) <= trace && ops >= old(ops) && done == n + 1 + |run.writes| <= |trace|
      ensures outcome == (if run.ok then Succeeded else Failed) && TouchesSince(n, a, dir, backup)
      ensures Overwrote(n, done, a, dir, backup, run, outcome)
      ensures Granted(old(ops), ops) ==> backup !in nodes && (outcome.Failed? ==> dir in nodes && nodes[dir] == a[dir])
    {
      var prep := Prep(dir, Some(backup));
      Dump(dir, run);
      done := |trace|;
      ghost var complete, sofar := nodes, trace;
      WritesTouch(old(nodes), n + 1, dir, run.writes);
      StillSafe(old(nodes), n + 1, n, a, dir, backup, a[dir]);
      if run.ok {
        CommitDump(prep);
        StillTouches(complete, done, n, a, backup, dir, backup);
        outcome := Succeeded;
      } else {
        Rollback(prep, a, n, a[dir]);
        outcome := Failed;
      }
      assert forall k | 0 <= k < done :: trace[k] == sofar[k];
    }
  }
}
