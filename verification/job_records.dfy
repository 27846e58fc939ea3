/**
  What the run history says of a run, over every run of the protocol: a job that finished
  is on record in its owner's copy for as long as the owner lives, one that neither
  finished nor was reclaimed is on no record, and a job that is released or reclaimed
  leaves neither entry nor lock file.
 */
module JobRecords {

  import opened JobProtocol

  // ------------------------------------------------------- finished runs

  /** The owner's own copy of the history, while the owner lives, has the run once, and marks an entry of it that is still there. */
  ghost predicate OnRecord(s: State, r: RunId) {
    OwnerAlive(s, r) ==>
      var pid := s.jobs[r].pid;
      pid in s.memory && s.memory[pid].records[r] == 1 && (r in s.memory[pid].jobs ==> s.memory[pid].jobs[r].recorded)
  }

  /** A run that is past its finish: it does not finish again, nor begin. */
  ghost predicate Settled(s: State, r: RunId) {
    OnRecord(s, r) && r in s.jobs && s.jobs[r].finished && Journaled(s.jobs[r].phase)
  }

  lemma WorldLeavesRecords(s: State, a: WorldStep, r: RunId)
    requires Settled(s, r) && s.jobs[r].pid in s.born && WorldEnabled(s, a)
    ensures Settled(WorldApply(s, a), r)
  {
  }

  lemma BeginLeavesRecords(s: State, a: JobStep, r: RunId)
    requires Settled(s, r) && JobEnabled(s, a) && a.Begin?
    ensures Settled(JobApply(s, a), r)
  {
  }

  lemma ClaimLeavesRecords(s: State, a: JobStep, r: RunId)
    requires Settled(s, r) && JobEnabled(s, a) && a.ClaimDir?
    ensures Settled(JobApply(s, a), r)
  {
  }

  lemma FinishLeavesRecords(s: State, a: JobStep, r: RunId)
    requires Settled(s, r) && JobEnabled(s, a) && a.Finish?
    ensures Settled(JobApply(s, a), r)
  {
  }

  lemma FailedDropLeavesRecords(s: State, a: JobStep, r: RunId)
    requires Settled(s, r) && JobEnabled(s, a) && a.DropEntry? && !a.saved
    ensures Settled(JobApply(s, a), r)
  {
  }

  lemma DropLeavesRecords(s: State, a: JobStep, r: RunId)
    requires Settled(s, r) && JobEnabled(s, a) && a.DropEntry? && a.saved
    ensures Settled(JobApply(s, a), r)
  {
  }

  lemma LockLeavesRecords(s: State, a: JobStep, r: RunId)
    requires Settled(s, r) && JobEnabled(s, a) && (a.TakeLock? || a.UnlinkLock? || a.CloseLock? || a.EndBare?)
    ensures Settled(JobApply(s, a), r)
  {
  }

  lemma JobLeavesRecords(s: State, a: JobStep, r: RunId)
    requires Settled(s, r) && JobEnabled(s, a)
    ensures Settled(JobApply(s, a), r)
  {
    match a {
      case Begin(_, _) => BeginLeavesRecords(s, a, r);
      case ClaimDir(_, _, _) => ClaimLeavesRecords(s, a, r);
      case Finish(_, _) => FinishLeavesRecords(s, a, r);
      case DropEntry(_, saved) =>
        if saved {
          DropLeavesRecords(s, a, r);
        } else {
          FailedDropLeavesRecords(s, a, r);
        }
      case _ => LockLeavesRecords(s, a, r);
    }
  }

  lemma ReclaimLeavesRecords(s: State, a: ReclaimStep, r: RunId)
    requires Settled(s, r) && ReclaimEnabled(s, a)
    ensures Settled(ReclaimApply(s, a), r)
  {
  }

  lemma StepLeavesRecords(s: State, a: Action, r: RunId)
    requires ProcessesInv(s) && Settled(s, r) && Enabled(s, a)
    ensures Settled(Apply(s, a), r)
  {
    match a {
      case ByWorld(w) => WorldLeavesRecords(s, w, r);
      case ByJob(j) => JobLeavesRecords(s, j, r);
      case ByReclaim(c) => ReclaimLeavesRecords(s, c, r);
    }
  }

  lemma {:induction false} RunLeavesRecords(s: State, run: seq<Action>, r: RunId)
    requires Inv(s) && Settled(s, r) && Legal(s, run)
    ensures Settled(After(s, run), r)
    decreases |run|
  {
    if run != [] {
      StepLeavesRecords(s, run[0], r);
      StepKeeps(s, run[0]);
      RunLeavesRecords(Apply(s, run[0]), run[1..], r);
    }
  }

  /** The finish itself: the record and the mark in one save. */
  lemma FinishRecords(s: State, r: RunId, saved: bool)
    requires Inv(s) && JobEnabled(s, Finish(r, saved))
    ensures var s1 := JobApply(s, Finish(r, saved));
            && Settled(s1, r) && OwnerAlive(s1, r)
            && (saved ==> s1.disk == s1.memory[s1.jobs[r].pid]) && (!saved ==> s1.disk == s.disk)
  {
    var m := s.memory[s.jobs[r].pid];
    assert VersionInv(s, m);
    assert r in m.records ==> RecordInv(s, m, r);
  }

  ghost predicate Finishes(a: Action, r: RunId) {
    a.ByJob? && a.job.Finish? && a.job.run == r
  }

  lemma {:induction false} FinishedFrom(s: State, run: seq<Action>, i: nat, r: RunId)
    requires Inv(s) && Legal(s, run) && i < |run| && Finishes(run[i], r)
    ensures OnRecord(After(s, run), r)
    decreases |run|
  {
    StepKeeps(s, run[0]);
    if i == 0 {
      FinishRecords(s, r, run[0].job.saved);
      RunLeavesRecords(Apply(s, run[0]), run[1..], r);
    } else {
      FinishedFrom(Apply(s, run[0]), run[1..], i - 1, r);
    }
  }

  /**
    Over every run from the start in which a job finishes: for as long as its owner lives,
    the owner's copy has the run on record exactly once and marks its entry.
   */
  lemma FinishedIsOnRecord(run: seq<Action>, i: nat, r: RunId)
    requires Legal(INIT, run) && i < |run| && Finishes(run[i], r)
    ensures var s := After(INIT, run);
            OwnerAlive(s, r) ==>
              var pid := s.jobs[r].pid;
              pid in s.memory && s.memory[pid].records[r] == 1 && (r in s.memory[pid].jobs ==> s.memory[pid].jobs[r].recorded)
  {
    FinishedFrom(INIT, run, i, r);
  }

  /** And with the save the file has both, right after that step. */
  lemma FinishReachesTheFile(run: seq<Action>, r: RunId)
    requires Legal(INIT, run) && JobEnabled(After(INIT, run), Finish(r, true))
    ensures var disk := JobApply(After(INIT, run), Finish(r, true)).disk;
            disk.records[r] == 1 && (r in disk.jobs ==> disk.jobs[r].recorded)
  {
    RunKeeps(INIT, run);
    FinishRecords(After(INIT, run), r, true);
  }

  // ----------------------------------------------------- unfinished runs

  /** A step that puts a run on record: its finish, or the reclaim of its entry. */
  ghost predicate Records(s: State, a: Action, r: RunId) {
    || Finishes(a, r)
    || (a.ByReclaim? && a.reclaim.DropReclaimed? && a.reclaim.pid in s.reclaims && s.reclaims[a.reclaim.pid].run == r)
  }

  ghost predicate EverRecords(s: State, run: seq<Action>, r: RunId)
    requires Legal(s, run)
    decreases |run|
  {
    run != [] && (Records(s, run[0], r) || EverRecords(Apply(s, run[0]), run[1..], r))
  }

  ghost predicate OnNoRecord(s: State, r: RunId) {
    s.disk.records[r] == 0 && forall p <- s.memory :: s.memory[p].records[r] == 0
  }

  lemma SaveRecordsNothing(s: State, pid: Pid, h: History, saved: bool, r: RunId)
    requires OnNoRecord(s, r) && h.records[r] == 0
    ensures OnNoRecord(Save(s, pid, h, saved), r)
  {
  }

  lemma JobRecordsNothing(s: State, a: JobStep, r: RunId)
    requires OnNoRecord(s, r) && JobEnabled(s, a) && !(a.Finish? && a.run == r)
    ensures OnNoRecord(JobApply(s, a), r)
  {
  }

  lemma ReclaimRecordsNothing(s: State, a: ReclaimStep, r: RunId)
    requires OnNoRecord(s, r) && ReclaimEnabled(s, a) && !(a.DropReclaimed? && s.reclaims[a.pid].run == r)
    ensures OnNoRecord(ReclaimApply(s, a), r)
  {
  }

  lemma StepRecordsNothing(s: State, a: Action, r: RunId)
    requires OnNoRecord(s, r) && Enabled(s, a) && !Records(s, a, r)
    ensures OnNoRecord(Apply(s, a), r)
  {
    match a {
      case ByWorld(_) =>
      case ByJob(j) => JobRecordsNothing(s, j, r);
      case ByReclaim(c) => ReclaimRecordsNothing(s, c, r);
    }
  }

  lemma {:induction false} RunRecordsNothing(s: State, run: seq<Action>, r: RunId)
    requires OnNoRecord(s, r) && Legal(s, run) && !EverRecords(s, run, r)
    ensures OnNoRecord(After(s, run), r)
    decreases |run|
  {
    if run != [] {
      StepRecordsNothing(s, run[0], r);
      RunRecordsNothing(Apply(s, run[0]), run[1..], r);
    }
  }

  /** A run that neither finished nor was reclaimed is on no record, in no copy. */
  lemma UnfinishedIsOnNoRecord(run: seq<Action>, r: RunId)
    requires Legal(INIT, run) && !EverRecords(INIT, run, r)
    ensures var s := After(INIT, run); s.disk.records[r] == 0 && forall p <- s.memory :: s.memory[p].records[r] == 0
  {
    RunRecordsNothing(INIT, run, r);
  }

  // -------------------------------------------------------------- no traces

  /** No trace of a run: neither the file nor this process lists it, and its lock file is gone. */
  predicate NoTrace(s: State, pid: Pid, r: RunId) {
    r !in s.paths && r !in s.disk.jobs && pid in s.memory && r !in s.memory[pid].jobs
  }

  predicate SameRecords(s: State, s': State, pid: Pid) {
    pid in s.memory && pid in s'.memory && s'.memory[pid].records == s.memory[pid].records && s'.removed == s.removed
  }

  /** `release`, when every step of it goes through: entry, lock file and lock go, in that order, and nothing else does. */
  lemma ReleaseLeavesNoTrace(s: State, r: RunId)
    requires Inv(s) && Live(s, r) && r in s.memory[s.jobs[r].pid].jobs
    ensures JobEnabled(s, DropEntry(r, true))
    ensures var s1 := JobApply(s, DropEntry(r, true));
            && s1.paths == s.paths && OwnerLocks(s1, r) && JobEnabled(s1, UnlinkLock(r, true))
            && var s2 := JobApply(s1, UnlinkLock(r, true));
               && OwnerLocks(s2, r) && JobEnabled(s2, CloseLock(r))
               && var s3 := JobApply(s2, CloseLock(r));
                  NoTrace(s3, s.jobs[r].pid, r) && SameRecords(s, s3, s.jobs[r].pid) && !OwnerLocks(s3, r) && !Works(s3, r)
  {
  }

  /** A release whose save failed keeps entry and lock file together, and lets the lock go: the next start finds it. */
  lemma FailedReleaseIsFound(s: State, r: RunId)
    requires Inv(s) && Live(s, r) && r in s.memory[s.jobs[r].pid].jobs
    ensures var s1 := JobApply(s, DropEntry(r, false));
            && s1.disk == s.disk && s1.memory == s.memory && s1.paths == s.paths && !OwnerLocks(s1, r) && !Works(s1, r)
  {
  }

  /** A job that begins is in the file and in its process's copy, with nothing listed; one whose entry was not saved is in neither and works on. */
  lemma BegunIsListedOrBare(s: State, r: RunId, saved: bool)
    requires Inv(s) && JobEnabled(s, Begin(r, saved))
    ensures var s1, pid := JobApply(s, Begin(r, saved)), s.jobs[r].pid;
            && Works(s1, r) && s1.paths == s.paths
            && (if saved then
                  && s1.disk == s1.memory[pid] && r in s1.disk.jobs && s1.disk.jobs[r] == Entry(s.jobs[r].host, [], false) && !s1.jobs[r].bare
                  && (forall x | x != r :: x in s1.disk.jobs <==> x in s.memory[pid].jobs)
                else s1.disk == s.disk && s1.memory == s.memory && r !in s1.disk.jobs && r !in s1.memory[pid].jobs && s1.jobs[r].bare)
  {
    assert r in s.disk.jobs ==> EntryInv(s, r, s.disk.jobs[r]);
    assert r in s.memory[s.jobs[r].pid].jobs ==> EntryInv(s, r, s.memory[s.jobs[r].pid].jobs[r]);
  }

  /** A lock file taken away from outside is missed: a process of the entry's host that is not at a reclaim may then drop the entry. */
  lemma OutsideUnlinkIsNoticed(s: State, p: Pid, r: RunId)
    requires WorldEnabled(s, OutsideUnlink(r)) && p in s.alive && p in s.memory && p !in s.reclaims
    requires r in s.memory[p].jobs && s.memory[p].jobs[r].host == s.alive[p]
    ensures var s1 := WorldApply(s, OutsideUnlink(r)); s1.disk == s.disk && s1.memory == s.memory && s1.jobs == s.jobs && ReclaimEnabled(s1, DropMissing(p, r))
  {
  }

  /** Dropping an entry whose lock file is gone touches nothing it lists. */
  lemma MissingIsDropped(s: State, p: Pid, r: RunId)
    requires ReclaimEnabled(s, DropMissing(p, r))
    ensures NoTrace(ReclaimApply(s, DropMissing(p, r)), p, r) && SameRecords(s, ReclaimApply(s, DropMissing(p, r)), p)
  {
  }

  /** The end of a reclaim, when it goes through: the lock file goes, then the lock. */
  lemma ReclaimTidiesUp(s: State, p: Pid)
    requires ReclaimLocks(s, p) && p in s.memory && s.reclaims[p].Taken? && s.reclaims[p].todo == [] && s.reclaims[p].run in s.memory[p].jobs
    ensures ReclaimEnabled(s, DropReclaimed(p))
    ensures var s1 := ReclaimApply(s, DropReclaimed(p));
            && ReclaimEnabled(s1, UnlinkReclaimed(p, true))
            && var s2 := ReclaimApply(s1, UnlinkReclaimed(p, true));
               && ReclaimEnabled(s2, CloseReclaimed(p))
               && var s3 := ReclaimApply(s2, CloseReclaimed(p)); NoTrace(s3, p, s.reclaims[p].run) && p !in s3.reclaims
  {
  }
}
