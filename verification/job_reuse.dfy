/**
  When a job may make a directory its own: exactly when no reclaim can still come to remove
  it under a job at work that has it, this one or one that had it before. The protocol is
  safe under that guard; here is the other half, that after a claim the guard refuses the
  directory can be lost, journaled or not, and a run from the start in which it is.
 */
module JobReuse {

  import opened JobProtocol

  /** A step that neither makes a directory a job's own nor removes one. */
  predicate Quiet(a: Action) {
    !(a.ByJob? && a.job.ClaimDir?) && !(a.ByReclaim? && a.reclaim.RemoveDir?)
  }

  predicate NoClaim(a: Action) {
    !(a.ByJob? && a.job.ClaimDir?)
  }

  ghost predicate QuietReach(s: State, t: State) {
    exists run: seq<Action> :: Legal(s, run) && (forall a <- run :: Quiet(a)) && After(s, run) == t
  }

  lemma QuietStep(s: State, a: Action)
    requires Quiet(a) && Enabled(s, a)
    ensures QuietReach(s, Apply(s, a))
  {
    StepThen(s, a, []);
    assert [a] + [] == [a];
    assert forall b <- [a] :: Quiet(b);
  }

  lemma {:induction false} Concat(s: State, a: seq<Action>, b: seq<Action>)
    requires Legal(s, a) && Legal(After(s, a), b)
    ensures Legal(s, a + b) && After(s, a + b) == After(After(s, a), b)
    decreases |a|
  {
    if a == [] {
      assert a + b == b;
    } else {
      assert (a + b)[0] == a[0] && (a + b)[1..] == a[1..] + b;
      Concat(Apply(s, a[0]), a[1..], b);
    }
  }

  lemma QuietTrans(s: State, t: State, u: State)
    requires QuietReach(s, t) && QuietReach(t, u)
    ensures QuietReach(s, u)
  {
    var a :| Legal(s, a) && (forall x <- a :: Quiet(x)) && After(s, a) == t;
    var b :| Legal(t, b) && (forall x <- b :: Quiet(x)) && After(t, b) == u;
    Concat(s, a, b);
    assert forall x <- a + b :: Quiet(x);
  }

  lemma QuietThen(s: State, t: State, a: Action)
    requires QuietReach(s, t) && Quiet(a) && Enabled(t, a)
    ensures QuietReach(s, Apply(t, a))
  {
    QuietStep(t, a);
    QuietTrans(s, t, Apply(t, a));
  }

  lemma QuietStay(s: State)
    ensures QuietReach(s, s)
  {
    var none: seq<Action> := [];
    assert Legal(s, none) && After(s, none) == s;
  }

  lemma {:induction false} FreshNumber(used: set<nat>) returns (n: nat)
    ensures forall u <- used :: u < n
    decreases |used|
  {
    if used == {} {
      n := 0;
    } else {
      var u :| u in used;
      var rest := FreshNumber(used - {u});
      n := if u < rest then rest else u + 1;
      forall v <- used
        ensures v < n
      {
        assert v != u ==> v in used - {u};
      }
    }
  }

  /** The file lists a directory under one run, whose lock file is there, while another run at work has it as its own. */
  ghost predicate Menace(s: State, r: RunId, dir: Dir, other: RunId) {
    r != other && Works(s, other) && Claim(other, dir) in s.claims && r in s.paths && Lists(s.disk, r, dir)
  }

  ghost predicate Threat(s: State, r: RunId, dir: Dir, other: RunId) {
    Inv(s) && Menace(s, r, dir, other)
  }

  lemma FreshLockIsFree(s: State, x: RunId, j: Job)
    requires Core(s) && x !in s.jobs && j.phase == Created && forall r <- s.jobs :: s.jobs[r].inode != j.inode
    ensures LockFree(AddJob(s, x, j), j.host, j.inode)
  {
    forall p <- s.reclaims | ReclaimLocks(AddJob(s, x, j), p)
      ensures s.reclaims[p].inode != j.inode
    {
      assert ReclaimInv(s, p);
    }
  }

  /** A quiet step from a sound state, at the end of a quiet run. */
  lemma SafeStep(s: State, t: State, a: Action)
    requires QuietReach(s, t) && Inv(t) && Quiet(a) && Enabled(t, a)
    ensures QuietReach(s, Apply(t, a)) && Inv(Apply(t, a))
  {
    StepKeeps(t, a);
    QuietThen(s, t, a);
  }

  lemma FreshRun(s: State) returns (x: RunId, i: Inode)
    ensures x !in s.jobs && x !in s.paths && forall n <- s.jobs :: s.jobs[n].inode != i
  {
    x := FreshNumber(s.jobs.Keys + s.paths.Keys);
    var inodes := set n | n in s.jobs :: s.jobs[n].inode;
    i := FreshNumber(inodes);
    assert forall u <- s.jobs.Keys + s.paths.Keys :: u < x;
    forall n <- s.jobs
      ensures s.jobs[n].inode != i
    {
      assert s.jobs[n].inode in inodes;
    }
  }

  /** What a job begun by a process does to the file. */
  lemma NewJobSaves(s: State, p: Pid, x: RunId, i: Inode)
    requires p in s.alive && p in s.memory && x !in s.jobs && x !in s.paths && forall n <- s.jobs :: s.jobs[n].inode != i
    requires LockFree(AddJob(s, x, Job(p, s.alive[p], i, Created, false, false, false)), s.alive[p], i)
    ensures Enabled(s, ByWorld(CreateLock(p, x, i)))
    ensures var s1 := Apply(s, ByWorld(CreateLock(p, x, i)));
            Enabled(s1, ByJob(TakeLock(x)))
            && var s2 := Apply(s1, ByJob(TakeLock(x)));
               Enabled(s2, ByJob(Begin(x, true)))
               && var t := Apply(s2, ByJob(Begin(x, true)));
                  && t.disk == WithEntry(s.memory[p], x, Entry(s.alive[p], [], false)) && t.alive == s.alive
                  && t.claims == s.claims && t.paths == s.paths[x := i] && t.jobs == s.jobs[x := Job(p, s.alive[p], i, Running, false, false, false)]
  {
  }

  lemma ThreeSafeSteps(s: State, a: Action, b: Action, c: Action)
    requires Inv(s) && Quiet(a) && Quiet(b) && Quiet(c)
    requires Enabled(s, a) && Enabled(Apply(s, a), b) && Enabled(Apply(Apply(s, a), b), c)
    ensures var t := Apply(Apply(Apply(s, a), b), c); QuietReach(s, t) && Inv(t)
  {
    QuietStay(s);
    SafeStep(s, s, a);
    SafeStep(s, Apply(s, a), b);
    SafeStep(s, Apply(Apply(s, a), b), c);
  }

  lemma NewJobKeepsTheMenace(s: State, p: Pid, x: RunId, i: Inode, r: RunId, dir: Dir, other: RunId)
    requires p in s.alive && p in s.memory && x !in s.jobs && x !in s.paths && forall n <- s.jobs :: s.jobs[n].inode != i
    requires LockFree(AddJob(s, x, Job(p, s.alive[p], i, Created, false, false, false)), s.alive[p], i)
    requires Lists(s.memory[p], r, dir) && r in s.paths && Works(s, other) && Claim(other, dir) in s.claims && r != other
    ensures Enabled(s, ByWorld(CreateLock(p, x, i)))
    ensures var s1 := Apply(s, ByWorld(CreateLock(p, x, i)));
            Enabled(s1, ByJob(TakeLock(x)))
            && var s2 := Apply(s1, ByJob(TakeLock(x))); Enabled(s2, ByJob(Begin(x, true))) && Menace(Apply(s2, ByJob(Begin(x, true))), r, dir, other)
  {
    NewJobSaves(s, p, x, i);
  }

  /** A process that starts a job of its own writes out every entry it still remembers. */
  lemma Persist(s: State, p: Pid, r: RunId, dir: Dir, other: RunId) returns (t: State)
    requires Inv(s) && p in s.memory && Lists(s.memory[p], r, dir) && r in s.paths && Works(s, other) && Claim(other, dir) in s.claims && r != other
    ensures QuietReach(s, t) && Threat(t, r, dir, other)
  {
    var x, i := FreshRun(s);
    FreshLockIsFree(s, x, Job(p, s.alive[p], i, Created, false, false, false));
    NewJobKeepsTheMenace(s, p, x, i, r, dir, other);
    var a, b, c := ByWorld(CreateLock(p, x, i)), ByJob(TakeLock(x)), ByJob(Begin(x, true));
    ThreeSafeSteps(s, a, b, c);
    t := Apply(Apply(Apply(s, a), b), c);
  }

  lemma UnlinkingCloses(s: State, p: Pid)
    requires ReclaimLocks(s, p) && s.reclaims[p].Unlinking?
    ensures Enabled(s, ByReclaim(UnlinkReclaimed(p, false)))
    ensures var s1 := Apply(s, ByReclaim(UnlinkReclaimed(p, false)));
            Enabled(s1, ByReclaim(CloseReclaimed(p))) && Apply(s1, ByReclaim(CloseReclaimed(p))) == CloseReclaim(s, p)
  {
    var s1 := Apply(s, ByReclaim(UnlinkReclaimed(p, false)));
    assert s1.reclaims - {p} == s.reclaims - {p};
  }

  /** Whoever holds the lock of a reclaim gives it up, at whatever point it is. */
  lemma ReclaimCloses(s: State, p: Pid)
    requires Inv(s) && ReclaimLocks(s, p)
    ensures QuietReach(s, CloseReclaim(s, p)) && Inv(CloseReclaim(s, p))
  {
    QuietStay(s);
    if s.reclaims[p].Unlinking? {
      UnlinkingCloses(s, p);
      var a := ByReclaim(UnlinkReclaimed(p, false));
      SafeStep(s, s, a);
      SafeStep(s, Apply(s, a), ByReclaim(CloseReclaimed(p)));
    } else {
      SafeStep(s, s, ByReclaim(if s.reclaims[p].Closing? then CloseReclaimed(p) else GiveUp(p)));
    }
  }

  ghost predicate Unclaimed(s: State, r: RunId) {
    forall p | ReclaimLocks(s, p) :: s.reclaims[p].run != r
  }

  lemma NobodyReclaims(s: State, r: RunId, dir: Dir, other: RunId) returns (t: State)
    requires Threat(s, r, dir, other)
    ensures QuietReach(s, t) && Threat(t, r, dir, other) && Unclaimed(t, r)
  {
    if p :| ReclaimLocks(s, p) && s.reclaims[p].run == r {
      ReclaimCloses(s, p);
      t := CloseReclaim(s, p);
      forall q | ReclaimLocks(t, q)
        ensures t.reclaims[q].run != r
      {
        assert ReclaimLocks(s, q);
      }
    } else {
      t := s;
      QuietStay(s);
    }
  }

  function Remaining(phase: Phase): nat {
    match phase
    case Running => 3
    case Dropped => 2
    case Unlinked => 1
    case _ => 0
  }

  /** The owner ends, by steps that may all fail to remove anything. */
  function EndStep(phase: Phase, r: RunId): JobStep {
    if phase == Running then DropEntry(r, false) else if phase == Dropped then UnlinkLock(r, false) else CloseLock(r)
  }

  lemma EndsOneStep(s: State, r: RunId, dir: Dir, other: RunId) returns (phase: Phase)
    requires OwnerLocks(s, r) && Journaled(s.jobs[r].phase) && s.jobs[r].pid in s.memory
    requires Menace(s, r, dir, other) && Unclaimed(s, r)
    ensures JobEnabled(s, EndStep(s.jobs[r].phase, r)) && Remaining(phase) < Remaining(s.jobs[r].phase)
    ensures JobApply(s, EndStep(s.jobs[r].phase, r)) == SetPhase(s, r, phase)
    ensures Menace(SetPhase(s, r, phase), r, dir, other) && Unclaimed(SetPhase(s, r, phase), r)
  {
    var was := s.jobs[r].phase;
    phase := if was == Running then (if r in s.memory[s.jobs[r].pid].jobs then Ended else Dropped) else if was == Dropped then Unlinked else Ended;
    StillUnclaimed(s, r, phase);
  }

  lemma OwnerMovesOn(s: State, r: RunId, dir: Dir, other: RunId) returns (t: State)
    requires Threat(s, r, dir, other) && Unclaimed(s, r) && OwnerLocks(s, r)
    ensures QuietReach(s, t) && Threat(t, r, dir, other) && Unclaimed(t, r) && r in t.jobs
    ensures Remaining(t.jobs[r].phase) < Remaining(s.jobs[r].phase)
  {
    JournaledInTheFile(s, r, dir);
    var phase := EndsOneStep(s, r, dir, other);
    OwnStepIsSafe(s, EndStep(s.jobs[r].phase, r));
    t := SetPhase(s, r, phase);
  }

  lemma JournaledInTheFile(s: State, r: RunId, dir: Dir)
    requires VersionsInv(s) && ProcessesInv(s) && Lists(s.disk, r, dir)
    ensures r in s.jobs && Journaled(s.jobs[r].phase) && s.disk.jobs[r].host == s.jobs[r].host && (OwnerAlive(s, r) ==> s.jobs[r].pid in s.memory)
  {
    assert EntryInv(s, r, s.disk.jobs[r]);
  }

  lemma OwnStepIsSafe(s: State, a: JobStep)
    requires Inv(s) && JobEnabled(s, a) && !a.ClaimDir?
    ensures QuietReach(s, JobApply(s, a)) && Inv(JobApply(s, a))
  {
    QuietStay(s);
    SafeStep(s, s, ByJob(a));
  }

  lemma StillUnclaimed(s: State, r: RunId, phase: Phase)
    requires r in s.jobs && Unclaimed(s, r)
    ensures Unclaimed(SetPhase(s, r, phase), r)
  {
    forall p | ReclaimLocks(SetPhase(s, r, phase), p)
      ensures s.reclaims[p].run != r
    {
      assert ReclaimLocks(s, p);
    }
  }

  lemma {:induction false} OwnerEnds(s: State, r: RunId, dir: Dir, other: RunId) returns (t: State)
    requires Threat(s, r, dir, other) && Unclaimed(s, r)
    ensures QuietReach(s, t) && Threat(t, r, dir, other) && Unclaimed(t, r) && !OwnerLocks(t, r)
    decreases if r in s.jobs then Remaining(s.jobs[r].phase) else 0
  {
    if OwnerLocks(s, r) {
      var s1 := OwnerMovesOn(s, r, dir, other);
      t := OwnerEnds(s1, r, dir, other);
      QuietTrans(s, s1, t);
    } else {
      t := s;
      QuietStay(s);
    }
  }

  /** And a process started on that host finds the entry, with nobody in its way. */
  lemma SomeoneFinds(s: State, r: RunId, dir: Dir, other: RunId) returns (t: State, q: Pid)
    requires Threat(s, r, dir, other) && Unclaimed(s, r) && !OwnerLocks(s, r)
    ensures QuietReach(s, t) && Threat(t, r, dir, other) && Abandoned(t, q, r) && dir in t.memory[q].jobs[r].dirs
  {
    q := FreshNumber(s.born);
    assert EntryInv(s, r, s.disk.jobs[r]);
    var a := ByWorld(Boot(q, s.jobs[r].host));
    t := Apply(s, a);
    StepKeeps(s, a);
    QuietStep(s, a);
    assert !OwnerLocks(t, r);
    forall p | ReclaimLocks(t, p)
      ensures t.reclaims[p].run != r
    {
      assert ReclaimLocks(s, p);
    }
  }

  // ------------------------------------------------------- exactly when it is lost

  /** Some run without another claim takes the directory from a job at work that has it. */
  ghost predicate CanBeLost(s: State, dir: Dir) {
    exists steps: seq<Action>, run: RunId :: Legal(s, steps) && (forall a <- steps :: NoClaim(a)) && Claim(run, dir) in Losses(s, steps)
  }

  lemma {:induction false} LossesAfter(s: State, a: seq<Action>, b: seq<Action>)
    requires Legal(s, a) && Legal(After(s, a), b)
    ensures Legal(s, a + b) && Losses(After(s, a), b) <= Losses(s, a + b)
    decreases |a|
  {
    if a == [] {
      assert a + b == b;
    } else {
      assert (a + b)[0] == a[0] && (a + b)[1..] == a[1..] + b;
      LossesAfter(Apply(s, a[0]), a[1..], b);
    }
  }

  lemma LostLater(s: State, t: State, dir: Dir)
    requires QuietReach(s, t) && CanBeLost(t, dir)
    ensures CanBeLost(s, dir)
  {
    var q :| Legal(s, q) && (forall a <- q :: Quiet(a)) && After(s, q) == t;
    var steps: seq<Action>, run: RunId :| Legal(t, steps) && (forall a <- steps :: NoClaim(a)) && Claim(run, dir) in Losses(t, steps);
    LossesAfter(s, q, steps);
    assert forall a <- q + steps :: NoClaim(a);
  }

  /** What a reclaim has yet to remove, one directory after the other. */
  function Removes(pid: Pid, n: nat): seq<Action> {
    if n == 0 then [] else [ByReclaim(RemoveDir(pid, true))] + Removes(pid, n - 1)
  }

  lemma {:induction false} TakenIsLost(s: State, p: Pid, run: RunId, dir: Dir)
    requires ReclaimLocks(s, p) && s.reclaims[p].Taken? && dir in s.reclaims[p].todo && Works(s, run) && Claim(run, dir) in s.claims
    ensures var steps := Removes(p, |s.reclaims[p].todo|);
            Legal(s, steps) && (forall a <- steps :: NoClaim(a)) && Claim(run, dir) in Losses(s, steps)
    decreases |s.reclaims[p].todo|
  {
    var c, a := s.reclaims[p], ByReclaim(RemoveDir(p, true));
    var rest := Removes(p, |c.todo| - 1);
    assert Removes(p, |c.todo|)[1..] == rest;
    if c.todo[0] == dir {
      RemovesGoThrough(Apply(s, a), p);
      assert Claim(run, dir) in Loss(s, a);
    } else {
      TakenIsLost(Apply(s, a), p, run, dir);
    }
  }

  lemma {:induction false} RemovesGoThrough(s: State, p: Pid)
    requires ReclaimLocks(s, p) && s.reclaims[p].Taken?
    ensures var steps := Removes(p, |s.reclaims[p].todo|); Legal(s, steps) && forall a <- steps :: NoClaim(a)
    decreases |s.reclaims[p].todo|
  {
    var c, a := s.reclaims[p], ByReclaim(RemoveDir(p, true));
    if c.todo != [] {
      assert Removes(p, |c.todo|)[1..] == Removes(p, |c.todo| - 1);
      RemovesGoThrough(Apply(s, a), p);
    }
  }

  lemma ClaimedAndTaken(s: State, p: Pid, dir: Dir, other: RunId)
    requires Inv(s) && p in s.reclaims && s.reclaims[p].Taken? && dir in s.reclaims[p].todo
    requires Works(s, other) && Claim(other, dir) in s.claims
    ensures CanBeLost(s, dir)
  {
    assert ReclaimInv(s, p);
    TakenIsLost(s, p, other, dir);
  }

  /** The lock, the path and the list of an abandoned entry: a reclaim of it is under way. */
  lemma AbandonedIsTaken(s: State, q: Pid, r: RunId)
    requires ReclaimEnabled(s, OpenLock(q, r)) && LockFree(s, s.alive[q], s.paths[r])
    ensures var s1 := ReclaimApply(s, OpenLock(q, r));
            ReclaimEnabled(s1, TryFlock(q))
            && var s2 := ReclaimApply(s1, TryFlock(q));
               ReclaimEnabled(s2, CheckPath(q))
               && var t := ReclaimApply(s2, CheckPath(q));
                  t.reclaims == s.reclaims[q := Taken(r, s.paths[r], s.memory[q].jobs[r].dirs)]
                  && t.claims == s.claims && t.jobs == s.jobs && t.alive == s.alive
  {
    var s1 := SetReclaim(s, q, Opened(r, s.paths[r]));
    assert LockFree(s1, s.alive[q], s.paths[r]);
  }

  lemma FoundIsLost(t: State, q: Pid, r: RunId, dir: Dir, other: RunId)
    requires Threat(t, r, dir, other) && Abandoned(t, q, r) && dir in t.memory[q].jobs[r].dirs
    ensures CanBeLost(t, dir)
  {
    AbandonedLockIsFree(t, q, r);
    AbandonedIsTaken(t, q, r);
    var a, b, c := ByReclaim(OpenLock(q, r)), ByReclaim(TryFlock(q)), ByReclaim(CheckPath(q));
    ThreeSafeSteps(t, a, b, c);
    var u := Apply(Apply(Apply(t, a), b), c);
    ClaimedAndTaken(u, q, dir, other);
    LostLater(t, u, dir);
  }

  lemma ListedInTheFileIsLost(s: State, r: RunId, dir: Dir, other: RunId)
    requires Threat(s, r, dir, other)
    ensures CanBeLost(s, dir)
  {
    var s1 := NobodyReclaims(s, r, dir, other);
    var s2 := OwnerEnds(s1, r, dir, other);
    var s3, q := SomeoneFinds(s2, r, dir, other);
    QuietTrans(s, s1, s2);
    QuietTrans(s, s2, s3);
    FoundIsLost(s3, q, r, dir, other);
    LostLater(s, s3, dir);
  }

  lemma ClaimedAndListed(s: State, p: Pid, r: RunId, dir: Dir, other: RunId)
    requires Inv(s) && p in s.memory && Lists(s.memory[p], r, dir) && r in s.paths && r != other
    requires Works(s, other) && Claim(other, dir) in s.claims
    ensures CanBeLost(s, dir)
  {
    var t := Persist(s, p, r, dir, other);
    ListedInTheFileIsLost(t, r, dir, other);
    LostLater(s, t, dir);
  }

  /** What entries and reclaims have of a directory is there after the claim too, but for a file the claim replaces; and so is everyone at work. */
  lemma ClaimLeaves(s: State, run: RunId, dir: Dir, journaled: bool)
    requires JobEnabled(s, ClaimDir(run, dir, journaled))
    ensures var s1 := JobApply(s, ClaimDir(run, dir, journaled));
            && s1.claims == s.claims + {Claim(run, dir)} && s1.jobs == s.jobs && s1.alive == s.alive && s1.paths == s.paths && s1.reclaims == s.reclaims
            && (if Saves(s, run, journaled) then Lists(s1.disk, run, dir) else s1.disk == s.disk)
            && (dir in s1.spoiled <==> !Reusable(s, run, dir, Saves(s, run, journaled)))
  {
  }

  lemma ClaimLeavesCopies(s: State, run: RunId, dir: Dir, journaled: bool, p: Pid, r: RunId)
    requires JobEnabled(s, ClaimDir(run, dir, journaled)) && p in s.memory && Lists(s.memory[p], r, dir)
    ensures var s1 := JobApply(s, ClaimDir(run, dir, journaled)); p in s1.memory && Lists(s1.memory[p], r, dir)
  {
  }

  /** Another run's entry or reclaim still has the directory: the claiming run can lose it. */
  lemma ClaimerLoses(s: State, run: RunId, dir: Dir, journaled: bool)
    requires Inv(s) && JobEnabled(s, ClaimDir(run, dir, journaled))
    requires !Reusable(s, run, dir, Saves(s, run, journaled))
    requires run in s.paths && ListedAfter(s, run, dir, Saves(s, run, journaled)) ==> Sole(s, run, dir)
    ensures CanBeLost(JobApply(s, ClaimDir(run, dir, journaled)), dir)
  {
    ClaimLeaves(s, run, dir, journaled);
    ClaimDirKeeps(s, ClaimDir(run, dir, journaled));
    var s1 := JobApply(s, ClaimDir(run, dir, journaled));
    if p :| p in s.reclaims && s.reclaims[p].Taken? && s.reclaims[p].run != run && dir in s.reclaims[p].todo {
      ClaimedAndTaken(s1, p, dir, run);
    } else if r :| !Saves(s, run, journaled) && r in s.paths && r != run && Lists(s.disk, r, dir) {
      ListedInTheFileIsLost(s1, r, dir, run);
    } else {
      var r, p :| r in s.paths && r != run && p in s.memory && Lists(s.memory[p], r, dir);
      ClaimLeavesCopies(s, run, dir, journaled, p, r);
      ClaimedAndListed(s1, p, r, dir, run);
    }
  }

  /** A copy lists it under the claiming run: whoever else is at work in it can lose it to that run's own reclaim. */
  lemma OtherLoses(s: State, run: RunId, dir: Dir, journaled: bool)
    requires Inv(s) && JobEnabled(s, ClaimDir(run, dir, journaled))
    requires run in s.paths && ListedAfter(s, run, dir, Saves(s, run, journaled)) && !Sole(s, run, dir)
    ensures CanBeLost(JobApply(s, ClaimDir(run, dir, journaled)), dir)
  {
    var c :| c in s.claims && c.dir == dir && Works(s, c.run) && c.run != run;
    ClaimLeaves(s, run, dir, journaled);
    ClaimDirKeeps(s, ClaimDir(run, dir, journaled));
    var s1 := JobApply(s, ClaimDir(run, dir, journaled));
    assert c == Claim(c.run, dir) && Works(s1, c.run);
    if Lists(s1.disk, run, dir) {
      ListedInTheFileIsLost(s1, run, dir, c.run);
    } else {
      var p :| p in s.memory && Lists(s.memory[p], run, dir);
      ClaimLeavesCopies(s, run, dir, journaled, p, run);
      ClaimedAndListed(s1, p, run, dir, c.run);
    }
  }

  /** After a claim the guard refuses, some run with no further claim removes the directory under a job at work that has it. */
  lemma UnreusableIsLost(s: State, run: RunId, dir: Dir, journaled: bool)
    requires Inv(s) && JobEnabled(s, ClaimDir(run, dir, journaled)) && !Reusable(s, run, dir, Saves(s, run, journaled))
    ensures CanBeLost(JobApply(s, ClaimDir(run, dir, journaled)), dir)
  {
    if run in s.paths && ListedAfter(s, run, dir, Saves(s, run, journaled)) && !Sole(s, run, dir) {
      OtherLoses(s, run, dir, journaled);
    } else {
      ClaimerLoses(s, run, dir, journaled);
    }
  }

  lemma {:induction false} NoClaimNoBreach(s: State, steps: seq<Action>)
    requires Legal(s, steps) && forall a <- steps :: NoClaim(a)
    ensures Breaches(s, steps) == {}
    decreases |steps|
  {
    if steps != [] {
      assert steps[0] in steps && NoClaim(steps[0]);
      assert forall a <- steps[1..] :: a in steps;
      NoClaimNoBreach(Apply(s, steps[0]), steps[1..]);
    }
  }

  lemma UnspoiledIsNeverLost(s: State, dir: Dir)
    requires Inv(s) && dir !in s.spoiled
    ensures !CanBeLost(s, dir)
  {
    forall steps: seq<Action>, run: RunId | Legal(s, steps) && (forall a <- steps :: NoClaim(a))
      ensures Claim(run, dir) !in Losses(s, steps)
    {
      NoClaimNoBreach(s, steps);
      LossesAreBreaches(s, steps);
    }
  }

  /**
    The guard is exact, for a claim that reaches the journal and for one that does not:
    after the claim some job at work that has the directory, the claiming one or one that
    had it before, can lose it by runs that claim nothing else, exactly when the guard
    refuses the claim.
   */
  lemma ClaimIsSafeExactlyWhenReusable(s: State, run: RunId, dir: Dir, journaled: bool)
    requires Inv(s) && JobEnabled(s, ClaimDir(run, dir, journaled))
    ensures CanBeLost(JobApply(s, ClaimDir(run, dir, journaled)), dir) <==> !Reusable(s, run, dir, Saves(s, run, journaled))
  {
    if Reusable(s, run, dir, Saves(s, run, journaled)) {
      ClaimLeaves(s, run, dir, journaled);
      ClaimDirKeeps(s, ClaimDir(run, dir, journaled));
      UnspoiledIsNeverLost(JobApply(s, ClaimDir(run, dir, journaled)), dir);
    } else {
      UnreusableIsLost(s, run, dir, journaled);
    }
  }

  // ------------------------------------------------------ and it does happen

  function Starts(p: Pid, host: Host, x: RunId, i: Inode): seq<Action> {
    [ByWorld(Boot(p, host))] + ([ByWorld(CreateLock(p, x, i))] + ([ByJob(TakeLock(x))] + ([ByJob(Begin(x, true))] + [])))
  }

  /** A process that starts, and begins a job, where nothing is being reclaimed. */
  lemma JobStarts(s: State, p: Pid, host: Host, x: RunId, i: Inode)
    requires p !in s.born && x !in s.jobs && x !in s.paths && s.reclaims == map[] && forall n <- s.jobs :: s.jobs[n].inode != i
    ensures Legal(s, Starts(p, host, x, i))
    ensures var t := After(s, Starts(p, host, x, i));
            && t.disk == WithEntry(s.disk, x, Entry(host, [], false)) && t.paths == s.paths[x := i] && t.reclaims == map[] && t.claims == s.claims
            && t.jobs == s.jobs[x := Job(p, host, i, Running, false, false, false)] && p in t.alive && p in t.memory && t.memory[p] == t.disk && t.born == s.born + {p} && t.alive == s.alive[p := host]
  {
    var s1 := Start(s, p, host);
    assert LockFree(AddJob(s1, x, Job(p, host, i, Created, false, false, false)), host, i);
    NewJobSaves(s1, p, x, i);
    var s2 := Apply(s1, ByWorld(CreateLock(p, x, i)));
    var s3 := Apply(s2, ByJob(TakeLock(x)));
    StepThen(s3, ByJob(Begin(x, true)), []);
    StepThen(s2, ByJob(TakeLock(x)), [ByJob(Begin(x, true))] + []);
    StepThen(s1, ByWorld(CreateLock(p, x, i)), [ByJob(TakeLock(x))] + ([ByJob(Begin(x, true))] + []));
    StepThen(s, ByWorld(Boot(p, host)), [ByWorld(CreateLock(p, x, i))] + ([ByJob(TakeLock(x))] + ([ByJob(Begin(x, true))] + [])));
  }

  function FirstClaim(saved: bool): Action {
    ByJob(ClaimDir(10, 5, saved))
  }

  /** Run 10 of one process makes directory 5 its own, in the journal or not; another process starts after that and begins run 11. */
  function Overlap(saved: bool): seq<Action> {
    Starts(1, 0, 10, 1) + ([FirstClaim(saved)] + Starts(2, 0, 11, 2))
  }

  lemma ClaimLists(t: State, saved: bool)
    requires Live(t, 10) && t.jobs[10].pid in t.memory && t.memory[t.jobs[10].pid] == t.disk && 10 in t.disk.jobs
    ensures Enabled(t, FirstClaim(saved))
    ensures var u := Apply(t, FirstClaim(saved));
            && u.paths == t.paths && u.jobs == t.jobs && u.alive == t.alive && u.reclaims == t.reclaims && u.born == t.born
            && Claim(10, 5) in u.claims && (saved ==> Lists(u.disk, 10, 5))
  {
  }

  lemma Chain(s: State, a: seq<Action>, c: Action, b: seq<Action>)
    requires Legal(s, a) && Enabled(After(s, a), c) && Legal(Apply(After(s, a), c), b)
    ensures Legal(s, a + ([c] + b))
    ensures After(s, a + ([c] + b)) == After(Apply(After(s, a), c), b)
  {
    StepThen(After(s, a), c, b);
    assert ([c] + b)[1..] == b;
    Concat(s, a, [c] + b);
  }

  /** Run 11 is live where run 10 is at work in directory 5, and listed with it or not. */
  ghost predicate Overlapping(s: State, saved: bool) {
    && Live(s, 11) && s.jobs[11].pid in s.memory && 11 in s.paths && 11 in s.memory[s.jobs[11].pid].jobs
    && Works(s, 10) && Claim(10, 5) in s.claims && 10 in s.paths
    && (saved ==> Lists(s.memory[s.jobs[11].pid], 10, 5))
  }

  lemma SecondJobStarts(u: State, saved: bool)
    requires u.reclaims == map[] && u.born == {1} && u.jobs.Keys == u.paths.Keys == {10} && u.jobs[10].inode == 1
    requires Live(u, 10) && u.jobs[10].pid == 1 && Claim(10, 5) in u.claims && (saved ==> Lists(u.disk, 10, 5))
    ensures Legal(u, Starts(2, 0, 11, 2)) && Overlapping(After(u, Starts(2, 0, 11, 2)), saved)
  {
    JobStarts(u, 2, 0, 11, 2);
  }

  lemma OverlapIsReached(saved: bool)
    ensures Legal(INIT, Overlap(saved)) && Overlapping(After(INIT, Overlap(saved)), saved)
  {
    JobStarts(INIT, 1, 0, 10, 1);
    var t := After(INIT, Starts(1, 0, 10, 1));
    ClaimLists(t, saved);
    SecondJobStarts(Apply(t, FirstClaim(saved)), saved);
    Chain(INIT, Starts(1, 0, 10, 1), FirstClaim(saved), Starts(2, 0, 11, 2));
  }

  lemma OverlapIsLost(s: State, saved: bool, journaled: bool)
    requires Inv(s) && Overlapping(s, saved)
    ensures JobEnabled(s, ClaimDir(11, 5, journaled))
    ensures saved || journaled ==> CanBeLost(JobApply(s, ClaimDir(11, 5, journaled)), 5)
  {
    assert Claim(10, 5).dir == 5 && !Sole(s, 11, 5);
    ClaimIsSafeExactlyWhenReusable(s, 11, 5, journaled);
  }

  /**
    From nothing: run 11 may claim directory 5 while run 10 is at work in it, and one of
    them can lose it, if either claim reached the journal.
   */
  lemma ReuseHappens(saved: bool, journaled: bool)
    ensures Legal(INIT, Overlap(saved))
    ensures var s := After(INIT, Overlap(saved));
            JobEnabled(s, ClaimDir(11, 5, journaled)) && (saved || journaled ==> CanBeLost(JobApply(s, ClaimDir(11, 5, journaled)), 5))
  {
    OverlapIsReached(saved);
    RunKeeps(INIT, Overlap(saved));
    OverlapIsLost(After(INIT, Overlap(saved)), saved, journaled);
  }
}
