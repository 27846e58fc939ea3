/**
  The crash journal and its reclaim as a protocol: any number of processes on any
  number of kernels share one state directory, every process holds its own copy of
  the run history and writes the whole file at each save, and a process may be killed
  between any two steps.

  An flock belongs to an open file, so the lock table is not a separate component: a
  lock is held by whoever has the file open past its flock call, it is seen only
  inside the holder's kernel, and it is gone the moment the holder is.
 */
module JobProtocol {

  type Host = nat
  type Pid = nat
  type RunId = nat
  type Inode = nat
  type Dir = nat

  /** One journal entry (`console.BaselineJob`). */
  datatype Entry = Entry(host: Host, dirs: seq<Dir>, recorded: bool)

  /** One version of the history file: the journal, and how often each run was appended. */
  datatype History = History(jobs: map<RunId, Entry>, records: multiset<RunId>)

  /** How far a job got: `beginJob` up to Running, `release` from there. */
  datatype Phase = Created | Locked | Running | Dropped | Unlinked | Ended

  /** `bare`: the entry could not be saved, so the job runs without one while its lock file goes; `over` when such a job has ended. */
  datatype Job = Job(pid: Pid, host: Host, inode: Inode, phase: Phase, finished: bool, bare: bool, over: bool)

  /** A run made a directory its own. */
  datatype Claim = Claim(run: RunId, dir: Dir)

  /** How far a process got with one entry (`reclaimJob`, `tryJobLock`). */
  datatype Reclaim =
    | Opened(run: RunId, inode: Inode)
    | Acquired(run: RunId, inode: Inode)
    | Taken(run: RunId, inode: Inode, todo: seq<Dir>)
    | Unlinking(run: RunId, inode: Inode)
    | Closing(run: RunId, inode: Inode)

  /**
    `memory` is each live process's copy of the history, `paths` what the lock
    directory lists, `claims` every claim ever made, `removed` the directories reclaims
    removed since their last claim, each with the run whose entry listed it, and `spoiled`
    those whose last claim was one the guard (`Reusable`) refuses.
   */
  datatype State = State(
    alive: map<Pid, Host>,
    born: set<Pid>,
    memory: map<Pid, History>,
    disk: History,
    paths: map<RunId, Inode>,
    jobs: map<RunId, Job>,
    claims: set<Claim>,
    reclaims: map<Pid, Reclaim>,
    removed: map<Dir, RunId>,
    spoiled: set<Dir>)

  const INIT := State(map[], {}, map[], History(map[], multiset{}), map[], map[], {}, map[], map[], {})

  /** What starts and ends a process, creates a job, or comes from outside. */
  datatype WorldStep =
    | Boot(pid: Pid, host: Host)
    | Crash(pid: Pid)
    | CreateLock(pid: Pid, run: RunId, inode: Inode)
    | OutsideUnlink(run: RunId)

  /** A job's own steps (`createJobLock`, `BeginJob`, `Created`, `FinishJob`, `release`). */
  datatype JobStep =
    | TakeLock(run: RunId)
    | Begin(run: RunId, saved: bool)
    | ClaimDir(run: RunId, dir: Dir, journaled: bool)
    | Finish(run: RunId, saved: bool)
    | DropEntry(run: RunId, saved: bool)
    | UnlinkLock(run: RunId, ok: bool)
    | CloseLock(run: RunId)
    | EndBare(run: RunId)

  /** A reclaiming process's steps (`tryJobLock`, `reclaimJob`). */
  datatype ReclaimStep =
    | OpenLock(pid: Pid, run: RunId)
    | TryFlock(pid: Pid)
    | CheckPath(pid: Pid)
    | RemoveDir(pid: Pid, removes: bool)
    | GiveUp(pid: Pid)
    | DropReclaimed(pid: Pid)
    | UnlinkReclaimed(pid: Pid, ok: bool)
    | CloseReclaimed(pid: Pid)
    | DropMissing(pid: Pid, run: RunId)

  datatype Action = ByWorld(world: WorldStep) | ByJob(job: JobStep) | ByReclaim(reclaim: ReclaimStep)

  predicate OwnerAlive(s: State, run: RunId) {
    run in s.jobs && s.jobs[run].pid in s.alive
  }

  /** A live job: its process is up and it has not begun to release its entry. */
  predicate Live(s: State, run: RunId) {
    OwnerAlive(s, run) && s.jobs[run].phase == Running
  }

  /** A job at work, on the journal or not. */
  predicate Works(s: State, run: RunId) {
    OwnerAlive(s, run) && (s.jobs[run].phase == Running || (s.jobs[run].bare && !s.jobs[run].over))
  }

  /** The owner has its lock file open and locked. */
  predicate OwnerLocks(s: State, run: RunId) {
    OwnerAlive(s, run) && s.jobs[run].phase != Created && s.jobs[run].phase != Ended
  }

  /** A process reclaiming an entry has the lock file open and locked. */
  predicate ReclaimLocks(s: State, pid: Pid) {
    pid in s.alive && pid in s.reclaims && !s.reclaims[pid].Opened?
  }

  /** What a non-blocking flock on this kernel finds. */
  predicate LockFree(s: State, host: Host, inode: Inode) {
    && (forall r <- s.jobs | OwnerLocks(s, r) :: s.jobs[r].host != host || s.jobs[r].inode != inode)
    && (forall p <- s.reclaims | ReclaimLocks(s, p) :: s.alive[p] != host || s.reclaims[p].inode != inode)
  }

  predicate Journaled(phase: Phase) {
    phase != Created && phase != Locked
  }

  predicate WorldEnabled(s: State, a: WorldStep) {
    match a
    case Boot(pid, host) => pid !in s.born
    case Crash(pid) => pid in s.alive
    case CreateLock(pid, run, inode) =>
      pid in s.alive && run !in s.jobs && run !in s.paths && forall r <- s.jobs :: s.jobs[r].inode != inode
    case OutsideUnlink(run) => run in s.paths
  }

  predicate Lists(h: History, run: RunId, dir: Dir) {
    run in h.jobs && dir in h.jobs[run].dirs
  }

  /** A claim is journaled when its save reaches the disk, which then holds this process's copy. */
  predicate Saves(s: State, run: RunId, journaled: bool)
    requires OwnerAlive(s, run) && s.jobs[run].pid in s.memory
  {
    journaled && run in s.memory[s.jobs[run].pid].jobs
  }

  /** Some copy of the journal lists the directory under the run once the claim is made. */
  predicate ListedAfter(s: State, run: RunId, dir: Dir, saves: bool) {
    saves || Lists(s.disk, run, dir) || exists p <- s.memory :: Lists(s.memory[p], run, dir)
  }

  /** No job at work but this run has the directory. */
  predicate Sole(s: State, run: RunId, dir: Dir) {
    forall c <- s.claims | c.dir == dir && Works(s, c.run) :: c.run == run
  }

  /**
    No copy of the journal that is left once the claim is made lists the directory under
    another run whose lock file is still there, and no reclaim of another run is about to
    remove it. The file is not left when the claim replaces it (`saves`). And if a copy
    lists it under this run, whose own lock file is there, no other job at work has it.
   */
  predicate Reusable(s: State, run: RunId, dir: Dir, saves: bool) {
    && (forall r <- s.paths | r != run :: (saves || !Lists(s.disk, r, dir)) && forall p <- s.memory :: !Lists(s.memory[p], r, dir))
    && (forall p <- s.reclaims | s.reclaims[p].Taken? && s.reclaims[p].run != run :: dir !in s.reclaims[p].todo)
    && (run in s.paths && ListedAfter(s, run, dir, saves) ==> Sole(s, run, dir))
  }

  predicate JobEnabled(s: State, a: JobStep) {
    match a
    case TakeLock(run) => OwnerAlive(s, run) && s.jobs[run].phase == Created && LockFree(s, s.jobs[run].host, s.jobs[run].inode)
    case Begin(run, _) => OwnerAlive(s, run) && s.jobs[run].phase == Locked && s.jobs[run].pid in s.memory
    case ClaimDir(run, dir, _) => Works(s, run) && s.jobs[run].pid in s.memory
    case Finish(run, _) => Works(s, run) && s.jobs[run].pid in s.memory && !s.jobs[run].finished
    case DropEntry(run, _) => Live(s, run) && s.jobs[run].pid in s.memory
    case UnlinkLock(run, _) => OwnerAlive(s, run) && s.jobs[run].phase == Dropped
    case CloseLock(run) => OwnerAlive(s, run) && s.jobs[run].phase == Unlinked
    case EndBare(run) => Works(s, run) && s.jobs[run].bare
  }

  /**
    A process reads its journal before it starts jobs of its own, so the entry it goes by
    is the one in its memory.
   */
  predicate ReclaimEnabled(s: State, a: ReclaimStep) {
    match a
    case OpenLock(pid, run) =>
      pid in s.alive && pid in s.memory && pid !in s.reclaims && run in s.memory[pid].jobs && run in s.paths &&
      s.memory[pid].jobs[run].host == s.alive[pid]
    case TryFlock(pid) => pid in s.alive && pid in s.reclaims && s.reclaims[pid].Opened?
    case CheckPath(pid) =>
      ReclaimLocks(s, pid) && pid in s.memory && s.reclaims[pid].Acquired? && s.reclaims[pid].run in s.memory[pid].jobs
    case RemoveDir(pid, _) => ReclaimLocks(s, pid) && s.reclaims[pid].Taken? && s.reclaims[pid].todo != []
    case GiveUp(pid) => pid in s.alive && pid in s.reclaims && !s.reclaims[pid].Unlinking? && !s.reclaims[pid].Closing?
    case DropReclaimed(pid) =>
      ReclaimLocks(s, pid) && pid in s.memory && s.reclaims[pid].Taken? && s.reclaims[pid].todo == [] &&
      s.reclaims[pid].run in s.memory[pid].jobs
    case UnlinkReclaimed(pid, _) => ReclaimLocks(s, pid) && s.reclaims[pid].Unlinking?
    case CloseReclaimed(pid) => ReclaimLocks(s, pid) && s.reclaims[pid].Closing?
    case DropMissing(pid, run) =>
      pid in s.alive && pid in s.memory && pid !in s.reclaims && run in s.memory[pid].jobs && run !in s.paths &&
      s.memory[pid].jobs[run].host == s.alive[pid]
  }

  predicate Enabled(s: State, a: Action) {
    match a
    case ByWorld(w) => WorldEnabled(s, w)
    case ByJob(j) => JobEnabled(s, j)
    case ByReclaim(c) => ReclaimEnabled(s, c)
  }

  // ------------------------------------------------------- effects of steps

  function Start(s: State, pid: Pid, host: Host): State {
    s.(alive := s.alive[pid := host], born := s.born + {pid}, memory := s.memory[pid := s.disk])
  }

  /** The kernel closes everything the process had open. */
  function Kill(s: State, pid: Pid): State {
    s.(alive := s.alive - {pid}, memory := s.memory - {pid}, reclaims := s.reclaims - {pid})
  }

  function AddJob(s: State, run: RunId, j: Job): State {
    s.(jobs := s.jobs[run := j], paths := s.paths[run := j.inode])
  }

  function SetPhase(s: State, run: RunId, phase: Phase): State
    requires run in s.jobs
  {
    s.(jobs := s.jobs[run := s.jobs[run].(phase := phase)])
  }

  function MarkFinished(s: State, run: RunId): State
    requires run in s.jobs
  {
    s.(jobs := s.jobs[run := s.jobs[run].(finished := true)])
  }

  /** The journal never knew the job. */
  function Unlist(s: State, run: RunId): State
    requires run in s.jobs
  {
    s.(jobs := s.jobs[run := s.jobs[run].(phase := Dropped, bare := true, over := false)])
  }

  function SetOver(s: State, run: RunId): State
    requires run in s.jobs
  {
    s.(jobs := s.jobs[run := s.jobs[run].(over := true)])
  }

  /** The run has the directory from here on; what was removed under that name before is past. */
  function Own(s: State, run: RunId, dir: Dir, reusable: bool): State {
    s.(claims := s.claims + {Claim(run, dir)}, removed := s.removed - {dir}, spoiled := if reusable then s.spoiled - {dir} else s.spoiled + {dir})
  }

  /** One process's history and, when the save reached the disk, the file. */
  function Save(s: State, pid: Pid, h: History, saved: bool): State {
    s.(memory := s.memory[pid := h], disk := if saved then h else s.disk)
  }

  function Unlink(s: State, run: RunId, ok: bool): State {
    if ok then s.(paths := s.paths - {run}) else s
  }

  function SetReclaim(s: State, pid: Pid, c: Reclaim): State {
    s.(reclaims := s.reclaims[pid := c])
  }

  /** The file is closed, and with it any lock on it. */
  function CloseReclaim(s: State, pid: Pid): State {
    s.(reclaims := s.reclaims - {pid})
  }

  function Discard(s: State, dir: Dir, run: RunId, removes: bool): State {
    if removes then s.(removed := s.removed[dir := run]) else s
  }

  function WithEntry(h: History, run: RunId, e: Entry): History {
    h.(jobs := h.jobs[run := e])
  }

  function WithoutEntry(h: History, run: RunId): History {
    h.(jobs := h.jobs - {run})
  }

  /** `FinishJob`: the record and the "recorded" mark in one save. */
  function WithRecord(h: History, run: RunId): History {
    History(if run in h.jobs then h.jobs[run := h.jobs[run].(recorded := true)] else h.jobs, h.records + multiset{run})
  }

  /** `DropJob` at a reclaim: the entry goes, and the interrupted run is appended unless it was recorded. */
  function WithInterrupted(h: History, run: RunId): History
    requires run in h.jobs
  {
    History(h.jobs - {run}, if h.jobs[run].recorded then h.records else h.records + multiset{run})
  }

  function WorldApply(s: State, a: WorldStep): State
    requires WorldEnabled(s, a)
  {
    match a
    case Boot(pid, host) => Start(s, pid, host)
    case Crash(pid) => Kill(s, pid)
    case CreateLock(pid, run, inode) => AddJob(s, run, Job(pid, s.alive[pid], inode, Created, false, false, false))
    case OutsideUnlink(run) => Unlink(s, run, true)
  }

  function JobApply(s: State, a: JobStep): State
    requires JobEnabled(s, a)
  {
    match a
    case TakeLock(run) => SetPhase(s, run, Locked)
    case Begin(run, saved) =>
      // A save that failed leaves no entry in memory either; the lock file goes and the job runs unjournaled.
      var j := s.jobs[run];
      if saved then Save(SetPhase(s, run, Running), j.pid, WithEntry(s.memory[j.pid], run, Entry(j.host, [], false)), true)
      else Unlist(s, run)
    case ClaimDir(run, dir, journaled) =>
      var m, saves := s.memory[s.jobs[run].pid], Saves(s, run, journaled);
      var s1 := Own(s, run, dir, Reusable(s, run, dir, saves));
      if saves then Save(s1, s.jobs[run].pid, WithEntry(m, run, m.jobs[run].(dirs := m.jobs[run].dirs + [dir])), true) else s1
    case Finish(run, saved) =>
      Save(MarkFinished(s, run), s.jobs[run].pid, WithRecord(s.memory[s.jobs[run].pid], run), saved)
    case DropEntry(run, saved) =>
      // When the save fails the entry stays, so the lock file stays with it: only the lock is let go.
      var m := s.memory[s.jobs[run].pid];
      if run !in m.jobs then SetPhase(s, run, Dropped)
      else if saved then Save(SetPhase(s, run, Dropped), s.jobs[run].pid, WithoutEntry(m, run), true)
      else SetPhase(s, run, Ended)
    case UnlinkLock(run, ok) => Unlink(SetPhase(s, run, Unlinked), run, ok)
    case CloseLock(run) => SetPhase(s, run, Ended)
    case EndBare(run) => SetOver(s, run)
  }

  function ReclaimApply(s: State, a: ReclaimStep): State
    requires ReclaimEnabled(s, a)
  {
    match a
    case OpenLock(pid, run) => SetReclaim(s, pid, Opened(run, s.paths[run]))
    case TryFlock(pid) =>
      var c := s.reclaims[pid];
      if LockFree(s, s.alive[pid], c.inode) then SetReclaim(s, pid, Acquired(c.run, c.inode)) else CloseReclaim(s, pid)
    case CheckPath(pid) =>
      // The path must still name the file that was locked.
      var c := s.reclaims[pid];
      if c.run in s.paths && s.paths[c.run] == c.inode
      then SetReclaim(s, pid, Taken(c.run, c.inode, s.memory[pid].jobs[c.run].dirs))
      else CloseReclaim(s, pid)
    case RemoveDir(pid, removes) =>
      var c := s.reclaims[pid];
      SetReclaim(Discard(s, c.todo[0], c.run, removes), pid, c.(todo := c.todo[1..]))
    case GiveUp(pid) => CloseReclaim(s, pid)
    case DropReclaimed(pid) =>
      var c := s.reclaims[pid];
      SetReclaim(Save(s, pid, WithInterrupted(s.memory[pid], c.run), true), pid, Unlinking(c.run, c.inode))
    case UnlinkReclaimed(pid, ok) =>
      var c := s.reclaims[pid];
      SetReclaim(Unlink(s, c.run, ok), pid, Closing(c.run, c.inode))
    case CloseReclaimed(pid) => CloseReclaim(s, pid)
    case DropMissing(pid, run) => Save(s, pid, WithoutEntry(s.memory[pid], run), true)
  }

  function Apply(s: State, a: Action): State
    requires Enabled(s, a)
  {
    match a
    case ByWorld(w) => WorldApply(s, w)
    case ByJob(j) => JobApply(s, j)
    case ByReclaim(c) => ReclaimApply(s, c)
  }

  // ------------------------------------------------------------- invariants

  /** A lock path only ever names the one file made for its run. */
  ghost predicate PathsInv(s: State) {
    && (forall r <- s.paths :: r in s.jobs && s.paths[r] == s.jobs[r].inode)
    && (forall r, r' | r in s.jobs && r' in s.jobs && s.jobs[r].inode == s.jobs[r'].inode :: r == r')
  }

  ghost predicate ProcessesInv(s: State) {
    && s.memory.Keys == s.alive.Keys
    && s.reclaims.Keys <= s.alive.Keys <= s.born
    && (forall r <- s.jobs :: s.jobs[r].pid in s.born && (OwnerAlive(s, r) ==> s.alive[s.jobs[r].pid] == s.jobs[r].host))
    && (forall r <- s.jobs | s.jobs[r].bare :: Journaled(s.jobs[r].phase) && s.jobs[r].phase != Running)
  }

  /** No other job at work has the directory, unless it was claimed against the guard. */
  predicate Owns(s: State, r: RunId, d: Dir) {
    d in s.spoiled || Sole(s, r, d)
  }

  ghost predicate EntryInv(s: State, r: RunId, e: Entry) {
    && r in s.jobs && Journaled(s.jobs[r].phase) && !s.jobs[r].bare && e.host == s.jobs[r].host
    && (r in s.paths ==> forall d <- e.dirs :: Owns(s, r, d))
  }

  ghost predicate RecordInv(s: State, h: History, r: RunId) {
    && h.records[r] == 1 && r in s.jobs && Journaled(s.jobs[r].phase)
    && (Works(s, r) ==> s.jobs[r].finished)
    && (r in h.jobs ==> h.jobs[r].recorded)
  }

  /** What a version of the history says about a run is true of it, and it records it at most once. */
  ghost predicate VersionInv(s: State, h: History) {
    && (forall r <- h.jobs :: EntryInv(s, r, h.jobs[r]))
    && (forall r <- h.records :: RecordInv(s, h, r))
    && (forall r <- h.jobs | h.jobs[r].recorded :: r in h.records)
  }

  ghost predicate VersionsInv(s: State) {
    VersionInv(s, s.disk) && forall p <- s.memory :: VersionInv(s, s.memory[p])
  }

  /** A process works on an entry of its own kernel, through that entry's own lock file, alone. */
  ghost predicate ReclaimInv(s: State, p: Pid)
    requires p in s.reclaims
  {
    var c := s.reclaims[p];
    && p in s.alive && c.run in s.jobs && Journaled(s.jobs[c.run].phase) && !s.jobs[c.run].bare
    && s.jobs[c.run].host == s.alive[p] && s.jobs[c.run].inode == c.inode
    && (!c.Opened? ==> !OwnerLocks(s, c.run))
    && (c.Taken? ==> forall d <- c.todo :: Owns(s, c.run, d))
  }

  ghost predicate ReclaimsInv(s: State) {
    && (forall p <- s.reclaims :: ReclaimInv(s, p))
    && (forall p, p' | ReclaimLocks(s, p) && ReclaimLocks(s, p') && s.reclaims[p].run == s.reclaims[p'].run :: p == p')
  }

  ghost predicate ClaimsInv(s: State) {
    forall c <- s.claims :: c.run in s.jobs && Journaled(s.jobs[c.run].phase)
  }

  ghost predicate Core(s: State) {
    PathsInv(s) && ProcessesInv(s) && ReclaimsInv(s) && ClaimsInv(s)
  }

  ghost predicate Inv(s: State) {
    Core(s) && VersionsInv(s)
  }

  // ---------------------------------------------------- every step keeps it

  /** A journaled job keeps its host, its file and its mark, and never comes back to life. */
  ghost predicate Ages(s: State, s': State, r: RunId)
    requires r in s.jobs
  {
    && r in s'.jobs && Journaled(s'.jobs[r].phase)
    && s'.jobs[r].host == s.jobs[r].host && s'.jobs[r].inode == s.jobs[r].inode && s'.jobs[r].bare == s.jobs[r].bare
    && (Live(s', r) ==> Live(s, r)) && (Works(s', r) ==> Works(s, r)) && (OwnerLocks(s', r) ==> OwnerLocks(s, r))
    && (s.jobs[r].finished ==> s'.jobs[r].finished) && (r in s'.paths ==> r in s.paths)
  }

  /** What the journal, the reclaims and the removals rely on survives from one state to the next. */
  ghost predicate Carries(s: State, s': State) {
    && (forall r <- s.jobs | Journaled(s.jobs[r].phase) :: Ages(s, s', r))
    && (forall c <- s.claims :: Works(s', c.run) ==> Works(s, c.run)) && s'.claims == s.claims && s'.spoiled == s.spoiled
  }

  lemma VersionCarried(s: State, s': State, h: History)
    requires Carries(s, s') && VersionInv(s, h)
    ensures VersionInv(s', h)
  {
    forall r <- h.jobs
      ensures EntryInv(s', r, h.jobs[r])
    {
      assert EntryInv(s, r, h.jobs[r]);
    }
    forall r <- h.records
      ensures RecordInv(s', h, r)
    {
      assert RecordInv(s, h, r);
    }
  }

  /** A process starts from the file; one that dies takes its copy with it; a save replaces copies by `h`. */
  lemma VersionsKept(s: State, s': State, h: History)
    requires Carries(s, s') && VersionsInv(s) && VersionInv(s', h)
    requires s'.disk == s.disk || s'.disk == h
    requires forall p <- s'.memory :: s'.memory[p] == h || s'.memory[p] == s.disk || (p in s.memory && s'.memory[p] == s.memory[p])
    ensures VersionsInv(s')
  {
    VersionCarried(s, s', s.disk);
    forall p <- s'.memory
      ensures VersionInv(s', s'.memory[p])
    {
      if p in s.memory {
        VersionCarried(s, s', s.memory[p]);
      }
    }
  }

  /** The reclaims under way stay sound when none was added or moved. */
  lemma ReclaimsCarried(s: State, s': State)
    requires Carries(s, s') && ReclaimsInv(s)
    requires forall p <- s'.reclaims :: p in s.reclaims && s'.reclaims[p] == s.reclaims[p]
    requires forall p <- s'.reclaims | p in s.alive :: p in s'.alive && s'.alive[p] == s.alive[p]
    ensures ReclaimsInv(s')
  {
    forall p <- s'.reclaims
      ensures ReclaimInv(s', p)
    {
      assert ReclaimInv(s, p);
      assert Ages(s, s', s.reclaims[p].run);
    }
    forall p, p' | ReclaimLocks(s', p) && ReclaimLocks(s', p') && s'.reclaims[p].run == s'.reclaims[p'].run
      ensures p == p'
    {
      assert ReclaimInv(s, p) && ReclaimInv(s, p');
      assert ReclaimLocks(s, p) && ReclaimLocks(s, p');
    }
  }

  lemma ClaimsCarried(s: State, s': State)
    requires ClaimsInv(s) && s'.claims == s.claims && forall r <- s.jobs | Journaled(s.jobs[r].phase) :: Ages(s, s', r)
    ensures ClaimsInv(s') && forall c <- s.claims :: Works(s', c.run) ==> Works(s, c.run)
  {
    forall c <- s.claims
      ensures Works(s', c.run) ==> Works(s, c.run)
    {
      assert Ages(s, s', c.run);
    }
  }

  lemma StartKeeps(s: State, pid: Pid, host: Host)
    requires Core(s) && pid !in s.born
    ensures Core(Start(s, pid, host)) && Carries(s, Start(s, pid, host))
  {
    ClaimsCarried(s, Start(s, pid, host));
    ReclaimsCarried(s, Start(s, pid, host));
  }

  lemma KillKeeps(s: State, pid: Pid)
    requires Core(s)
    ensures Core(Kill(s, pid)) && Carries(s, Kill(s, pid))
  {
    ClaimsCarried(s, Kill(s, pid));
    ReclaimsCarried(s, Kill(s, pid));
  }

  lemma AddJobKeeps(s: State, run: RunId, j: Job)
    requires Core(s) && run !in s.jobs && j.phase == Created && !j.bare
    requires j.pid in s.alive && j.host == s.alive[j.pid]
    requires forall r <- s.jobs :: s.jobs[r].inode != j.inode
    ensures Core(AddJob(s, run, j)) && Carries(s, AddJob(s, run, j))
  {
    ClaimsCarried(s, AddJob(s, run, j));
    ReclaimsCarried(s, AddJob(s, run, j));
  }

  /** A job only moves on: it locks, runs, releases, ends. */
  predicate MovesOn(was: Phase, now: Phase) {
    match was
    case Created => now == Locked
    case Locked => now == Running || now == Dropped
    case Running => now == Dropped || now == Ended
    case Dropped => now == Unlinked
    case Unlinked => now == Ended
    case Ended => false
  }

  lemma SetPhaseKeeps(s: State, run: RunId, phase: Phase)
    requires Core(s) && OwnerAlive(s, run) && MovesOn(s.jobs[run].phase, phase)
    ensures Core(SetPhase(s, run, phase)) && Carries(s, SetPhase(s, run, phase))
  {
    ClaimsCarried(s, SetPhase(s, run, phase));
    ReclaimsCarried(s, SetPhase(s, run, phase));
  }

  lemma MarkFinishedKeeps(s: State, run: RunId)
    requires Core(s) && run in s.jobs
    ensures Core(MarkFinished(s, run)) && Carries(s, MarkFinished(s, run))
  {
    ClaimsCarried(s, MarkFinished(s, run));
    ReclaimsCarried(s, MarkFinished(s, run));
  }

  lemma UnlistKeeps(s: State, run: RunId)
    requires Core(s) && run in s.jobs && !Journaled(s.jobs[run].phase)
    ensures Core(Unlist(s, run)) && Carries(s, Unlist(s, run))
  {
    ClaimsCarried(s, Unlist(s, run));
    ReclaimsCarried(s, Unlist(s, run));
  }

  lemma SetOverKeeps(s: State, run: RunId)
    requires Core(s) && run in s.jobs
    ensures Core(SetOver(s, run)) && Carries(s, SetOver(s, run))
  {
    ClaimsCarried(s, SetOver(s, run));
    ReclaimsCarried(s, SetOver(s, run));
  }

  /** A claim changes who has its own directory, and no other. */
  lemma OwnSole(s: State, run: RunId, dir: Dir, reusable: bool, r: RunId, d: Dir)
    requires Sole(s, r, d) && (d == dir ==> r == run)
    ensures Sole(Own(s, run, dir, reusable), r, d)
  {
    var s' := Own(s, run, dir, reusable);
    forall c <- s'.claims | c.dir == d && Works(s', c.run)
      ensures c.run == r
    {
      assert c != Claim(run, dir) ==> c in s.claims && Works(s, c.run);
    }
  }

  lemma OwnReclaims(s: State, run: RunId, dir: Dir, saves: bool)
    requires ReclaimsInv(s) && Works(s, run)
    ensures ReclaimsInv(Own(s, run, dir, Reusable(s, run, dir, saves)))
  {
    var s' := Own(s, run, dir, Reusable(s, run, dir, saves));
    forall p <- s'.reclaims
      ensures ReclaimInv(s', p)
    {
      var c := s.reclaims[p];
      assert ReclaimInv(s, p);
      if c.Taken? {
        forall d <- c.todo
          ensures Owns(s', c.run, d)
        {
          assert Owns(s, c.run, d);
          if d !in s'.spoiled && d != dir {
            OwnSole(s, run, dir, Reusable(s, run, dir, saves), c.run, d);
          }
        }
      }
    }
    forall p, p' | ReclaimLocks(s', p) && ReclaimLocks(s', p') && s'.reclaims[p].run == s'.reclaims[p'].run
      ensures p == p'
    {
      assert ReclaimLocks(s, p) && ReclaimLocks(s, p');
    }
  }

  /** A copy of the journal that the guard looked at. */
  ghost predicate Clear(s: State, run: RunId, dir: Dir, h: History) {
    forall r <- s.paths | Lists(h, r, dir) :: r == run && Sole(s, run, dir)
  }

  lemma OwnEntry(s: State, run: RunId, dir: Dir, reusable: bool, h: History, r: RunId)
    requires VersionInv(s, h) && (reusable ==> Clear(s, run, dir, h)) && r in h.jobs
    ensures EntryInv(Own(s, run, dir, reusable), r, h.jobs[r])
  {
    var s', e := Own(s, run, dir, reusable), h.jobs[r];
    assert EntryInv(s, r, e);
    if r in s.paths {
      forall d <- e.dirs
        ensures Owns(s', r, d)
      {
        assert Owns(s, r, d);
        assert d == dir ==> Lists(h, r, dir);
        if d !in s'.spoiled {
          OwnSole(s, run, dir, reusable, r, d);
        }
      }
    }
  }

  lemma OwnVersion(s: State, run: RunId, dir: Dir, reusable: bool, h: History)
    requires VersionInv(s, h) && (reusable ==> Clear(s, run, dir, h))
    ensures VersionInv(Own(s, run, dir, reusable), h)
  {
    var s' := Own(s, run, dir, reusable);
    forall r <- h.jobs
      ensures EntryInv(s', r, h.jobs[r])
    {
      OwnEntry(s, run, dir, reusable, h, r);
    }
    forall r <- h.records
      ensures RecordInv(s', h, r)
    {
      assert RecordInv(s, h, r);
    }
  }

  /** Every copy but the file; and the file too, when the claim does not replace it. */
  lemma OwnVersions(s: State, run: RunId, dir: Dir, saves: bool)
    requires VersionsInv(s)
    ensures var s' := Own(s, run, dir, Reusable(s, run, dir, saves));
            (forall p <- s.memory :: VersionInv(s', s.memory[p])) && (!saves ==> VersionInv(s', s.disk))
  {
    var reusable := Reusable(s, run, dir, saves);
    if !saves {
      OwnVersion(s, run, dir, reusable, s.disk);
    }
    forall p <- s.memory
      ensures VersionInv(Own(s, run, dir, reusable), s.memory[p])
    {
      OwnVersion(s, run, dir, reusable, s.memory[p]);
    }
  }

  lemma OwnCore(s: State, run: RunId, dir: Dir, saves: bool)
    requires Core(s) && Works(s, run)
    ensures Core(Own(s, run, dir, Reusable(s, run, dir, saves)))
  {
    OwnReclaims(s, run, dir, saves);
  }

  lemma SaveKeeps(s: State, pid: Pid, h: History, saved: bool)
    requires Core(s) && pid in s.memory
    ensures Core(Save(s, pid, h, saved)) && Carries(s, Save(s, pid, h, saved))
  {
    ClaimsCarried(s, Save(s, pid, h, saved));
    ReclaimsCarried(s, Save(s, pid, h, saved));
  }

  lemma UnlinkKeeps(s: State, run: RunId, ok: bool)
    requires Core(s)
    ensures Core(Unlink(s, run, ok)) && Carries(s, Unlink(s, run, ok))
  {
    ClaimsCarried(s, Unlink(s, run, ok));
    ReclaimsCarried(s, Unlink(s, run, ok));
  }

  /** One reclaim moves; it locks only a file no other reclaim has locked. */
  lemma ReclaimMoves(s: State, pid: Pid, c: Reclaim)
    requires ReclaimsInv(s) && pid in s.alive && ReclaimInv(SetReclaim(s, pid, c), pid)
    requires !c.Opened? ==> forall p | ReclaimLocks(s, p) && s.reclaims[p].run == c.run :: p == pid
    ensures ReclaimsInv(SetReclaim(s, pid, c))
  {
    var s' := SetReclaim(s, pid, c);
    forall p <- s'.reclaims
      ensures ReclaimInv(s', p)
    {
      if p != pid {
        assert ReclaimInv(s, p);
      }
    }
    forall p, p' | ReclaimLocks(s', p) && ReclaimLocks(s', p') && s'.reclaims[p].run == s'.reclaims[p'].run
      ensures p == p'
    {
      assert p != pid ==> ReclaimLocks(s, p);
      assert p' != pid ==> ReclaimLocks(s, p');
    }
  }

  lemma SetReclaimKeeps(s: State, pid: Pid, c: Reclaim)
    requires Core(s) && pid in s.alive && ReclaimInv(SetReclaim(s, pid, c), pid)
    requires !c.Opened? ==> forall p | ReclaimLocks(s, p) && s.reclaims[p].run == c.run :: p == pid
    ensures Core(SetReclaim(s, pid, c)) && Carries(s, SetReclaim(s, pid, c))
  {
    ClaimsCarried(s, SetReclaim(s, pid, c));
    ReclaimMoves(s, pid, c);
  }

  lemma CloseReclaimKeeps(s: State, pid: Pid)
    requires Core(s)
    ensures Core(CloseReclaim(s, pid)) && Carries(s, CloseReclaim(s, pid))
  {
    ClaimsCarried(s, CloseReclaim(s, pid));
    ReclaimsCarried(s, CloseReclaim(s, pid));
  }

  lemma DiscardKeeps(s: State, dir: Dir, run: RunId, removes: bool)
    requires Core(s)
    ensures Core(Discard(s, dir, run, removes)) && Carries(s, Discard(s, dir, run, removes))
  {
    ClaimsCarried(s, Discard(s, dir, run, removes));
    ReclaimsCarried(s, Discard(s, dir, run, removes));
  }

  // ---------------------------------------------------------- new versions

  lemma EntryAdded(s: State, h: History, run: RunId, e: Entry)
    requires VersionInv(s, h) && EntryInv(s, run, e) && (e.recorded <==> run in h.records)
    ensures VersionInv(s, WithEntry(h, run, e))
  {
    forall r <- h.records
      ensures RecordInv(s, WithEntry(h, run, e), r)
    {
      assert RecordInv(s, h, r);
    }
  }

  lemma EntryDropped(s: State, h: History, run: RunId)
    requires VersionInv(s, h)
    ensures VersionInv(s, WithoutEntry(h, run))
  {
    forall r <- h.records
      ensures RecordInv(s, WithoutEntry(h, run), r)
    {
      assert RecordInv(s, h, r);
    }
  }

  lemma RecordAdded(s: State, h: History, run: RunId)
    requires VersionInv(s, h) && run !in h.records
    requires run in s.jobs && Journaled(s.jobs[run].phase) && s.jobs[run].finished
    ensures VersionInv(s, WithRecord(h, run))
  {
    var h' := WithRecord(h, run);
    forall r <- h'.jobs
      ensures EntryInv(s, r, h'.jobs[r])
    {
      assert EntryInv(s, r, h.jobs[r]);
    }
    forall r <- h'.records
      ensures RecordInv(s, h', r)
    {
      assert r != run ==> RecordInv(s, h, r);
    }
  }

  lemma InterruptedAdded(s: State, h: History, run: RunId)
    requires VersionInv(s, h) && run in h.jobs && !Works(s, run)
    ensures VersionInv(s, WithInterrupted(h, run))
  {
    var h' := WithInterrupted(h, run);
    assert EntryInv(s, run, h.jobs[run]);
    assert run in h.records ==> RecordInv(s, h, run);
    forall r <- h'.records
      ensures RecordInv(s, h', r)
    {
      assert r in h.records ==> RecordInv(s, h, r);
    }
  }

  /** A step that leaves every history version as it was. */
  lemma VersionsQuiet(s: State, s': State)
    requires VersionsInv(s) && Carries(s, s') && s'.memory == s.memory && s'.disk == s.disk
    ensures VersionsInv(s')
  {
    VersionCarried(s, s', s.disk);
    VersionsKept(s, s', s.disk);
  }

  /** A step followed by a save: the new version only has to be sound after the step. */
  lemma VersionsSaved(s: State, s1: State, pid: Pid, h: History, saved: bool)
    requires VersionsInv(s) && Carries(s, s1) && VersionInv(s1, h) && s1.memory == s.memory && s1.disk == s.disk
    ensures VersionsInv(Save(s1, pid, h, saved))
  {
    var s' := Save(s1, pid, h, saved);
    forall r <- s.jobs | Journaled(s.jobs[r].phase)
      ensures Ages(s, s', r)
    {
      assert Ages(s, s1, r);
    }
    assert Carries(s1, s');
    VersionCarried(s1, s', h);
    VersionsKept(s, s', h);
  }

  // ------------------------------------------------------------- job steps

  lemma BeginVersions(s: State, run: RunId)
    requires ProcessesInv(s) && VersionsInv(s) && JobEnabled(s, Begin(run, true)) && Carries(s, SetPhase(s, run, Running))
    ensures VersionsInv(JobApply(s, Begin(run, true)))
  {
    var j, s1 := s.jobs[run], SetPhase(s, run, Running);
    var m, e := s.memory[j.pid], Entry(j.host, [], false);
    VersionCarried(s, s1, m);
    assert run !in m.records;
    EntryAdded(s1, m, run, e);
    VersionsSaved(s, s1, j.pid, WithEntry(m, run, e), true);
  }

  /** The claim's entry replaces this process's copy and the file, so the file's old copy need not be sound any more. */
  lemma ClaimDirVersions(s1: State, pid: Pid, run: RunId, dir: Dir)
    requires pid in s1.memory && (forall p <- s1.memory :: VersionInv(s1, s1.memory[p])) && run in s1.memory[pid].jobs && (run in s1.paths ==> Owns(s1, run, dir))
    ensures var m := s1.memory[pid]; VersionsInv(Save(s1, pid, WithEntry(m, run, m.jobs[run].(dirs := m.jobs[run].dirs + [dir])), true))
  {
    var m := s1.memory[pid];
    var e := m.jobs[run].(dirs := m.jobs[run].dirs + [dir]);
    assert VersionInv(s1, m) && EntryInv(s1, run, m.jobs[run]);
    assert run in m.records ==> RecordInv(s1, m, run);
    EntryAdded(s1, m, run, e);
    FileReplaced(s1, pid, WithEntry(m, run, e));
  }

  /** A save replaces the file, whatever it held. */
  lemma FileReplaced(s1: State, pid: Pid, h: History)
    requires pid in s1.memory && (forall p <- s1.memory :: VersionInv(s1, s1.memory[p])) && VersionInv(s1, h)
    ensures VersionsInv(Save(s1, pid, h, true))
  {
    var s' := Save(s1, pid, h, true);
    assert Carries(s1, s');
    VersionCarried(s1, s', h);
    forall p <- s'.memory
      ensures VersionInv(s', s'.memory[p])
    {
      if p != pid {
        VersionCarried(s1, s', s1.memory[p]);
      }
    }
  }

  lemma FinishVersions(s: State, run: RunId, saved: bool)
    requires ProcessesInv(s) && VersionsInv(s) && JobEnabled(s, Finish(run, saved)) && Carries(s, MarkFinished(s, run))
    ensures VersionsInv(JobApply(s, Finish(run, saved)))
  {
    var pid, s1 := s.jobs[run].pid, MarkFinished(s, run);
    var m := s.memory[pid];
    assert run in m.records ==> RecordInv(s, m, run);
    VersionCarried(s, s1, m);
    RecordAdded(s1, m, run);
    VersionsSaved(s, s1, pid, WithRecord(m, run), saved);
  }

  lemma DropEntryVersions(s: State, run: RunId)
    requires VersionsInv(s) && JobEnabled(s, DropEntry(run, true)) && Carries(s, SetPhase(s, run, Dropped))
    ensures VersionsInv(JobApply(s, DropEntry(run, true)))
  {
    var pid, s1 := s.jobs[run].pid, SetPhase(s, run, Dropped);
    var m := s.memory[pid];
    if run in m.jobs {
      VersionCarried(s, s1, m);
      EntryDropped(s1, m, run);
      VersionsSaved(s, s1, pid, WithoutEntry(m, run), true);
    } else {
      VersionsQuiet(s, s1);
    }
  }

  lemma BeginKeeps(s: State, a: JobStep)
    requires Inv(s) && a.Begin? && JobEnabled(s, a)
    ensures Inv(JobApply(s, a))
  {
    var run, saved := a.run, a.saved;
    if saved {
      SetPhaseKeeps(s, run, Running);
      BeginVersions(s, run);
      var j := s.jobs[run];
      SaveKeeps(SetPhase(s, run, Running), j.pid, WithEntry(s.memory[j.pid], run, Entry(j.host, [], false)), true);
    } else {
      UnlistKeeps(s, run);
      VersionsQuiet(s, Unlist(s, run));
    }
  }

  lemma ClaimDirKeeps(s: State, a: JobStep)
    requires Inv(s) && a.ClaimDir? && JobEnabled(s, a)
    ensures Inv(JobApply(s, a))
  {
    var run, dir, pid, saves := a.run, a.dir, s.jobs[a.run].pid, Saves(s, a.run, a.journaled);
    var s1, m := Own(s, run, dir, Reusable(s, run, dir, saves)), s.memory[pid];
    OwnCore(s, run, dir, saves);
    OwnVersions(s, run, dir, saves);
    if saves {
      if run in s.paths && Reusable(s, run, dir, saves) {
        OwnSole(s, run, dir, true, run, dir);
      }
      ClaimDirVersions(s1, pid, run, dir);
      SaveKeeps(s1, pid, WithEntry(m, run, m.jobs[run].(dirs := m.jobs[run].dirs + [dir])), true);
    }
  }

  lemma FinishKeeps(s: State, a: JobStep)
    requires Inv(s) && a.Finish? && JobEnabled(s, a)
    ensures Inv(JobApply(s, a))
  {
    var run, saved := a.run, a.saved;
    MarkFinishedKeeps(s, run);
    FinishVersions(s, run, saved);
    SaveKeeps(MarkFinished(s, run), s.jobs[run].pid, WithRecord(s.memory[s.jobs[run].pid], run), saved);
  }

  lemma DropEntryKeeps(s: State, a: JobStep)
    requires Inv(s) && a.DropEntry? && JobEnabled(s, a)
    ensures Inv(JobApply(s, a))
  {
    var run, saved := a.run, a.saved;
    var m := s.memory[s.jobs[run].pid];
    if saved || run !in m.jobs {
      SetPhaseKeeps(s, run, Dropped);
      DropEntryVersions(s, run);
      SaveKeeps(SetPhase(s, run, Dropped), s.jobs[run].pid, WithoutEntry(m, run), true);
    } else {
      SetPhaseKeeps(s, run, Ended);
      VersionsQuiet(s, SetPhase(s, run, Ended));
    }
  }

  lemma UnlinkLockKeeps(s: State, a: JobStep)
    requires Inv(s) && a.UnlinkLock? && JobEnabled(s, a)
    ensures Inv(JobApply(s, a))
  {
    var run, ok := a.run, a.ok;
    var s1 := SetPhase(s, run, Unlinked);
    SetPhaseKeeps(s, run, Unlinked);
    UnlinkKeeps(s1, run, ok);
    VersionsQuiet(s, s1);
    VersionsQuiet(s1, Unlink(s1, run, ok));
  }

  lemma EndBareKeeps(s: State, a: JobStep)
    requires Inv(s) && a.EndBare? && JobEnabled(s, a)
    ensures Inv(JobApply(s, a))
  {
    SetOverKeeps(s, a.run);
    VersionsQuiet(s, JobApply(s, a));
  }

  lemma AdvanceKeeps(s: State, a: JobStep)
    requires Inv(s) && (a.TakeLock? || a.CloseLock?) && JobEnabled(s, a)
    ensures Inv(JobApply(s, a))
  {
    SetPhaseKeeps(s, a.run, if a.TakeLock? then Locked else Ended);
    VersionsQuiet(s, JobApply(s, a));
  }

  // --------------------------------------------------------- reclaim steps

  lemma OpenLockKeeps(s: State, a: ReclaimStep)
    requires Inv(s) && a.OpenLock? && ReclaimEnabled(s, a)
    ensures Inv(ReclaimApply(s, a))
  {
    var pid, run := a.pid, a.run;
    assert EntryInv(s, run, s.memory[pid].jobs[run]);
    SetReclaimKeeps(s, pid, Opened(run, s.paths[run]));
    VersionsQuiet(s, ReclaimApply(s, a));
  }

  /** A free lock on the entry's own kernel: the owner is gone and nobody else is reclaiming it. */
  lemma FreeLockMeansGone(s: State, pid: Pid)
    requires ReclaimsInv(s) && ProcessesInv(s) && ReclaimEnabled(s, TryFlock(pid))
    requires LockFree(s, s.alive[pid], s.reclaims[pid].inode)
    ensures !OwnerLocks(s, s.reclaims[pid].run)
    ensures forall p | ReclaimLocks(s, p) :: s.reclaims[p].run != s.reclaims[pid].run
  {
    assert ReclaimInv(s, pid);
    forall p | ReclaimLocks(s, p)
      ensures s.reclaims[p].run != s.reclaims[pid].run
    {
      assert ReclaimInv(s, p);
    }
  }

  lemma TryFlockKeeps(s: State, a: ReclaimStep)
    requires Inv(s) && a.TryFlock? && ReclaimEnabled(s, a)
    ensures Inv(ReclaimApply(s, a))
  {
    var pid := a.pid;
    var c := s.reclaims[pid];
    if LockFree(s, s.alive[pid], c.inode) {
      FreeLockMeansGone(s, pid);
      assert ReclaimInv(s, pid);
      SetReclaimKeeps(s, pid, Acquired(c.run, c.inode));
    } else {
      CloseReclaimKeeps(s, pid);
    }
    VersionsQuiet(s, ReclaimApply(s, a));
  }

  lemma EntryTaken(s: State, pid: Pid)
    requires VersionsInv(s) && ReclaimsInv(s) && ReclaimEnabled(s, CheckPath(pid)) && s.reclaims[pid].run in s.paths
    ensures var c := s.reclaims[pid]; ReclaimInv(SetReclaim(s, pid, Taken(c.run, c.inode, s.memory[pid].jobs[c.run].dirs)), pid)
  {
    var c := s.reclaims[pid];
    var dirs := s.memory[pid].jobs[c.run].dirs;
    var s' := SetReclaim(s, pid, Taken(c.run, c.inode, dirs));
    assert EntryInv(s, c.run, s.memory[pid].jobs[c.run]) && ReclaimInv(s, pid);
    forall d <- dirs
      ensures Owns(s', c.run, d)
    {
      assert Owns(s, c.run, d);
    }
  }

  lemma PathChecked(s: State, pid: Pid)
    requires Inv(s) && ReclaimEnabled(s, CheckPath(pid)) && s.reclaims[pid].run in s.paths
    ensures var c := s.reclaims[pid]; var c' := Taken(c.run, c.inode, s.memory[pid].jobs[c.run].dirs);
            Core(SetReclaim(s, pid, c')) && Carries(s, SetReclaim(s, pid, c'))
  {
    var c := s.reclaims[pid];
    EntryTaken(s, pid);
    SetReclaimKeeps(s, pid, Taken(c.run, c.inode, s.memory[pid].jobs[c.run].dirs));
  }

  lemma CheckPathKeeps(s: State, a: ReclaimStep)
    requires Inv(s) && a.CheckPath? && ReclaimEnabled(s, a)
    ensures Inv(ReclaimApply(s, a))
  {
    var c := s.reclaims[a.pid];
    if c.run in s.paths && s.paths[c.run] == c.inode {
      PathChecked(s, a.pid);
    } else {
      CloseReclaimKeeps(s, a.pid);
    }
    VersionsQuiet(s, ReclaimApply(s, a));
  }

  lemma RemoveDirCore(s: State, pid: Pid, removes: bool)
    requires Core(s) && ReclaimEnabled(s, RemoveDir(pid, removes))
    ensures var c := s.reclaims[pid]; var s1 := Discard(s, c.todo[0], c.run, removes);
            && Core(s1) && Carries(s, s1) && Core(SetReclaim(s1, pid, c.(todo := c.todo[1..]))) && Carries(s1, SetReclaim(s1, pid, c.(todo := c.todo[1..])))
  {
    var c := s.reclaims[pid];
    assert ReclaimInv(s, pid);
    DiscardKeeps(s, c.todo[0], c.run, removes);
    assert forall d <- c.todo[1..] :: d in c.todo && Owns(s, c.run, d);
    SetReclaimKeeps(Discard(s, c.todo[0], c.run, removes), pid, c.(todo := c.todo[1..]));
  }

  lemma RemoveDirKeeps(s: State, a: ReclaimStep)
    requires Inv(s) && a.RemoveDir? && ReclaimEnabled(s, a)
    ensures Inv(ReclaimApply(s, a))
  {
    var c := s.reclaims[a.pid];
    var s1 := Discard(s, c.todo[0], c.run, a.removes);
    RemoveDirCore(s, a.pid, a.removes);
    VersionsQuiet(s, s1);
    VersionsQuiet(s1, ReclaimApply(s, a));
  }

  lemma DropReclaimedCore(s: State, pid: Pid)
    requires Core(s) && ReclaimEnabled(s, DropReclaimed(pid))
    ensures Core(ReclaimApply(s, DropReclaimed(pid)))
  {
    var c := s.reclaims[pid];
    var h := WithInterrupted(s.memory[pid], c.run);
    assert ReclaimInv(s, pid);
    SaveKeeps(s, pid, h, true);
    SetReclaimKeeps(Save(s, pid, h, true), pid, Unlinking(c.run, c.inode));
  }

  lemma DropReclaimedVersions(s: State, pid: Pid)
    requires VersionsInv(s) && ReclaimsInv(s) && ReclaimEnabled(s, DropReclaimed(pid))
    requires Carries(s, SetReclaim(s, pid, Unlinking(s.reclaims[pid].run, s.reclaims[pid].inode)))
    ensures VersionsInv(ReclaimApply(s, DropReclaimed(pid)))
  {
    var c := s.reclaims[pid];
    var s1 := SetReclaim(s, pid, Unlinking(c.run, c.inode));
    assert ReclaimInv(s, pid);
    VersionCarried(s, s1, s.memory[pid]);
    InterruptedAdded(s1, s.memory[pid], c.run);
    VersionsSaved(s, s1, pid, WithInterrupted(s.memory[pid], c.run), true);
  }

  lemma DropReclaimedKeeps(s: State, a: ReclaimStep)
    requires Inv(s) && a.DropReclaimed? && ReclaimEnabled(s, a)
    ensures Inv(ReclaimApply(s, a))
  {
    var pid := a.pid;
    var c := s.reclaims[pid];
    assert ReclaimInv(s, pid);
    SetReclaimKeeps(s, pid, Unlinking(c.run, c.inode));
    DropReclaimedCore(s, pid);
    DropReclaimedVersions(s, pid);
  }

  lemma UnlinkReclaimedKeeps(s: State, a: ReclaimStep)
    requires Inv(s) && a.UnlinkReclaimed? && ReclaimEnabled(s, a)
    ensures Inv(ReclaimApply(s, a))
  {
    var pid, ok := a.pid, a.ok;
    var c := s.reclaims[pid];
    var s1 := Unlink(s, c.run, ok);
    assert ReclaimInv(s, pid);
    UnlinkKeeps(s, c.run, ok);
    SetReclaimKeeps(s1, pid, Closing(c.run, c.inode));
    VersionsQuiet(s, s1);
    VersionsQuiet(s1, ReclaimApply(s, a));
  }

  lemma CloseKeeps(s: State, a: ReclaimStep)
    requires Inv(s) && (a.GiveUp? || a.CloseReclaimed?) && ReclaimEnabled(s, a)
    ensures Inv(ReclaimApply(s, a))
  {
    CloseReclaimKeeps(s, a.pid);
    VersionsQuiet(s, ReclaimApply(s, a));
  }

  lemma DropMissingKeeps(s: State, a: ReclaimStep)
    requires Inv(s) && a.DropMissing? && ReclaimEnabled(s, a)
    ensures Inv(ReclaimApply(s, a))
  {
    var m := s.memory[a.pid];
    SaveKeeps(s, a.pid, WithoutEntry(m, a.run), true);
    EntryDropped(s, m, a.run);
    VersionsSaved(s, s, a.pid, WithoutEntry(m, a.run), true);
  }

  // --------------------------------------------------------- process steps

  lemma BootKeeps(s: State, a: WorldStep)
    requires Inv(s) && a.Boot? && WorldEnabled(s, a)
    ensures Inv(WorldApply(s, a))
  {
    StartKeeps(s, a.pid, a.host);
    VersionCarried(s, WorldApply(s, a), s.disk);
    VersionsKept(s, WorldApply(s, a), s.disk);
  }

  lemma CrashKeeps(s: State, a: WorldStep)
    requires Inv(s) && a.Crash? && WorldEnabled(s, a)
    ensures Inv(WorldApply(s, a))
  {
    KillKeeps(s, a.pid);
    VersionCarried(s, WorldApply(s, a), s.disk);
    VersionsKept(s, WorldApply(s, a), s.disk);
  }

  lemma CreateLockKeeps(s: State, a: WorldStep)
    requires Inv(s) && a.CreateLock? && WorldEnabled(s, a)
    ensures Inv(WorldApply(s, a))
  {
    AddJobKeeps(s, a.run, Job(a.pid, s.alive[a.pid], a.inode, Created, false, false, false));
    VersionsQuiet(s, WorldApply(s, a));
  }

  lemma OutsideUnlinkKeeps(s: State, a: WorldStep)
    requires Inv(s) && a.OutsideUnlink? && WorldEnabled(s, a)
    ensures Inv(WorldApply(s, a))
  {
    UnlinkKeeps(s, a.run, true);
    VersionsQuiet(s, WorldApply(s, a));
  }

  lemma WorldStepKeeps(s: State, a: WorldStep)
    requires Inv(s) && WorldEnabled(s, a)
    ensures Inv(WorldApply(s, a))
  {
    match a {
      case Boot(_, _) => BootKeeps(s, a);
      case Crash(_) => CrashKeeps(s, a);
      case CreateLock(_, _, _) => CreateLockKeeps(s, a);
      case OutsideUnlink(_) => OutsideUnlinkKeeps(s, a);
    }
  }

  lemma JobStepKeeps(s: State, a: JobStep)
    requires Inv(s) && JobEnabled(s, a)
    ensures Inv(JobApply(s, a))
  {
    match a {
      case TakeLock(_) => AdvanceKeeps(s, a);
      case Begin(_, _) => BeginKeeps(s, a);
      case ClaimDir(_, _, _) => ClaimDirKeeps(s, a);
      case Finish(_, _) => FinishKeeps(s, a);
      case DropEntry(_, _) => DropEntryKeeps(s, a);
      case UnlinkLock(_, _) => UnlinkLockKeeps(s, a);
      case CloseLock(_) => AdvanceKeeps(s, a);
      case EndBare(_) => EndBareKeeps(s, a);
    }
  }

  lemma ReclaimStepKeeps(s: State, a: ReclaimStep)
    requires Inv(s) && ReclaimEnabled(s, a)
    ensures Inv(ReclaimApply(s, a))
  {
    match a {
      case OpenLock(_, _) => OpenLockKeeps(s, a);
      case TryFlock(_) => TryFlockKeeps(s, a);
      case CheckPath(_) => CheckPathKeeps(s, a);
      case RemoveDir(_, _) => RemoveDirKeeps(s, a);
      case GiveUp(_) => CloseKeeps(s, a);
      case DropReclaimed(_) => DropReclaimedKeeps(s, a);
      case UnlinkReclaimed(_, _) => UnlinkReclaimedKeeps(s, a);
      case CloseReclaimed(_) => CloseKeeps(s, a);
      case DropMissing(_, _) => DropMissingKeeps(s, a);
    }
  }

  /** Every step of every process keeps the invariant. */
  lemma StepKeeps(s: State, a: Action)
    requires Inv(s) && Enabled(s, a)
    ensures Inv(Apply(s, a))
  {
    match a {
      case ByWorld(w) => WorldStepKeeps(s, w);
      case ByJob(j) => JobStepKeeps(s, j);
      case ByReclaim(c) => ReclaimStepKeeps(s, c);
    }
  }

  // ---------------------------------------------------------------- runs

  /** Every step of a run is possible where it is taken. */
  predicate Legal(s: State, run: seq<Action>)
    decreases |run|
  {
    run == [] || (Enabled(s, run[0]) && Legal(Apply(s, run[0]), run[1..]))
  }

  function After(s: State, run: seq<Action>): State
    requires Legal(s, run)
    decreases |run|
  {
    if run == [] then s else After(Apply(s, run[0]), run[1..])
  }

  lemma {:induction false} RunKeeps(s: State, run: seq<Action>)
    requires Inv(s) && Legal(s, run)
    ensures Inv(After(s, run))
    decreases |run|
  {
    if run != [] {
      StepKeeps(s, run[0]);
      RunKeeps(Apply(s, run[0]), run[1..]);
    }
  }

  /** The directory a claim against the guard makes a job's own. */
  ghost function Breach(s: State, a: Action): set<Dir>
    requires Enabled(s, a)
  {
    if a.ByJob? && a.job.ClaimDir? && !Reusable(s, a.job.run, a.job.dir, Saves(s, a.job.run, a.job.journaled)) then {a.job.dir} else {}
  }

  /** Every directory a run claims against the guard. */
  ghost function Breaches(s: State, run: seq<Action>): set<Dir>
    requires Legal(s, run)
    decreases |run|
  {
    if run == [] then {} else Breach(s, run[0]) + Breaches(Apply(s, run[0]), run[1..])
  }

  /** Whom a step takes a directory from: every job at work that has it when a reclaim removes it. */
  ghost function Loss(s: State, a: Action): set<Claim>
    requires Enabled(s, a)
  {
    if a.ByReclaim? && a.reclaim.RemoveDir? && a.reclaim.removes
    then set c | c in s.claims && c.dir == s.reclaims[a.reclaim.pid].todo[0] && Works(s, c.run) else {}
  }

  ghost function Losses(s: State, run: seq<Action>): set<Claim>
    requires Legal(s, run)
    decreases |run|
  {
    if run == [] then {} else Loss(s, run[0]) + Losses(Apply(s, run[0]), run[1..])
  }

  lemma ReclaimSpoilsNothing(s: State, a: ReclaimStep)
    requires ReclaimEnabled(s, a)
    ensures ReclaimApply(s, a).spoiled == s.spoiled
  {
  }

  lemma JobSpoilsNothing(s: State, a: JobStep)
    requires JobEnabled(s, a) && !a.ClaimDir?
    ensures JobApply(s, a).spoiled == s.spoiled
  {
  }

  /** Only a claim against the guard spoils a directory. */
  lemma OnlyBreachesSpoil(s: State, a: Action)
    requires Enabled(s, a)
    ensures Apply(s, a).spoiled <= s.spoiled + Breach(s, a)
  {
    match a {
      case ByWorld(_) =>
      case ByJob(j) =>
        if !j.ClaimDir? {
          JobSpoilsNothing(s, j);
        }
      case ByReclaim(c) => ReclaimSpoilsNothing(s, c);
    }
  }

  /** What a reclaim removes, no job at work has, unless it is spoiled. */
  lemma OnlySpoiledIsLost(s: State, a: Action)
    requires Inv(s) && Enabled(s, a)
    ensures forall c <- Loss(s, a) :: c.dir in s.spoiled
  {
    if a.ByReclaim? && a.reclaim.RemoveDir? {
      var p := a.reclaim.pid;
      assert ReclaimInv(s, p);
      assert Owns(s, s.reclaims[p].run, s.reclaims[p].todo[0]);
    }
  }

  lemma {:induction false} LossesAreBreaches(s: State, run: seq<Action>)
    requires Inv(s) && Legal(s, run)
    ensures forall c <- Losses(s, run) :: c.dir in s.spoiled + Breaches(s, run)
    decreases |run|
  {
    if run != [] {
      OnlySpoiledIsLost(s, run[0]);
      OnlyBreachesSpoil(s, run[0]);
      StepKeeps(s, run[0]);
      LossesAreBreaches(Apply(s, run[0]), run[1..]);
    }
  }

  lemma SoundIsSafe(s: State)
    requires Inv(s)
    ensures forall p <- s.reclaims | ReclaimLocks(s, p) :: !Works(s, s.reclaims[p].run)
    ensures forall r :: s.disk.records[r] <= 1
    ensures forall p, r | p in s.memory :: s.memory[p].records[r] <= 1
  {
    forall p, r | p in s.memory
      ensures s.memory[p].records[r] <= 1
    {
      assert VersionInv(s, s.memory[p]);
    }
    forall p <- s.reclaims | ReclaimLocks(s, p)
      ensures !Works(s, s.reclaims[p].run)
    {
      assert ReclaimInv(s, p);
    }
  }

  /**
    Safety over every run of every number of processes, crashes included: no job at work,
    journaled or not, ever has a directory it made its own removed from under it, whoever
    claimed it since, except one that some claim of the run took against the guard;
    whoever is past the flock of a run's file is alone and the run is not at work; and no
    version of the history, in memory or on disk, holds a run twice.
   */
  lemma EveryRunIsSafe(run: seq<Action>)
    requires Legal(INIT, run)
    ensures forall c <- Losses(INIT, run) :: c.dir in Breaches(INIT, run)
    ensures Breaches(INIT, run) == {} ==> Losses(INIT, run) == {}
    ensures var s := After(INIT, run);
            && (forall p <- s.reclaims | ReclaimLocks(s, p) :: !Works(s, s.reclaims[p].run))
            && (forall p, p' | ReclaimLocks(s, p) && ReclaimLocks(s, p') && p != p' :: s.reclaims[p].run != s.reclaims[p'].run)
            && (forall r :: s.disk.records[r] <= 1)
            && (forall p, r | p in s.memory :: s.memory[p].records[r] <= 1)
  {
    LossesAreBreaches(INIT, run);
    RunKeeps(INIT, run);
    SoundIsSafe(After(INIT, run));
  }

  // -------------------------------------------------------------- progress

  /** On its own kernel a lock is free exactly when the owner is gone and no reclaim holds it. */
  lemma OwnKernelLockTellsTheTruth(s: State, run: RunId)
    requires Inv(s) && run in s.jobs
    ensures LockFree(s, s.jobs[run].host, s.jobs[run].inode) <==>
            !OwnerLocks(s, run) && forall p | ReclaimLocks(s, p) :: s.reclaims[p].run != run
  {
    forall p | ReclaimLocks(s, p)
      ensures s.reclaims[p].run == run <==> s.alive[p] == s.jobs[run].host && s.reclaims[p].inode == s.jobs[run].inode
    {
      assert ReclaimInv(s, p);
    }
  }

  /** On any other kernel it is free whatever the owner is doing: only the host in the entry keeps a reclaim away. */
  lemma ForeignLockIsAlwaysFree(s: State, run: RunId, host: Host)
    requires Inv(s) && run in s.jobs && host != s.jobs[run].host
    ensures LockFree(s, host, s.jobs[run].inode)
  {
    forall p <- s.reclaims | ReclaimLocks(s, p)
      ensures s.alive[p] != host || s.reclaims[p].inode != s.jobs[run].inode
    {
      assert ReclaimInv(s, p);
    }
  }

  /** A process finds an entry of its own kernel whose owner is gone and that nobody else has locked. */
  ghost predicate Abandoned(s: State, pid: Pid, run: RunId) {
    && pid in s.alive && pid in s.memory && pid !in s.reclaims && run in s.memory[pid].jobs && run in s.paths
    && s.memory[pid].jobs[run].host == s.alive[pid]
    && !OwnerLocks(s, run) && forall p | ReclaimLocks(s, p) :: s.reclaims[p].run != run
  }

  lemma AbandonedLockIsFree(s: State, pid: Pid, run: RunId)
    requires Inv(s) && Abandoned(s, pid, run)
    ensures LockFree(s, s.alive[pid], s.paths[run])
  {
    assert EntryInv(s, run, s.memory[pid].jobs[run]);
    OwnKernelLockTellsTheTruth(s, run);
  }

  /** An entry is marked recorded exactly when its run is on record, once. */
  predicate MarkTellsTheRecord(h: History, run: RunId) {
    run in h.jobs && h.records[run] == if h.jobs[run].recorded then 1 else 0
  }

  lemma MarkIsRight(s: State, pid: Pid, run: RunId)
    requires VersionsInv(s) && pid in s.memory && run in s.memory[pid].jobs
    ensures MarkTellsTheRecord(s.memory[pid], run)
  {
    assert VersionInv(s, s.memory[pid]);
    assert run in s.memory[pid].records ==> RecordInv(s, s.memory[pid], run);
  }

  lemma StepThen(s: State, a: Action, rest: seq<Action>)
    requires Enabled(s, a) && Legal(Apply(s, a), rest)
    ensures Legal(s, [a] + rest) && After(s, [a] + rest) == After(Apply(s, a), rest)
  {
    assert ([a] + rest)[1..] == rest;
  }

  function Sweep(pid: Pid, todo: seq<Dir>): seq<Action> {
    if todo == [] then [ByReclaim(DropReclaimed(pid))] + [] else [ByReclaim(RemoveDir(pid, true))] + Sweep(pid, todo[1..])
  }

  /** The whole reclaim of one entry. */
  function WholeReclaim(pid: Pid, run: RunId, dirs: seq<Dir>): seq<Action> {
    [ByReclaim(OpenLock(pid, run))] + ([ByReclaim(TryFlock(pid))] + ([ByReclaim(CheckPath(pid))] + Sweep(pid, dirs)))
  }

  ghost predicate Cleared(s: State, s': State, run: RunId, todo: seq<Dir>) {
    && (forall d <- todo :: d in s'.removed && s'.removed[d] == run)
    && (forall d <- s.removed :: d in s'.removed && (s'.removed[d] == s.removed[d] || s'.removed[d] == run))
    && run !in s'.disk.jobs && s'.disk.records[run] == 1
    && s'.alive == s.alive && s'.jobs == s.jobs && s'.claims == s.claims
  }

  lemma {:induction false} SweepClears(s: State, pid: Pid)
    requires ReclaimLocks(s, pid) && pid in s.memory && s.reclaims[pid].Taken?
    requires MarkTellsTheRecord(s.memory[pid], s.reclaims[pid].run)
    ensures Legal(s, Sweep(pid, s.reclaims[pid].todo))
    ensures Cleared(s, After(s, Sweep(pid, s.reclaims[pid].todo)), s.reclaims[pid].run, s.reclaims[pid].todo)
    decreases |s.reclaims[pid].todo|
  {
    var c := s.reclaims[pid];
    if c.todo == [] {
      StepThen(s, ByReclaim(DropReclaimed(pid)), []);
    } else {
      SweepClears(ReclaimApply(s, RemoveDir(pid, true)), pid);
      StepThen(s, ByReclaim(RemoveDir(pid, true)), Sweep(pid, c.todo[1..]));
    }
  }

  /** A free lock and a matching path are enough: the whole reclaim goes through. */
  lemma ReclaimGoesThrough(s: State, pid: Pid, run: RunId)
    requires ReclaimEnabled(s, OpenLock(pid, run)) && LockFree(s, s.alive[pid], s.paths[run])
    requires MarkTellsTheRecord(s.memory[pid], run)
    ensures var dirs := s.memory[pid].jobs[run].dirs;
            && Legal(s, WholeReclaim(pid, run, dirs))
            && Cleared(s, After(s, WholeReclaim(pid, run, dirs)), run, dirs)
  {
    var dirs, inode := s.memory[pid].jobs[run].dirs, s.paths[run];
    var s1 := SetReclaim(s, pid, Opened(run, inode));
    var s2 := SetReclaim(s1, pid, Acquired(run, inode));
    var s3 := SetReclaim(s2, pid, Taken(run, inode, dirs));
    assert LockFree(s1, s.alive[pid], inode);
    SweepClears(s3, pid);
    StepThen(s2, ByReclaim(CheckPath(pid)), Sweep(pid, dirs));
    StepThen(s1, ByReclaim(TryFlock(pid)), [ByReclaim(CheckPath(pid))] + Sweep(pid, dirs));
    StepThen(s, ByReclaim(OpenLock(pid, run)), [ByReclaim(TryFlock(pid))] + ([ByReclaim(CheckPath(pid))] + Sweep(pid, dirs)));
  }

  /** Every directory an abandoned entry lists goes, then the entry, and the run ends up on record exactly once. */
  lemma AbandonedIsCleared(s: State, pid: Pid, run: RunId)
    requires Inv(s) && Abandoned(s, pid, run)
    ensures var dirs := s.memory[pid].jobs[run].dirs;
            && Legal(s, WholeReclaim(pid, run, dirs))
            && Cleared(s, After(s, WholeReclaim(pid, run, dirs)), run, dirs)
  {
    AbandonedLockIsFree(s, pid, run);
    MarkIsRight(s, pid, run);
    ReclaimGoesThrough(s, pid, run);
  }
}
