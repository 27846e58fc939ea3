/**
  What the schedule starts after one of its jobs ends: a full read in place of a failed
  update, an update in place of a failed full read, or a full read for tables the update
  left out. And how such full reads are rationed.
 */
module StandIns {

  import opened Prelude

  /** A stamp in the history keeps whole seconds. */
  function Stamp(t: Instant): Instant {
    t / SECOND * SECOND
  }

  lemma StampIsTheSecond(t: Instant)
    ensures Stamp(t) % SECOND == 0 && Stamp(t) <= t < Stamp(t) + SECOND
  {
  }

  datatype Method = ByUpdate | ByFullRead

  /** Why a full read was chosen (`BackupWhyCode`). `WindowAge` says whether it was because nothing had been indexed. */
  datatype Why = FirstBackup | WindowMeasured | WindowAge(nothingIndexed: bool) | FoldRefused | NewTables | Timetable | Always

  /** A job the schedule started (`scheduledStart`). */
  datatype Start = Start(run: Method, fallback: bool, fullCopy: bool, standsInForFull: bool, why: Why)

  /** How it ended. `promised`: the planner promised a full read for tables the update left out. */
  datatype Ending = Ending(succeeded: bool, published: bool, diskRefused: bool, foreignSource: bool, promised: bool)

  /** What the world answers when a stand-in is considered. */
  datatype World = World(
    sameSchedule: bool, observed: bool, capHeld: bool, fullPossible: bool, rebuildPossible: bool, cannotCure: bool, triggers: bool)

  predicate FullReadStandsIn(last: Ending) {
    !last.succeeded && !last.published && !last.diskRefused
  }

  predicate UpdateStandsIn(own: Start, last: Ending) {
    && own.run.ByFullRead? && !own.fallback && !own.fullCopy
    && (own.why.WindowMeasured? || (own.why.WindowAge? && !own.why.nothingIndexed))
    && !last.succeeded && !last.published && !last.diskRefused && !last.foreignSource
  }

  /** `fallBack`. */
  function FallBack(w: World): Option<Start> {
    if w.sameSchedule && !w.capHeld && w.fullPossible && w.observed && w.triggers
    then Some(Start(ByFullRead, true, false, false, FoldRefused)) else None
  }

  /** `updateInstead`. */
  function UpdateInstead(w: World): Option<Start> {
    if w.sameSchedule && w.rebuildPossible && w.observed && w.triggers
    then Some(Start(ByUpdate, false, false, true, Always)) else None
  }

  /** `includeNewTables`. */
  function IncludeNewTables(last: Ending, w: World): Option<Start> {
    if last.promised && w.sameSchedule && w.observed && w.triggers
    then Some(Start(ByFullRead, false, false, false, NewTables)) else None
  }

  /** `watchScheduled`, once the job is terminal: the job it starts next, if any. */
  function Follow(own: Start, last: Ending, w: World): Option<Start> {
    match own.run
    case ByUpdate =>
      if !last.succeeded && last.foreignSource then None
      else if own.standsInForFull then None
      else if FullReadStandsIn(last) then (if w.cannotCure then None else FallBack(w))
      else if last.succeeded then IncludeNewTables(last, w)
      else None
    case ByFullRead =>
      if UpdateStandsIn(own, last) then UpdateInstead(w) else None
  }

  /** How many more jobs this one can still lead to. */
  function Rank(own: Start): nat {
    match own.run
    case ByUpdate => if own.standsInForFull then 0 else 1
    case ByFullRead => if !own.fallback && !own.fullCopy && (own.why.WindowMeasured? || (own.why.WindowAge? && !own.why.nothingIndexed)) then 1 else 0
  }

  /** A stand-in is the other kind of job, follows only a job that left no snapshot or whose update was promised more, and leads nowhere. */
  lemma StandInLeadsNowhere(own: Start, last: Ending, w: World)
    ensures var next := Follow(own, last, w);
            next.Some? ==>
              && Rank(next.value) < Rank(own) && next.value.run != own.run && !next.value.fullCopy && w.triggers && w.sameSchedule && w.observed
              && (last.succeeded || (!last.published && !last.diskRefused && !last.foreignSource))
  {
  }

  /** A job that ended without a snapshot, where the other kind could still make one. */
  predicate LeftNothing(last: Ending) {
    !last.succeeded && !last.published && !last.diskRefused && !last.foreignSource
  }

  /** The cut-over took the full read over an update that was possible, for its cost or for the age of what it builds on. */
  predicate ChosenOverAnUpdate(own: Start) {
    !own.fallback && !own.fullCopy && (own.why == WindowMeasured || own.why == WindowAge(false))
  }

  /**
    What follows each kind of job, and nothing else does: a full read an update of its own
    that left nothing, unless it is stopped, capped or refused; an update a full read the
    cut-over chose that left nothing; a full read an update that went through and was
    promised more. Each only while the schedule stands, is observed, and the job starts.
   */
  lemma StandInsExactly(own: Start, last: Ending, w: World)
    ensures var next, open := Follow(own, last, w), w.sameSchedule && w.observed && w.triggers;
            && (own.run.ByUpdate? && !own.standsInForFull && LeftNothing(last) ==>
                  next == if open && !w.cannotCure && !w.capHeld && w.fullPossible then Some(Start(ByFullRead, true, false, false, FoldRefused)) else None)
            && (own.run.ByUpdate? && !own.standsInForFull && last.succeeded ==>
                  next == if open && last.promised then Some(Start(ByFullRead, false, false, false, NewTables)) else None)
            && (own.run.ByFullRead? && ChosenOverAnUpdate(own) && LeftNothing(last) ==>
                  next == if open && w.rebuildPossible then Some(Start(ByUpdate, false, false, true, Always)) else None)
            && (own.run.ByUpdate? && (own.standsInForFull || !(LeftNothing(last) || last.succeeded)) ==> next.None?)
            && (own.run.ByFullRead? && !(ChosenOverAnUpdate(own) && LeftNothing(last)) ==> next.None?)
  {
  }

  /** Every job one slot leads to, given how each ended and what the world answered. */
  function Jobs(own: Start, answers: seq<(Ending, World)>): seq<Start>
    decreases |answers|
  {
    if answers == [] then [own]
    else
      var next := Follow(own, answers[0].0, answers[0].1);
      if next.None? then [own] else [own] + Jobs(next.value, answers[1..])
  }

  lemma {:induction false} JobsAreBoundedByRank(own: Start, answers: seq<(Ending, World)>)
    ensures 1 <= |Jobs(own, answers)| <= 1 + Rank(own)
    decreases |answers|
  {
    if answers != [] {
      var next := Follow(own, answers[0].0, answers[0].1);
      StandInLeadsNowhere(own, answers[0].0, answers[0].1);
      if next.Some? {
        JobsAreBoundedByRank(next.value, answers[1..]);
      }
    }
  }

  /** One slot starts its own job and at most one more, of the other kind. */
  lemma OneSlotAtMostTwoJobs(own: Start, answers: seq<(Ending, World)>)
    ensures var jobs := Jobs(own, answers);
            1 <= |jobs| <= 2 && jobs[0] == own && (|jobs| == 2 ==> jobs[1].run != jobs[0].run)
  {
    JobsAreBoundedByRank(own, answers);
    if answers != [] {
      StandInLeadsNowhere(own, answers[0].0, answers[0].1);
      var next := Follow(own, answers[0].0, answers[0].1);
      if next.Some? {
        JobsAreBoundedByRank(next.value, answers[1..]);
      }
    }
  }

  // ------------------------------------------------- refusals a read cannot cure

  datatype Verdict = RefusedDDL | RefusedGap | RefusedRenumbered | RefusedOther

  datatype RefusedTable = RefusedTable(name: string, verdict: Verdict, reason: string)

  /** A renumbering refusal names positions that move on every run, so its words do not count. */
  function KeyOf(t: RefusedTable): RefusedTable {
    if t.verdict.RefusedRenumbered? then t.(reason := "") else t
  }

  /** Two refusals are the same one. */
  predicate SameRefusal(a: RefusedTable, b: RefusedTable) {
    a.name == b.name && a.verdict == b.verdict && (a.verdict.RefusedRenumbered? || a.reason == b.reason)
  }

  predicate CuredByARead(t: RefusedTable) {
    t.verdict.RefusedDDL? || t.verdict.RefusedGap?
  }

  /** Refused before for the same reason, one a full read does not move past. */
  ghost predicate Incurable(prev: seq<RefusedTable>, t: RefusedTable) {
    !CuredByARead(t) && exists p <- prev :: SameRefusal(p, t)
  }

  /** Something was refused, neither list was cut short, and every table refused now is incurable. */
  ghost predicate AllIncurable(prev: seq<RefusedTable>, prevOmitted: nat, cur: seq<RefusedTable>, curOmitted: nat) {
    cur != [] && prevOmitted == 0 && curOmitted == 0 && forall i | 0 <= i < |cur| :: Incurable(prev, cur[i])
  }

  /** A table refused for something new, or for what a full read moves past: a schema change or a capture gap, or words no table of that name was refused with before, unless both are renumberings. */
  ghost predicate CallsForARead(prev: seq<RefusedTable>, t: RefusedTable) {
    || t.verdict == RefusedDDL || t.verdict == RefusedGap
    || forall p <- prev :: p.name != t.name || p.verdict != t.verdict || (t.verdict == RefusedOther && p.reason != t.reason)
  }

  /** Whole lists are the same incurable refusal exactly when something was refused and nothing in it calls for a read. */
  lemma IncurableMeansNothingNew(prev: seq<RefusedTable>, cur: seq<RefusedTable>)
    ensures AllIncurable(prev, 0, cur, 0) <==> cur != [] && forall t <- cur :: !CallsForARead(prev, t)
  {
    forall t <- cur
      ensures Incurable(prev, t) <==> !CallsForARead(prev, t)
    {
      if !CallsForARead(prev, t) {
        var p :| p in prev && !(p.name != t.name || p.verdict != t.verdict || (t.verdict == RefusedOther && p.reason != t.reason));
        assert SameRefusal(p, t);
      }
    }
    if forall t <- cur :: !CallsForARead(prev, t) {
      assert forall i | 0 <= i < |cur| :: cur[i] in cur;
    }
  }

  /** `sameIncurableRefusal`. */
  method SameIncurableRefusal(prev: seq<RefusedTable>, prevOmitted: nat, cur: seq<RefusedTable>, curOmitted: nat) returns (same: bool)
    ensures same <==> AllIncurable(prev, prevOmitted, cur, curOmitted)
  {
    if |cur| == 0 || prevOmitted > 0 || curOmitted > 0 {
      return false;
    }
    var before := {};
    for i := 0 to |prev|
      invariant forall k :: k in before <==> exists j | 0 <= j < i :: KeyOf(prev[j]) == k
    {
      before := before + {KeyOf(prev[i])};
    }
    for i := 0 to |cur|
      invariant forall j | 0 <= j < i :: Incurable(prev, cur[j])
    {
      var t := cur[i];
      if t.verdict.RefusedDDL? || t.verdict.RefusedGap? {
        assert !Incurable(prev, cur[i]);
        return false;
      }
      if KeyOf(t) !in before {
        assert !Incurable(prev, cur[i]);
        return false;
      }
      var j :| 0 <= j < |prev| && KeyOf(prev[j]) == KeyOf(t);
      assert SameRefusal(prev[j], t);
    }
    return true;
  }

  const RETRY_EVERY: Duration := 24 * HOUR

  /** The last full read taken in place of an update (`scheduledFallback`). */
  datatype Fallback = Fallback(at: Instant, readOk: bool, refused: seq<RefusedTable>, omitted: nat, stoppedAt: Option<Instant>)

  /**
    A slot whose update was refused: for which tables, at what instant, and what becomes of
    a full read in its place, if one is taken: when, whether it starts, and whether it is
    noted as gone through before the next refusal.
   */
  datatype Refusal = Refusal(at: Instant, tables: seq<RefusedTable>, omitted: nat, readAt: Instant, starts: bool, goesThrough: bool)

  class Stops {
    var last: Option<Fallback>

    constructor ()
      ensures last.None?
    {
      last := None;
    }

    /** A stop, once begun, lasts until a day after the stamp it began with. */
    ghost predicate StopsAt(now: Instant, refused: seq<RefusedTable>, omitted: nat)
      reads this
    {
      && last.Some? && last.value.readOk && AllIncurable(last.value.refused, last.value.omitted, refused, omitted)
      && (last.value.stoppedAt.Some? ==> now - last.value.stoppedAt.value < RETRY_EVERY)
    }

    /** `fullReadCannotCure`: the beginning of a stop is kept while it lasts, the tables move on. */
    method CannotCure(now: Instant, refused: seq<RefusedTable>, omitted: nat) returns (stop: bool)
      modifies this
      ensures stop <==> old(StopsAt(now, refused, omitted))
      ensures !stop ==> last == old(last)
      ensures stop ==>
                last == Some(Fallback(old(last).value.at, true, refused, omitted,
                                      if old(last).value.stoppedAt.Some? then old(last).value.stoppedAt else Some(Stamp(now))))
    {
      if last.None? || !last.value.readOk {
        return false;
      }
      var same := SameIncurableRefusal(last.value.refused, last.value.omitted, refused, omitted);
      if !same {
        return false;
      }
      if last.value.stoppedAt.Some? && now - last.value.stoppedAt.value >= RETRY_EVERY {
        return false;
      }
      var at := if last.value.stoppedAt.None? then Some(Stamp(now)) else last.value.stoppedAt;
      last := Some(last.value.(refused := refused, omitted := omitted, stoppedAt := at));
      return true;
    }

    /** The end of `fallBack`: a read that starts is the last one taken, with what was refused. */
    method TakeRead(r: Refusal) returns (taken: bool)
      modifies this
      ensures taken == r.starts
      ensures last == if taken then Some(Fallback(Stamp(r.readAt), false, r.tables, r.omitted, None)) else old(last)
    {
      if r.starts {
        last := Some(Fallback(Stamp(r.readAt), false, r.tables, r.omitted, None));
      }
      return r.starts;
    }

    /** `noteFallbackReadOK`: only the read the record is about counts. */
    method NoteReadOk(stamp: Instant)
      modifies this
      ensures last == if old(last).Some? && old(last).value.at == stamp then Some(old(last).value.(readOk := true)) else old(last)
    {
      if last.Some? && last.value.at == stamp {
        last := Some(last.value.(readOk := true));
      }
    }

    /** What a refused update leads to: nothing while reads are stopped, else a read if one may start. */
    method Refused(r: Refusal) returns (stopped: bool, read: bool)
      modifies this
      ensures stopped <==> old(StopsAt(r.at, r.tables, r.omitted))
      ensures read <==> !stopped && r.starts
      ensures last ==
              if read then Some(Fallback(Stamp(r.readAt), r.goesThrough, r.tables, r.omitted, None))
              else if stopped then Some(old(last).value.(refused := r.tables, omitted := r.omitted,
                                                         stoppedAt := if old(last).value.stoppedAt.Some? then old(last).value.stoppedAt else Some(Stamp(r.at))))
              else old(last)
    {
      stopped := CannotCure(r.at, r.tables, r.omitted);
      read := false;
      if !stopped {
        read := TakeRead(r);
        if read && r.goesThrough {
          NoteReadOk(Stamp(r.readAt));
        }
      }
    }
  }

  // ------------------------------------------------ refused at slot after slot

  /** Each slot is refused for nothing but what every slot before it was refused for, and nothing a read moves past. */
  ghost predicate SameAllAlong(slots: seq<Refusal>) {
    forall i, k | 0 <= i < k < |slots| :: AllIncurable(slots[i].tables, slots[i].omitted, slots[k].tables, slots[k].omitted)
  }

  /** The last read before this slot was taken at slot `i`. */
  ghost predicate LastBefore(read: seq<bool>, i: nat, k: nat)
    requires k <= |read|
  {
    i < k && read[i] && forall j | i < j < k :: !read[j]
  }

  /** It went through, and the stop that began at the next slot has lasted less than a day. */
  predicate StillStopped(slots: seq<Refusal>, i: nat, k: nat)
    requires i < k < |slots|
  {
    slots[i].goesThrough && (k == i + 1 || slots[k].at - Stamp(slots[i + 1].at) < RETRY_EVERY)
  }

  /** Reads stop at a slot exactly while the last one's stop lasts, and are taken at every other slot where one may start. */
  ghost predicate StopsAndReads(slots: seq<Refusal>, stopped: seq<bool>, read: seq<bool>) {
    && |stopped| == |read| <= |slots|
    && (forall k | 0 <= k < |read| :: stopped[k] <==> exists i | 0 <= i < k :: LastBefore(read, i, k) && StillStopped(slots, i, k))
    && (forall k | 0 <= k < |read| :: read[k] <==> !stopped[k] && slots[k].starts)
  }

  /** What the record says after the first `n` slots, the last read being the one at slot `i` and the tables those of slot `m`. */
  ghost predicate Recorded(slots: seq<Refusal>, n: nat, i: nat, m: nat, last: Option<Fallback>)
    requires i <= m < n <= |slots|
  {
    last == Some(Fallback(Stamp(slots[i].readAt), slots[i].goesThrough, slots[m].tables, slots[m].omitted,
                          if slots[i].goesThrough && i + 1 < n then Some(Stamp(slots[i + 1].at)) else None))
  }

  lemma OneMoreSlot(slots: seq<Refusal>, stopped: seq<bool>, read: seq<bool>, stop: bool, taken: bool)
    requires StopsAndReads(slots, stopped, read) && |read| < |slots|
    requires var k := |read|; (stop <==> exists i | 0 <= i < k :: LastBefore(read, i, k) && StillStopped(slots, i, k)) && (taken <==> !stop && slots[k].starts)
    ensures StopsAndReads(slots, stopped + [stop], read + [taken])
  {
    var stopped', read' := stopped + [stop], read + [taken];
    assert forall j | 0 <= j < |read| :: read'[j] == read[j] && stopped'[j] == stopped[j];
    forall k | 0 <= k < |read'|
      ensures stopped'[k] <==> exists i | 0 <= i < k :: LastBefore(read', i, k) && StillStopped(slots, i, k)
    {
      forall i | 0 <= i < k
        ensures LastBefore(read', i, k) <==> LastBefore(read, i, k)
      {
        if LastBefore(read', i, k) {
          assert forall j | i < j < k :: !read'[j];
          assert LastBefore(read, i, k);
        }
      }
      assert k < |read| ==> (stopped[k] <==> exists i | 0 <= i < k :: LastBefore(read, i, k) && StillStopped(slots, i, k));
    }
  }

  lemma OneLast(read: seq<bool>, i: nat, i': nat, k: nat)
    requires k <= |read| && LastBefore(read, i, k) && LastBefore(read, i', k)
    ensures i == i'
  {
  }

  /** The loop itself, slot after slot. */
  method RefusedAgainAndAgain(slots: seq<Refusal>) returns (stopped: seq<bool>, read: seq<bool>)
    requires SameAllAlong(slots)
    ensures |read| == |slots| && StopsAndReads(slots, stopped, read)
  {
    var b := new Stops();
    stopped, read := [], [];
    ghost var i: Option<nat>, m: nat := None, 0;
    for k := 0 to |slots|
      invariant fresh(b) && |read| == k && StopsAndReads(slots, stopped, read)
      invariant i.None? ==> b.last.None? && forall j | 0 <= j < k :: !read[j]
      invariant i.Some? ==> i.value <= m < k && LastBefore(read, i.value, k) && Recorded(slots, k, i.value, m, b.last)
    {
      if i.Some? {
        assert AllIncurable(slots[m].tables, slots[m].omitted, slots[k].tables, slots[k].omitted);
      }
      var stop, taken := b.Refused(slots[k]);
      if i.Some? {
        assert stop <==> StillStopped(slots, i.value, k);
        if j :| 0 <= j < k && LastBefore(read, j, k) && StillStopped(slots, j, k) {
          OneLast(read, i.value, j, k);
        }
      }
      OneMoreSlot(slots, stopped, read, stop, taken);
      stopped, read := stopped + [stop], read + [taken];
      if taken {
        i, m := Some(k), k;
      } else if stop {
        m := k;
      }
    }
  }

  /** The slots are in order, each read after its refusal and before the next. */
  ghost predicate InOrder(slots: seq<Refusal>) {
    && (forall k | 0 <= k < |slots| :: slots[k].at <= slots[k].readAt)
    && (forall j, k | 0 <= j < k < |slots| :: slots[j].readAt <= slots[k].at)
  }

  /** After a read that went through the next one, whatever becomes of it, is a day away, to the second. */
  lemma {:induction false} OneReadADay(slots: seq<Refusal>, stopped: seq<bool>, read: seq<bool>, i: nat, j: nat)
    requires StopsAndReads(slots, stopped, read) && InOrder(slots)
    requires i < j < |read| && read[i] && slots[i].goesThrough && read[j]
    ensures slots[j].readAt - slots[i].readAt > RETRY_EVERY - SECOND
    decreases j
  {
    if k :| i < k < j && read[k] {
      OneReadADay(slots, stopped, read, i, k);
    } else {
      assert LastBefore(read, i, j) && !stopped[j];
      assert !StillStopped(slots, i, j);
      assert Stamp(slots[i + 1].at) > slots[i + 1].at - SECOND;
    }
  }

  /** And no further: the first slot a day after the stop began takes one, if one may start. */
  lemma ADayLaterOneIsTaken(slots: seq<Refusal>, stopped: seq<bool>, read: seq<bool>, i: nat, k: nat)
    requires StopsAndReads(slots, stopped, read) && k < |read| && LastBefore(read, i, k)
    requires i + 1 < k && slots[k].at - Stamp(slots[i + 1].at) >= RETRY_EVERY
    ensures read[k] == slots[k].starts
  {
    if stopped[k] {
      var j :| 0 <= j < k && LastBefore(read, j, k) && StillStopped(slots, j, k);
      OneLast(read, i, j, k);
    }
  }

  // ------------------------------------------------------------ emergency reads

  const CAP: Duration := 24 * HOUR
  const SLACK: Duration := HOUR
  const GAP: Duration := CAP - SLACK

  /** What the rationing depends on, in order. `noted`: the start reached the history. */
  datatype Entry = Read(at: Instant, noted: bool) | Restarted

  function LastRead(log: seq<Entry>): Option<Entry>
    ensures LastRead(log).Some? ==> LastRead(log).value.Read?
  {
    if log == [] then None else if log[|log| - 1].Read? then Some(log[|log| - 1]) else LastRead(log[..|log| - 1])
  }

  predicate RestartedSince(log: seq<Entry>) {
    log != [] && log[|log| - 1].Restarted?
  }

  /** Two emergency reads in a row are a gap apart; a restart in between costs at most a second of it, if the first was noted. */
  ghost predicate Rationed(log: seq<Entry>) {
    log == [] ||
    (Rationed(log[..|log| - 1]) &&
     (log[|log| - 1].Read? ==>
        var last := LastRead(log[..|log| - 1]);
        last.Some? ==>
          && (!RestartedSince(log[..|log| - 1]) ==> log[|log| - 1].at - last.value.at >= GAP)
          && (last.value.noted ==> log[|log| - 1].at - last.value.at > GAP - SECOND)))
  }

  class Emergency {
    var memory: Option<Instant>
    var noted: Option<Instant>
    var runs: seq<Instant>
    ghost var log: seq<Entry>

    ghost predicate Valid()
      reads this
    {
      && Rationed(log)
      && var last := LastRead(log);
         (last.Some? && !RestartedSince(log) ==> memory == Some(last.value.at)) &&
         (last.Some? && last.value.noted ==> noted == Some(Stamp(last.value.at)))
    }

    constructor ()
      ensures Valid() && log == []
    {
      memory, noted, runs := None, None, [];
      log := [];
    }

    /** Some emergency read known to this process or the history is less than the gap ago. */
    ghost predicate HeldAt(now: Instant)
      reads this
    {
      || (memory.Some? && now < memory.value + GAP) || (noted.Some? && now < noted.value + GAP)
      || exists t <- runs :: now < t + GAP
    }

    /** The newest emergency read this process or the history knows of. */
    method Newest() returns (last: Option<Instant>)
      ensures memory.Some? ==> last.Some? && last.value >= memory.value
      ensures noted.Some? ==> last.Some? && last.value >= noted.value
      ensures forall t <- runs :: last.Some? && last.value >= t
      ensures last.Some? ==> last == memory || last == noted || last.value in runs
    {
      last := memory;
      if noted.Some? && (last.None? || noted.value > last.value) {
        last := noted;
      }
      for i := 0 to |runs|
        invariant memory.Some? ==> last.Some? && last.value >= memory.value
        invariant noted.Some? ==> last.Some? && last.value >= noted.value
        invariant forall j | 0 <= j < i :: last.Some? && last.value >= runs[j]
        invariant last.Some? ==> last == memory || last == noted || last.value in runs
      {
        if last.None? || runs[i] > last.value {
          last := Some(runs[i]);
        }
      }
    }

    /** `fallBack`'s read, held back by `emergencyHeld`; started and noted as the world allows. */
    method TryRead(now: Instant, starts: bool, saves: bool) returns (started: bool)
      requires Valid()
      modifies this`memory, this`noted, this`log
      ensures Valid() && log == if started then old(log) + [Read(now, saves)] else old(log)
      ensures started <==> starts && !old(HeldAt(now))
    {
      var last := Newest();
      if last.Some? && now < last.value + GAP {
        return false;
      }
      if !starts {
        return false;
      }
      memory := Some(now);
      if saves {
        noted := Some(Stamp(now));
      }
      log := log + [Read(now, saves)];
      assert log[..|log| - 1] == old(log);
      return true;
    }

    /** A process that starts knows what the history knows. */
    method Restart()
      requires Valid()
      modifies this`memory, this`log
      ensures Valid() && log == old(log) + [Restarted] && memory.None?
    {
      memory := None;
      log := log + [Restarted];
      assert log[..|log| - 1] == old(log);
    }
  }
}
