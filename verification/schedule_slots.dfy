/**
  The backup schedule's clock: a fixed grid of slots, and a loop that fires a slot when a
  tick finds that the grid moved past the one it saw last. One server's view; servers do
  not share any of it.
 */
module ScheduleSlots {

  import opened Prelude

  // ------------------------------------------------------------------- grid

  /** Go's integer division and remainder, which truncate toward zero. */
  function Quo(a: int, b: int): int
    requires b > 0
  {
    if a >= 0 then a / b else -((-a) / b)
  }

  function Rem(a: int, b: int): int
    requires b > 0
  {
    a - Quo(a, b) * b
  }

  /** The correction that turns Go's quotient into the floor. */
  function FloorQuo(a: int, b: int): int
    requires b > 0
  {
    if a < 0 && Rem(a, b) != 0 then Quo(a, b) - 1 else Quo(a, b)
  }

  /** `gridSlotAtOrBefore`, with instants counted from the schedule's epoch. */
  function SlotAtOrBefore(at: Duration, every: Duration, now: Instant): Instant
    requires every > 0
  {
    at + FloorQuo(now - at, every) * every
  }

  /** A slot of the grid. */
  function Slot(at: Duration, every: Duration, k: int): Instant {
    at + k * every
  }

  lemma NextMultiple(k: int, n: int, every: int)
    requires every > 0 && k < n
    ensures k * every + every <= n * every
  {
    assert (n - k - 1) * every >= 0;
    assert (n - k - 1) * every == n * every - k * every - every;
  }

  lemma FloorIsUnique(e: int, every: int, k: int, n: int)
    requires every > 0 && k * every <= e < k * every + every && n * every <= e < n * every + every
    ensures k == n
  {
    if k < n {
      NextMultiple(k, n, every);
    } else if n < k {
      NextMultiple(n, k, every);
    }
  }

  /** Below zero as well as above it. */
  lemma FloorQuoIsTheFloor(a: int, b: int)
    requires b > 0
    ensures FloorQuo(a, b) * b <= a < FloorQuo(a, b) * b + b
  {
    if a >= 0 {
      assert (a / b) * b <= a < (a / b) * b + b;
    } else {
      var m := (-a) / b;
      assert m * b <= -a < m * b + b;
      assert (-m) * b == -(m * b) && (-m - 1) * b == -(m * b) - b;
    }
  }

  /** It is the one grid slot with `now` in its period. */
  lemma SlotIsTheFloor(at: Duration, every: Duration, now: Instant)
    requires every > 0
    ensures SlotAtOrBefore(at, every, now) <= now < SlotAtOrBefore(at, every, now) + every
    ensures forall k :: Slot(at, every, k) <= now < Slot(at, every, k) + every <==> k == FloorQuo(now - at, every)
  {
    var e, n := now - at, FloorQuo(now - at, every);
    FloorQuoIsTheFloor(e, every);
    forall k
      ensures Slot(at, every, k) <= now < Slot(at, every, k) + every <==> k == n
    {
      if Slot(at, every, k) <= now < Slot(at, every, k) + every {
        FloorIsUnique(e, every, k, n);
      }
    }
  }

  lemma FloorsAdvance(x: int, y: int, every: int, a: int, b: int)
    requires every > 0 && x <= y && a * every <= x < a * every + every && b * every <= y < b * every + every
    ensures a <= b && (y - x <= every ==> b <= a + 1) && (a * every < b * every <==> a < b)
  {
    if b < a {
      NextMultiple(b, a, every);
    } else if a < b {
      NextMultiple(a, b, every);
      if a + 1 < b {
        NextMultiple(a + 1, b, every);
        assert (a + 1) * every == a * every + every;
      }
    }
  }

  function SlotNumber(at: Duration, every: Duration, now: Instant): int
    requires every > 0
  {
    FloorQuo(now - at, every)
  }

  /** A later instant is in the same slot or a later one, and at most in the next when a period or less has passed. */
  lemma SlotsAdvance(at: Duration, every: Duration, t: Instant, u: Instant)
    requires every > 0 && t <= u
    ensures var a, b := SlotNumber(at, every, t), SlotNumber(at, every, u);
            && a <= b && (u - t <= every ==> b <= a + 1)
            && (SlotAtOrBefore(at, every, t) < SlotAtOrBefore(at, every, u) <==> a < b)
  {
    FloorQuoIsTheFloor(t - at, every);
    FloorQuoIsTheFloor(u - at, every);
    FloorsAdvance(t - at, u - at, every, SlotNumber(at, every, t), SlotNumber(at, every, u));
  }

  // ------------------------------------------------------------------ slots

  /** A schedule: `fullEvery` is zero when it has no full-copy timetable. */
  datatype Schedule = Schedule(identity: nat, at: Duration, every: Duration, fullEvery: Duration)

  predicate Parses(s: Schedule) {
    s.every > 0 && s.fullEvery >= 0
  }

  datatype Seen = Seen(identity: nat, slot: Instant)

  /** `crossed`'s verdict: the first look at an identity is silent. */
  predicate Crosses(seen: Option<Seen>, now: Seen) {
    seen.Some? && seen.value.identity == now.identity && now.slot > seen.value.slot
  }

  /** Whether the gates let the schedule, and a full copy, run at all. */
  datatype Gates = Gates(schedule: bool, fullCopy: bool)

  datatype Trigger = Started | Busy | Refused

  /** What one tick did for the server. */
  datatype Fired = Nothing | FullCopy(outcome: Trigger) | FullCopyGated | Regular | RegularAfterGatedFull

  /** Which of the two grids a tick found moved. */
  datatype Edges = Edges(regular: bool, full: bool)

  /** What the loop remembers of a server: the slots it saw last, and the schedule a full copy is owed under. */
  datatype View = View(seen: Option<Seen>, seenFull: Option<Seen>, fullOwed: Option<nat>)

  const NOTHING_SEEN := View(None, None, None)

  function Look(s: Schedule, now: Instant): Option<Seen>
    requires Parses(s)
  {
    Some(Seen(s.identity, SlotAtOrBefore(s.at, s.every, now)))
  }

  function LookFull(s: Schedule, now: Instant): Option<Seen>
    requires Parses(s)
  {
    if s.fullEvery > 0 then Some(Seen(s.identity, SlotAtOrBefore(s.at, s.fullEvery, now))) else None
  }

  function EdgesAt(v: View, s: Schedule, now: Instant): Edges
    requires Parses(s)
  {
    Edges(Crosses(v.seen, Look(s, now).value), LookFull(s, now).Some? && Crosses(v.seenFull, LookFull(s, now).value))
  }

  /** What a tick fires: a full copy on its own edge or when one is owed to this run, else the run. */
  function FiredAt(v: View, s: Schedule, now: Instant, gates: Gates, trigger: Trigger): Fired
    requires Parses(s)
  {
    var e := EdgesAt(v, s, now);
    if e.full || (e.regular && s.fullEvery > 0 && v.fullOwed == Some(s.identity)) then
      if gates.schedule && gates.fullCopy then FullCopy(trigger)
      else if e.regular && gates.schedule then RegularAfterGatedFull
      else FullCopyGated
    else if e.regular then Regular
    else Nothing
  }

  /** What is owed after a tick that fired this. */
  function OwedAfter(owed: Option<nat>, s: Schedule, fired: Fired): Option<nat> {
    if s.fullEvery == 0 then None
    else
      match fired
      case Nothing => owed
      case Regular => None
      case FullCopy(Busy) => Some(s.identity)
      case FullCopy(Refused) => owed
      case FullCopy(Started) => None
      case FullCopyGated => None
      case RegularAfterGatedFull => None
  }

  class Scheduler {
    var seen: Option<Seen>
    var seenFull: Option<Seen>
    var fullOwed: Option<nat>

    function Now(): View
      reads this
    {
      View(seen, seenFull, fullOwed)
    }

    constructor ()
      ensures Now() == NOTHING_SEEN
    {
      seen, seenFull, fullOwed := None, None, None;
    }

    /** `Observe`: a save, or boot. */
    method Observe(s: Schedule, now: Instant)
      modifies this
      ensures Now() == if Parses(s) then View(Look(s, now), LookFull(s, now), None) else old(Now())
    {
      if !Parses(s) {
        return;
      }
      seen := Some(Seen(s.identity, SlotAtOrBefore(s.at, s.every, now)));
      fullOwed := None;
      if s.fullEvery > 0 {
        seenFull := Some(Seen(s.identity, SlotAtOrBefore(s.at, s.fullEvery, now)));
      } else {
        seenFull := None;
      }
    }

    /** `crossed`. */
    method Crossed(identity: nat, slot: Instant) returns (moved: bool)
      modifies this`seen
      ensures seen == Some(Seen(identity, slot)) && moved == Crosses(old(seen), Seen(identity, slot))
    {
      moved := seen.Some? && seen.value.identity == identity && slot > seen.value.slot;
      seen := Some(Seen(identity, slot));
    }

    /** `crossedFull`. */
    method CrossedFull(s: Schedule, now: Instant) returns (moved: bool)
      requires Parses(s)
      modifies this`seenFull, this`fullOwed
      ensures seenFull == LookFull(s, now) && moved == (seenFull.Some? && Crosses(old(seenFull), seenFull.value))
      ensures fullOwed == if s.fullEvery == 0 then None else old(fullOwed)
    {
      if s.fullEvery == 0 {
        seenFull, fullOwed := None, None;
        return false;
      }
      var slot := SlotAtOrBefore(s.at, s.fullEvery, now);
      moved := seenFull.Some? && seenFull.value.identity == s.identity && slot > seenFull.value.slot;
      seenFull := Some(Seen(s.identity, slot));
    }

    /** `owesFull`. */
    method OwesFull(identity: nat) returns (owes: bool)
      modifies this`fullOwed
      ensures owes == (old(fullOwed) == Some(identity)) && fullOwed == if owes then old(fullOwed) else None
    {
      if fullOwed.Some? && fullOwed.value != identity {
        fullOwed := None;
        return false;
      }
      return fullOwed.Some?;
    }

    /** `startFullBackup` for a full copy: a start pays the debt, a collision makes one, any other refusal changes nothing. */
    method StartFullCopy(s: Schedule, trigger: Trigger)
      modifies this`fullOwed
      ensures fullOwed == match trigger case Started => None case Busy => Some(s.identity) case Refused => old(fullOwed)
    {
      match trigger {
        case Started => fullOwed := None;
        case Busy => fullOwed := Some(s.identity);
        case Refused =>
      }
    }

    /** `fireFullCopy`: `taken` when the slot needs nothing else. */
    method FireFullCopy(s: Schedule, gates: Gates, trigger: Trigger) returns (taken: bool)
      modifies this`fullOwed
      ensures taken <==> !gates.schedule || gates.fullCopy
      ensures fullOwed == if !gates.schedule || !gates.fullCopy || trigger.Started? then None
                          else if trigger.Busy? then Some(s.identity) else old(fullOwed)
    {
      if !gates.schedule || !gates.fullCopy {
        fullOwed := None;
        return !gates.schedule;
      }
      StartFullCopy(s, trigger);
      return true;
    }

    /** One tick of the loop for this server, with what the gates and the supervisor answer. */
    method Tick(s: Schedule, now: Instant, gates: Gates, trigger: Trigger) returns (fired: Fired, edges: Edges)
      requires Parses(s)
      modifies this
      ensures edges == EdgesAt(old(Now()), s, now) && fired == FiredAt(old(Now()), s, now, gates, trigger)
      ensures Now() == View(Look(s, now), LookFull(s, now), OwedAfter(old(fullOwed), s, fired))
    {
      var regular := Crossed(s.identity, SlotAtOrBefore(s.at, s.every, now));
      var full := CrossedFull(s, now);
      edges := Edges(regular, full);
      if !regular && !full {
        fired := Nothing;
        return;
      }
      if regular && !full {
        full := OwesFull(s.identity);
      }
      if full {
        var taken := FireFullCopy(s, gates, trigger);
        if taken {
          fired := if gates.schedule then FullCopy(trigger) else FullCopyGated;
          return;
        }
      }
      fired := if !regular then FullCopyGated else if full then RegularAfterGatedFull else Regular;
    }

    /** `Forget`: the schedule was removed. */
    method Forget()
      modifies this
      ensures Now() == NOTHING_SEEN
    {
      seen, seenFull, fullOwed := None, None, None;
    }
  }

  // ---------------------------------------------------------------- the debt

  /** What happens to a server's schedule, in any order and under any identities. */
  datatype Event =
    | Saved(schedule: Schedule, at: Instant)
    | Ticked(schedule: Schedule, at: Instant, gates: Gates, trigger: Trigger)
    | Removed

  /** A schedule that does not parse is passed over by a save and by a tick. */
  function After(v: View, e: Event): View {
    match e
    case Saved(s, at) => if Parses(s) then View(Look(s, at), LookFull(s, at), None) else v
    case Ticked(s, at, gates, trigger) =>
      if Parses(s) then View(Look(s, at), LookFull(s, at), OwedAfter(v.fullOwed, s, FiredAt(v, s, at, gates, trigger))) else v
    case Removed => NOTHING_SEEN
  }

  function ViewAfter(run: seq<Event>): View {
    if run == [] then NOTHING_SEEN else After(ViewAfter(run[..|run| - 1]), run[|run| - 1])
  }

  /** What the tick at this place of a run fired. */
  function FiredIn(run: seq<Event>, i: nat): Fired
    requires i < |run|
  {
    var e := run[i];
    if e.Ticked? && Parses(e.schedule) then FiredAt(ViewAfter(run[..i]), e.schedule, e.at, e.gates, e.trigger) else Nothing
  }

  /** A full copy of this schedule found the server busy. */
  predicate MetBusy(run: seq<Event>, i: nat, identity: nat)
    requires i < |run|
  {
    FiredIn(run, i) == FullCopy(Busy) && run[i].schedule.identity == identity
  }

  /** A start, a refusal at the gates, a save, a removal, a schedule without a timetable, or another schedule's run or collision. */
  predicate Settles(run: seq<Event>, i: nat, identity: nat)
    requires i < |run|
  {
    match run[i]
    case Saved(s, _) => Parses(s)
    case Removed => true
    case Ticked(s, _, _, _) =>
      Parses(s) &&
      var fired := FiredIn(run, i);
      || s.fullEvery == 0 || fired == FullCopy(Started) || fired.FullCopyGated? || fired.RegularAfterGatedFull?
      || (s.identity != identity && (fired.Regular? || fired == FullCopy(Busy)))
  }

  /** A full copy of this schedule met a busy server and nothing since has settled it. */
  ghost predicate Owing(run: seq<Event>, identity: nat) {
    exists i | 0 <= i < |run| :: MetBusy(run, i, identity) && forall j | i < j < |run| :: !Settles(run, j, identity)
  }

  lemma PrefixFires(run: seq<Event>, i: nat)
    requires 0 < |run| && i < |run| - 1
    ensures FiredIn(run[..|run| - 1], i) == FiredIn(run, i)
  {
    assert run[..|run| - 1][..i] == run[..i];
  }

  lemma OwingStep(run: seq<Event>, identity: nat)
    requires run != []
    ensures var last := |run| - 1;
            Owing(run, identity) <==> MetBusy(run, last, identity) || (Owing(run[..last], identity) && !Settles(run, last, identity))
  {
    var last := |run| - 1;
    var init := run[..last];
    forall i: nat | i < last
      ensures MetBusy(init, i, identity) == MetBusy(run, i, identity) && Settles(init, i, identity) == Settles(run, i, identity)
    {
      PrefixFires(run, i);
    }
    if Owing(run, identity) && !MetBusy(run, last, identity) {
      var i :| 0 <= i < |run| && MetBusy(run, i, identity) && forall j | i < j < |run| :: !Settles(run, j, identity);
      assert MetBusy(init, i, identity);
    }
    if Owing(init, identity) && !Settles(run, last, identity) {
      var i :| 0 <= i < |init| && MetBusy(init, i, identity) && forall j | i < j < |init| :: !Settles(init, j, identity);
      assert MetBusy(run, i, identity);
    }
  }

  /** Over every sequence of saves, ticks and removals, under any identities: what is owed is exactly what met a busy server and was not settled since. */
  lemma {:induction false} OwedExactlyAfterACollision(run: seq<Event>, identity: nat)
    ensures ViewAfter(run).fullOwed == Some(identity) <==> Owing(run, identity)
    decreases |run|
  {
    if run != [] {
      OwedExactlyAfterACollision(run[..|run| - 1], identity);
      OwingStep(run, identity);
    }
  }

  /** And it is taken: the next run of that schedule tries the full copy, whatever its own timetable says. */
  lemma OwedIsTriedAtTheNextRun(run: seq<Event>, s: Schedule, at: Instant, gates: Gates, trigger: Trigger)
    requires Parses(s) && s.fullEvery > 0 && Owing(run, s.identity) && EdgesAt(ViewAfter(run), s, at).regular
    ensures var fired := FiredAt(ViewAfter(run), s, at, gates, trigger);
            fired == if gates.schedule && gates.fullCopy then FullCopy(trigger) else if gates.schedule then RegularAfterGatedFull else FullCopyGated
  {
    OwedExactlyAfterACollision(run, s.identity);
  }

  // ------------------------------------------------------ what a tick fires

  /** An identity is made of the timetable, so one identity is one timetable. */
  ghost predicate OneTimetableEach(run: seq<Event>) {
    forall i, j | 0 <= i < j < |run| && !run[i].Removed? && !run[j].Removed? && run[i].schedule.identity == run[j].schedule.identity ::
      run[i].schedule == run[j].schedule
  }

  /** The last save or tick that looked at the server before a place in a run, unless the schedule was removed since. */
  function LastLook(run: seq<Event>, i: nat): (r: Option<nat>)
    requires i <= |run|
    ensures r.Some? ==> r.value < i && !run[r.value].Removed? && Parses(run[r.value].schedule)
  {
    if i == 0 || run[i - 1].Removed? then None else if Parses(run[i - 1].schedule) then Some(i - 1) else LastLook(run, i - 1)
  }

  lemma {:induction false} ViewIsTheLastLook(run: seq<Event>, i: nat)
    requires i <= |run|
    ensures var v, j := ViewAfter(run[..i]), LastLook(run, i);
            if j.None? then v.seen.None? && v.seenFull.None?
            else v.seen == Look(run[j.value].schedule, run[j.value].at) && v.seenFull == LookFull(run[j.value].schedule, run[j.value].at)
    decreases i
  {
    if i > 0 {
      assert run[..i][..i - 1] == run[..i - 1];
      ViewIsTheLastLook(run, i - 1);
    }
  }

  /** A grid of this schedule is in a later slot than at the last look under the same identity. */
  predicate Moved(run: seq<Event>, i: nat, every: Duration)
    requires i < |run| && run[i].Ticked? && every > 0
  {
    var s, j := run[i].schedule, LastLook(run, i);
    && j.Some? && run[j.value].schedule.identity == s.identity
    && SlotNumber(s.at, every, run[j.value].at) < SlotNumber(s.at, every, run[i].at)
  }

  lemma SlotsInOrder(at: Duration, every: Duration, t: Instant, u: Instant)
    requires every > 0
    ensures SlotAtOrBefore(at, every, t) < SlotAtOrBefore(at, every, u) <==> SlotNumber(at, every, t) < SlotNumber(at, every, u)
  {
    var a, b := SlotNumber(at, every, t), SlotNumber(at, every, u);
    if a < b {
      NextMultiple(a, b, every);
    } else if b < a {
      NextMultiple(b, a, every);
    }
  }

  lemma EdgesAreMoves(run: seq<Event>, i: nat)
    requires i < |run| && run[i].Ticked? && Parses(run[i].schedule) && OneTimetableEach(run)
    ensures var s := run[i].schedule;
            EdgesAt(ViewAfter(run[..i]), s, run[i].at) == Edges(Moved(run, i, s.every), s.fullEvery > 0 && Moved(run, i, s.fullEvery))
  {
    ViewIsTheLastLook(run, i);
    var s, j := run[i].schedule, LastLook(run, i);
    if j.Some? && run[j.value].schedule.identity == s.identity {
      assert run[j.value].schedule == s;
      SlotsInOrder(s.at, s.every, run[j.value].at, run[i].at);
      if s.fullEvery > 0 {
        SlotsInOrder(s.at, s.fullEvery, run[j.value].at, run[i].at);
      }
    }
  }

  /** A full copy is due: its own grid moved, or one is owed and the schedule's own grid did. */
  ghost predicate FullCopyDue(run: seq<Event>, i: nat)
    requires i < |run| && run[i].Ticked? && Parses(run[i].schedule)
  {
    var s := run[i].schedule;
    s.fullEvery > 0 && (Moved(run, i, s.fullEvery) || (Moved(run, i, s.every) && Owing(run[..i], s.identity)))
  }

  /**
    Over every sequence of saves, ticks and removals, told by slot numbers and by what met
    a busy server before: with the gates open a full copy is tried at a tick exactly when
    one is due, and an update is run exactly when the schedule's own grid moved and none
    is. A shut gate leaves a full copy that is due untried: the update still runs when only
    full copies are refused and its own grid moved, and otherwise nothing does.
   */
  lemma FiredExactlyWhenDue(run: seq<Event>, i: nat)
    requires i < |run| && run[i].Ticked? && Parses(run[i].schedule) && OneTimetableEach(run)
    ensures var s, gates, fired := run[i].schedule, run[i].gates, FiredIn(run, i);
            && (fired == FullCopy(run[i].trigger) <==> FullCopyDue(run, i) && gates.schedule && gates.fullCopy)
            && (fired.FullCopy? ==> fired.outcome == run[i].trigger)
            && (fired == RegularAfterGatedFull <==> FullCopyDue(run, i) && gates.schedule && !gates.fullCopy && Moved(run, i, s.every))
            && (fired == FullCopyGated <==> FullCopyDue(run, i) && (!gates.schedule || (!gates.fullCopy && !Moved(run, i, s.every))))
            && (fired == Regular <==> !FullCopyDue(run, i) && Moved(run, i, s.every))
            && (fired == Nothing <==> !FullCopyDue(run, i) && !Moved(run, i, s.every))
  {
    EdgesAreMoves(run, i);
    OwedExactlyAfterACollision(run[..i], run[i].schedule.identity);
  }

  /** A save, and then nothing but ticks of that schedule with the gates open, in order and at most a period of the full-copy grid apart. */
  ghost predicate Undisturbed(run: seq<Event>, s: Schedule) {
    && run != [] && run[0].Saved? && run[0].schedule == s && Parses(s) && s.fullEvery > 0
    && (forall k | 1 <= k < |run| :: run[k].Ticked? && run[k].schedule == s && run[k].gates == Gates(true, true))
    && (forall k | 1 <= k < |run| :: run[k - 1].at <= run[k].at <= run[k - 1].at + s.fullEvery)
  }

  /** The tick tries a full copy at the edge into this slot of the full-copy grid. */
  predicate TriesFor(run: seq<Event>, s: Schedule, n: int, k: nat)
    requires 1 <= k < |run| && s.fullEvery > 0 && !run[k - 1].Removed? && !run[k].Removed?
  {
    SlotNumber(s.at, s.fullEvery, run[k - 1].at) < n <= SlotNumber(s.at, s.fullEvery, run[k].at) && FiredIn(run, k).FullCopy?
  }

  lemma EdgeIsTried(run: seq<Event>, s: Schedule, k: nat)
    requires Undisturbed(run, s) && 1 <= k < |run|
    ensures SlotNumber(s.at, s.fullEvery, run[k - 1].at) <= SlotNumber(s.at, s.fullEvery, run[k].at) <= SlotNumber(s.at, s.fullEvery, run[k - 1].at) + 1
    ensures SlotNumber(s.at, s.fullEvery, run[k - 1].at) < SlotNumber(s.at, s.fullEvery, run[k].at) ==> FiredIn(run, k) == FullCopy(run[k].trigger)
  {
    SlotsAdvance(s.at, s.fullEvery, run[k - 1].at, run[k].at);
    assert run[k].Ticked? && run[k].schedule == s;
    assert LastLook(run, k) == Some(k - 1);
    FiredExactlyWhenDue(run, k);
  }

  lemma {:induction false} NumbersRise(run: seq<Event>, s: Schedule, j: nat, k: nat)
    requires Undisturbed(run, s) && j <= k < |run|
    ensures !run[j].Removed? && !run[k].Removed?
    ensures SlotNumber(s.at, s.fullEvery, run[j].at) <= SlotNumber(s.at, s.fullEvery, run[k].at)
    decreases k
  {
    assert k >= 1 ==> run[k].Ticked?;
    assert j >= 1 ==> run[j].Ticked?;
    if j < k {
      NumbersRise(run, s, j, k - 1);
      EdgeIsTried(run, s, k);
    }
  }

  /** The tick at which the grid first reaches a slot. */
  lemma {:induction false} FirstReach(run: seq<Event>, s: Schedule, n: int, last: nat) returns (k: nat)
    requires Undisturbed(run, s) && last < |run| && !run[0].Removed? && !run[last].Removed?
    requires SlotNumber(s.at, s.fullEvery, run[0].at) < n <= SlotNumber(s.at, s.fullEvery, run[last].at)
    ensures 1 <= k <= last && !run[k - 1].Removed? && !run[k].Removed?
    ensures SlotNumber(s.at, s.fullEvery, run[k - 1].at) < n <= SlotNumber(s.at, s.fullEvery, run[k].at)
    decreases last
  {
    NumbersRise(run, s, last - 1, last);
    if SlotNumber(s.at, s.fullEvery, run[last - 1].at) < n {
      k := last;
    } else {
      k := FirstReach(run, s, n, last - 1);
    }
  }

  /** So every slot of the full-copy grid after the save is tried, by one tick and no other, whether it falls on a slot of the schedule's own grid or not. */
  lemma EveryFullSlotIsTriedOnce(run: seq<Event>, s: Schedule, n: int)
    requires Undisturbed(run, s) && !run[|run| - 1].Removed?
    requires SlotNumber(s.at, s.fullEvery, run[0].at) < n <= SlotNumber(s.at, s.fullEvery, run[|run| - 1].at)
    ensures forall k | 0 <= k < |run| :: !run[k].Removed?
    ensures exists k | 1 <= k < |run| :: TriesFor(run, s, n, k) && forall j | 1 <= j < |run| && TriesFor(run, s, n, j) :: j == k
  {
    forall k | 0 <= k < |run|
      ensures !run[k].Removed?
    {
      NumbersRise(run, s, k, k);
    }
    var k := FirstReach(run, s, n, |run| - 1);
    EdgeIsTried(run, s, k);
    assert TriesFor(run, s, n, k);
    forall j | 1 <= j < |run| && TriesFor(run, s, n, j)
      ensures j == k
    {
      if j < k {
        NumbersRise(run, s, j, k - 1);
      } else if k < j {
        NumbersRise(run, s, k, j - 1);
      }
    }
  }

  /** The object itself, over a whole run. */
  method RunEvents(run: seq<Event>) returns (b: Scheduler, fires: seq<Fired>)
    ensures fresh(b) && b.Now() == ViewAfter(run)
    ensures |fires| == |run| && forall i | 0 <= i < |run| :: fires[i] == FiredIn(run, i)
  {
    b := new Scheduler();
    fires := [];
    for i := 0 to |run|
      invariant fresh(b) && b.Now() == ViewAfter(run[..i])
      invariant |fires| == i && forall j | 0 <= j < i :: fires[j] == FiredIn(run, j)
    {
      assert run[..i + 1][..i] == run[..i];
      var fired := Nothing;
      match run[i] {
        case Saved(s, at) => b.Observe(s, at);
        case Removed => b.Forget();
        case Ticked(s, at, gates, trigger) =>
          if Parses(s) {
            var f, _ := b.Tick(s, at, gates, trigger);
            fired := f;
          }
      }
      fires := fires + [fired];
    }
    assert run[..|run|] == run;
  }

  // -------------------------------------------------------------- whole runs

  /** The values a loop fires that fires each value past the last one it saw. */
  function EdgesOf(last: int, values: seq<int>): seq<int>
    decreases |values|
  {
    if values == [] then []
    else if values[0] > last then [values[0]] + EdgesOf(values[0], values[1..])
    else EdgesOf(values[0], values[1..])
  }

  predicate NonDecreasing(first: int, values: seq<int>)
    decreases |values|
  {
    values == [] || (first <= values[0] && NonDecreasing(values[0], values[1..]))
  }

  /** No value is more than `step` past the one before it. */
  predicate StepsAtMost(first: int, values: seq<int>, step: int)
    decreases |values|
  {
    values == [] || (values[0] - first <= step && StepsAtMost(values[0], values[1..], step))
  }

  function LastOf(first: int, values: seq<int>): int
    decreases |values|
  {
    if values == [] then first else LastOf(values[0], values[1..])
  }

  /**
    After the first value seen, each at most once and in order, and nothing past the last;
    every value in between when none was skipped.
   */
  ghost predicate FireOnce(first: int, last: int, noneSkipped: bool, fired: seq<int>) {
    && first <= last
    && (forall i | 0 <= i < |fired| :: first < fired[i] <= last)
    && (forall i, j | 0 <= i < j < |fired| :: fired[i] < fired[j])
    && (noneSkipped ==> |fired| == last - first && forall i | 0 <= i < |fired| :: fired[i] == first + 1 + i)
  }

  lemma OneBefore(first: int, value: int, last: int, noneSkipped: bool, fired: seq<int>)
    requires FireOnce(value, last, noneSkipped, fired) && first < value
    ensures FireOnce(first, last, noneSkipped && value == first + 1, [value] + fired)
  {
    var all := [value] + fired;
    assert forall i | 0 <= i < |all| :: all[i] == if i == 0 then value else fired[i - 1];
  }

  /** From values that never go back. */
  lemma {:induction false} EdgesFireOnce(first: int, values: seq<int>)
    requires NonDecreasing(first, values)
    ensures FireOnce(first, LastOf(first, values), StepsAtMost(first, values, 1), EdgesOf(first, values))
    decreases |values|
  {
    if values != [] {
      EdgesFireOnce(values[0], values[1..]);
      if values[0] > first {
        OneBefore(first, values[0], LastOf(first, values), StepsAtMost(values[0], values[1..], 1), EdgesOf(values[0], values[1..]));
      }
    }
  }

  function Numbers(at: Duration, every: Duration, ticks: seq<Instant>): seq<int>
    requires every > 0
    decreases |ticks|
  {
    if ticks == [] then [] else [SlotNumber(at, every, ticks[0])] + Numbers(at, every, ticks[1..])
  }

  function SlotsOf(at: Duration, every: Duration, ticks: seq<Instant>): seq<Instant>
    requires every > 0
    decreases |ticks|
  {
    if ticks == [] then [] else [SlotAtOrBefore(at, every, ticks[0])] + SlotsOf(at, every, ticks[1..])
  }

  lemma {:induction false} NumbersAdvance(at: Duration, every: Duration, start: Instant, ticks: seq<Instant>)
    requires every > 0 && NonDecreasing(start, ticks)
    ensures NonDecreasing(SlotNumber(at, every, start), Numbers(at, every, ticks))
    ensures StepsAtMost(start, ticks, every) ==> StepsAtMost(SlotNumber(at, every, start), Numbers(at, every, ticks), 1)
    decreases |ticks|
  {
    if ticks != [] {
      SlotsAdvance(at, every, start, ticks[0]);
      NumbersAdvance(at, every, ticks[0], ticks[1..]);
    }
  }

  /** These slots are the ones with these numbers. */
  ghost predicate Numbered(at: Duration, every: Duration, slots: seq<Instant>, numbers: seq<int>) {
    |slots| == |numbers| && forall i | 0 <= i < |slots| :: slots[i] == Slot(at, every, numbers[i])
  }

  lemma OneMoreNumbered(at: Duration, every: Duration, slot: Instant, number: int, slots: seq<Instant>, numbers: seq<int>)
    requires Numbered(at, every, slots, numbers) && slot == Slot(at, every, number)
    ensures Numbered(at, every, [slot] + slots, [number] + numbers)
  {
  }

  /** Comparing slots and comparing their numbers fire alike. */
  lemma {:induction false} SlotsAndNumbersAgree(at: Duration, every: Duration, start: Instant, ticks: seq<Instant>)
    requires every > 0 && NonDecreasing(start, ticks)
    ensures Numbered(at, every, EdgesOf(SlotAtOrBefore(at, every, start), SlotsOf(at, every, ticks)), EdgesOf(SlotNumber(at, every, start), Numbers(at, every, ticks)))
    decreases |ticks|
  {
    if ticks != [] {
      SlotsAdvance(at, every, start, ticks[0]);
      SlotsAndNumbersAgree(at, every, ticks[0], ticks[1..]);
      var slot, number := SlotAtOrBefore(at, every, ticks[0]), SlotNumber(at, every, ticks[0]);
      OneMoreNumbered(at, every, slot, number, EdgesOf(slot, SlotsOf(at, every, ticks[1..])), EdgesOf(number, Numbers(at, every, ticks[1..])));
    }
  }

  /** The slots that fire, told apart by their numbers, from a save or boot on. */
  lemma SlotsFireOnce(at: Duration, every: Duration, start: Instant, ticks: seq<Instant>)
    requires every > 0 && NonDecreasing(start, ticks)
    ensures var slots, numbers := EdgesOf(SlotAtOrBefore(at, every, start), SlotsOf(at, every, ticks)), EdgesOf(SlotNumber(at, every, start), Numbers(at, every, ticks));
            var first, last := SlotNumber(at, every, start), LastOf(SlotNumber(at, every, start), Numbers(at, every, ticks));
            && Numbered(at, every, slots, numbers)
            && FireOnce(first, last, StepsAtMost(start, ticks, every), numbers)
  {
    NumbersAdvance(at, every, start, ticks);
    SlotsAndNumbersAgree(at, every, start, ticks);
    EdgesFireOnce(SlotNumber(at, every, start), Numbers(at, every, ticks));
  }

  lemma {:induction false} EdgesGrow(last: int, values: seq<int>, next: int)
    ensures EdgesOf(last, values + [next]) == EdgesOf(last, values) + if next > LastOf(last, values) then [next] else []
    decreases |values|
  {
    if values == [] {
      assert (values + [next])[1..] == [];
    } else {
      assert (values + [next])[1..] == values[1..] + [next];
      EdgesGrow(values[0], values[1..], next);
    }
  }

  lemma {:induction false} SlotsGrow(at: Duration, every: Duration, start: Instant, ticks: seq<Instant>, now: Instant)
    requires every > 0
    ensures SlotsOf(at, every, ticks + [now]) == SlotsOf(at, every, ticks) + [SlotAtOrBefore(at, every, now)]
    ensures LastOf(SlotAtOrBefore(at, every, start), SlotsOf(at, every, ticks + [now])) == SlotAtOrBefore(at, every, now)
    decreases |ticks|
  {
    if ticks == [] {
      assert (ticks + [now])[1..] == [];
    } else {
      assert (ticks + [now])[1..] == ticks[1..] + [now];
      SlotsGrow(at, every, ticks[0], ticks[1..], now);
    }
  }

  /** Everything the loop fired on one grid so far, and the slot it saw last. */
  ghost predicate FiredSoFar(at: Duration, every: Duration, start: Instant, ticks: seq<Instant>, fired: seq<Instant>, seen: Instant)
    requires every > 0
  {
    && fired == EdgesOf(SlotAtOrBefore(at, every, start), SlotsOf(at, every, ticks))
    && seen == LastOf(SlotAtOrBefore(at, every, start), SlotsOf(at, every, ticks))
  }

  lemma OneMoreTick(at: Duration, every: Duration, start: Instant, ticks: seq<Instant>, fired: seq<Instant>, seen: Instant, now: Instant)
    requires every > 0 && FiredSoFar(at, every, start, ticks, fired, seen)
    ensures var slot := SlotAtOrBefore(at, every, now);
            FiredSoFar(at, every, start, ticks + [now], fired + (if slot > seen then [slot] else []), slot)
  {
    SlotsGrow(at, every, start, ticks, now);
    EdgesGrow(SlotAtOrBefore(at, every, start), SlotsOf(at, every, ticks), SlotAtOrBefore(at, every, now));
  }

  /**
    The loop from a save or boot, whatever the gates and the supervisor answer: on both
    grids exactly the edges fire, and a tick does nothing only when neither grid moved.
   */
  method RunTicks(s: Schedule, start: Instant, ticks: seq<Instant>, answers: seq<(Gates, Trigger)>)
    returns (regular: seq<Instant>, full: seq<Instant>, idle: bool)
    requires Parses(s) && |answers| == |ticks|
    ensures regular == EdgesOf(SlotAtOrBefore(s.at, s.every, start), SlotsOf(s.at, s.every, ticks))
    ensures s.fullEvery > 0 ==> full == EdgesOf(SlotAtOrBefore(s.at, s.fullEvery, start), SlotsOf(s.at, s.fullEvery, ticks))
    ensures s.fullEvery == 0 ==> full == []
    ensures idle <==> regular == [] && full == []
  {
    var b := new Scheduler();
    b.Observe(s, start);
    regular, full, idle := [], [], true;
    for i := 0 to |ticks|
      invariant fresh(b) && b.seen.Some? && b.seen.value.identity == s.identity
      invariant FiredSoFar(s.at, s.every, start, ticks[..i], regular, b.seen.value.slot)
      invariant s.fullEvery > 0 ==>
                  b.seenFull.Some? && b.seenFull.value.identity == s.identity &&
                  FiredSoFar(s.at, s.fullEvery, start, ticks[..i], full, b.seenFull.value.slot)
      invariant s.fullEvery == 0 ==> full == []
      invariant idle <==> regular == [] && full == []
    {
      assert ticks[..i + 1] == ticks[..i] + [ticks[i]];
      OneMoreTick(s.at, s.every, start, ticks[..i], regular, b.seen.value.slot, ticks[i]);
      if s.fullEvery > 0 {
        OneMoreTick(s.at, s.fullEvery, start, ticks[..i], full, b.seenFull.value.slot, ticks[i]);
      }
      var fired, edges := b.Tick(s, ticks[i], answers[i].0, answers[i].1);
      if edges.regular {
        regular := regular + [SlotAtOrBefore(s.at, s.every, ticks[i])];
      }
      if edges.full {
        full := full + [SlotAtOrBefore(s.at, s.fullEvery, ticks[i])];
      }
      idle := idle && fired.Nothing?;
    }
    assert ticks[..|ticks|] == ticks;
  }
}
