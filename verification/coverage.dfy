/**
  The line the refresh gate and the fold share (`coverageRule.reanchorBy`), and
  what it is for: a snapshot the gate leaves alone never falls out of the window
  the index can still fold from, over whole runs of cycles.
 */
module Coverage {
  import opened Prelude

  /**
    What, besides the live partitions, decides how long a snapshot may go without
    being replaced. `retain` is zero when rotation is off or unreadable, and
    `dropsAfter` is zero when the window this index drops on is not known.
   */
  datatype Rule = Rule(retain: Duration, interval: Duration, dropsAfter: Duration)

  /** 0.8 of a span, rounded up as `math.Ceil` does. */
  function AgingUp(span: Duration): Duration {
    (4 * span + 4) / 5
  }

  /** 0.8 of a positive span, truncated as the conversion to a Duration does. */
  function AgingDown(span: Duration): Duration {
    4 * span / 5
  }

  /** Rotation is known to leave the oldest live hour alone until after the next look. */
  predicate FloorHolds(rule: Rule, floor: Instant, now: Instant) {
    var window := if 0 < rule.retain < rule.dropsAfter then rule.retain else rule.dropsAfter;
    window > 0 && floor >= now - window + HOUR + rule.interval
  }

  /** The later of the observed floor and the one the configured retention implies. */
  function EffectiveFloor(rule: Rule, floor: Instant, now: Instant): Instant {
    if rule.retain > 0 then Max(floor, now - rule.retain) else floor
  }

  /** The line over a known floor. */
  function Line(rule: Rule, floor: Instant, now: Instant): Instant {
    var span := now - floor;
    var band := if span > 0 then now - AgingUp(span) else floor - 1;
    var policy := if rule.retain > 0 then Max(band, now - AgingDown(rule.retain)) else band;
    var margin := EffectiveFloor(rule, floor, now) + HOUR + rule.interval;
    if margin > policy && !FloorHolds(rule, floor, now) then margin else policy
  }

  function ReanchorBy(rule: Rule, liveFloor: Option<Instant>, now: Instant): Option<Instant> {
    match liveFloor
    case None => None
    case Some(floor) => Some(Line(rule, floor, now))
  }

  /** `snapshotCoveredBy`: an unknown floor is never covered. */
  predicate SnapshotCoveredBy(rule: Rule, liveFloor: Option<Instant>, readsFrom: Instant, now: Instant) {
    var line := ReanchorBy(rule, liveFloor, now);
    line.Some? && readsFrom > line.value
  }

  // ---------------------------------------------------------------- verdict

  datatype Staleness = Ok | Aging | Broken

  /** The verdict the rest of the product grades a snapshot with (`BaselineStalenessFor`). */
  function StalenessFor(start: Instant, floor: Instant, now: Instant): Staleness {
    if start < floor then Broken
    else if now - floor <= 0 then Ok
    else if 5 * (now - start) >= 4 * (now - floor) then Aging
    else Ok
  }

  /**
    What a snapshot must be to be left alone: OK by the product's own verdict, less than 0.8
    of the configured retention old, and, unless the floor is known to hold, an hour and an
    interval past the floor and past what the retention leaves.
   */
  predicate Sound(rule: Rule, floor: Instant, start: Instant, now: Instant) {
    && StalenessFor(start, floor, now) == Ok
    && (rule.retain > 0 ==> 5 * (now - start + 1) <= 4 * rule.retain)
    && (|| FloorHolds(rule, floor, now)
        || (start > floor + HOUR + rule.interval && (rule.retain > 0 ==> start > now - rule.retain + HOUR + rule.interval)))
  }

  /** The line says exactly that, and nothing is covered over a floor that is not known. */
  lemma CoveredIsTheVerdict(rule: Rule, liveFloor: Option<Instant>, start: Instant, now: Instant)
    ensures SnapshotCoveredBy(rule, liveFloor, start, now) <==> liveFloor.Some? && Sound(rule, liveFloor.value, start, now)
  {
    if liveFloor.Some? {
      var span := now - liveFloor.value;
      assert span > 0 ==> (now - start < AgingUp(span) <==> 5 * (now - start) < 4 * span);
      assert span > 0 ==> AgingUp(span) <= span;
    }
  }

  // ------------------------------------------------------- gate versus fold

  /** At one floor and rule the line never moves back as time passes. */
  lemma LineMonotoneInNow(rule: Rule, floor: Instant, now: Instant, later: Instant)
    requires now <= later
    ensures Line(rule, floor, now) <= Line(rule, floor, later)
  {
    var span, span' := now - floor, later - floor;
    assert span > 0 ==> AgingUp(span') <= AgingUp(span) + (later - now);
    assert span' > 0 ==> AgingUp(span') <= span';
    assert FloorHolds(rule, floor, later) ==> FloorHolds(rule, floor, now);
  }

  /** The line is never below the floor by more than the nanosecond that makes `After` strict. */
  lemma LineNotBelowFloor(rule: Rule, floor: Instant, now: Instant)
    ensures floor <= Line(rule, floor, now) + 1
  {
    var span := now - floor;
    assert span > 0 ==> AgingUp(span) <= span;
  }

  /**
    A chain begun one interval ago is still covered exactly when the effective
    floor is more than an hour and two intervals behind; where the floor is
    known to hold, exactly when both bands reach back past the interval.
   */
  lemma FreshChainCovered(rule: Rule, floor: Instant, now: Instant)
    requires rule.interval >= 0 && rule.retain >= 0
    ensures !FloorHolds(rule, floor, now) ==>
              (SnapshotCoveredBy(rule, Some(floor), now - rule.interval, now) <==>
               now - floor > HOUR + 2 * rule.interval && (rule.retain > 0 ==> rule.retain > HOUR + 2 * rule.interval))
    ensures FloorHolds(rule, floor, now) ==>
              (SnapshotCoveredBy(rule, Some(floor), now - rule.interval, now) <==>
               && (if now > floor then 5 * rule.interval < 4 * (now - floor) else floor + rule.interval <= now)
               && (rule.retain > 0 ==> 5 * (rule.interval + 1) <= 4 * rule.retain))
  {
    CoveredIsTheVerdict(rule, Some(floor), now - rule.interval, now);
  }

  // ------------------------------------------------------------- one look

  /**
    How far rotation may bring the floor by `later` when it drops on `window`:
    it drops the hourly partitions whose start is before `later - window`, so what
    remains starts no later than an hour past that cutoff, or where it was.
   */
  predicate FloorReachable(floor: Instant, floor': Instant, window: Duration, later: Instant) {
    floor <= floor' <= Max(floor, later - window + HOUR)
  }

  /** Whenever rotation runs before the next look, on this window, the floor stays where it is. */
  ghost predicate FloorStays(floor: Instant, now: Instant, interval: Duration, window: Duration) {
    forall later, floor' | now <= later <= now + interval && FloorReachable(floor, floor', window, later) :: floor' == floor
  }

  /** The floor is known to hold exactly when the index's window is known, and on it and on the configured one no rotation before the next look moves the floor. */
  lemma FloorHoldsExactly(rule: Rule, floor: Instant, now: Instant)
    requires rule.interval >= 0
    ensures FloorHolds(rule, floor, now) <==>
            && rule.dropsAfter > 0 && FloorStays(floor, now, rule.interval, rule.dropsAfter)
            && (rule.retain > 0 ==> FloorStays(floor, now, rule.interval, rule.retain))
  {
    StaysInside(floor, now, rule.interval, rule.dropsAfter);
    StaysInside(floor, now, rule.interval, rule.retain);
  }

  lemma StaysInside(floor: Instant, now: Instant, interval: Duration, window: Duration)
    requires interval >= 0
    ensures FloorStays(floor, now, interval, window) <==> floor >= now - window + HOUR + interval
  {
    var later := now + interval;
    assert FloorReachable(floor, Max(floor, later - window + HOUR), window, later);
  }

  /** Rotation's drop rule gives that bound: hourly partitions older than the cutoff go, and the floor is the oldest left. */
  lemma RotationReaches(live: set<Instant>, floor: Instant, floor': Instant, window: Duration, dropAt: Instant, later: Instant)
    requires dropAt <= later
    requires floor in live && forall h <- live :: h >= floor
    requires forall h <- live | h > floor :: h - HOUR in live
    requires floor' in live && floor' >= dropAt - window
    requires forall h <- live | h >= dropAt - window :: h >= floor'
    ensures FloorReachable(floor, floor', window, later)
  {
    if floor' > floor {
      assert floor' - HOUR in live;
    }
  }

  /** The windows the rule speaks for: the configured one, or the index's own once it is in force. */
  predicate RuleWindow(rule: Rule, floor: Instant, now: Instant, window: Duration) {
    || (rule.retain > 0 && window == rule.retain)
    || (rule.dropsAfter > 0 && window == rule.dropsAfter && floor >= now - window)
  }

  /** A start survives every floor rotation can reach within one interval of `now`. */
  predicate Survives(start: Instant, floor: Instant, now: Instant, interval: Duration, window: Duration) {
    start >= floor && start >= now + interval - window + HOUR
  }

  /** `Survives` is what its name says: no reachable floor passes the start before the next look is due. */
  lemma SurvivesMeansNoFloorPasses(start: Instant, floor: Instant, now: Instant, interval: Duration, window: Duration)
    requires interval >= 0
    ensures Survives(start, floor, now, interval, window) <==>
            forall later, floor' | now <= later <= now + interval && FloorReachable(floor, floor', window, later) :: floor' <= start
  {
    if !Survives(start, floor, now, interval, window) {
      var later := now + interval;
      var floor' := Max(floor, later - window + HOUR);
      assert FloorReachable(floor, floor', window, later) && floor' > start;
    }
  }

  /** One of the three bounds of the line reaches back no further than the window allows, by the rule and the floor alone. */
  predicate LeavesRoom(rule: Rule, floor: Instant, now: Instant, window: Duration) {
    var room := window - HOUR - rule.interval + 1;
    || (if now > floor then AgingUp(now - floor) <= room else now - floor + 1 <= room)
    || (rule.retain > 0 && AgingDown(rule.retain) <= room)
    || (!FloorHolds(rule, floor, now) && now - EffectiveFloor(rule, floor, now) <= window + 1)
  }

  /**
    Whatever window rotation drops on, everything the gate calls covered survives until
    the next look exactly when one of the line's bounds leaves that window its hour and
    interval. For every window the rule speaks for, one does.
   */
  lemma KeepaliveExact(rule: Rule, floor: Instant, now: Instant, window: Duration)
    requires rule.interval >= 0
    ensures (forall start | SnapshotCoveredBy(rule, Some(floor), start, now) :: Survives(start, floor, now, rule.interval, window))
            <==> LeavesRoom(rule, floor, now, window)
    ensures RuleWindow(rule, floor, now, window) ==> LeavesRoom(rule, floor, now, window)
  {
    LineNotBelowFloor(rule, floor, now);
    var first := Line(rule, floor, now) + 1;
    assert SnapshotCoveredBy(rule, Some(floor), first, now);
    assert LeavesRoom(rule, floor, now, window) <==> now + rule.interval - window + HOUR <= first;
    if forall start | SnapshotCoveredBy(rule, Some(floor), start, now) :: Survives(start, floor, now, rule.interval, window) {
      assert Survives(first, floor, now, rule.interval, window);
    }
  }

  /**
    The failing family: an index that drops on its own window, shorter than the configured
    retention or with none configured, and whose rotation is behind. Everything covered
    survives exactly when 0.8 of what the index holds, or of the retention, leaves that
    window its hour and interval.
   */
  lemma OverdueIndexExactly(rule: Rule, floor: Instant, now: Instant)
    requires rule.interval >= 0 && rule.dropsAfter > 0 && floor < now - rule.dropsAfter - 1
    requires rule.retain <= 0 || rule.retain > rule.dropsAfter + 1
    ensures (forall start | SnapshotCoveredBy(rule, Some(floor), start, now) :: Survives(start, floor, now, rule.interval, rule.dropsAfter))
            <==> || AgingUp(now - floor) <= rule.dropsAfter - HOUR - rule.interval + 1
                 || (rule.retain > 0 && AgingDown(rule.retain) <= rule.dropsAfter - HOUR - rule.interval + 1)
  {
    KeepaliveExact(rule, floor, now, rule.dropsAfter);
  }

  /**
    An index created under seven days, on a daemon whose default is thirty, with rotation
    behind (twenty days of partitions), is one of them: some start is called covered and
    the next rotation drops past it.
   */
  lemma OverdueIndexWindowOutrunsTheLine() returns (start: Instant, floor': Instant)
    ensures var day := 24 * HOUR;
            var rule := Rule(30 * day, 5 * MINUTE, 7 * day);
            && SnapshotCoveredBy(rule, Some(-20 * day), start, 0)
            && FloorReachable(-20 * day, floor', 7 * day, rule.interval)
            && start < floor'
  {
    var day := 24 * HOUR;
    var rule := Rule(30 * day, 5 * MINUTE, 7 * day);
    OverdueIndexExactly(rule, -20 * day, 0);
    start :| SnapshotCoveredBy(rule, Some(-20 * day), start, 0) && !Survives(start, -20 * day, 0, rule.interval, 7 * day);
    LineNotBelowFloor(rule, -20 * day, 0);
    floor' := Max(-20 * day, rule.interval - 7 * day + HOUR);
  }

  // --------------------------------------------------------------- whole runs

  /** One table of a snapshot: its file alone, written at `base`, or a chain of deltas from `start`. */
  datatype Table = NoChain(base: Instant) | Chain(start: Instant)

  /** Where a reader of the table starts fetching events, in a snapshot named by `at`. */
  function ReaderStart(table: Table, at: Instant): Instant {
    match table
    case NoChain(_) => at
    case Chain(start) => start
  }

  datatype Snapshot = Snapshot(at: Instant, tables: seq<Table>)

  function EarliestStart(at: Instant, tables: seq<Table>): (r: Instant)
    ensures r <= at
    ensures forall i | 0 <= i < |tables| :: r <= ReaderStart(tables[i], at)
    ensures r == at || exists i | 0 <= i < |tables| :: r == ReaderStart(tables[i], at)
  {
    if tables == [] then at
    else
      var rest := EarliestStart(at, tables[1..]);
      assert forall i | 0 < i < |tables| :: tables[i] == tables[1..][i - 1];
      assert ReaderStart(tables[0], at) <= rest || rest == at || exists i | 0 < i < |tables| :: rest == ReaderStart(tables[i], at);
      Min(ReaderStart(tables[0], at), rest)
  }

  /** `SnapshotReadsFrom`: the earliest instant a reader of any table fetches from. */
  function ReadsFrom(s: Snapshot): Instant {
    EarliestStart(s.at, s.tables)
  }

  /** What the fold's other rules (age, size, changes) ask for a table; the line may overrule it. */
  datatype Choice = Carry | Extend | Rewrite

  /** One table of a fold at `at`: a chain that starts at or before the line is ended, and a new one begins at `at`. */
  function FoldTable(table: Table, choice: Choice, at: Instant, line: Instant): Table {
    match table
    case Chain(start) =>
      if choice.Rewrite? || start <= line then Chain(at) else Chain(start)
    case NoChain(base) =>
      if choice.Carry? then NoChain(base)
      else if choice.Rewrite? || base <= line then Chain(at)
      else Chain(base)
  }

  function FoldSnapshot(s: Snapshot, choices: seq<Choice>, at: Instant, line: Instant): Snapshot
    requires |choices| == |s.tables|
  {
    Snapshot(at, seq(|s.tables|, i requires 0 <= i < |s.tables| => FoldTable(s.tables[i], choices[i], at, line)))
  }

  /** After a fold every reader starts at the fold or strictly after the line it ended chains on. */
  lemma FoldMovesEveryStart(s: Snapshot, choices: seq<Choice>, at: Instant, line: Instant)
    requires |choices| == |s.tables|
    ensures var from := ReadsFrom(FoldSnapshot(s, choices, at, line)); from == at || (line < from <= at)
  {
    var s' := FoldSnapshot(s, choices, at, line);
    var from := ReadsFrom(s');
    if from != at {
      var i :| 0 <= i < |s'.tables| && from == ReaderStart(s'.tables[i], at);
    }
  }

  /**
    No livelock: the start that opened the gate at `now` is ended by the fold anchored
    later at the same floor, and the gate asked again at the fold's own instant is
    closed exactly when a snapshot dated there is covered at all.
   */
  lemma GateAndFoldAgree(rule: Rule, floor: Instant, now: Instant, at: Instant, s: Snapshot, choices: seq<Choice>)
    requires now <= at && |choices| == |s.tables|
    requires !SnapshotCoveredBy(rule, Some(floor), ReadsFrom(s), now)
    ensures forall i | 0 <= i < |s.tables| && s.tables[i].Chain? && s.tables[i].start <= Line(rule, floor, now) ::
              FoldTable(s.tables[i], choices[i], at, Line(rule, floor, at)) == Chain(at)
    ensures var s' := FoldSnapshot(s, choices, at, Line(rule, floor, at));
            SnapshotCoveredBy(rule, Some(floor), ReadsFrom(s'), at) <==> at > Line(rule, floor, at)
  {
    LineMonotoneInNow(rule, floor, now, at);
    FoldMovesEveryStart(s, choices, at, Line(rule, floor, at));
  }

  /**
    No table is written in full without a cause: a chain keeps its start over any folds
    that neither choose to rewrite it nor find it at or before the line, and a table's
    file alone stays for as long as it is carried.
   */
  lemma {:induction false} TablesLastUntilEnded(rule: Rule, floor: Instant, s: Snapshot, folds: seq<(Instant, seq<Choice>)>, i: nat)
    requires i < |s.tables| && forall k | 0 <= k < |folds| :: |folds[k].1| == |s.tables|
    requires match s.tables[i]
             case Chain(start) => forall k | 0 <= k < |folds| :: !folds[k].1[i].Rewrite? && start > Line(rule, floor, folds[k].0)
             case NoChain(_) => forall k | 0 <= k < |folds| :: folds[k].1[i].Carry?
    ensures FoldAll(rule, floor, s, folds).tables[i] == s.tables[i]
    decreases |folds|
  {
    if folds != [] {
      TablesLastUntilEnded(rule, floor, s, folds[..|folds| - 1], i);
    }
  }

  /**
    What one more fold does to a table at that point: a rewrite, or a line that has
    reached it, starts its chain at the fold; an extension starts one at the file.
   */
  lemma FoldEndsOrExtends(s: Snapshot, choices: seq<Choice>, at: Instant, line: Instant, i: nat)
    requires |choices| == |s.tables| && i < |s.tables| && !choices[i].Carry?
    ensures var start := if s.tables[i].Chain? then s.tables[i].start else s.tables[i].base;
            FoldSnapshot(s, choices, at, line).tables[i] == Chain(if choices[i].Rewrite? || start <= line then at else start)
  {
  }

  /** The snapshot after a sequence of folds at one floor and rule. */
  function FoldAll(rule: Rule, floor: Instant, s: Snapshot, folds: seq<(Instant, seq<Choice>)>): (r: Snapshot)
    requires forall i | 0 <= i < |folds| :: |folds[i].1| == |s.tables|
    ensures |r.tables| == |s.tables|
    decreases |folds|
  {
    if folds == [] then s
    else
      var last := folds[|folds| - 1];
      FoldSnapshot(FoldAll(rule, floor, s, folds[..|folds| - 1]), last.1, last.0, Line(rule, floor, last.0))
  }

  predicate Increasing(first: Instant, folds: seq<(Instant, seq<Choice>)>) {
    forall i | 0 <= i < |folds| :: first < folds[i].0 && (i > 0 ==> folds[i - 1].0 <= folds[i].0)
  }

  /**
    A start that opened the gate opens it once: at one floor and rule, after the fold it
    released and after any folds that follow, every reader starts after it.
   */
  lemma ForcedStartNeverReturns(rule: Rule, floor: Instant, now: Instant, s: Snapshot, folds: seq<(Instant, seq<Choice>)>)
    requires folds != [] && Increasing(now, folds) && s.at <= now && forall i | 0 <= i < |folds| :: |folds[i].1| == |s.tables|
    requires !SnapshotCoveredBy(rule, Some(floor), ReadsFrom(s), now)
    ensures ReadsFrom(FoldAll(rule, floor, s, folds)) > ReadsFrom(s)
  {
    var init, last := folds[..|folds| - 1], folds[|folds| - 1];
    LineMonotoneInNow(rule, floor, now, last.0);
    FoldMovesEveryStart(FoldAll(rule, floor, s, init), last.1, last.0, Line(rule, floor, last.0));
  }

  /**
    One refresh cycle. The gate looks at `now` and reads `floor`; a fold is anchored
    at `at` and reads `foldFloor`. `busy` is any other reason to fold. Until the next
    cycle rotation drops on `window`.
   */
  datatype Cycle = Cycle(now: Instant, floor: Instant, at: Instant, foldFloor: Instant, busy: bool,
                         choices: seq<Choice>, rule: Rule, window: Duration)

  /** Where a run stands: the newest snapshot, and what the last look saw. */
  datatype State = State(snapshot: Snapshot, look: Instant, floor: Instant, interval: Duration, window: Duration)

  predicate Skips(s: Snapshot, c: Cycle) {
    !c.busy && SnapshotCoveredBy(c.rule, Some(c.floor), ReadsFrom(s), c.now)
  }

  /** The fold refuses when a reader of the snapshot it starts from needs events the index has dropped. */
  predicate FoldRefuses(s: Snapshot, c: Cycle) {
    !Skips(s, c) && ReadsFrom(s) < c.foldFloor
  }

  function After(s: State, c: Cycle): State
    requires |c.choices| == |s.snapshot.tables|
  {
    if Skips(s.snapshot, c) then State(s.snapshot, c.now, c.floor, c.rule.interval, c.window)
    else if FoldRefuses(s.snapshot, c) then State(s.snapshot, c.at, c.foldFloor, c.rule.interval, c.window)
    else State(FoldSnapshot(s.snapshot, c.choices, c.at, Line(c.rule, c.foldFloor, c.at)), c.at, c.foldFloor, c.rule.interval, c.window)
  }

  /**
    What a run is held to: a cycle comes within the interval of the look before it,
    floors move as rotation moves them, and rotation drops on a window the rule the
    cycle read speaks for, at least an hour and an interval long. The rule and the
    window may change from one cycle to the next.
   */
  predicate Legal(s: State, c: Cycle) {
    && |c.choices| == |s.snapshot.tables|
    && s.look <= c.now <= c.at <= s.look + s.interval
    && FloorReachable(s.floor, c.floor, s.window, c.now)
    && FloorReachable(c.floor, c.foldFloor, s.window, c.at)
    && c.foldFloor <= c.at
    && c.rule.interval >= 0
    && c.window >= HOUR + c.rule.interval
    && RuleWindow(c.rule, c.floor, c.now, c.window)
    && RuleWindow(c.rule, c.foldFloor, c.at, c.window)
  }

  predicate LegalRun(s: State, run: seq<Cycle>)
    decreases |run|
  {
    run == [] || (Legal(s, run[0]) && LegalRun(After(s, run[0]), run[1..]))
  }

  predicate Kept(s: State) {
    Survives(ReadsFrom(s.snapshot), s.floor, s.look, s.interval, s.window)
  }

  /** The state a run reaches after its first `n` cycles. */
  function StateAt(s: State, run: seq<Cycle>, n: nat): State
    requires n <= |run| && LegalRun(s, run)
    decreases |run|
  {
    if n == 0 then s else StateAt(After(s, run[0]), run[1..], n - 1)
  }

  lemma CycleKeeps(s: State, c: Cycle)
    requires Kept(s) && Legal(s, c)
    ensures c.floor <= ReadsFrom(s.snapshot) && c.foldFloor <= ReadsFrom(s.snapshot)
    ensures !FoldRefuses(s.snapshot, c)
    ensures Kept(After(s, c))
  {
    if Skips(s.snapshot, c) {
      KeepaliveExact(c.rule, c.floor, c.now, c.window);
    } else {
      var line := Line(c.rule, c.foldFloor, c.at);
      FoldMovesEveryStart(s.snapshot, c.choices, c.at, line);
      KeepaliveExact(c.rule, c.foldFloor, c.at, c.window);
      LineNotBelowFloor(c.rule, c.foldFloor, c.at);
    }
  }

  /**
    Keepalive over whole runs: at every cycle of every legal run the snapshot's readers
    start at or above both floors the cycle reads, so no fold the gate releases is
    already outside coverage.
   */
  lemma {:induction false} KeepaliveWholeRun(s: State, run: seq<Cycle>, k: nat)
    requires Kept(s) && LegalRun(s, run) && k < |run|
    ensures var before := StateAt(s, run, k).snapshot;
            && run[k].floor <= ReadsFrom(before)
            && run[k].foldFloor <= ReadsFrom(before)
            && !FoldRefuses(before, run[k])
    decreases k
  {
    CycleKeeps(s, run[0]);
    if k > 0 {
      KeepaliveWholeRun(After(s, run[0]), run[1..], k - 1);
      assert run[k] == run[1..][k - 1];
    }
  }

  /** The cycle asks for no fold of its own and finds the snapshot sound. */
  predicate Idle(s: Snapshot, c: Cycle) {
    !c.busy && Sound(c.rule, c.floor, ReadsFrom(s), c.now)
  }

  /** A cycle leaves the snapshot alone exactly when it is idle or the fold is refused; otherwise it publishes one dated at its own instant. */
  lemma CycleFoldsExactlyWhenNeeded(s: State, c: Cycle)
    requires |c.choices| == |s.snapshot.tables|
    ensures var s' := After(s, c);
            if Idle(s.snapshot, c) then s'.snapshot == s.snapshot && s'.look == c.now && s'.floor == c.floor
            else
              && s'.look == c.at && s'.floor == c.foldFloor
              && (if ReadsFrom(s.snapshot) < c.foldFloor then s'.snapshot == s.snapshot
                  else s'.snapshot.at == c.at && |s'.snapshot.tables| == |s.snapshot.tables|)
  {
    CoveredIsTheVerdict(c.rule, Some(c.floor), ReadsFrom(s.snapshot), c.now);
  }

  /** So a server on which nothing happens is folded again only when its snapshot stops being sound: not at all over a run that is idle at every cycle. */
  lemma {:induction false} IdleRunFoldsNothing(s: State, run: seq<Cycle>)
    requires LegalRun(s, run) && forall c <- run :: Idle(s.snapshot, c)
    ensures StateAt(s, run, |run|).snapshot == s.snapshot
    decreases |run|
  {
    if run != [] {
      assert run[0] in run;
      CycleFoldsExactlyWhenNeeded(s, run[0]);
      assert forall c <- run[1..] :: c in run;
      IdleRunFoldsNothing(After(s, run[0]), run[1..]);
    }
  }

  /** A run may start at any full read: its tables have no chain and it is dated at or above the floor. */
  lemma FullReadStartsARun(s: State)
    requires s.interval >= 0 && s.floor <= s.look == s.snapshot.at && s.window >= HOUR + s.interval
    requires forall t <- s.snapshot.tables :: t.NoChain?
    ensures Kept(s)
  {
    forall i | 0 <= i < |s.snapshot.tables|
      ensures ReaderStart(s.snapshot.tables[i], s.snapshot.at) == s.snapshot.at
    {
      assert s.snapshot.tables[i] in s.snapshot.tables;
    }
  }
}
