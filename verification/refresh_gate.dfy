/**
  The gate that skips an update cycle when nothing was indexed. The index is written and
  trimmed while a cycle runs, the two high-water marks are two reads, and a cycle can be
  cut off anywhere: the model interleaves all of them.
 */
module RefreshGate {

  import opened Prelude

  /**
    One table of the index (row events, or schema changes): ids are handed out in order
    from 1, each row carries the time its statement ran, and rotation drops rows.
   */
  datatype Log = Log(next: nat, stamps: map<nat, Instant>, live: set<nat>)

  const EMPTY := Log(1, map[], {})

  function Insert(l: Log, stamp: Instant): Log {
    Log(l.next + 1, l.stamps[l.next := stamp], l.live + {l.next})
  }

  function Drop(l: Log, ids: set<nat>): Log {
    l.(live := l.live - ids)
  }

  /** What `SELECT MAX(id)` answers: an empty table is a mark of zero. */
  ghost predicate IsMark(l: Log, m: nat) {
    if l.live == {} then m == 0 else m in l.live && forall i <- l.live :: i <= m
  }

  datatype Mark = Mark(rows: nat, changes: nat)

  /** What a clean update leaves behind (`foldMemo`). */
  datatype Memo = Memo(mark: Mark, at: Instant)

  /**
    Where a cycle is. `SawRows` and `SawBoth` remember which ids existed when each table
    was read, for the statement only; `known` is false when a read failed.
   */
  datatype Phase =
    | Idle
    | SawRows(rows: nat, rowsThen: nat)
    | SawBoth(mark: Mark, rowsThen: nat, changesThen: nat, known: bool)
    | Anchored(mark: Mark, at: Instant, known: bool)
    | Skipped(rowsThen: nat, changesThen: nat)

  datatype Result = Clean | NotUploaded | Refused

  /** `early` is only for the other order: an instant taken before the marks are read. */
  datatype State = State(
    now: Instant, rows: Log, changes: Log, foldedRows: set<nat>, foldedChanges: set<nat>, memo: Option<Memo>, phase: Phase, early: Option<Instant>)

  const INIT := State(0, EMPTY, EMPTY, {}, {}, None, Idle, None)

  datatype Action =
    | Tick(later: Instant)
    | IndexRow(stamp: Instant)
    | IndexChange(stamp: Instant)
    | Rotate(rows: set<nat>, changes: set<nat>)
    | ReadRows(mark: nat)
    | ReadChanges(mark: nat)
    | ReadFails
    | Anchor
    | Fold(result: Result)
    | Skip
    | Restart
    | AnchorFirst
    | Rebuild(newRows: Log, newChanges: Log)

  /**
    What a run is held to: no statement is stamped later than it was indexed, the instant
    is taken after the marks, and the index is never rebuilt.
   */
  datatype Rules = Rules(clocksAgree: bool, anchorLast: bool, neverRebuilt: bool)

  const ALL_RULES := Rules(true, true, true)
  const NO_RULES := Rules(false, false, false)

  /** A table as it can be: ids from 1 up, every row with its time. */
  ghost predicate WellFormed(l: Log) {
    l.next >= 1 && forall i <- l.live :: 0 < i < l.next && i in l.stamps
  }

  ghost predicate StampedBy(l: Log, now: Instant) {
    forall i <- l.live | i in l.stamps :: l.stamps[i] <= now
  }

  ghost predicate Enabled(s: State, a: Action, rules: Rules) {
    match a
    case Tick(later) => s.now <= later
    case IndexRow(stamp) => rules.clocksAgree ==> stamp <= s.now
    case IndexChange(stamp) => rules.clocksAgree ==> stamp <= s.now
    case Rotate(_, _) => true
    case ReadRows(m) => (s.phase.Idle? || s.phase.Skipped?) && IsMark(s.rows, m)
    case ReadChanges(m) => s.phase.SawRows? && IsMark(s.changes, m)
    case ReadFails => s.phase.Idle? || s.phase.Skipped? || s.phase.SawRows?
    case Anchor => s.phase.SawBoth?
    case Fold(_) => s.phase.Anchored?
    case Skip => s.phase.SawBoth? && s.phase.known && s.memo.Some? && s.phase.mark == s.memo.value.mark
    case Restart => true
    case AnchorFirst => !rules.anchorLast && (s.phase.Idle? || s.phase.Skipped?)
    case Rebuild(rows, changes) =>
      !rules.neverRebuilt && WellFormed(rows) && WellFormed(changes) && (rules.clocksAgree ==> StampedBy(rows, s.now) && StampedBy(changes, s.now))
  }

  /** What a fold that targets `at` takes: everything the index still holds up to it. */
  ghost function Taken(l: Log, at: Instant): set<nat> {
    set i | i in l.live && i in l.stamps && l.stamps[i] <= at
  }

  ghost function Apply(s: State, a: Action): State
    requires Enabled(s, a, NO_RULES)
  {
    match a
    case Tick(later) => s.(now := later)
    case IndexRow(stamp) => s.(rows := Insert(s.rows, stamp))
    case IndexChange(stamp) => s.(changes := Insert(s.changes, stamp))
    case Rotate(rows, changes) => s.(rows := Drop(s.rows, rows), changes := Drop(s.changes, changes))
    case ReadRows(m) => s.(phase := SawRows(m, s.rows.next))
    case ReadChanges(m) => s.(phase := SawBoth(Mark(s.phase.rows, m), s.phase.rowsThen, s.changes.next, true))
    case ReadFails => s.(phase := SawBoth(Mark(0, 0), 0, 0, false))
    case Anchor => s.(phase := Anchored(s.phase.mark, if s.early.Some? then s.early.value else s.now, s.phase.known), early := None)
    case Fold(result) =>
      var p := s.phase;
      var f := s.(phase := Idle);
      if result.Refused? then f
      else
        f.(foldedRows := s.foldedRows + Taken(s.rows, p.at), foldedChanges := s.foldedChanges + Taken(s.changes, p.at),
           memo := if result.Clean? && p.known then Some(Memo(p.mark, p.at)) else s.memo)
    case Skip => s.(phase := Skipped(s.phase.rowsThen, s.phase.changesThen), early := None)
    case Restart => s.(memo := None, phase := Idle, early := None)
    case AnchorFirst => s.(phase := Idle, early := Some(s.now))
    case Rebuild(rows, changes) => s.(rows := rows, changes := changes, foldedRows := {}, foldedChanges := {})
  }

  // ------------------------------------------------------------- invariants

  ghost predicate LogInv(l: Log, now: Instant) {
    l.next >= 1 && forall i <- l.live :: 0 < i < l.next && i in l.stamps && l.stamps[i] <= now
  }

  /** Everything a mark counts is at or before an instant. */
  ghost predicate CountedBy(l: Log, mark: nat, at: Instant) {
    mark < l.next && forall i <- l.live | i <= mark :: i in l.stamps && l.stamps[i] <= at
  }

  /** Everything a mark counts that is still held has been folded. */
  ghost predicate FoldedUpTo(l: Log, mark: nat, folded: set<nat>) {
    mark < l.next && forall i <- l.live | i <= mark :: i in folded
  }

  /** The mark counts everything that existed at the read. */
  ghost predicate CountsAllBefore(l: Log, mark: nat, before: nat) {
    mark < before <= l.next && forall i <- l.live | i < before :: i <= mark
  }

  ghost predicate PhaseInv(s: State) {
    match s.phase
    case Idle => true
    case SawRows(m, n) => CountsAllBefore(s.rows, m, n)
    case SawBoth(mark, n, k, known) =>
      known ==> CountsAllBefore(s.rows, mark.rows, n) && CountsAllBefore(s.changes, mark.changes, k) &&
                CountedBy(s.rows, mark.rows, s.now) && CountedBy(s.changes, mark.changes, s.now)
    case Anchored(mark, at, known) =>
      at <= s.now && (known ==> CountedBy(s.rows, mark.rows, at) && CountedBy(s.changes, mark.changes, at))
    case Skipped(n, k) => FoldedBefore(s.rows, n, s.foldedRows) && FoldedBefore(s.changes, k, s.foldedChanges)
  }

  /** Every row held that existed at the read has been folded. */
  ghost predicate FoldedBefore(l: Log, before: nat, folded: set<nat>) {
    before <= l.next && forall i <- l.live | i < before :: i in folded
  }

  ghost predicate Inv(s: State) {
    && LogInv(s.rows, s.now) && LogInv(s.changes, s.now) && s.early.None?
    && (s.memo.Some? ==>
          FoldedUpTo(s.rows, s.memo.value.mark.rows, s.foldedRows) && FoldedUpTo(s.changes, s.memo.value.mark.changes, s.foldedChanges))
    && PhaseInv(s)
  }

  /** The index moved on: rows were added under new ids or dropped, none was changed. */
  ghost predicate Later(l: Log, l': Log) {
    && l.next <= l'.next
    && forall i <- l'.live :: i >= l.next || (i in l.live && (i in l.stamps ==> i in l'.stamps && l'.stamps[i] == l.stamps[i]))
  }

  lemma MarksOutliveTheIndex(l: Log, l': Log, mark: nat, at: Instant, folded: set<nat>, before: nat)
    requires Later(l, l')
    ensures CountedBy(l, mark, at) ==> CountedBy(l', mark, at)
    ensures FoldedUpTo(l, mark, folded) ==> FoldedUpTo(l', mark, folded)
    ensures CountsAllBefore(l, mark, before) ==> CountsAllBefore(l', mark, before)
    ensures FoldedBefore(l, before, folded) ==> FoldedBefore(l', before, folded)
  {
  }

  lemma IndexMoves(s: State, s': State)
    requires Inv(s) && Later(s.rows, s'.rows) && Later(s.changes, s'.changes)
    requires LogInv(s'.rows, s'.now) && LogInv(s'.changes, s'.now) && s.now <= s'.now
    requires s' == s.(now := s'.now, rows := s'.rows, changes := s'.changes)
    ensures Inv(s')
  {
    var mark := if s.memo.Some? then s.memo.value.mark else Mark(0, 0);
    MarksOutliveTheIndex(s.rows, s'.rows, mark.rows, s.now, s.foldedRows, 0);
    MarksOutliveTheIndex(s.changes, s'.changes, mark.changes, s.now, s.foldedChanges, 0);
    match s.phase {
      case Idle =>
      case SawRows(m, n) =>
        MarksOutliveTheIndex(s.rows, s'.rows, m, s.now, {}, n);
      case SawBoth(m, n, k, _) =>
        MarksOutliveTheIndex(s.rows, s'.rows, m.rows, s.now, {}, n);
        MarksOutliveTheIndex(s.changes, s'.changes, m.changes, s.now, {}, k);
      case Anchored(m, at, _) =>
        MarksOutliveTheIndex(s.rows, s'.rows, m.rows, at, {}, 0);
        MarksOutliveTheIndex(s.changes, s'.changes, m.changes, at, {}, 0);
      case Skipped(n, k) =>
        MarksOutliveTheIndex(s.rows, s'.rows, 0, s.now, s.foldedRows, n);
        MarksOutliveTheIndex(s.changes, s'.changes, 0, s.now, s.foldedChanges, k);
    }
  }

  lemma FoldKeeps(s: State, result: Result)
    requires Inv(s) && s.phase.Anchored?
    ensures Inv(Apply(s, Fold(result)))
  {
    var s' := Apply(s, Fold(result));
    if result.Clean? && s.phase.known {
      FoldTakesTheCounted(s.rows, s.phase.mark.rows, s.phase.at, s.foldedRows);
      FoldTakesTheCounted(s.changes, s.phase.mark.changes, s.phase.at, s.foldedChanges);
    }
  }

  /** Why the instant is taken after the marks are read: the fold then looks at everything they count. */
  lemma FoldTakesTheCounted(l: Log, mark: nat, at: Instant, folded: set<nat>)
    requires CountedBy(l, mark, at)
    ensures FoldedUpTo(l, mark, folded + Taken(l, at))
  {
  }

  lemma CycleKeeps(s: State, a: Action)
    requires Inv(s) && Enabled(s, a, ALL_RULES)
    requires a.ReadRows? || a.ReadChanges? || a.ReadFails? || a.Anchor? || a.Skip? || a.Restart?
    ensures Inv(Apply(s, a))
  {
    match a {
      case ReadRows(m) => assert CountsAllBefore(s.rows, m, s.rows.next);
      case ReadChanges(m) => assert CountsAllBefore(s.changes, m, s.changes.next);
      case _ =>
    }
  }

  lemma StepKeeps(s: State, a: Action)
    requires Inv(s) && Enabled(s, a, ALL_RULES)
    ensures Inv(Apply(s, a))
  {
    if a.Fold? {
      FoldKeeps(s, a.result);
    } else if a.Tick? || a.IndexRow? || a.IndexChange? || a.Rotate? {
      IndexMoves(s, Apply(s, a));
    } else {
      CycleKeeps(s, a);
    }
  }

  // ------------------------------------------------------------------- runs

  ghost predicate Legal(s: State, run: seq<Action>, rules: Rules)
    decreases |run|
  {
    run == [] || (Enabled(s, run[0], rules) && Legal(Apply(s, run[0]), run[1..], rules))
  }

  ghost function After(s: State, run: seq<Action>, rules: Rules): State
    requires Legal(s, run, rules)
    decreases |run|
  {
    if run == [] then s else After(Apply(s, run[0]), run[1..], rules)
  }

  lemma {:induction false} Concat(s: State, a: seq<Action>, b: seq<Action>, rules: Rules)
    requires Legal(s, a, rules) && Legal(After(s, a, rules), b, rules)
    ensures Legal(s, a + b, rules) && After(s, a + b, rules) == After(After(s, a, rules), b, rules)
    decreases |a|
  {
    if a == [] {
      assert a + b == b;
    } else {
      assert (a + b)[0] == a[0] && (a + b)[1..] == a[1..] + b;
      Concat(Apply(s, a[0]), a[1..], b, rules);
    }
  }

  lemma {:induction false} RunKeeps(s: State, run: seq<Action>)
    requires Inv(s) && Legal(s, run, ALL_RULES)
    ensures Inv(After(s, run, ALL_RULES))
    decreases |run|
  {
    if run != [] {
      StepKeeps(s, run[0]);
      RunKeeps(Apply(s, run[0]), run[1..]);
    }
  }

  /** A skipped cycle that had something to fold, indexed before it read the marks. */
  ghost predicate HidesWork(s: State) {
    s.phase.Skipped? &&
    ((exists i <- s.rows.live :: i < s.phase.rowsThen && i !in s.foldedRows) ||
     (exists i <- s.changes.live :: i < s.phase.changesThen && i !in s.foldedChanges))
  }

  /**
    A skip hides no work: after any run held to the rules, a skipped cycle had nothing
    unfolded that was indexed before it read the marks. And whatever a remembered mark
    counts was folded, however the index was trimmed since.
   */
  lemma SkipHidesNothing(run: seq<Action>)
    requires Legal(INIT, run, ALL_RULES)
    ensures var s := After(INIT, run, ALL_RULES);
            && !HidesWork(s)
            && (s.memo.Some? ==>
                  && (forall i <- s.rows.live | i <= s.memo.value.mark.rows :: i in s.foldedRows)
                  && (forall i <- s.changes.live | i <= s.memo.value.mark.changes :: i in s.foldedChanges))
  {
    RunKeeps(INIT, run);
  }

  // ------------------------------------------------------ what is remembered

  /** A step of a cycle, or the end of one; the index and the clock move in between. */
  predicate OfACycle(a: Action) {
    a.ReadRows? || a.ReadChanges? || a.ReadFails? || a.Anchor? || a.Fold? || a.Skip? || a.Restart? || a.AnchorFirst?
  }

  /** The last of them before a place in a run. */
  function LastStep(run: seq<Action>, n: nat): (r: Option<nat>)
    requires n <= |run|
    ensures r.Some? ==> r.value < n
  {
    if n == 0 then None else if OfACycle(run[n - 1]) then Some(n - 1) else LastStep(run, n - 1)
  }

  function Clock(run: seq<Action>, n: nat): Instant
    requires n <= |run|
  {
    if n == 0 then 0 else if run[n - 1].Tick? then run[n - 1].later else Clock(run, n - 1)
  }

  /** The marks a cycle read, when both reads went through and this is the second. */
  function MarksRead(run: seq<Action>, j: nat): Option<Mark>
    requires j < |run|
  {
    var i := LastStep(run, j);
    if run[j].ReadChanges? && i.Some? && run[i.value].ReadRows? then Some(Mark(run[i.value].mark, run[j].mark)) else None
  }

  /** What a fold is worth remembering by: it was clean, and its cycle read both marks and then took its instant. */
  function Remembers(run: seq<Action>, l: nat): Option<Memo>
    requires l < |run|
  {
    var k := LastStep(run, l);
    if run[l] != Fold(Clean) || k.None? || !run[k.value].Anchor? then None
    else
      var j := LastStep(run, k.value);
      var marks := if j.Some? then MarksRead(run, j.value) else None;
      if marks.None? then None else Some(Memo(marks.value, Clock(run, k.value)))
  }

  /** A place in a run where everything a cycle does next is decided by the steps it took. */
  ghost predicate PhaseIs(run: seq<Action>, n: nat, s: State)
    requires n <= |run|
  {
    var last := LastStep(run, n);
    && s.now == Clock(run, n) && s.early.None?
    && if last.None? then s.phase == Idle
       else
         match run[last.value]
         case ReadRows(m) => s.phase.SawRows? && s.phase.rows == m
         case ReadChanges(_) => s.phase.SawBoth? && s.phase.known && MarksRead(run, last.value) == Some(s.phase.mark)
         case ReadFails => s.phase.SawBoth? && !s.phase.known
         case Anchor =>
           var j := LastStep(run, last.value);
           s.phase.Anchored? && s.phase.at == Clock(run, last.value) && j.Some? &&
           MarksRead(run, j.value) == if s.phase.known then Some(s.phase.mark) else None
         case Skip => s.phase.Skipped?
         case _ => s.phase == Idle
  }

  lemma {:induction false} Prefix(s: State, run: seq<Action>, n: nat, rules: Rules)
    requires Legal(s, run, rules) && n < |run|
    ensures Legal(s, run[..n], rules) && Enabled(After(s, run[..n], rules), run[n], rules)
    ensures Legal(s, run[..n + 1], rules) && After(s, run[..n + 1], rules) == Apply(After(s, run[..n], rules), run[n])
    decreases n
  {
    if n == 0 {
      assert run[..1][1..] == [];
    } else {
      assert run[..n][1..] == run[1..][..n - 1] && run[..n + 1][1..] == run[1..][..n];
      Prefix(Apply(s, run[0]), run[1..], n - 1, rules);
    }
  }

  lemma {:induction false} PhaseAfter(run: seq<Action>, n: nat, rules: Rules)
    requires Legal(INIT, run, rules) && rules.anchorLast && n <= |run|
    ensures Legal(INIT, run[..n], rules) && PhaseIs(run, n, After(INIT, run[..n], rules))
    decreases n
  {
    if n > 0 {
      PhaseAfter(run, n - 1, rules);
      Prefix(INIT, run, n - 1, rules);
    }
  }

  /** The last fold worth remembering before a place in a run, if nothing was restarted since. */
  ghost predicate RemembersLast(run: seq<Action>, n: nat, l: nat, memo: Memo)
    requires l < n <= |run|
  {
    Remembers(run, l) == Some(memo) && forall k | l < k < n :: !run[k].Restart? && Remembers(run, k).None?
  }

  ghost predicate Recalls(run: seq<Action>, n: nat, memo: Memo)
    requires n <= |run|
  {
    exists l | 0 <= l < n :: RemembersLast(run, n, l, memo)
  }

  lemma OneMoreStep(run: seq<Action>, n: nat, memo: Memo)
    requires 0 < n <= |run|
    ensures Recalls(run, n, memo) <==>
            Remembers(run, n - 1) == Some(memo) || (!run[n - 1].Restart? && Remembers(run, n - 1).None? && Recalls(run, n - 1, memo))
  {
    if Remembers(run, n - 1) == Some(memo) {
      assert RemembersLast(run, n, n - 1, memo);
    }
    if !run[n - 1].Restart? && Remembers(run, n - 1).None? && Recalls(run, n - 1, memo) {
      var l :| 0 <= l < n - 1 && RemembersLast(run, n - 1, l, memo);
      assert RemembersLast(run, n, l, memo);
    }
    if Recalls(run, n, memo) {
      var l :| 0 <= l < n && RemembersLast(run, n, l, memo);
      assert l < n - 1 ==> RemembersLast(run, n - 1, l, memo);
    }
  }

  lemma {:induction false} LastIsLast(run: seq<Action>, n: nat, l: nat)
    requires l < n <= |run| && OfACycle(run[l])
    ensures LastStep(run, n).Some? && l <= LastStep(run, n).value
    decreases n
  {
    if !OfACycle(run[n - 1]) {
      LastIsLast(run, n - 1, l);
    }
  }

  lemma MemoStep(run: seq<Action>, n: nat, rules: Rules)
    requires Legal(INIT, run, rules) && rules.anchorLast && n < |run|
    ensures Legal(INIT, run[..n], rules) && Legal(INIT, run[..n + 1], rules)
    ensures After(INIT, run[..n + 1], rules).memo ==
            if Remembers(run, n).Some? then Remembers(run, n) else if run[n].Restart? then None else After(INIT, run[..n], rules).memo
  {
    PhaseAfter(run, n, rules);
    Prefix(INIT, run, n, rules);
  }

  /**
    Over every run, whatever the index does meanwhile: a memo is remembered exactly when it
    is that of the last clean fold taken with known marks, at the instant its cycle took
    after reading them, and no restart came since.
   */
  lemma {:induction false} MemoIsTheLastCleanFold(run: seq<Action>, n: nat, memo: Memo, rules: Rules)
    requires Legal(INIT, run, rules) && rules.anchorLast && n <= |run|
    ensures Legal(INIT, run[..n], rules)
    ensures After(INIT, run[..n], rules).memo == Some(memo) <==> Recalls(run, n, memo)
    decreases n
  {
    if n > 0 {
      MemoIsTheLastCleanFold(run, n - 1, memo, rules);
      MemoStep(run, n - 1, rules);
      OneMoreStep(run, n, memo);
    }
  }

  lemma SkipReadTheMarks(run: seq<Action>, n: nat, rules: Rules) returns (j: nat, memo: Memo)
    requires Legal(INIT, run, rules) && rules.anchorLast && n < |run| && run[n].Skip?
    ensures j < n && LastStep(run, n) == Some(j) && MarksRead(run, j) == Some(memo.mark)
    ensures Legal(INIT, run[..n], rules) && After(INIT, run[..n], rules).memo == Some(memo)
  {
    PhaseAfter(run, n, rules);
    Prefix(INIT, run, n, rules);
    j, memo := LastStep(run, n).value, After(INIT, run[..n], rules).memo.value;
  }

  /** So a skipped cycle rests on a clean fold that read the very marks this cycle read. */
  lemma SkipRestsOnACleanFold(run: seq<Action>, n: nat, rules: Rules)
    requires Legal(INIT, run, rules) && rules.anchorLast && n < |run| && run[n].Skip?
    ensures exists l, j, memo | 0 <= l < j < n :: RemembersLast(run, n, l, memo) && MarksRead(run, j) == Some(memo.mark) && LastStep(run, n) == Some(j)
  {
    var j, memo := SkipReadTheMarks(run, n, rules);
    MemoIsTheLastCleanFold(run, n, memo, rules);
    var l :| 0 <= l < n && RemembersLast(run, n, l, memo);
    LastIsLast(run, n, l);
  }

  /** A fold that published nothing takes nothing: what is folded, and what is remembered, stay. */
  lemma RefusedFoldTakesNothing(s: State, result: Result)
    requires Enabled(s, Fold(result), NO_RULES)
    ensures var s' := Apply(s, Fold(result));
            && s'.rows == s.rows && s'.changes == s.changes && s'.phase == Idle
            && (result.Refused? ==> s'.foldedRows == s.foldedRows && s'.foldedChanges == s.foldedChanges)
            && (!result.Refused? ==>
                  && (forall i <- s.rows.live :: i in s'.foldedRows <==> i in s.foldedRows || (i in s.rows.stamps && s.rows.stamps[i] <= s.phase.at))
                  && (forall i <- s.changes.live :: i in s'.foldedChanges <==> i in s.foldedChanges || (i in s.changes.stamps && s.changes.stamps[i] <= s.phase.at)))
            && (!result.Clean? ==> s'.memo == s.memo)
  {
  }

  // --------------------------------------------------- what each rule is for

  /** A clean fold, then a cycle that finds both marks where they were. */
  function QuietCycle(mark: Mark): seq<Action> {
    [Fold(Clean), ReadRows(mark.rows), ReadChanges(mark.changes), Skip]
  }

  ghost predicate MarksAre(s: State, mark: Mark) {
    IsMark(s.rows, mark.rows) && IsMark(s.changes, mark.changes)
  }

  lemma Steps(s: State, a: Action, rest: seq<Action>, rules: Rules)
    ensures Legal(s, [a] + rest, rules) <==> Enabled(s, a, rules) && Legal(Apply(s, a), rest, rules)
    ensures Legal(s, [a] + rest, rules) ==> After(s, [a] + rest, rules) == After(Apply(s, a), rest, rules)
  {
    assert ([a] + rest)[1..] == rest;
  }

  lemma QuietCycleSteps(s: State, rules: Rules)
    requires s.phase.Anchored? && s.phase.known && s.early.None? && MarksAre(s, s.phase.mark)
    ensures Legal(s, QuietCycle(s.phase.mark), rules)
    ensures var s' := After(s, QuietCycle(s.phase.mark), rules);
            && s'.phase == Skipped(s.rows.next, s.changes.next) && s'.rows == s.rows && s'.changes == s.changes
            && s'.foldedRows == s.foldedRows + Taken(s.rows, s.phase.at) && s'.foldedChanges == s.foldedChanges + Taken(s.changes, s.phase.at)
  {
    var m := s.phase.mark;
    var s1 := Apply(s, Fold(Clean));
    var s2 := Apply(s1, ReadRows(m.rows));
    var s3 := Apply(s2, ReadChanges(m.changes));
    var none: seq<Action> := [];
    Steps(s3, Skip, none, rules);
    Steps(s2, ReadChanges(m.changes), [Skip] + none, rules);
    Steps(s1, ReadRows(m.rows), [ReadChanges(m.changes)] + ([Skip] + none), rules);
    Steps(s, Fold(Clean), [ReadRows(m.rows)] + ([ReadChanges(m.changes)] + ([Skip] + none)), rules);
    assert QuietCycle(m) == [Fold(Clean)] + ([ReadRows(m.rows)] + ([ReadChanges(m.changes)] + ([Skip] + none)));
  }

  /** A live row past an instant that no fold took. */
  ghost predicate Late(l: Log, folded: set<nat>, at: Instant) {
    exists i <- l.live :: i in l.stamps && l.stamps[i] > at && i !in folded
  }

  /**
    Whenever the marks stand still, the next quiet cycle is skipped, and it hides work
    exactly when the marks count a row event or a schema change that is stamped past the
    instant and that no earlier fold took.
   */
  lemma LateStatementIsHidden(s: State, rules: Rules)
    requires s.phase.Anchored? && s.phase.known && s.early.None? && MarksAre(s, s.phase.mark)
    requires WellFormed(s.rows) && WellFormed(s.changes)
    ensures Legal(s, QuietCycle(s.phase.mark), rules)
    ensures var s' := After(s, QuietCycle(s.phase.mark), rules);
            && s'.phase.Skipped?
            && (HidesWork(s') <==> Late(s.rows, s.foldedRows, s.phase.at) || Late(s.changes, s.foldedChanges, s.phase.at))
  {
    QuietCycleSteps(s, rules);
    var s' := After(s, QuietCycle(s.phase.mark), rules);
    forall i <- s.rows.live
      ensures i < s'.phase.rowsThen && (i !in s'.foldedRows <==> s.rows.stamps[i] > s.phase.at && i !in s.foldedRows)
    {
    }
    forall i <- s.changes.live
      ensures i < s'.phase.changesThen && (i !in s'.foldedChanges <==> s.changes.stamps[i] > s.phase.at && i !in s.foldedChanges)
    {
    }
  }

  const AHEAD := Rules(false, true, true)
  const SWAPPED := Rules(true, false, true)
  const REBUILT := Rules(true, true, false)

  function SourceAhead(stamp: Instant): seq<Action> {
    [IndexChange(stamp)] + ([ReadRows(0)] + ([ReadChanges(1)] + ([Anchor] + [])))
  }

  /** A source whose clock is ahead of the daemon's, by however little, has its statement hidden: a run from the start. */
  lemma SourceAheadHides(stamp: Instant)
    requires stamp > 0
    ensures Legal(INIT, SourceAhead(stamp) + QuietCycle(Mark(0, 1)), AHEAD)
    ensures HidesWork(After(INIT, SourceAhead(stamp) + QuietCycle(Mark(0, 1)), AHEAD))
  {
    var none: seq<Action> := [];
    var s1 := Apply(INIT, IndexChange(stamp));
    var s2 := Apply(s1, ReadRows(0));
    var s3 := Apply(s2, ReadChanges(1));
    var s4 := Apply(s3, Anchor);
    Steps(s3, Anchor, none, AHEAD);
    Steps(s2, ReadChanges(1), [Anchor] + none, AHEAD);
    Steps(s1, ReadRows(0), [ReadChanges(1)] + ([Anchor] + none), AHEAD);
    Steps(INIT, IndexChange(stamp), [ReadRows(0)] + ([ReadChanges(1)] + ([Anchor] + none)), AHEAD);
    assert MarksAre(s4, Mark(0, 1));
    assert 1 in s4.changes.live && s4.changes.stamps[1] > s4.phase.at;
    LateStatementIsHidden(s4, AHEAD);
    Concat(INIT, SourceAhead(stamp), QuietCycle(Mark(0, 1)), AHEAD);
  }

  function TooEarly(later: Instant): seq<Action> {
    [AnchorFirst] + ([Tick(later)] + ([IndexChange(later)] + ([ReadRows(0)] + ([ReadChanges(1)] + ([Anchor] + [])))))
  }

  /** With the instant taken before the marks are read, a statement that runs in between is hidden, clocks agreeing. */
  lemma AnchorFirstHides(later: Instant)
    requires later > 0
    ensures Legal(INIT, TooEarly(later) + QuietCycle(Mark(0, 1)), SWAPPED)
    ensures HidesWork(After(INIT, TooEarly(later) + QuietCycle(Mark(0, 1)), SWAPPED))
  {
    var none: seq<Action> := [];
    var s1 := Apply(INIT, AnchorFirst);
    var s2 := Apply(s1, Tick(later));
    var s3 := Apply(s2, IndexChange(later));
    var s4 := Apply(s3, ReadRows(0));
    var s5 := Apply(s4, ReadChanges(1));
    var s6 := Apply(s5, Anchor);
    Steps(s5, Anchor, none, SWAPPED);
    Steps(s4, ReadChanges(1), [Anchor] + none, SWAPPED);
    Steps(s3, ReadRows(0), [ReadChanges(1)] + ([Anchor] + none), SWAPPED);
    Steps(s2, IndexChange(later), [ReadRows(0)] + ([ReadChanges(1)] + ([Anchor] + none)), SWAPPED);
    Steps(s1, Tick(later), [IndexChange(later)] + ([ReadRows(0)] + ([ReadChanges(1)] + ([Anchor] + none))), SWAPPED);
    Steps(INIT, AnchorFirst, [Tick(later)] + ([IndexChange(later)] + ([ReadRows(0)] + ([ReadChanges(1)] + ([Anchor] + none)))), SWAPPED);
    assert MarksAre(s6, Mark(0, 1));
    assert 1 in s6.changes.live && s6.changes.stamps[1] > s6.phase.at;
    LateStatementIsHidden(s6, SWAPPED);
    Concat(INIT, TooEarly(later), QuietCycle(Mark(0, 1)), SWAPPED);
  }

  /** The index is rebuilt, and the next cycle reads its marks and skips. */
  function RebuiltAndSkipped(rows: Log, changes: Log, mark: Mark): seq<Action> {
    [Rebuild(rows, changes)] + ([ReadRows(mark.rows)] + ([ReadChanges(mark.changes)] + ([Skip] + [])))
  }

  lemma RebuiltSteps(s: State, rows: Log, changes: Log, mark: Mark)
    requires s.phase.Idle? && s.memo.Some? && Enabled(s, Rebuild(rows, changes), REBUILT)
    requires IsMark(rows, mark.rows) && IsMark(changes, mark.changes)
    ensures Legal(s, RebuiltAndSkipped(rows, changes, mark), REBUILT) <==> mark == s.memo.value.mark
    ensures mark == s.memo.value.mark ==>
              var t := After(s, RebuiltAndSkipped(rows, changes, mark), REBUILT);
              t.phase == Skipped(rows.next, changes.next) && t.rows == rows && t.changes == changes && t.foldedRows == {} && t.foldedChanges == {}
  {
    var none: seq<Action> := [];
    var s1 := Apply(s, Rebuild(rows, changes));
    var s2 := Apply(s1, ReadRows(mark.rows));
    var s3 := Apply(s2, ReadChanges(mark.changes));
    Steps(s3, Skip, none, REBUILT);
    Steps(s2, ReadChanges(mark.changes), [Skip] + none, REBUILT);
    Steps(s1, ReadRows(mark.rows), [ReadChanges(mark.changes)] + ([Skip] + none), REBUILT);
    Steps(s, Rebuild(rows, changes), [ReadRows(mark.rows)] + ([ReadChanges(mark.changes)] + ([Skip] + none)), REBUILT);
  }

  /**
    A rebuilt index restarts its ids, and nothing of it has been folded: the next cycle is
    skipped and hides work exactly when both new marks happen to equal the remembered ones
    and the rebuilt index holds anything.
   */
  lemma RebuiltIndexHidesOnlyByCoincidence(s: State, rows: Log, changes: Log, mark: Mark)
    requires s.phase.Idle? && s.memo.Some? && Enabled(s, Rebuild(rows, changes), REBUILT)
    requires IsMark(rows, mark.rows) && IsMark(changes, mark.changes)
    ensures var steps := RebuiltAndSkipped(rows, changes, mark);
            (Legal(s, steps, REBUILT) && HidesWork(After(s, steps, REBUILT))) <==>
            mark == s.memo.value.mark && (rows.live != {} || changes.live != {})
  {
    RebuiltSteps(s, rows, changes, mark);
    if rows.live != {} {
      var i :| i in rows.live;
    }
    if changes.live != {} {
      var i :| i in changes.live;
    }
  }

  function OneFold(): seq<Action> {
    [IndexRow(0)] + ([ReadRows(1)] + ([ReadChanges(0)] + ([Anchor] + ([Fold(Clean)] + []))))
  }

  lemma OneFoldSteps()
    ensures Legal(INIT, OneFold(), REBUILT)
    ensures var s := After(INIT, OneFold(), REBUILT);
            s.phase == Idle && s.now == 0 && s.memo == Some(Memo(Mark(1, 0), 0))
  {
    var none: seq<Action> := [];
    var s1 := Apply(INIT, IndexRow(0));
    var s2 := Apply(s1, ReadRows(1));
    var s3 := Apply(s2, ReadChanges(0));
    var s4 := Apply(s3, Anchor);
    Steps(s4, Fold(Clean), none, REBUILT);
    Steps(s3, Anchor, [Fold(Clean)] + none, REBUILT);
    Steps(s2, ReadChanges(0), [Anchor] + ([Fold(Clean)] + none), REBUILT);
    Steps(s1, ReadRows(1), [ReadChanges(0)] + ([Anchor] + ([Fold(Clean)] + none)), REBUILT);
    Steps(INIT, IndexRow(0), [ReadRows(1)] + ([ReadChanges(0)] + ([Anchor] + ([Fold(Clean)] + none))), REBUILT);
  }

  /** And it happens: one row folded, the index rebuilt with one row, the row hidden. */
  lemma RebuiltIndexHides()
    ensures var one := Log(2, map[1 := 0], {1});
            var run := OneFold() + RebuiltAndSkipped(one, EMPTY, Mark(1, 0));
            Legal(INIT, run, REBUILT) && HidesWork(After(INIT, run, REBUILT))
  {
    var one := Log(2, map[1 := 0], {1});
    OneFoldSteps();
    RebuiltIndexHidesOnlyByCoincidence(After(INIT, OneFold(), REBUILT), one, EMPTY, Mark(1, 0));
    Concat(INIT, OneFold(), RebuiltAndSkipped(one, EMPTY, Mark(1, 0)), REBUILT);
  }
}
