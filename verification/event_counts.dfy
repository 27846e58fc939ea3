/**
  How many row events an update applied, told from the index mark it read and the mark
  read before the snapshot it started from. That base is remembered in memory and, so
  that a restart does not lose it, in the run history.
 */
module EventCounts {

  import opened Prelude

  datatype Kind = FullRead | Update | Restore

  /** One line of the run history; `snapshot` is the second that names what it published. */
  datatype Record = Record(kind: Kind, snapshot: Option<int>, failed: bool, indexMark: nat)

  /** The memo of this process's last clean update (`foldMemo`). */
  datatype Memo = Memo(mark: nat, publishedAt: Instant, index: string, destination: string)

  /** Memory, the history (absent when the daemon keeps none), and the snapshot the next update starts from. */
  datatype Book = Book(memo: Option<Memo>, history: Option<seq<Record>>, newest: Option<Instant>)

  datatype Server = Server(index: string, destination: string)

  /** A snapshot directory is named by a whole second. */
  function NameOf(at: Instant): int {
    at / SECOND
  }

  /** No record after this one names the snapshot. */
  predicate IsLastNaming(history: seq<Record>, name: int, i: nat)
    requires i < |history|
  {
    history[i].snapshot == Some(name) && forall j | i < j < |history| :: history[j].snapshot != Some(name)
  }

  /** The newest record that names a snapshot. */
  function FindBySnapshot(history: seq<Record>, name: int): (r: Option<Record>)
    ensures r.Some? ==> exists i | 0 <= i < |history| :: history[i] == r.value && IsLastNaming(history, name, i)
    ensures r.None? ==> forall x <- history :: x.snapshot != Some(name)
  {
    if history == [] then None
    else if history[|history| - 1].snapshot == Some(name) then
      assert IsLastNaming(history, name, |history| - 1);
      Some(history[|history| - 1])
    else
      assert forall i | 0 <= i < |history| - 1 && IsLastNaming(history[..|history| - 1], name, i) :: IsLastNaming(history, name, i);
      FindBySnapshot(history[..|history| - 1], name)
  }

  /** The scan itself, newest record first. */
  method ScanForSnapshot(history: seq<Record>, name: int) returns (r: Option<Record>)
    ensures r == FindBySnapshot(history, name)
  {
    var i := |history|;
    assert history[..i] == history;
    while i > 0
      invariant 0 <= i <= |history| && FindBySnapshot(history, name) == FindBySnapshot(history[..i], name)
    {
      assert history[..i][..i - 1] == history[..i - 1];
      if history[i - 1].snapshot == Some(name) {
        return Some(history[i - 1]);
      }
      i := i - 1;
    }
    return None;
  }

  /** `IndexMarkFor`: a zero mark was never recorded; a full read counts even with an error, an update only without. */
  function IndexMarkFor(history: seq<Record>, name: int): Option<nat> {
    var r := FindBySnapshot(history, name);
    if r.None? || r.value.indexMark == 0 then None
    else if r.value.kind.FullRead? || (r.value.kind.Update? && !r.value.failed) then Some(r.value.indexMark)
    else None
  }

  /** A record whose mark a later count may start from: a full read, or an update without an error, that read a mark at all. */
  predicate GivesABase(r: Record) {
    r.indexMark > 0 && (r.kind == FullRead || (r.kind == Update && !r.failed))
  }

  /** The mark found is that of the last record that names the snapshot, and only if that one gives a base. */
  lemma MarkIsTheLastRecords(history: seq<Record>, name: int, mark: nat)
    ensures IndexMarkFor(history, name) == Some(mark) <==>
            exists i | 0 <= i < |history| :: IsLastNaming(history, name, i) && GivesABase(history[i]) && history[i].indexMark == mark
  {
    var r := FindBySnapshot(history, name);
    if i :| 0 <= i < |history| && IsLastNaming(history, name, i) && GivesABase(history[i]) && history[i].indexMark == mark {
      assert r.Some?;
      var j :| 0 <= j < |history| && history[j] == r.value && IsLastNaming(history, name, j);
      assert i == j;
    }
  }

  /** `measuredEvents`. */
  function MeasuredEvents(b: Book, server: Server, mark: Option<nat>, prev: Option<Instant>): nat {
    if mark.None? || prev.None? then 0
    else
      var base :=
        if b.memo.Some? && NameOf(b.memo.value.publishedAt) == NameOf(prev.value) then
          if b.memo.value.index != server.index || b.memo.value.destination != server.destination then None
          else Some(b.memo.value.mark)
        else if (b.memo.Some? && b.memo.value.index != server.index) || b.history.None? then None
        else IndexMarkFor(b.history.value, NameOf(prev.value));
      if base.None? || mark.value < base.value then 0 else mark.value - base.value
  }

  /** `windowBase`: the base the cut-over probe counts a window from. */
  function WindowBase(b: Book, index: string, anchor: Option<Instant>): Option<nat> {
    if anchor.None? then None
    else if b.memo.Some? && b.memo.value.index != index then None
    else if b.memo.Some? && NameOf(b.memo.value.publishedAt) == NameOf(anchor.value) then Some(b.memo.value.mark)
    else if b.history.Some? then IndexMarkFor(b.history.value, NameOf(anchor.value))
    else None
  }

  /** The estimate and the later count start from one base, unless the snapshots go somewhere else since. */
  lemma ProbeAndCountAgree(b: Book, server: Server, mark: nat, prev: Option<Instant>)
    ensures var base := WindowBase(b, server.index, prev);
            var probe := if base.None? || mark < base.value then 0 else mark - base.value;
            var moved := prev.Some? && b.memo.Some? && NameOf(b.memo.value.publishedAt) == NameOf(prev.value) &&
                         b.memo.value.destination != server.destination;
            MeasuredEvents(b, server, Some(mark), prev) == probe <==> !moved || probe == 0
  {
  }

  /** A count never mixes two indexes, nor, by what this process remembers, two destinations; and without a mark, a snapshot or a base there is none. */
  lemma CountsNeverMix(b: Book, server: Server, mark: Option<nat>, prev: Option<Instant>)
    ensures b.memo.Some? && b.memo.value.index != server.index ==> MeasuredEvents(b, server, mark, prev) == 0 && WindowBase(b, server.index, prev).None?
    ensures b.memo.Some? && prev.Some? && NameOf(b.memo.value.publishedAt) == NameOf(prev.value) && b.memo.value.destination != server.destination ==>
              MeasuredEvents(b, server, mark, prev) == 0
    ensures mark.None? || prev.None? ==> MeasuredEvents(b, server, mark, prev) == 0
    ensures b.memo.None? && prev.Some? && (b.history.None? || forall m: nat :: IndexMarkFor(b.history.value, NameOf(prev.value)) != Some(m)) ==>
              MeasuredEvents(b, server, mark, prev) == 0 && WindowBase(b, server.index, prev).None?
  {
  }

  // --------------------------------------------------------------- sequences

  /** What happens to one server's book: a clean update, a restart, or a run that publishes nothing. */
  datatype Event = Updated(mark: nat, at: Instant) | Restarted | Noted(record: Record)

  function Next(b: Book, server: Server, e: Event): Book {
    match e
    case Updated(mark, at) =>
      Book(Some(Memo(mark, at, server.index, server.destination)),
           if b.history.None? then None else Some(b.history.value + [Record(Update, Some(NameOf(at)), false, mark)]),
           Some(NameOf(at) * SECOND))
    case Restarted => b.(memo := None)
    case Noted(record) => b.(history := if b.history.None? then None else Some(b.history.value + [record]))
  }

  /** Each update reads a mark no lower than the last and publishes under a later second. */
  predicate Legal(name: int, mark: nat, events: seq<Event>)
    decreases |events|
  {
    events == [] ||
    match events[0]
    case Updated(m, at) => mark <= m && name < NameOf(at) && Legal(NameOf(at), m, events[1..])
    case Restarted => Legal(name, mark, events[1..])
    case Noted(record) => record.snapshot.None? && Legal(name, mark, events[1..])
  }

  function TotalMeasured(b: Book, server: Server, events: seq<Event>): nat
    decreases |events|
  {
    if events == [] then 0
    else
      (if events[0].Updated? then MeasuredEvents(b, server, Some(events[0].mark), b.newest) else 0) +
      TotalMeasured(Next(b, server, events[0]), server, events[1..])
  }

  function LastMark(mark: nat, events: seq<Event>): nat
    decreases |events|
  {
    if events == [] then mark else LastMark(if events[0].Updated? then events[0].mark else mark, events[1..])
  }

  /** What goes uncounted: a base of zero that only the history could give. */
  function Uncounted(mark: nat, remembered: bool, events: seq<Event>): nat
    decreases |events|
  {
    if events == [] then 0
    else
      match events[0]
      case Updated(m, _) => (if !remembered && mark == 0 then m else 0) + Uncounted(m, true, events[1..])
      case Restarted => Uncounted(mark, false, events[1..])
      case Noted(_) => Uncounted(mark, remembered, events[1..])
  }

  /** The book knows the snapshot `name` and the mark read before it, in the history and, if remembered, in memory. */
  predicate Knows(b: Book, server: Server, name: int, mark: nat, remembered: bool) {
    && b.newest == Some(name * SECOND) && b.history.Some?
    && (if remembered then
          b.memo.Some? && NameOf(b.memo.value.publishedAt) == name && b.memo.value.mark == mark &&
          b.memo.value.index == server.index && b.memo.value.destination == server.destination
        else b.memo.None?)
    && var r := FindBySnapshot(b.history.value, name);
       r.Some? && r.value.indexMark == mark && (r.value.kind.FullRead? || (r.value.kind.Update? && !r.value.failed))
  }

  /** Memory and history give the same count exactly when the mark on record is not zero, or nothing was indexed since. */
  lemma MemoryAndHistoryAgree(b: Book, server: Server, name: int, base: nat, mark: nat)
    requires Knows(b, server, name, base, true)
    ensures MeasuredEvents(b, server, Some(mark), b.newest) == MeasuredEvents(b.(memo := None), server, Some(mark), b.newest)
            <==> base != 0 || mark == 0
  {
  }

  lemma NextKnows(b: Book, server: Server, name: int, mark: nat, remembered: bool, e: Event)
    requires Knows(b, server, name, mark, remembered)
    requires e.Noted? ==> e.record.snapshot.None?
    ensures match e
            case Updated(m, at) => Knows(Next(b, server, e), server, NameOf(at), m, true)
            case Restarted => Knows(Next(b, server, e), server, name, mark, false)
            case Noted(_) => Knows(Next(b, server, e), server, name, mark, remembered)
  {
    var h := b.history.value;
    if e.Updated? {
      var r := Record(Update, Some(NameOf(e.at)), false, e.mark);
      assert (h + [r])[|h + [r]| - 1] == r;
    } else if e.Noted? {
      assert (h + [e.record])[..|h + [e.record]| - 1] == h;
    }
  }

  /** Counts telescope: over any sequence of updates, restarts and other runs they add up to the last mark less the first. */
  lemma {:induction false} CountsTelescope(b: Book, server: Server, name: int, mark: nat, remembered: bool, events: seq<Event>)
    requires Knows(b, server, name, mark, remembered) && Legal(name, mark, events)
    ensures TotalMeasured(b, server, events) + Uncounted(mark, remembered, events) == LastMark(mark, events) - mark
    decreases |events|
  {
    if events != [] {
      var e := events[0];
      NextKnows(b, server, name, mark, remembered, e);
      match e {
        case Updated(m, at) => CountsTelescope(Next(b, server, e), server, NameOf(at), m, true, events[1..]);
        case Restarted => CountsTelescope(Next(b, server, e), server, name, mark, false, events[1..]);
        case Noted(_) => CountsTelescope(Next(b, server, e), server, name, mark, remembered, events[1..]);
      }
    }
  }

  /** Once a mark is not zero nothing goes uncounted, whatever restarts follow. */
  lemma {:induction false} NothingUncountedAfterANonzeroMark(name: int, mark: nat, remembered: bool, events: seq<Event>)
    requires Legal(name, mark, events) && mark > 0
    ensures Uncounted(mark, remembered, events) == 0
    decreases |events|
  {
    if events != [] {
      match events[0] {
        case Updated(m, at) => NothingUncountedAfterANonzeroMark(NameOf(at), m, true, events[1..]);
        case Restarted => NothingUncountedAfterANonzeroMark(name, mark, false, events[1..]);
        case Noted(_) => NothingUncountedAfterANonzeroMark(name, mark, remembered, events[1..]);
      }
    }
  }
}
