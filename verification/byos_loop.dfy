/**
  The agent's stream loop: events are gathered into batches, every batch goes to the
  buffer and, when sinks are configured, to the metadata and the payload sink, where a
  batch that fails every retry is lost and counted. What `select` picked at each turn,
  and what the network answered, are inputs.
 */
module ByosLoop {

  import opened Prelude

  datatype EventKind = RowChange | Gtid | Ddl | Commit | CaughtUp

  /** `splits`: whether the event can be split into its metadata and its payload. */
  datatype Event = Event(kind: EventKind, id: nat, splits: bool)

  /** What a sink answers to each attempt, and whether the agent is told to stop while it waits for the next. */
  datatype Replies = Replies(ok: seq<bool>, stops: seq<bool>)

  predicate Succeeds(r: Replies, k: nat) {
    k < |r.ok| && r.ok[k]
  }

  predicate Stops(r: Replies, k: nat) {
    k < |r.stops| && r.stops[k]
  }

  datatype Identity = Uuid(value: nat) | QueryFails | ContextEnds

  /** What `select` picked; `stopping` is whether the context had ended by then. */
  datatype Turn =
    | Done
    | Evict
    | FlushTick(stopping: bool, meta: Replies, payload: Replies)
    | IdentityTick(answer: Identity, stopping: bool, meta: Replies, payload: Replies)
    | Arrives(event: Event, stopping: bool, meta: Replies, payload: Replies)
    | Closed(stopping: bool, meta: Replies, payload: Replies)

  datatype Exit = Running | Returned | Failed

  /** `uuid` is what the identity pointer was seeded with, `None` when it was not. */
  datatype Config = Config(batchSize: int, hasMeta: bool, hasPayload: bool, uuid: Option<nat>, checksIdentity: bool)

  const ATTEMPTS := 3
  const MAX_IDENTITY_FAILURES := 10

  predicate IsRow(e: Event) {
    e.kind.RowChange?
  }

  function BatchSize(c: Config): nat
    ensures BatchSize(c) > 0
  {
    if c.batchSize <= 0 then 1000 else c.batchSize
  }

  /** The row events of a run's turns, in order. */
  function Rows(turns: seq<Turn>): seq<Event> {
    if turns == [] then []
    else Rows(turns[..|turns| - 1]) + var t := turns[|turns| - 1]; if t.Arrives? && IsRow(t.event) then [t.event] else []
  }

  function Flat(batches: seq<seq<Event>>): seq<Event> {
    if batches == [] then [] else Flat(batches[..|batches| - 1]) + batches[|batches| - 1]
  }

  function Splittable(batch: seq<Event>): nat {
    if batch == [] then 0 else Splittable(batch[..|batch| - 1]) + if batch[|batch| - 1].splits then 1 else 0
  }

  /** How many identity reads in a row have failed; a context that ended says nothing. */
  function FailuresInARow(turns: seq<Turn>): nat {
    if turns == [] then 0
    else
      var t := turns[|turns| - 1];
      if t.IdentityTick? && t.answer.QueryFails? then FailuresInARow(turns[..|turns| - 1]) + 1
      else if t.IdentityTick? && t.answer.Uuid? then 0
      else FailuresInARow(turns[..|turns| - 1])
  }

  lemma FlatGrows(batches: seq<seq<Event>>, batch: seq<Event>)
    ensures Flat(batches + [batch]) == Flat(batches) + batch
  {
    assert (batches + [batch])[..|batches|] == batches;
  }

  // ------------------------------------------------------------------ retry

  /** The attempt that ends the retries: the first that succeeds, is told to stop after, or is the last allowed. */
  predicate Ends(r: Replies, k: nat, max: nat) {
    Succeeds(r, k) || k + 1 == max || Stops(r, k)
  }

  /** The batch gets through: some allowed attempt succeeds before the agent is told to stop. */
  ghost predicate Delivers(r: Replies, max: nat) {
    exists k | 0 <= k < max :: GetsThrough(r, k)
  }

  predicate GetsThrough(r: Replies, k: nat) {
    Succeeds(r, k) && forall j | 0 <= j < k :: !Stops(r, j)
  }

  function Pow2(n: nat): nat {
    if n == 0 then 1 else 2 * Pow2(n - 1)
  }

  /** `retryFlush`. */
  method RetryFlush(max: nat, r: Replies) returns (ok: bool, attempts: nat, waited: nat)
    requires max > 0
    ensures 1 <= attempts <= max && Ends(r, attempts - 1, max) && forall k | 0 <= k < attempts - 1 :: !Ends(r, k, max)
    ensures ok <==> Delivers(r, max)
    ensures waited == Pow2(attempts - 1) - 1
  {
    ok, attempts, waited := false, 0, 0;
    var delay := 1;
    for k := 0 to max
      invariant attempts == k && delay == Pow2(k) && waited == Pow2(k) - 1
      invariant forall j | 0 <= j < k :: !Ends(r, j, max)
      invariant forall j | 0 <= j < k :: !Succeeds(r, j) && !Stops(r, j)
      invariant k < max
    {
      attempts := k + 1;
      ok := Succeeds(r, k);
      if ok {
        assert GetsThrough(r, k);
        return;
      }
      if k == max - 1 || Stops(r, k) {
        assert forall j | 0 <= j < max :: !GetsThrough(r, j);
        return;
      }
      waited := waited + delay;
      delay := delay * 2;
    }
  }

  // -------------------------------------------------------------- the sinks

  /** One sink's books: attempted, delivered and lost events, and lost batches. */
  datatype Sink = Sink(attempted: nat, delivered: nat, lost: nat, lostBatches: nat)

  /** A sink's books after a batch: delivered, or lost and counted. */
  function Booked(s: Sink, configured: bool, events: nat, delivered: bool): Sink {
    if !configured then s
    else if delivered then s.(attempted := s.attempted + events, delivered := s.delivered + events)
    else s.(attempted := s.attempted + events, lost := s.lost + events, lostBatches := s.lostBatches + 1)
  }

  predicate Grew(was: Sink, now: Sink) {
    was.attempted <= now.attempted && was.delivered <= now.delivered && was.lost <= now.lost && was.lostBatches <= now.lostBatches
  }

  // ------------------------------------------------------------ what is owed

  /** One batch that left the loop, and what held when it did. */
  datatype Flush = Flush(events: seq<Event>, stopping: bool, meta: Replies, payload: Replies)

  /** What the loop holds back, and what it let go. */
  datatype Books = Books(pending: seq<Event>, flushes: seq<Flush>)

  /** An identity read that ends the stream: another server, no seeded identity, or the tenth failure in a row. */
  predicate TearsDown(c: Config, answer: Identity, failures: nat) {
    match answer
    case QueryFails => failures + 1 >= MAX_IDENTITY_FAILURES
    case Uuid(v) => c.uuid != Some(v)
    case ContextEnds => false
  }

  /** The turns at which what is pending leaves the loop. */
  predicate LetsGo(c: Config, t: Turn, pending: seq<Event>, failures: nat) {
    match t
    case Done => true
    case Evict => false
    case FlushTick(_, _, _) => true
    case IdentityTick(answer, _, _, _) => TearsDown(c, answer, failures)
    case Arrives(event, _, _, _) => IsRow(event) && |pending| >= BatchSize(c)
    case Closed(_, _, _) => true
  }

  function FlushOf(t: Turn, events: seq<Event>): Flush {
    if t.Done? || t.Evict? then Flush(events, true, Replies([], []), Replies([], [])) else Flush(events, t.stopping, t.meta, t.payload)
  }

  function Turned(c: Config, b: Books, t: Turn, failures: nat): Books {
    var pending := b.pending + if t.Arrives? && IsRow(t.event) then [t.event] else [];
    if pending != [] && LetsGo(c, t, pending, failures) then Books([], b.flushes + [FlushOf(t, pending)]) else Books(pending, b.flushes)
  }

  /** What the turns so far come to. */
  function BooksAfter(c: Config, turns: seq<Turn>): Books {
    if turns == [] then Books([], [])
    else
      var init := turns[..|turns| - 1];
      Turned(c, BooksAfter(c, init), turns[|turns| - 1], FailuresInARow(init))
  }

  /** The sinks are offered a batch unless the agent is stopping; without a seeded identity the offer is an error. */
  predicate Offers(c: Config, f: Flush) {
    (c.hasMeta || c.hasPayload) && !f.stopping
  }

  predicate Sent(c: Config, f: Flush) {
    Offers(c, f) && c.uuid.Some? && Splittable(f.events) > 0
  }

  /** How a turn leaves the loop. */
  function ExitOf(c: Config, b: Books, t: Turn, failures: nat): Exit {
    var after := Turned(c, b, t, failures);
    if t.Done? || t.Closed? then Returned
    else if t.IdentityTick? && TearsDown(c, t.answer, failures) then Failed
    else if |after.flushes| > |b.flushes| && Offers(c, after.flushes[|after.flushes| - 1]) && c.uuid.None? then Failed
    else Running
  }

  /** How the turn at this place of a run leaves the loop. */
  function ExitIn(c: Config, turns: seq<Turn>, i: nat): Exit
    requires i < |turns|
  {
    ExitOf(c, BooksAfter(c, turns[..i]), turns[i], FailuresInARow(turns[..i]))
  }

  function Batches(fs: seq<Flush>): seq<seq<Event>> {
    seq(|fs|, i requires 0 <= i < |fs| => fs[i].events)
  }

  /** A sink's books over the batches let go: each one it was sent is delivered or lost by its own replies. */
  ghost function MetaAfter(c: Config, fs: seq<Flush>): Sink {
    if fs == [] then Sink(0, 0, 0, 0)
    else
      var f := fs[|fs| - 1];
      Booked(MetaAfter(c, fs[..|fs| - 1]), c.hasMeta && Sent(c, f), Splittable(f.events), Delivers(f.meta, ATTEMPTS))
  }

  ghost function PayloadAfter(c: Config, fs: seq<Flush>): Sink {
    if fs == [] then Sink(0, 0, 0, 0)
    else
      var f := fs[|fs| - 1];
      Booked(PayloadAfter(c, fs[..|fs| - 1]), c.hasPayload && Sent(c, f), Splittable(f.events), Delivers(f.payload, ATTEMPTS))
  }

  /** The events that split in the batches let go while not stopping and with a seeded identity. */
  function Offered(c: Config, fs: seq<Flush>): nat {
    if fs == [] then 0
    else Offered(c, fs[..|fs| - 1]) + if !fs[|fs| - 1].stopping && c.uuid.Some? then Splittable(fs[|fs| - 1].events) else 0
  }

  /** Of those, the ones whose batch got through by these replies. */
  ghost function Through(c: Config, fs: seq<Flush>, toMeta: bool): nat {
    if fs == [] then 0
    else
      var f := fs[|fs| - 1];
      Through(c, fs[..|fs| - 1], toMeta) +
      if !f.stopping && c.uuid.Some? && Delivers(if toMeta then f.meta else f.payload, 3) then Splittable(f.events) else 0
  }

  /** How many batches with anything to send did not. */
  ghost function Missed(c: Config, fs: seq<Flush>, toMeta: bool): nat {
    if fs == [] then 0
    else
      var f := fs[|fs| - 1];
      Missed(c, fs[..|fs| - 1], toMeta) +
      if !f.stopping && c.uuid.Some? && Splittable(f.events) > 0 && !Delivers(if toMeta then f.meta else f.payload, 3) then 1 else 0
  }

  lemma OneMoreFlush(c: Config, fs: seq<Flush>, f: Flush)
    ensures MetaAfter(c, fs + [f]) == Booked(MetaAfter(c, fs), c.hasMeta && Sent(c, f), Splittable(f.events), Delivers(f.meta, ATTEMPTS))
    ensures PayloadAfter(c, fs + [f]) == Booked(PayloadAfter(c, fs), c.hasPayload && Sent(c, f), Splittable(f.events), Delivers(f.payload, ATTEMPTS))
    ensures Batches(fs + [f]) == Batches(fs) + [f.events]
  {
    assert (fs + [f])[..|fs|] == fs;
  }

  /** The buffer and the books of both sinks. */
  datatype Ledger = Ledger(inserted: seq<seq<Event>>, meta: Sink, payload: Sink)

  /** A batch let go: into the buffer whole, and to each configured sink it is sent to. */
  ghost function Entered(c: Config, l: Ledger, f: Flush): Ledger {
    Ledger(l.inserted + [f.events],
           Booked(l.meta, c.hasMeta && Sent(c, f), Splittable(f.events), Delivers(f.meta, ATTEMPTS)),
           Booked(l.payload, c.hasPayload && Sent(c, f), Splittable(f.events), Delivers(f.payload, ATTEMPTS)))
  }

  ghost function LedgerAfter(c: Config, fs: seq<Flush>): Ledger {
    Ledger(Batches(fs), MetaAfter(c, fs), PayloadAfter(c, fs))
  }

  /** Nothing was let go, or one batch was and was entered. */
  ghost predicate Entry(c: Config, fs: seq<Flush>, l: Ledger, fs': seq<Flush>, l': Ledger) {
    || (fs' == fs && l' == l)
    || (|fs'| == |fs| + 1 && fs' == fs + [fs'[|fs|]] && l' == Entered(c, l, fs'[|fs|]))
  }

  lemma LedgerKeepsUp(c: Config, fs: seq<Flush>, l: Ledger, fs': seq<Flush>, l': Ledger)
    requires l == LedgerAfter(c, fs) && Entry(c, fs, l, fs', l')
    ensures l' == LedgerAfter(c, fs')
  {
    if fs' != fs {
      OneMoreFlush(c, fs, fs'[|fs|]);
    }
  }

  /** Conservation at each sink, for every sequence of batches and replies. */
  lemma {:induction false} SinksBalance(c: Config, fs: seq<Flush>)
    ensures var m := MetaAfter(c, fs);
            && m.attempted == m.delivered + m.lost && m.attempted == (if c.hasMeta then Offered(c, fs) else 0)
            && m.delivered == (if c.hasMeta then Through(c, fs, true) else 0) && m.lostBatches == (if c.hasMeta then Missed(c, fs, true) else 0)
    ensures var p := PayloadAfter(c, fs);
            && p.attempted == p.delivered + p.lost && p.attempted == (if c.hasPayload then Offered(c, fs) else 0)
            && p.delivered == (if c.hasPayload then Through(c, fs, false) else 0) && p.lostBatches == (if c.hasPayload then Missed(c, fs, false) else 0)
    decreases |fs|
  {
    if fs != [] {
      SinksBalance(c, fs[..|fs| - 1]);
    }
  }

  /** No counter ever goes back, over any continuation. */
  lemma {:induction false} SinksGrow(c: Config, fs: seq<Flush>, n: nat)
    requires n <= |fs|
    ensures Grew(MetaAfter(c, fs[..n]), MetaAfter(c, fs)) && Grew(PayloadAfter(c, fs[..n]), PayloadAfter(c, fs))
    decreases |fs|
  {
    if n == |fs| {
      assert fs[..n] == fs;
    } else {
      assert fs[..|fs| - 1][..n] == fs[..n];
      SinksGrow(c, fs[..|fs| - 1], n);
    }
  }

  /** Nothing is dropped or reordered between the stream and the batches, and every batch has one up to the batch size of events. */
  lemma {:induction false} BatchesAreTheRows(c: Config, turns: seq<Turn>)
    ensures var b := BooksAfter(c, turns);
            && Flat(Batches(b.flushes)) + b.pending == Rows(turns) && |b.pending| < BatchSize(c)
            && forall i | 0 <= i < |b.flushes| :: 1 <= |b.flushes[i].events| <= BatchSize(c)
    decreases |turns|
  {
    if turns != [] {
      var init := turns[..|turns| - 1];
      BatchesAreTheRows(c, init);
      var b, after := BooksAfter(c, init), BooksAfter(c, turns);
      if after.flushes != b.flushes {
        assert Batches(after.flushes) == Batches(b.flushes) + [after.flushes[|b.flushes|].events];
        FlatGrows(Batches(b.flushes), after.flushes[|b.flushes|].events);
      }
    }
  }

  /** The identity answered this turn ends the stream: another server's, none to compare with, or the tenth failure in a row. */
  predicate IdentityLost(c: Config, turns: seq<Turn>)
    requires turns != []
  {
    var t := turns[|turns| - 1];
    t.IdentityTick? &&
    ((t.answer.Uuid? && !(c.uuid.Some? && c.uuid.value == t.answer.value)) || (t.answer.QueryFails? && FailuresInARow(turns) >= 10))
  }

  /** A turn after which nothing may be held back: the end of the stream either way, a flush tick, a lost identity, or a row that fills the batch. */
  ghost predicate MustGo(c: Config, turns: seq<Turn>)
    requires turns != []
  {
    var t := turns[|turns| - 1];
    || t.Done? || t.Closed? || t.FlushTick? || IdentityLost(c, turns)
    || (t.Arrives? && IsRow(t.event) && |BooksAfter(c, turns[..|turns| - 1]).pending| + 1 >= BatchSize(c))
  }

  /** What is held back leaves at such a turn, whole and at once, with that turn's replies, and at no other. */
  lemma BatchesLeaveExactlyWhenDue(c: Config, turns: seq<Turn>)
    requires turns != []
    ensures var t, was, now := turns[|turns| - 1], BooksAfter(c, turns[..|turns| - 1]), BooksAfter(c, turns);
            var held := was.pending + if t.Arrives? && IsRow(t.event) then [t.event] else [];
            if MustGo(c, turns) && held != [] then
              && now.pending == [] && |now.flushes| == |was.flushes| + 1 && now.flushes[..|was.flushes|] == was.flushes
              && var f := now.flushes[|was.flushes|];
                 f.events == held && (if t.Done? then f.stopping else f.stopping == t.stopping && f.meta == t.meta && f.payload == t.payload)
            else now == Books(held, was.flushes)
  {
  }

  /** The loop returns at the end of the stream and fails on a lost identity, or on a batch to be sent with no identity to send it under; at every other turn it goes on. */
  lemma LeavesExactly(c: Config, turns: seq<Turn>)
    requires turns != []
    ensures var t, held := turns[|turns| - 1], BooksAfter(c, turns[..|turns| - 1]).pending;
            var exit := ExitIn(c, turns, |turns| - 1);
            && (exit == Returned <==> t.Done? || t.Closed?)
            && (exit == Failed <==>
                  || IdentityLost(c, turns)
                  || (c.uuid.None? && (c.hasMeta || c.hasPayload) &&
                      ((t.FlushTick? && !t.stopping && held != []) ||
                       (t.Arrives? && !t.stopping && IsRow(t.event) && |held| + 1 >= BatchSize(c)))))
  {
    BatchesLeaveExactlyWhenDue(c, turns);
  }

  lemma {:induction false} FlushesGrow(c: Config, turns: seq<Turn>, n: nat)
    requires n <= |turns|
    ensures BooksAfter(c, turns[..n]).flushes <= BooksAfter(c, turns).flushes
    decreases |turns|
  {
    if n == |turns| {
      assert turns[..n] == turns;
    } else {
      assert turns[..|turns| - 1][..n] == turns[..n];
      FlushesGrow(c, turns[..|turns| - 1], n);
    }
  }

  /** Over a whole run no sink's counters, its losses among them, ever go back. */
  lemma CountersNeverGoBack(c: Config, turns: seq<Turn>, n: nat)
    requires n <= |turns|
    ensures var early, now := BooksAfter(c, turns[..n]).flushes, BooksAfter(c, turns).flushes;
            Grew(MetaAfter(c, early), MetaAfter(c, now)) && Grew(PayloadAfter(c, early), PayloadAfter(c, now))
  {
    var early, now := BooksAfter(c, turns[..n]).flushes, BooksAfter(c, turns).flushes;
    FlushesGrow(c, turns, n);
    assert now[..|early|] == early;
    SinksGrow(c, now, |early|);
  }

  /** Once the loop has left, nothing is pending. */
  lemma NothingPendingAtTheEnd(c: Config, turns: seq<Turn>)
    requires turns != [] && !ExitIn(c, turns, |turns| - 1).Running?
    ensures BooksAfter(c, turns).pending == []
  {
  }

  // ---------------------------------------------------------------- the loop

  class Agent {
    const config: Config
    var inserted: seq<seq<Event>>
    var batch: seq<Event>
    var meta: Sink
    var payload: Sink
    var identityFailures: nat
    ghost var flushes: seq<Flush>

    constructor (config: Config)
      ensures this.config == config && Valid() && flushes == [] && batch == [] && identityFailures == 0
    {
      this.config := config;
      inserted, batch, meta, payload, identityFailures := [], [], Sink(0, 0, 0, 0), Sink(0, 0, 0, 0), 0;
      flushes := [];
    }

    /** The buffer holds the batches let go, and each sink's books are theirs. */
    ghost predicate Valid()
      reads this
    {
      Sheet() == LedgerAfter(config, flushes)
    }

    ghost function Sheet(): Ledger
      reads this
    {
      Ledger(inserted, meta, payload)
    }

    /** One sink's share of `flushToSinks` and `updateFlush`. */
    method Send(sink: Sink, configured: bool, events: nat, r: Replies) returns (after: Sink)
      ensures after == Booked(sink, configured, events, Delivers(r, ATTEMPTS))
    {
      if !configured {
        return sink;
      }
      var ok, _, _ := RetryFlush(ATTEMPTS, r);
      if ok {
        after := Sink(sink.attempted + events, sink.delivered + events, sink.lost, sink.lostBatches);
      } else {
        after := Sink(sink.attempted + events, sink.delivered, sink.lost + events, sink.lostBatches + 1);
      }
    }

    /** `flushToSinks`: an unseeded identity is an error, an event that does not split is left out. */
    method FlushToSinks(events: seq<Event>, metaReplies: Replies, payloadReplies: Replies) returns (ok: bool)
      modifies this`meta, this`payload
      ensures ok <==> config.uuid.Some?
      ensures var sent := ok && Splittable(events) > 0;
              && meta == Booked(old(meta), config.hasMeta && sent, Splittable(events), Delivers(metaReplies, ATTEMPTS))
              && payload == Booked(old(payload), config.hasPayload && sent, Splittable(events), Delivers(payloadReplies, ATTEMPTS))
    {
      if config.uuid.None? {
        return false;
      }
      var n := 0;
      for i := 0 to |events|
        invariant n == Splittable(events[..i])
      {
        assert events[..i + 1][..i] == events[..i];
        if events[i].splits {
          n := n + 1;
        }
      }
      assert events[..|events|] == events;
      if n == 0 {
        return true;
      }
      meta := Send(meta, config.hasMeta, n, metaReplies);
      payload := Send(payload, config.hasPayload, n, payloadReplies);
      return true;
    }

    /** `flushBatch`: the pending batch goes to the buffer first, and is never kept. */
    method FlushBatch(stopping: bool, metaReplies: Replies, payloadReplies: Replies) returns (ok: bool)
      modifies this`inserted, this`batch, this`meta, this`payload, this`flushes
      ensures Entry(config, old(flushes), old(Sheet()), flushes, Sheet()) && batch == []
      ensures var f := Flush(old(batch), stopping, metaReplies, payloadReplies);
              && flushes == (if old(batch) == [] then old(flushes) else old(flushes) + [f])
              && (!ok <==> old(batch) != [] && Offers(config, f) && config.uuid.None?)
    {
      if |batch| == 0 {
        return true;
      }
      ghost var f := Flush(batch, stopping, metaReplies, payloadReplies);
      inserted := inserted + [batch];
      ok := true;
      if (config.hasMeta || config.hasPayload) && !stopping {
        ok := FlushToSinks(batch, metaReplies, payloadReplies);
      }
      flushes := flushes + [f];
      batch := [];
    }

    /** `checkSourceIdentity`: `ok` is false when the stream must be torn down. */
    method CheckIdentity(answer: Identity) returns (ok: bool)
      modifies this`identityFailures
      ensures identityFailures == match answer case QueryFails => old(identityFailures) + 1 case Uuid(_) => 0 case ContextEnds => old(identityFailures)
      ensures ok <==> !TearsDown(config, answer, old(identityFailures))
    {
      match answer {
        case ContextEnds => return true;
        case QueryFails =>
          identityFailures := identityFailures + 1;
          return identityFailures < MAX_IDENTITY_FAILURES;
        case Uuid(v) =>
          identityFailures := 0;
          return config.uuid == Some(v);
      }
    }

    /** A full batch is let go after the row event that filled it. */
    method LetGo(t: Turn, ghost was: Books) returns (exit: Exit)
      requires t.Arrives? && IsRow(t.event) && was.flushes == flushes && batch == was.pending + [t.event] && |batch| >= BatchSize(config)
      modifies this`inserted, this`batch, this`meta, this`payload, this`flushes
      ensures Entry(config, old(flushes), old(Sheet()), flushes, Sheet())
      ensures Books(batch, flushes) == Turned(config, was, t, identityFailures)
      ensures exit == ExitOf(config, was, t, identityFailures)
    {
      var ok := FlushBatch(t.stopping, t.meta, t.payload);
      return if ok then Running else Failed;
    }

    /** A row event joins the batch. */
    method Arrive(t: Turn) returns (exit: Exit)
      requires t.Arrives?
      modifies this`inserted, this`batch, this`meta, this`payload, this`flushes
      ensures Entry(config, old(flushes), old(Sheet()), flushes, Sheet())
      ensures Books(batch, flushes) == Turned(config, old(Books(batch, flushes)), t, identityFailures)
      ensures exit == ExitOf(config, old(Books(batch, flushes)), t, identityFailures)
    {
      if !IsRow(t.event) {
        assert batch + [] == batch;
        return Running;
      }
      batch := batch + [t.event];
      if |batch| >= BatchSize(config) {
        exit := LetGo(t, old(Books(batch, flushes)));
      } else {
        exit := Running;
      }
    }

    method TickIdentity(t: Turn) returns (exit: Exit)
      requires t.IdentityTick?
      modifies this`inserted, this`batch, this`meta, this`payload, this`flushes, this`identityFailures
      ensures Entry(config, old(flushes), old(Sheet()), flushes, Sheet())
      ensures Books(batch, flushes) == Turned(config, old(Books(batch, flushes)), t, old(identityFailures))
      ensures exit == ExitOf(config, old(Books(batch, flushes)), t, old(identityFailures))
      ensures identityFailures == match t.answer case QueryFails => old(identityFailures) + 1 case Uuid(_) => 0 case ContextEnds => old(identityFailures)
    {
      assert batch + [] == batch;
      var ok := CheckIdentity(t.answer);
      if ok {
        return Running;
      }
      var _ := FlushBatch(t.stopping, t.meta, t.payload);
      return Failed;
    }

    /** One turn of the loop. */
    method Step(t: Turn) returns (exit: Exit)
      requires t.IdentityTick? ==> config.checksIdentity
      modifies this`inserted, this`batch, this`meta, this`payload, this`flushes, this`identityFailures
      ensures Entry(config, old(flushes), old(Sheet()), flushes, Sheet())
      ensures Books(batch, flushes) == Turned(config, old(Books(batch, flushes)), t, old(identityFailures))
      ensures exit == ExitOf(config, old(Books(batch, flushes)), t, old(identityFailures))
      ensures identityFailures ==
              if t.IdentityTick? && t.answer.QueryFails? then old(identityFailures) + 1
              else if t.IdentityTick? && t.answer.Uuid? then 0
              else old(identityFailures)
    {
      assert batch + [] == batch;
      match t {
        case Done =>
          var _ := FlushBatch(true, Replies([], []), Replies([], []));
          return Returned;
        case Evict =>
          return Running;
        case FlushTick(stopping, m, p) =>
          var ok := FlushBatch(stopping, m, p);
          return if ok then Running else Failed;
        case IdentityTick(_, _, _, _) =>
          exit := TickIdentity(t);
        case Closed(stopping, m, p) =>
          var _ := FlushBatch(stopping, m, p);
          return Returned;
        case Arrives(_, _, _, _) =>
          exit := Arrive(t);
      }
    }

    /** Where the agent stands after the first `n` turns. */
    ghost predicate Stands(turns: seq<Turn>, n: nat)
      requires n <= |turns|
      reads this
    {
      Valid() && Books(batch, flushes) == BooksAfter(config, turns[..n]) && identityFailures == FailuresInARow(turns[..n])
    }

    method Take(turns: seq<Turn>, n: nat) returns (exit: Exit)
      requires n < |turns| && Stands(turns, n) && (turns[n].IdentityTick? ==> config.checksIdentity)
      modifies this`inserted, this`batch, this`meta, this`payload, this`flushes, this`identityFailures
      ensures Stands(turns, n + 1) && exit == ExitIn(config, turns, n)
    {
      OneMoreTurn(config, turns, n);
      ghost var fs, sheet := flushes, Sheet();
      exit := Step(turns[n]);
      LedgerKeepsUp(config, fs, sheet, flushes, Sheet());
    }

    /**
      What went to the buffer and is pending is what the turns come to, which is their row
      events in order, nothing is pending once the loop has left, and both sinks are in balance.
     */
    ghost predicate Accounts(turns: seq<Turn>, n: nat, exit: Exit)
      requires n <= |turns|
      reads this
    {
      var b := BooksAfter(config, turns[..n]);
      && batch == b.pending && inserted == Batches(b.flushes) && (!exit.Running? ==> batch == [])
      && Flat(inserted) + batch == Rows(turns[..n])
      && meta == MetaAfter(config, b.flushes) && payload == PayloadAfter(config, b.flushes)
      && InBalance(config, b.flushes, meta, payload)
    }

    ghost method Close(turns: seq<Turn>, n: nat, exit: Exit)
      requires Reached(config, turns, n, exit) && Stands(turns, n)
      ensures Accounts(turns, n, exit)
    {
      LoopEnds(config, turns, n, exit);
    }
  }

  /** The loop took these turns and no more: every one before the last let it go on. */
  ghost predicate Reached(c: Config, turns: seq<Turn>, consumed: nat, exit: Exit) {
    && consumed <= |turns|
    && if consumed == 0 then exit == Running else Reached(c, turns, consumed - 1, Running) && exit == ExitIn(c, turns, consumed - 1)
  }

  /** Each sink's attempts are exactly the events that split in the batches let go while not stopping and with a seeded identity, delivered or lost. */
  ghost predicate InBalance(c: Config, fs: seq<Flush>, meta: Sink, payload: Sink) {
    && meta.attempted == meta.delivered + meta.lost == (if c.hasMeta then Offered(c, fs) else 0)
    && payload.attempted == payload.delivered + payload.lost == (if c.hasPayload then Offered(c, fs) else 0)
  }

  lemma LoopEnds(c: Config, turns: seq<Turn>, consumed: nat, exit: Exit)
    requires Reached(c, turns, consumed, exit)
    ensures var b := BooksAfter(c, turns[..consumed]);
            && (!exit.Running? ==> b.pending == []) && Flat(Batches(b.flushes)) + b.pending == Rows(turns[..consumed])
            && InBalance(c, b.flushes, MetaAfter(c, b.flushes), PayloadAfter(c, b.flushes))
  {
    BatchesAreTheRows(c, turns[..consumed]);
    SinksBalance(c, BooksAfter(c, turns[..consumed]).flushes);
    if !exit.Running? {
      assert turns[..consumed][..consumed - 1] == turns[..consumed - 1];
      NothingPendingAtTheEnd(c, turns[..consumed]);
    }
  }

  lemma OneMoreTurn(c: Config, turns: seq<Turn>, n: nat)
    requires n < |turns|
    ensures BooksAfter(c, turns[..n + 1]) == Turned(c, BooksAfter(c, turns[..n]), turns[n], FailuresInARow(turns[..n]))
    ensures FailuresInARow(turns[..n + 1]) ==
            if turns[n].IdentityTick? && turns[n].answer.QueryFails? then FailuresInARow(turns[..n]) + 1
            else if turns[n].IdentityTick? && turns[n].answer.Uuid? then 0
            else FailuresInARow(turns[..n])
  {
    assert turns[..n + 1][..n] == turns[..n];
  }

  /**
    The whole loop, over anything `select` may pick and the network may answer: it stops
    at the first turn that leaves it, with every row event accounted for.
   */
  method RunLoop(config: Config, turns: seq<Turn>) returns (agent: Agent, consumed: nat, exit: Exit)
    requires forall t <- turns :: t.IdentityTick? ==> config.checksIdentity
    ensures fresh(agent) && agent.config == config && Reached(config, turns, consumed, exit) && (exit.Running? ==> consumed == |turns|)
    ensures agent.Accounts(turns, consumed, exit)
  {
    agent := new Agent(config);
    assert turns[..0] == [];
    consumed := 0;
    exit := Running;
    while consumed < |turns| && exit.Running?
      invariant fresh(agent) && agent.config == config && Reached(config, turns, consumed, exit) && agent.Stands(turns, consumed)
      decreases |turns| - consumed
    {
      exit := agent.Take(turns, consumed);
      consumed := consumed + 1;
    }
    agent.Close(turns, consumed, exit);
  }
}
