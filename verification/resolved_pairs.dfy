/**
  Retiring resolved pairs: the pairs of a snapshot that left the newest two are marked,
  which stops them being handed out, and removed by a sweep that finds the mark old
  enough. Which file operations the system refuses is an input, and a removal that fails
  may have gone part way.
 */
module ResolvedPairs {

  import opened Prelude

  const GRACE: Duration := 15 * MINUTE
  const KEEP := 2

  /** One snapshot's pairs: when the mark beside them is dated, and whether every file is there. */
  datatype Pairs = Pairs(mark: Option<Instant>, intact: bool)

  type Store = map<string, Pairs>

  datatype Moment = Moment(at: Instant, store: Store)

  /** A statement may be handed these pairs. */
  predicate HandedOut(store: Store, name: string) {
    name in store && store[name].mark.None? && store[name].intact
  }

  /** Pairs handed out at one moment are all there at another, unless the grace has passed in between. */
  predicate Outlives(m: Moment, cur: Moment, name: string) {
    HandedOut(m.store, name) && cur.at < m.at + GRACE ==>
      && name in cur.store && cur.store[name].intact
      && (cur.store[name].mark.Some? ==> cur.store[name].mark.value >= m.at)
  }

  ghost predicate AllOutlive(m: Moment, cur: Moment) {
    forall name :: Outlives(m, cur, name)
  }

  /** What may happen to one snapshot's pairs between two moments. */
  predicate Allowed(was: Moment, now: Moment, name: string) {
    name in was.store ==>
      var p := was.store[name];
      || (name in now.store && now.store[name] == p)
      || (name in now.store && now.store[name] == p.(mark := None))
      || (name in now.store && now.store[name] == p.(mark := Some(now.at)))
      || (p.mark.Some? && now.at - p.mark.value >= GRACE)
  }

  function At(store: Store, name: string): Option<Pairs> {
    if name in store then Some(store[name]) else None
  }

  /** What a sweep at `now` leaves of one snapshot's pairs: unmarked when kept, else marked, left to wait, or removed. */
  function Swept(p: Pairs, kept: bool, now: Instant): Option<Pairs> {
    if kept then Some(p.(mark := None))
    else if p.mark.None? || p.mark.value > now then Some(p.(mark := Some(now)))
    else if now - p.mark.value < GRACE then Some(p)
    else None
  }

  /** What is left of one snapshot's pairs is what a sweep leaves at some instant between two. */
  ghost predicate SweptAt(a: Store, s: Store, keep: set<string>, name: string, began: Instant, ended: Instant)
    requires name in a
  {
    exists t: Instant :: began <= t <= ended && At(s, name) == Swept(a[name], name in keep, t)
  }

  /** A whole sweep of `a`: nothing appears and kept pairs stay whole, and a clean one leaves what it should of each. */
  ghost predicate SweepDone(a: Store, s: Store, keep: set<string>, began: Instant, ended: Instant, clean: bool) {
    && s.Keys <= a.Keys
    && (forall n <- a | n in keep :: n in s && s[n].intact == a[n].intact)
    && (clean ==> forall n <- a :: SweptAt(a, s, keep, n, began, ended))
  }

  /**
    So pairs that were marked for as long as the grace are gone, and none goes before; the
    others out of the set are marked, under the date they had unless that is yet to come,
    or under one of this sweep.
   */
  lemma RetiredPairsGo(a: Store, s: Store, keep: set<string>, began: Instant, ended: Instant, name: string)
    requires SweepDone(a, s, keep, began, ended, true) && began <= ended && name in a && name !in keep
    ensures a[name].mark.Some? && began - a[name].mark.value >= GRACE ==> name !in s
    ensures name in s ==> s[name].mark.Some? && s[name].mark.value <= ended && s[name].intact == a[name].intact
    ensures name in s && a[name].mark.Some? && a[name].mark.value <= began ==> s[name].mark == a[name].mark
    ensures name in s && a[name].mark.None? ==> s[name].mark.value >= began
    ensures name !in s ==> a[name].mark.Some? && ended - a[name].mark.value >= GRACE
  {
    assert SweptAt(a, s, keep, name, began, ended);
  }

  /** And pairs of the set lose their mark and stay as whole as they were. */
  lemma KeptPairsAreUnmarked(a: Store, s: Store, keep: set<string>, began: Instant, ended: Instant, name: string)
    requires SweepDone(a, s, keep, began, ended, true) && name in a && name in keep
    ensures name in s && s[name] == Pairs(None, a[name].intact)
  {
    assert SweptAt(a, s, keep, name, began, ended);
  }

  // ---------------------------------------------------------- what is kept

  function Names(snaps: seq<string>): set<string> {
    set n | n in snaps
  }

  /** The newest snapshots, oldest first, taken from the end until there are `KEEP` of them. */
  ghost predicate IsNewest(snaps: seq<string>, keep: set<string>) {
    exists i | 0 <= i <= |snaps| :: NewestFrom(snaps, i, keep)
  }

  predicate NewestFrom(snaps: seq<string>, i: nat, keep: set<string>)
    requires i <= |snaps|
  {
    keep == Names(snaps[i..]) && |keep| <= KEEP && (i == 0 || |keep| == KEEP)
  }

  ghost predicate Distinct(snaps: seq<string>) {
    forall i, j | 0 <= i < j < |snaps| :: snaps[i] != snaps[j]
  }

  lemma {:induction false} DistinctNames(snaps: seq<string>)
    requires Distinct(snaps)
    ensures |Names(snaps)| == |snaps|
  {
    if snaps != [] {
      DistinctNames(snaps[1..]);
      assert Names(snaps) == {snaps[0]} + Names(snaps[1..]);
    }
  }

  /** Snapshots have different names, so the set kept is exactly the last two. */
  lemma NewestIsTheLastTwo(snaps: seq<string>, keep: set<string>)
    requires Distinct(snaps)
    ensures IsNewest(snaps, keep) <==> keep == Names(snaps[Max(|snaps| - KEEP, 0)..])
  {
    var last := Max(|snaps| - KEEP, 0);
    DistinctNames(snaps[last..]);
    if keep == Names(snaps[last..]) {
      assert NewestFrom(snaps, last, keep);
    }
    if IsNewest(snaps, keep) {
      var i :| 0 <= i <= |snaps| && NewestFrom(snaps, i, keep);
      DistinctNames(snaps[i..]);
    }
  }

  /** Where a sweep of `a` stands, with `todo` still to look at; `clean` while nothing was refused. */
  ghost predicate Progress(a: Store, s: Store, keep: set<string>, todo: set<string>, clean: bool, began: Instant, now: Instant) {
    && todo <= s.Keys <= a.Keys && (forall n <- todo :: s[n] == a[n])
    && (forall n <- a | n in keep :: n in s && s[n].intact == a[n].intact)
    && (clean ==> forall n <- a | n !in todo :: SweptAt(a, s, keep, n, began, now))
  }

  lemma OneSwept(a: Store, s: Store, s': Store, keep: set<string>, todo: set<string>, name: string, clean: bool, clean': bool, began: Instant, was: Instant, now: Instant)
    requires Progress(a, s, keep, todo, clean, began, was) && name in todo && began <= was <= now && (clean' ==> clean)
    requires forall n | n != name :: SameAt(s, s', n)
    requires name in keep ==> name in s' && s'[name].intact == s[name].intact
    requires clean' ==> At(s', name) == Swept(s[name], name in keep, now)
    ensures Progress(a, s', keep, todo - {name}, clean', began, now)
  {
    forall n <- s'
      ensures n in a
    {
      assert n != name ==> SameAt(s, s', n);
    }
    forall n <- todo - {name}
      ensures n in s' && s'[n] == a[n]
    {
      assert SameAt(s, s', n);
    }
    forall n <- a | n in keep
      ensures n in s' && s'[n].intact == a[n].intact
    {
      assert n != name ==> SameAt(s, s', n);
    }
    if clean' {
      forall n <- a | n !in todo - {name}
        ensures SweptAt(a, s', keep, n, began, now)
      {
        if n != name {
          assert SweptAt(a, s, keep, n, began, was) && SameAt(s, s', n);
        }
      }
    }
  }

  lemma AllowedKeepsPromises(m: Moment, was: Moment, now: Moment)
    requires m.at <= was.at <= now.at && AllOutlive(m, was) && forall name :: Allowed(was, now, name)
    ensures AllOutlive(m, now)
  {
    forall name
      ensures Outlives(m, now, name)
    {
      assert Outlives(m, was, name);
      assert Allowed(was, now, name);
    }
  }

  /** Pairs unmarked until a moment carry, if any, a mark dated at that moment. */
  lemma UnmarkedUntilNow(was: Moment, now: Moment)
    requires forall name :: Allowed(was, now, name)
    ensures AllOutlive(Moment(now.at, was.store), now)
  {
    forall name
      ensures Outlives(Moment(now.at, was.store), now, name)
    {
      assert Allowed(was, now, name);
    }
  }

  /** What was there until the next moment, with the time of that moment. */
  function Until(trace: seq<Moment>, i: nat): Moment
    requires i + 1 < |trace|
  {
    Moment(trace[i + 1].at, trace[i].store)
  }

  class Resolved {
    // Which operations the system refuses, and how many it was asked for.
    const refused: nat -> bool
    var ops: nat
    var store: Store
    var now: Instant
    ghost var trace: seq<Moment>

    /** The moments are in order, and what was there until the next one outlives its readers at every later one. */
    ghost predicate Valid()
      reads this
    {
      && trace != [] && trace[|trace| - 1] == Moment(now, store)
      && (forall i, j | 0 <= i <= j < |trace| :: trace[i].at <= trace[j].at)
      && (forall i, j | 0 <= i < j < |trace| :: AllOutlive(Until(trace, i), trace[j]))
    }

    /** None of these operations is refused. */
    ghost predicate Granted(from: nat, to: nat) {
      forall k | from <= k < to :: !refused(k)
    }

    constructor (store: Store, now: Instant, refused: nat -> bool)
      ensures Valid() && this.store == store && this.now == now && trace == [Moment(now, store)] && ops == 0 && this.refused == refused
    {
      this.refused := refused;
      this.store := store;
      this.now := now;
      ops := 0;
      trace := [Moment(now, store)];
    }

    method Ask() returns (ok: bool)
      modifies this`ops
      ensures ops == old(ops) + 1 && (ok <==> !refused(old(ops)))
    {
      ok := !refused(ops);
      ops := ops + 1;
    }

    /** Time passes and the store changes, in a way each pair allows. */
    method Record(later: Instant, next: Store)
      requires Valid() && now <= later
      requires forall name :: Allowed(Moment(now, store), Moment(later, next), name)
      modifies this`store, this`now, this`trace
      ensures Valid() && store == next && now == later && trace == old(trace) + [Moment(later, next)]
    {
      ghost var cur, upcoming, longer := Moment(now, store), Moment(later, next), trace + [Moment(later, next)];
      forall i | 0 <= i < |trace|
        ensures AllOutlive(Until(longer, i), upcoming)
      {
        if i + 1 < |trace| {
          assert Until(longer, i) == Until(trace, i);
          assert AllOutlive(Until(trace, i), trace[|trace| - 1]);
          AllowedKeepsPromises(Until(trace, i), cur, upcoming);
        } else {
          UnmarkedUntilNow(cur, upcoming);
        }
      }
      forall i, j | 0 <= i < j < |trace|
        ensures AllOutlive(Until(longer, i), longer[j])
      {
        assert Until(longer, i) == Until(trace, i);
      }
      store, now := next, later;
      trace := longer;
    }

    /** A pass writes the pairs of a snapshot that had none. */
    method Write(name: string, later: Instant)
      requires Valid() && now <= later && name !in store
      modifies this`store, this`now, this`trace
      ensures Valid() && store == old(store)[name := Pairs(None, true)] && now == later && old(trace) <= trace
    {
      Record(later, store[name := Pairs(None, true)]);
    }

    /** The set a sweep keeps. */
    static method Newest(snaps: seq<string>) returns (keep: set<string>)
      ensures IsNewest(snaps, keep)
    {
      keep := {};
      var i := |snaps|;
      while i > 0 && |keep| < KEEP
        invariant 0 <= i <= |snaps| && |keep| <= KEEP && keep == Names(snaps[i..])
      {
        i := i - 1;
        keep := keep + {snaps[i]};
        assert snaps[i..] == [snaps[i]] + snaps[i + 1..];
      }
      assert NewestFrom(snaps, i, keep);
    }

    /** What a sweep does with one snapshot's pairs, whatever the file system lets it do. */
    method SweepOne(name: string, kept: bool)
      requires Valid() && name in store
      modifies this
      ensures Valid() && old(now) <= now && old(trace) <= trace && old(ops) <= ops
      ensures forall n | n != name :: SameAt(old(store), store, n)
      ensures kept ==> name in store && store[name].intact == old(store)[name].intact
      ensures Granted(old(ops), ops) ==> At(store, name) == Swept(old(store)[name], kept, now)
    {
      var later: Instant := *;
      if later < now {
        later := now;
      }
      var p := store[name];
      if kept {
        Try(later, name, p.(mark := None));
        return;
      }
      if p.mark.None? || p.mark.value > later {
        Try(later, name, p.(mark := Some(later)));
        return;
      }
      if later - p.mark.value < GRACE {
        Record(later, store);
        return;
      }
      var ok := Ask();
      if ok {
        Record(later, store - {name});
      } else {
        var mark: Option<Instant> := *;
        Record(later, store[name := Pairs(mark, false)]);
      }
    }

    /** Adding or removing the mark, which may be refused. */
    method Try(later: Instant, name: string, next: Pairs)
      requires Valid() && now <= later && name in store && (next == store[name].(mark := None) || next == store[name].(mark := Some(later)))
      modifies this
      ensures Valid() && now == later && old(trace) <= trace && old(ops) <= ops
      ensures store == old(store)[name := next] || (store == old(store) && !Granted(old(ops), ops))
    {
      var ok := Ask();
      if !ok {
        Record(later, store);
      } else {
        Record(later, store[name := next]);
      }
    }

    /** `sweepResolved`. */
    method Sweep(snaps: seq<string>) returns (ghost keep: set<string>)
      requires Valid()
      modifies this
      ensures Valid() && old(now) <= now && old(trace) <= trace && old(ops) <= ops
      ensures IsNewest(snaps, keep)
      ensures SweepDone(old(store), store, keep, old(now), now, Granted(old(ops), ops))
    {
      var newest := Newest(snaps);
      keep := newest;
      var todo := store.Keys;
      while todo != {}
        invariant Valid() && old(now) <= now && old(trace) <= trace && old(ops) <= ops
        invariant Progress(old(store), store, keep, todo, Granted(old(ops), ops), old(now), now)
        decreases |todo|
      {
        var name :| name in todo;
        ghost var before, was, clean := store, now, Granted(old(ops), ops);
        SweepOne(name, name in newest);
        OneSwept(old(store), before, store, keep, todo, name, clean, Granted(old(ops), ops), old(now), was, now);
        todo := todo - {name};
      }
    }

    method Do(act: Act)
      requires Valid()
      modifies this
      ensures Valid() && old(trace) <= trace && old(ops) <= ops
      ensures ActDone(act, old(Moment(now, store)), Moment(now, store), Granted(old(ops), ops))
    {
      match act {
        case Sweeping(snaps) =>
          var keep := Sweep(snaps);
        case Writing(name, later) =>
          if name !in store && now <= later {
            Write(name, later);
          }
      }
    }
  }

  datatype Act = Sweeping(snaps: seq<string>) | Writing(name: string, later: Instant)

  /** What one act does between two moments; a pass writes only where there are no pairs yet. */
  ghost predicate ActDone(act: Act, was: Moment, now: Moment, clean: bool) {
    match act
    case Sweeping(snaps) => exists keep :: IsNewest(snaps, keep) && SweepDone(was.store, now.store, keep, was.at, now.at, clean)
    case Writing(name, later) =>
      now == if name !in was.store && was.at <= later then Moment(later, was.store[name := Pairs(None, true)]) else was
  }

  /** The acts, one after the other, each between the moments where it began and ended. */
  ghost predicate Follows(trace: seq<Moment>, stops: seq<nat>, acts: seq<Act>, clean: bool) {
    && |stops| == |acts| + 1 && (forall k | 0 <= k < |stops| :: stops[k] < |trace|)
    && (forall k | 0 <= k < |acts| :: stops[k] <= stops[k + 1])
    && (forall k | 0 <= k < |acts| :: ActDone(acts[k], trace[stops[k]], trace[stops[k + 1]], clean))
    && stops[0] == 0 && stops[|acts|] == |trace| - 1
  }

  lemma OneMoreAct(trace: seq<Moment>, trace': seq<Moment>, stops: seq<nat>, acts: seq<Act>, act: Act, clean: bool, cleanAct: bool, clean': bool)
    requires Follows(trace, stops, acts, clean) && trace <= trace' && (clean' ==> clean && cleanAct)
    requires ActDone(act, trace[|trace| - 1], trace'[|trace'| - 1], cleanAct)
    ensures Follows(trace', stops + [|trace'| - 1], acts + [act], clean')
  {
    var stops', acts' := stops + [|trace'| - 1], acts + [act];
    forall k | 0 <= k < |acts'|
      ensures stops'[k] <= stops'[k + 1] && ActDone(acts'[k], trace'[stops'[k]], trace'[stops'[k + 1]], clean')
    {
      if k < |acts| {
        assert ActDone(acts[k], trace[stops[k]], trace[stops[k + 1]], clean);
      }
    }
  }

  /** A statement is handed a snapshot's pairs at this instant, whether or not anything was swept or written then. */
  predicate HandedAt(trace: seq<Moment>, i: nat, u: Instant, name: string)
    requires i + 1 < |trace|
  {
    trace[i].at <= u <= trace[i + 1].at && HandedOut(trace[i].store, name)
  }

  /** What is handed out at any instant is whole at every later moment within the grace. */
  ghost predicate Served(trace: seq<Moment>) {
    forall i, j, u, name | 0 <= i < j < |trace| && HandedAt(trace, i, u, name) && trace[j].at < u + GRACE ::
      name in trace[j].store && trace[j].store[name].intact
  }

  lemma ReadersAreServed(trace: seq<Moment>)
    requires forall i, j | 0 <= i < j < |trace| :: AllOutlive(Until(trace, i), trace[j])
    ensures Served(trace)
  {
    forall i, j, u, name | 0 <= i < j < |trace| && HandedAt(trace, i, u, name) && trace[j].at < u + GRACE
      ensures name in trace[j].store && trace[j].store[name].intact
    {
      assert Outlives(Until(trace, i), trace[j], name);
    }
  }

  /** Over any sequence of sweeps and passes, pairs outlive the statements they were handed to. */
  method RunPasses(store: Store, now: Instant, refused: nat -> bool, acts: seq<Act>) returns (r: Resolved, ghost stops: seq<nat>)
    ensures fresh(r) && r.refused == refused && r.Valid() && r.trace[0] == Moment(now, store)
    ensures Follows(r.trace, stops, acts, r.Granted(0, r.ops))
    ensures Served(r.trace)
  {
    r := new Resolved(store, now, refused);
    stops := [0];
    for k := 0 to |acts|
      invariant fresh(r) && r.refused == refused && r.Valid() && r.trace[0] == Moment(now, store)
      invariant Follows(r.trace, stops, acts[..k], r.Granted(0, r.ops))
    {
      ghost var before, ops := r.trace, r.ops;
      r.Do(acts[k]);
      OneMoreAct(before, r.trace, stops, acts[..k], acts[k], r.Granted(0, ops), r.Granted(ops, r.ops), r.Granted(0, r.ops));
      assert acts[..k + 1] == acts[..k] + [acts[k]];
      stops := stops + [|r.trace| - 1];
    }
    assert acts[..|acts|] == acts;
    ReadersAreServed(r.trace);
  }
}
