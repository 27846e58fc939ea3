/**
  The baseline supervisor's job slots: five kinds of job share one single-flight per
  server. Every method is one critical section of the supervisor's lock, so any
  interleaving of the jobs' goroutines is a sequence of these calls.

  Status entries are shared by reference: a run that published keeps writing to its own
  entry after a later run has taken its place in the map. References are explicit here:
  `status` is where they point, and the maps hold references.
 */
module Supervisor {

  import opened Prelude

  type Id = nat
  type Folder = nat
  type Ref = nat

  datatype Kind = Dump | Refresh | RestoreJob | Export | Compact

  /** One of the five status maps, and a server in it. */
  datatype Key = Key(kind: Kind, id: Id)

  datatype Phase = Running | Succeeded | Failed

  /** `console.BaselineStatus`, as far as the slots depend on it. */
  datatype Status = Status(
    state: Phase, since: Instant, at: Option<Instant>, published: bool, uploading: bool, newTables: set<nat>, tables: nat)

  /**
    Everything the lock guards, and what the proof remembers beside it: `holder` is the
    job that holds a server, `found` the status a refresh displaced, `uploads` the
    entries of full reads still uploading, `resolver` which server's pass holds a
    folder, `merging` the folder a compaction works in, and `home` the slot an entry was
    made for.
   */
  datatype Book = Book(
    status: map<Ref, Status>, entries: map<Key, Ref>, prior: map<Id, Option<Ref>>, resolving: set<Folder>, next: Ref,
    holder: map<Id, Kind>, found: map<Id, Option<Status>>, uploads: set<Ref>, resolver: map<Folder, Id>, merging: map<Id, Folder>, home: map<Ref, Key>)

  predicate Held(b: Book, k: Key) {
    k.id in b.holder && b.holder[k.id] == k.kind
  }

  predicate Made(b: Book, r: Ref, k: Key) {
    r in b.status && r in b.home && b.home[r] == k && r < b.next
  }

  /** An entry reads running exactly when its job holds the server. */
  predicate EntryOk(b: Book, k: Key)
    requires k in b.entries
  {
    Made(b, b.entries[k], k) && (b.status[b.entries[k]].state.Running? <==> Held(b, k))
  }

  /** What a refresh displaced is kept, as it was, for as long as the refresh holds the slot. */
  predicate PriorOk(b: Book, i: Id) {
    && i in b.prior && Key(Refresh, i) in b.entries && i in b.found && (b.prior[i].Some? <==> b.found[i].Some?)
    && (b.prior[i].Some? ==>
          var r := b.prior[i].value;
          Made(b, r, Key(Refresh, i)) && b.status[r] == b.found[i].value && !b.status[r].state.Running? && b.entries[Key(Refresh, i)] != r)
  }

  predicate UploadOk(b: Book, r: Ref) {
    r in b.status && r in b.home && r < b.next && b.home[r].kind.Dump? && !b.status[r].state.Running? && b.status[r].uploading
  }

  ghost predicate OneHolder(b: Book) {
    (forall k <- b.entries :: EntryOk(b, k)) && forall i <- b.holder :: Key(b.holder[i], i) in b.entries
  }

  ghost predicate PriorsKept(b: Book) {
    forall i <- b.holder | b.holder[i].Refresh? :: PriorOk(b, i)
  }

  ghost predicate UploadsOwn(b: Book) {
    forall r <- b.uploads :: UploadOk(b, r)
  }

  /** A server's chains are never merged in a folder where its own pass writes the resolved pairs. */
  ghost predicate NoMergeWhileResolving(b: Book) {
    forall f <- b.resolving :: f in b.resolver && (Held(b, Key(Compact, b.resolver[f])) ==> b.resolver[f] in b.merging && b.merging[b.resolver[f]] != f)
  }

  ghost predicate Inv(b: Book) {
    OneHolder(b) && PriorsKept(b) && UploadsOwn(b) && NoMergeWhileResolving(b) && forall r <- b.status :: r < b.next
  }

  // ---------------------------------------------------------------- effects

  /** A new entry takes the slot; whatever was there is displaced, not changed. */
  function Claimed(b: Book, k: Key, st: Status): Book {
    var r := b.next;
    b.(status := b.status[r := st], entries := b.entries[k := r], next := r + 1, holder := b.holder[k.id := k.kind], home := b.home[r := k])
  }

  /** A refresh's claim first keeps what it displaces. */
  function Kept(b: Book, i: Id): Book {
    var k := Key(Refresh, i);
    var was := if k in b.entries then Some(b.entries[k]) else None;
    var st := if was.Some? && was.value in b.status then Some(b.status[was.value]) else None;
    b.(prior := b.prior[i := was], found := b.found[i := st])
  }

  /** The holder's entry turns terminal and the server is free. */
  function Ended(b: Book, k: Key, st: Status): Book
    requires k in b.entries
  {
    b.(status := b.status[b.entries[k] := st], holder := b.holder - {k.id})
  }

  /** A full read publishes: the server is free while it uploads. */
  function Published(b: Book, i: Id, st: Status): Book
    requires Key(Dump, i) in b.entries
  {
    Ended(b, Key(Dump, i), st).(uploads := b.uploads + {b.entries[Key(Dump, i)]})
  }

  /** A skipped refresh leaves the slot as it found it. */
  function Released(b: Book, i: Id): Book
    requires i in b.prior
  {
    var k := Key(Refresh, i);
    b.(entries := if b.prior[i].Some? then b.entries[k := b.prior[i].value] else b.entries - {k}, holder := b.holder - {i}, prior := b.prior - {i})
  }

  /** An upload ends on the run's own entry, wherever that is. */
  function UploadEnded(b: Book, r: Ref, st: Status): Book {
    b.(status := b.status[r := st], uploads := b.uploads - {r})
  }

  // -------------------------------------------------------------- preserved

  lemma ClaimOneHolder(b: Book, k: Key, st: Status)
    requires OneHolder(b) && k.id !in b.holder && st.state.Running?
    ensures OneHolder(Claimed(b, k, st))
  {
    var b' := Claimed(b, k, st);
    forall k' <- b'.entries
      ensures EntryOk(b', k')
    {
      assert k' != k ==> EntryOk(b, k');
    }
  }

  lemma ClaimOthers(b: Book, k: Key, st: Status)
    requires PriorsKept(b) && UploadsOwn(b) && k.id !in b.holder
    ensures UploadsOwn(Claimed(b, k, st)) && forall i <- b.holder | b.holder[i].Refresh? :: PriorOk(Claimed(b, k, st), i)
  {
    var b' := Claimed(b, k, st);
    forall i <- b.holder | b.holder[i].Refresh?
      ensures PriorOk(b', i)
    {
      assert PriorOk(b, i);
    }
    forall r <- b'.uploads
      ensures UploadOk(b', r)
    {
      assert UploadOk(b, r);
    }
  }

  lemma ClaimKeeps(b: Book, k: Key, st: Status)
    requires Inv(b) && k.id !in b.holder && st.state.Running? && !k.kind.Refresh?
    requires k.kind.Compact? ==> k.id in b.merging && b.merging[k.id] !in b.resolving
    ensures Inv(Claimed(b, k, st))
  {
    ClaimOneHolder(b, k, st);
    ClaimOthers(b, k, st);
  }

  lemma KeepingKeeps(b: Book, i: Id)
    requires Inv(b) && i !in b.holder
    ensures Inv(Kept(b, i))
  {
    var b' := Kept(b, i);
    forall k <- b'.entries
      ensures EntryOk(b', k)
    {
      assert EntryOk(b, k);
    }
    forall j <- b'.holder | b'.holder[j].Refresh?
      ensures PriorOk(b', j)
    {
      assert PriorOk(b, j);
    }
    forall r <- b'.uploads
      ensures UploadOk(b', r)
    {
      assert UploadOk(b, r);
    }
  }

  lemma ClaimRefreshKeeps(b: Book, i: Id, st: Status)
    requires Inv(b) && i !in b.holder && st.state.Running?
    ensures Inv(Claimed(Kept(b, i), Key(Refresh, i), st))
  {
    var k, b1 := Key(Refresh, i), Kept(b, i);
    KeepingKeeps(b, i);
    ClaimOneHolder(b1, k, st);
    ClaimOthers(b1, k, st);
    assert k in b.entries ==> EntryOk(b, k);
    assert PriorOk(Claimed(b1, k, st), i);
  }

  lemma EndKeeps(b: Book, k: Key, st: Status)
    requires Inv(b) && Held(b, k) && !st.state.Running?
    ensures k in b.entries && Inv(Ended(b, k, st))
  {
    assert k == Key(b.holder[k.id], k.id);
    var b' := Ended(b, k, st);
    assert EntryOk(b, k);
    forall k' <- b'.entries
      ensures EntryOk(b', k')
    {
      assert EntryOk(b, k');
    }
    forall j <- b'.holder | b'.holder[j].Refresh?
      ensures PriorOk(b', j)
    {
      assert PriorOk(b, j);
    }
    forall r <- b'.uploads
      ensures UploadOk(b', r)
    {
      assert UploadOk(b, r);
    }
  }

  lemma PublishKeeps(b: Book, i: Id, st: Status)
    requires Inv(b) && Held(b, Key(Dump, i)) && !st.state.Running? && st.uploading
    ensures Key(Dump, i) in b.entries && Inv(Published(b, i, st))
  {
    EndKeeps(b, Key(Dump, i), st);
    assert EntryOk(b, Key(Dump, i));
    var b1, b' := Ended(b, Key(Dump, i), st), Published(b, i, st);
    forall k <- b'.entries
      ensures EntryOk(b', k)
    {
      assert EntryOk(b1, k);
    }
    forall j <- b'.holder | b'.holder[j].Refresh?
      ensures PriorOk(b', j)
    {
      assert PriorOk(b1, j);
    }
    forall r <- b'.uploads
      ensures UploadOk(b', r)
    {
      assert r in b.uploads ==> UploadOk(b1, r);
    }
  }

  lemma ReleaseKeeps(b: Book, i: Id)
    requires Inv(b) && Held(b, Key(Refresh, i))
    ensures i in b.prior && Inv(Released(b, i))
  {
    assert PriorOk(b, i);
    var b' := Released(b, i);
    forall k <- b'.entries
      ensures EntryOk(b', k)
    {
      assert k in b.entries && EntryOk(b, k);
    }
    forall j <- b'.holder | b'.holder[j].Refresh?
      ensures PriorOk(b', j)
    {
      assert PriorOk(b, j);
    }
    forall r <- b'.uploads
      ensures UploadOk(b', r)
    {
      assert UploadOk(b, r);
    }
  }

  /** Writing an entry that is not running, and is nobody's displaced status, disturbs nothing. */
  lemma UploadEndKeeps(b: Book, r: Ref, st: Status)
    requires Inv(b) && r in b.uploads && !st.state.Running?
    ensures Inv(UploadEnded(b, r, st))
  {
    assert UploadOk(b, r);
    var b' := UploadEnded(b, r, st);
    forall k <- b'.entries
      ensures EntryOk(b', k)
    {
      assert EntryOk(b, k);
    }
    forall j <- b'.holder | b'.holder[j].Refresh?
      ensures PriorOk(b', j)
    {
      assert PriorOk(b, j);
    }
    forall x <- b'.uploads
      ensures UploadOk(b', x)
    {
      assert UploadOk(b, x);
    }
  }

  /** A write to the holder's own entry that leaves it running (the instant a refresh folds to). */
  lemma AnchorKeeps(b: Book, i: Id, at: Instant)
    requires Inv(b) && Held(b, Key(Refresh, i))
    ensures Key(Refresh, i) in b.entries && b.entries[Key(Refresh, i)] in b.status && Inv(Anchored(b, i, at))
  {
    var k := Key(Refresh, i);
    assert k == Key(b.holder[i], i);
    assert EntryOk(b, k);
    var b' := Anchored(b, i, at);
    forall k' <- b'.entries
      ensures EntryOk(b', k')
    {
      assert EntryOk(b, k');
    }
    forall j <- b'.holder | b'.holder[j].Refresh?
      ensures PriorOk(b', j)
    {
      assert PriorOk(b, j);
    }
    forall x <- b'.uploads
      ensures UploadOk(b', x)
    {
      assert UploadOk(b, x);
    }
  }

  // ------------------------------------------------------------------ steps

  datatype Step =
    | Claim(kind: Kind, id: Id, folder: Folder, now: Instant)
    | Anchor(id: Id, at: Instant)
    | Skip(id: Id)
    | Finish(kind: Kind, id: Id, ok: bool, tables: nat)
    | Panic(kind: Kind, id: Id)
    | Publish(id: Id, tables: nat)
    | FinishUpload(ref: Ref, ok: bool)
    | PanicUpload(ref: Ref)
    | StartResolve(id: Id, folder: Folder)
    | EndResolve(folder: Folder)

  /** A job's goroutine only takes steps of its own job, while that job is at that point. */
  predicate Enabled(b: Book, s: Step) {
    match s
    case Claim(_, _, _, _) => true
    case Anchor(i, _) => Held(b, Key(Refresh, i))
    case Skip(i) => Held(b, Key(Refresh, i))
    case Finish(kind, i, _, _) => Held(b, Key(kind, i))
    case Panic(kind, i) => Held(b, Key(kind, i))
    case Publish(i, _) => Held(b, Key(Dump, i))
    case FinishUpload(r, _) => r in b.uploads
    case PanicUpload(r) => r in b.status && (b.status[r].uploading ==> r in b.uploads)
    case StartResolve(_, _) => true
    case EndResolve(f) => f in b.resolving
  }

  const FRESH := Status(Running, 0, None, false, false, {}, 0)

  predicate Refused(b: Book, kind: Kind, i: Id, f: Folder) {
    i in b.holder || (kind.Compact? && f in b.resolving)
  }

  function StatusAt(b: Book, k: Key): Option<Status> {
    if k in b.entries && b.entries[k] in b.status then Some(b.status[b.entries[k]]) else None
  }

  function SinceAt(b: Book, k: Key): Option<Instant> {
    if StatusAt(b, k).Some? then Some(StatusAt(b, k).value.since) else None
  }

  function NewTablesAt(b: Book, k: Key): set<nat> {
    if StatusAt(b, k).Some? then StatusAt(b, k).value.newTables else {}
  }

  function Terminal(st: Status, ok: bool, tables: nat): Status {
    st.(state := if ok then Succeeded else Failed, uploading := false, tables := tables)
  }

  function Anchored(b: Book, i: Id, at: Instant): Book
    requires Key(Refresh, i) in b.entries && b.entries[Key(Refresh, i)] in b.status
  {
    var r := b.entries[Key(Refresh, i)];
    b.(status := b.status[r := b.status[r].(at := Some(at))])
  }

  function Next(b: Book, s: Step): Book
    requires Inv(b) && Enabled(b, s)
  {
    match s
    case Claim(kind, i, f, now) =>
      if Refused(b, kind, i, f) then b
      else if kind.Refresh? then
        Claimed(Kept(b, i), Key(kind, i), FRESH.(since := now, newTables := NewTablesAt(b, Key(kind, i))))
      else Claimed(if kind.Compact? then b.(merging := b.merging[i := f]) else b, Key(kind, i), FRESH.(since := now))
    case Anchor(i, at) => HeldHasEntry(b, Key(Refresh, i)); Anchored(b, i, at)
    case Skip(i) => HeldHasEntry(b, Key(Refresh, i)); Released(b, i)
    case Finish(kind, i, ok, tables) =>
      HeldHasEntry(b, Key(kind, i));
      var e := Ended(b, Key(kind, i), Terminal(b.status[b.entries[Key(kind, i)]], ok, tables));
      if kind.Refresh? then e.(prior := b.prior - {i}) else e
    case Panic(kind, i) =>
      HeldHasEntry(b, Key(kind, i));
      Ended(b, Key(kind, i), Terminal(b.status[b.entries[Key(kind, i)]], false, 0))
    case Publish(i, tables) =>
      HeldHasEntry(b, Key(Dump, i));
      Published(b, i, b.status[b.entries[Key(Dump, i)]].(state := Succeeded, published := true, uploading := true, tables := tables))
    case FinishUpload(r, ok) => UploadHasEntry(b, r); UploadEnded(b, r, Terminal(b.status[r], ok, b.status[r].tables))
    case PanicUpload(r) =>
      if b.status[r].uploading then UploadEnded(b, r, Terminal(b.status[r], false, b.status[r].tables)) else b
    case StartResolve(i, f) =>
      if f in b.resolving || Held(b, Key(Compact, i)) then b
      else b.(resolving := b.resolving + {f}, resolver := b.resolver[f := i])
    case EndResolve(f) => b.(resolving := b.resolving - {f})
  }

  lemma HeldHasEntry(b: Book, k: Key)
    requires Inv(b) && Held(b, k)
    ensures k in b.entries && b.entries[k] in b.status && b.status[b.entries[k]].state.Running?
    ensures k.kind.Refresh? ==> PriorOk(b, k.id)
  {
    assert k == Key(b.holder[k.id], k.id);
    assert EntryOk(b, k);
  }

  lemma RunningMeansHeld(b: Book, k: Key)
    requires Inv(b)
    ensures Held(b, k) <==> StatusAt(b, k).Some? && StatusAt(b, k).value.state.Running?
  {
    if Held(b, k) {
      HeldHasEntry(b, k);
    }
    assert k in b.entries ==> EntryOk(b, k);
  }

  lemma UploadHasEntry(b: Book, r: Ref)
    requires Inv(b) && r in b.uploads
    ensures r in b.status && b.status[r].uploading
  {
    assert UploadOk(b, r);
  }

  // -------------------------------------------------------------- every step

  /** What the invariant does not read may change freely. */
  lemma UnreadPartsAreFree(b: Book, b': Book)
    requires Inv(b)
    requires b' == b.(prior := b'.prior, resolving := b'.resolving, resolver := b'.resolver, merging := b'.merging)
    requires forall i <- b.holder | b.holder[i].Refresh? && i in b.prior :: i in b'.prior && b'.prior[i] == b.prior[i]
    requires NoMergeWhileResolving(b')
    ensures Inv(b')
  {
    forall k <- b'.entries
      ensures EntryOk(b', k)
    {
      assert EntryOk(b, k);
    }
    forall j <- b'.holder | b'.holder[j].Refresh?
      ensures PriorOk(b', j)
    {
      assert PriorOk(b, j);
    }
    forall x <- b'.uploads
      ensures UploadOk(b', x)
    {
      assert UploadOk(b, x);
    }
  }

  lemma ClaimStepKeeps(b: Book, s: Step)
    requires Inv(b) && s.Claim?
    ensures Inv(Next(b, s))
  {
    if !Refused(b, s.kind, s.id, s.folder) {
      if s.kind.Refresh? {
        ClaimRefreshKeeps(b, s.id, FRESH.(since := s.now, newTables := NewTablesAt(b, Key(s.kind, s.id))));
      } else if s.kind.Compact? {
        var b1 := b.(merging := b.merging[s.id := s.folder]);
        UnreadPartsAreFree(b, b1);
        ClaimKeeps(b1, Key(s.kind, s.id), FRESH.(since := s.now));
      } else {
        ClaimKeeps(b, Key(s.kind, s.id), FRESH.(since := s.now));
      }
    }
  }

  lemma EndStepKeeps(b: Book, s: Step)
    requires Inv(b) && (s.Finish? || s.Panic?) && Enabled(b, s)
    ensures Inv(Next(b, s))
  {
    var k := Key(s.kind, s.id);
    HeldHasEntry(b, k);
    var st := b.status[b.entries[k]];
    var end := if s.Finish? then Terminal(st, s.ok, s.tables) else Terminal(st, false, 0);
    EndKeeps(b, k, end);
    UnreadPartsAreFree(Ended(b, k, end), Next(b, s));
  }

  lemma UploadStepKeeps(b: Book, s: Step)
    requires Inv(b) && (s.Publish? || s.FinishUpload? || s.PanicUpload?) && Enabled(b, s)
    ensures Inv(Next(b, s))
  {
    match s {
      case Publish(i, tables) =>
        HeldHasEntry(b, Key(Dump, i));
        PublishKeeps(b, i, b.status[b.entries[Key(Dump, i)]].(state := Succeeded, published := true, uploading := true, tables := tables));
      case FinishUpload(r, ok) =>
        UploadHasEntry(b, r);
        UploadEndKeeps(b, r, Terminal(b.status[r], ok, b.status[r].tables));
      case PanicUpload(r) =>
        if b.status[r].uploading {
          UploadEndKeeps(b, r, Terminal(b.status[r], false, b.status[r].tables));
        }
    }
  }

  /** Every step of every job keeps the invariant. */
  lemma StepKeeps(b: Book, s: Step)
    requires Inv(b) && Enabled(b, s)
    ensures Inv(Next(b, s))
  {
    match s {
      case Claim(_, _, _, _) => ClaimStepKeeps(b, s);
      case Anchor(i, at) => AnchorKeeps(b, i, at);
      case Skip(i) => ReleaseKeeps(b, i);
      case Finish(_, _, _, _) => EndStepKeeps(b, s);
      case Panic(_, _) => EndStepKeeps(b, s);
      case Publish(_, _) => UploadStepKeeps(b, s);
      case FinishUpload(_, _) => UploadStepKeeps(b, s);
      case PanicUpload(_) => UploadStepKeeps(b, s);
      case StartResolve(_, _) => UnreadPartsAreFree(b, Next(b, s));
      case EndResolve(_) => UnreadPartsAreFree(b, Next(b, s));
    }
  }

  // ------------------------------------------------------------------- runs

  const EMPTY := Book(map[], map[], map[], {}, 0, map[], map[], {}, map[], map[], map[])

  ghost predicate Legal(b: Book, run: seq<Step>)
    requires Inv(b)
    decreases |run|
  {
    run == [] || (Enabled(b, run[0]) && (StepKeeps(b, run[0]); Legal(Next(b, run[0]), run[1..])))
  }

  ghost function After(b: Book, run: seq<Step>): (b': Book)
    requires Inv(b) && Legal(b, run)
    ensures Inv(b')
    decreases |run|
  {
    if run == [] then b else StepKeeps(b, run[0]); After(Next(b, run[0]), run[1..])
  }

  /**
    Over every run of every number of jobs: a server has at most one job whose status reads
    running and that is the one that holds it, a running status always has a holder that can
    end it, and no server merges where its own pass writes.
   */
  lemma SingleFlight(run: seq<Step>)
    requires Legal(EMPTY, run)
    ensures var b := After(EMPTY, run);
            && (forall k <- b.entries :: StatusAt(b, k).Some? && (StatusAt(b, k).value.state.Running? <==> Held(b, k)))
            && (forall k, k' | k in b.entries && k' in b.entries && k.id == k'.id && Held(b, k) && Held(b, k') :: k == k')
            && (forall i <- b.holder :: Key(b.holder[i], i) in b.entries)
            && (forall f <- b.resolving :: f in b.resolver &&
                  (Held(b, Key(Compact, b.resolver[f])) ==> b.resolver[f] in b.merging && b.merging[b.resolver[f]] != f))
  {
    var b := After(EMPTY, run);
    forall k <- b.entries
      ensures StatusAt(b, k).Some? && (StatusAt(b, k).value.state.Running? <==> Held(b, k))
    {
      assert EntryOk(b, k);
    }
  }

  predicate Ends(s: Step, k: Key) {
    || (s.Skip? && k == Key(Refresh, s.id)) || ((s.Finish? || s.Panic?) && k == Key(s.kind, s.id))
    || (s.Publish? && k == Key(Dump, s.id))
  }

  lemma HolderOutlastsClaims(b: Book, s: Step, i: Id)
    requires Inv(b) && Enabled(b, s) && Held(b, Key(Refresh, i)) && !Ends(s, Key(Refresh, i)) && i in b.found && s.Claim?
    ensures Held(Next(b, s), Key(Refresh, i)) && i in Next(b, s).found && Next(b, s).found[i] == b.found[i]
  {
  }

  lemma HolderOutlastsEnds(b: Book, s: Step, i: Id)
    requires Inv(b) && Enabled(b, s) && Held(b, Key(Refresh, i)) && !Ends(s, Key(Refresh, i)) && i in b.found && (s.Finish? || s.Panic? || s.Publish? || s.Skip?)
    ensures Held(Next(b, s), Key(Refresh, i)) && i in Next(b, s).found && Next(b, s).found[i] == b.found[i]
  {
  }

  lemma HolderOutlastsWrites(b: Book, s: Step, i: Id)
    requires Inv(b) && Enabled(b, s) && Held(b, Key(Refresh, i)) && !Ends(s, Key(Refresh, i)) && i in b.found && (s.Anchor? || s.FinishUpload? || s.PanicUpload? || s.StartResolve? || s.EndResolve?)
    ensures Held(Next(b, s), Key(Refresh, i)) && i in Next(b, s).found && Next(b, s).found[i] == b.found[i]
  {
  }

  lemma HolderStays(b: Book, s: Step, i: Id)
    requires Inv(b) && Enabled(b, s) && Held(b, Key(Refresh, i)) && !Ends(s, Key(Refresh, i)) && i in b.found
    ensures Held(Next(b, s), Key(Refresh, i)) && i in Next(b, s).found && Next(b, s).found[i] == b.found[i]
  {
    if s.Claim? {
      HolderOutlastsClaims(b, s, i);
    } else if s.Finish? || s.Panic? || s.Publish? || s.Skip? {
      HolderOutlastsEnds(b, s, i);
    } else {
      HolderOutlastsWrites(b, s, i);
    }
  }

  lemma {:induction false} HolderStaysOver(b: Book, run: seq<Step>, i: Id)
    requires Inv(b) && Legal(b, run) && Held(b, Key(Refresh, i)) && i in b.found
    requires forall s <- run :: !Ends(s, Key(Refresh, i))
    ensures var b' := After(b, run); Held(b', Key(Refresh, i)) && i in b'.found && b'.found[i] == b.found[i]
    decreases |run|
  {
    if run != [] {
      HolderStays(b, run[0], i);
      StepKeeps(b, run[0]);
      HolderStaysOver(Next(b, run[0]), run[1..], i);
    }
  }

  lemma ClaimRemembers(b: Book, i: Id, folder: Folder, now: Instant)
    requires Inv(b) && i !in b.holder
    ensures var b' := Next(b, Claim(Refresh, i, folder, now));
            Held(b', Key(Refresh, i)) && i in b'.found && b'.found[i] == StatusAt(b, Key(Refresh, i))
  {
    assert Key(Refresh, i) in b.entries ==> EntryOk(b, Key(Refresh, i));
  }

  lemma SkipRestores(b: Book, i: Id)
    requires Inv(b) && Held(b, Key(Refresh, i))
    ensures i in b.found && StatusAt(Next(b, Skip(i)), Key(Refresh, i)) == b.found[i] && i !in Next(b, Skip(i)).holder
  {
    assert PriorOk(b, i);
  }

  /** A skipped cycle puts the slot back exactly as it found it, whatever every other job did meanwhile. */
  lemma SkipLeavesNoTrace(b: Book, i: Id, folder: Folder, now: Instant, during: seq<Step>)
    requires Inv(b) && i !in b.holder
    requires Inv(Next(b, Claim(Refresh, i, folder, now))) && Legal(Next(b, Claim(Refresh, i, folder, now)), during)
    requires forall s <- during :: !Ends(s, Key(Refresh, i))
    ensures var b' := After(Next(b, Claim(Refresh, i, folder, now)), during);
            && Enabled(b', Skip(i)) && i !in Next(b', Skip(i)).holder
            && StatusAt(Next(b', Skip(i)), Key(Refresh, i)) == StatusAt(b, Key(Refresh, i))
  {
    ClaimRemembers(b, i, folder, now);
    HolderStaysOver(Next(b, Claim(Refresh, i, folder, now)), during, i);
    SkipRestores(After(Next(b, Claim(Refresh, i, folder, now)), during), i);
  }

  /**
    A late upload, finished or panicked, writes its own entry only: a later run's status,
    and every other, stays as it is. A panic after the upload's own last word changes nothing.
   */
  lemma LateUploadTouchesOnlyItsOwn(b: Book, s: Step)
    requires Inv(b) && (s.FinishUpload? || s.PanicUpload?) && Enabled(b, s)
    ensures var b' := Next(b, s);
            && b'.holder == b.holder && b'.entries == b.entries
            && (forall k <- b.entries | b.entries[k] != s.ref || Held(b, k) :: StatusAt(b', k) == StatusAt(b, k))
            && (s.PanicUpload? && !b.status[s.ref].uploading ==> b' == b)
            && (s.ref in b.uploads ==> s.ref !in b'.uploads && !b'.status[s.ref].uploading && b'.status[s.ref].tables == b.status[s.ref].tables &&
                                       b'.status[s.ref].state == if s.FinishUpload? && s.ok then Succeeded else Failed)
  {
    if s.ref in b.uploads {
      UploadHasEntry(b, s.ref);
      assert UploadOk(b, s.ref);
    }
    forall k <- b.entries | Held(b, k)
      ensures s.ref in b.uploads ==> b.entries[k] != s.ref
    {
      assert EntryOk(b, k);
    }
  }

  /** The one status a step may change. */
  predicate Concerns(b: Book, s: Step, k: Key) {
    match s
    case Claim(kind, i, _, _) => k == Key(kind, i)
    case Anchor(i, _) => k == Key(Refresh, i)
    case Skip(i) => k == Key(Refresh, i)
    case Finish(kind, i, _, _) => k == Key(kind, i)
    case Panic(kind, i) => k == Key(kind, i)
    case Publish(i, _) => k == Key(Dump, i)
    case FinishUpload(r, _) => k in b.entries && b.entries[k] == r
    case PanicUpload(r) => k in b.entries && b.entries[k] == r
    case StartResolve(_, _) => false
    case EndResolve(_) => false
  }

  lemma OwnEntries(b: Book, k: Key, k': Key)
    requires Inv(b) && k in b.entries && k' in b.entries && k != k'
    ensures b.entries[k] != b.entries[k']
  {
    assert EntryOk(b, k) && EntryOk(b, k');
  }

  lemma ClaimedShows(b: Book, mine: Key, st: Status, k: Key)
    requires k != mine && (k in b.entries ==> b.entries[k] < b.next)
    ensures StatusAt(Claimed(b, mine, st), k) == StatusAt(b, k)
  {
  }

  lemma ClaimIsFramed(b: Book, s: Step, k: Key)
    requires Inv(b) && s.Claim? && !Concerns(b, s, k)
    ensures StatusAt(Next(b, s), k) == StatusAt(b, k)
  {
    assert k in b.entries ==> EntryOk(b, k);
    var mine, st := Key(s.kind, s.id), FRESH.(since := s.now);
    ClaimedShows(b, mine, st, k);
    ClaimedShows(Kept(b, s.id), mine, st.(newTables := NewTablesAt(b, mine)), k);
    ClaimedShows(b.(merging := b.merging[s.id := s.folder]), mine, st, k);
  }

  lemma HolderWritesAreFramed(b: Book, s: Step, k: Key, mine: Key)
    requires Inv(b) && Enabled(b, s) && Held(b, mine) && k != mine && Concerns(b, s, mine)
    requires s.Finish? || s.Panic? || s.Publish? || s.Anchor?
    ensures StatusAt(Next(b, s), k) == StatusAt(b, k)
  {
    HeldHasEntry(b, mine);
    if k in b.entries {
      OwnEntries(b, k, mine);
    }
  }

  /** Every other status shown stays as it is. */
  lemma StepsAreFramed(b: Book, s: Step, k: Key)
    requires Inv(b) && Enabled(b, s) && !Concerns(b, s, k)
    ensures StatusAt(Next(b, s), k) == StatusAt(b, k)
  {
    match s {
      case Claim(_, _, _, _) => ClaimIsFramed(b, s, k);
      case Anchor(i, _) => HolderWritesAreFramed(b, s, k, Key(Refresh, i));
      case Finish(kind, i, _, _) => HolderWritesAreFramed(b, s, k, Key(kind, i));
      case Panic(kind, i) => HolderWritesAreFramed(b, s, k, Key(kind, i));
      case Publish(i, _) => HolderWritesAreFramed(b, s, k, Key(Dump, i));
      case _ =>
    }
  }

  // ----------------------------------------------------------- what is shown

  /** A status with another outcome: what identifies the run, and what it carries, is kept. */
  predicate EndedAs(was: Option<Status>, now: Option<Status>, state: Phase, published: bool, uploading: bool, tables: nat) {
    && was.Some? && was.value.state == Running && now.Some?
    && now.value == Status(state, was.value.since, was.value.at, published, uploading, was.value.newTables, tables)
  }

  /** A job that ends shows how it ended, under the stamp and the instant it ran with: nothing but a good end reads succeeded, and a panic reports no counts. */
  lemma EndsAreShown(b: Book, kind: Kind, i: Id)
    requires Inv(b) && Held(b, Key(kind, i))
    ensures var k := Key(kind, i); var was := StatusAt(b, k);
            && was.Some?
            && (forall ok, tables :: EndedAs(was, StatusAt(Next(b, Finish(kind, i, ok, tables)), k), if ok then Succeeded else Failed, was.value.published, false, tables))
            && EndedAs(was, StatusAt(Next(b, Panic(kind, i)), k), Failed, was.value.published, false, 0)
            && (kind.Dump? ==> forall tables :: EndedAs(was, StatusAt(Next(b, Publish(i, tables)), k), Succeeded, true, true, tables))
  {
    HeldHasEntry(b, Key(kind, i));
  }

  /** A job that claims a server shows as running from that instant, with nothing of the run before it but, for a refresh, the new tables it has yet to include. */
  lemma ClaimsAreShown(b: Book, kind: Kind, i: Id, f: Folder, now: Instant)
    requires Inv(b)
    ensures var k := Key(kind, i); var b' := Next(b, Claim(kind, i, f, now));
            if i in b.holder || (kind.Compact? && f in b.resolving) then b' == b
            else
              && Held(b', k)
              && StatusAt(b', k) == Some(Status(Running, now, None, false, false, if kind.Refresh? && StatusAt(b, k).Some? then StatusAt(b, k).value.newTables else {}, 0))
  {
  }

  /** The instant a refresh folds to goes on its status, and nothing else there changes. */
  lemma AnchorsAreShown(b: Book, i: Id, at: Instant)
    requires Inv(b) && Held(b, Key(Refresh, i))
    ensures var was, now := StatusAt(b, Key(Refresh, i)), StatusAt(Next(b, Anchor(i, at)), Key(Refresh, i));
            was.Some? && now.Some? && now.value == Status(was.value.state, was.value.since, Some(at), was.value.published, was.value.uploading, was.value.newTables, was.value.tables)
  {
    HeldHasEntry(b, Key(Refresh, i));
  }

  /** Whether a step ends this entry's run, or its upload, and how. */
  ghost function EndOf(b: Book, s: Step, r: Ref): Option<bool> {
    match s
    case Finish(kind, i, ok, _) => if Key(kind, i) in b.entries && b.entries[Key(kind, i)] == r then Some(ok) else None
    case Panic(kind, i) => if Key(kind, i) in b.entries && b.entries[Key(kind, i)] == r then Some(false) else None
    case Publish(i, _) => if Key(Dump, i) in b.entries && b.entries[Key(Dump, i)] == r then Some(true) else None
    case FinishUpload(x, ok) => if x == r then Some(ok) else None
    case PanicUpload(x) => if x == r && r in b.status && b.status[r].uploading then Some(false) else None
    case _ => None
  }

  /** How the last of a run's steps that ended this entry ended it. */
  ghost function LastEnd(b: Book, run: seq<Step>, r: Ref, sofar: Option<bool>): Option<bool>
    requires Inv(b) && Legal(b, run)
    decreases |run|
  {
    if run == [] then sofar
    else
      StepKeeps(b, run[0]);
      LastEnd(Next(b, run[0]), run[1..], r, if EndOf(b, run[0], r).Some? then EndOf(b, run[0], r) else sofar)
  }

  predicate ReadsAs(b: Book, r: Ref, end: Option<bool>) {
    if r in b.status then b.status[r].state == (if end.None? then Running else if end.value then Succeeded else Failed) else end.None?
  }

  lemma ClaimReads(b: Book, s: Step, r: Ref, end: Option<bool>)
    requires Inv(b) && Enabled(b, s) && ReadsAs(b, r, end) && s.Claim?
    ensures ReadsAs(Next(b, s), r, if EndOf(b, s, r).Some? then EndOf(b, s, r) else end)
  {
  }

  lemma EndReads(b: Book, s: Step, r: Ref, end: Option<bool>)
    requires Inv(b) && Enabled(b, s) && ReadsAs(b, r, end) && (s.Finish? || s.Panic?)
    ensures ReadsAs(Next(b, s), r, if EndOf(b, s, r).Some? then EndOf(b, s, r) else end)
  {
    HeldHasEntry(b, Key(s.kind, s.id));
  }

  lemma OwnReads(b: Book, s: Step, r: Ref, end: Option<bool>)
    requires Inv(b) && Enabled(b, s) && ReadsAs(b, r, end) && (s.Publish? || s.Anchor? || s.Skip?)
    ensures ReadsAs(Next(b, s), r, if EndOf(b, s, r).Some? then EndOf(b, s, r) else end)
  {
    HeldHasEntry(b, Key(if s.Publish? then Dump else Refresh, s.id));
  }

  lemma UploadReads(b: Book, s: Step, r: Ref, end: Option<bool>)
    requires Inv(b) && Enabled(b, s) && ReadsAs(b, r, end) && (s.FinishUpload? || s.PanicUpload?)
    ensures ReadsAs(Next(b, s), r, if EndOf(b, s, r).Some? then EndOf(b, s, r) else end)
  {
    if s.ref in b.uploads {
      UploadHasEntry(b, s.ref);
    }
  }

  lemma StepReads(b: Book, s: Step, r: Ref, end: Option<bool>)
    requires Inv(b) && Enabled(b, s) && ReadsAs(b, r, end)
    ensures ReadsAs(Next(b, s), r, if EndOf(b, s, r).Some? then EndOf(b, s, r) else end)
  {
    match s {
      case Claim(_, _, _, _) => ClaimReads(b, s, r, end);
      case Finish(_, _, _, _) => EndReads(b, s, r, end);
      case Panic(_, _) => EndReads(b, s, r, end);
      case Publish(_, _) => OwnReads(b, s, r, end);
      case Anchor(_, _) => OwnReads(b, s, r, end);
      case Skip(_) => OwnReads(b, s, r, end);
      case FinishUpload(_, _) => UploadReads(b, s, r, end);
      case PanicUpload(_) => UploadReads(b, s, r, end);
      case _ =>
    }
  }

  lemma {:induction false} RunReads(b: Book, run: seq<Step>, r: Ref, end: Option<bool>)
    requires Inv(b) && Legal(b, run) && ReadsAs(b, r, end)
    ensures ReadsAs(After(b, run), r, LastEnd(b, run, r, end))
    decreases |run|
  {
    if run != [] {
      StepReads(b, run[0], r, end);
      StepKeeps(b, run[0]);
      RunReads(Next(b, run[0]), run[1..], r, if EndOf(b, run[0], r).Some? then EndOf(b, run[0], r) else end);
    }
  }

  /** Over every run: a status reads running until a step ended its entry, and then as the last step that did says: succeeded only after a good end. */
  lemma StatusIsTheLastEnd(run: seq<Step>, k: Key)
    requires Legal(EMPTY, run) && k in After(EMPTY, run).entries
    ensures var b := After(EMPTY, run); var end := LastEnd(EMPTY, run, b.entries[k], None);
            StatusAt(b, k).Some? && StatusAt(b, k).value.state == if end.None? then Running else if end.value then Succeeded else Failed
  {
    var b := After(EMPTY, run);
    assert EntryOk(b, k);
    RunReads(EMPTY, run, b.entries[k], None);
  }

  lemma FreeServerCanBeClaimed(b: Book, i: Id, kind: Kind, folder: Folder, now: Instant)
    requires Inv(b) && i !in b.holder && (kind.Compact? ==> folder !in b.resolving)
    ensures Held(Next(b, Claim(kind, i, folder, now)), Key(kind, i))
  {
  }

  /** No exit leaves the server claimed: after any of them every kind of job can start. */
  lemma EveryExitFreesTheServer(b: Book, s: Step, k: Key, kind: Kind, folder: Folder, now: Instant)
    requires Inv(b) && Enabled(b, s) && Ends(s, k)
    requires kind.Compact? ==> folder !in b.resolving
    ensures k.id !in Next(b, s).holder && Inv(Next(b, s))
    ensures Held(Next(Next(b, s), Claim(kind, k.id, folder, now)), Key(kind, k.id))
  {
    StepKeeps(b, s);
    FreeServerCanBeClaimed(Next(b, s), k.id, kind, folder, now);
  }

  // -------------------------------------------------------------- the object

  class Slots {
    var status: map<Ref, Status>
    var entries: map<Key, Ref>
    var prior: map<Id, Option<Ref>>
    var gateSkips: map<Id, Instant>
    var checked: map<Id, Instant>
    var resolving: set<Folder>
    var next: Ref
    ghost var holder: map<Id, Kind>
    ghost var found: map<Id, Option<Status>>
    ghost var uploads: set<Ref>
    ghost var resolver: map<Folder, Id>
    ghost var merging: map<Id, Folder>
    ghost var home: map<Ref, Key>

    ghost function Now(): Book
      reads this
    {
      Book(status, entries, prior, resolving, next, holder, found, uploads, resolver, merging, home)
    }

    ghost predicate Valid()
      reads this
    {
      Inv(Now())
    }

    constructor ()
      ensures Valid() && Now() == EMPTY
    {
      status, entries, prior, gateSkips, checked, resolving, next := map[], map[], map[], map[], map[], {}, 0;
      holder, found, uploads, resolver, merging, home := map[], map[], {}, map[], map[], map[];
    }

    predicate IsRunning(k: Key)
      reads this
    {
      k in entries && entries[k] in status && status[entries[k]].state.Running?
    }

    /** `busyLocked`. */
    method Busy(id: Id) returns (busy: bool)
      requires Valid()
      ensures busy <==> id in holder
    {
      busy := IsRunning(Key(Dump, id)) || IsRunning(Key(Refresh, id)) || IsRunning(Key(RestoreJob, id)) ||
              IsRunning(Key(Export, id)) || IsRunning(Key(Compact, id));
      forall kind: Kind
        ensures IsRunning(Key(kind, id)) <==> Held(Now(), Key(kind, id))
      {
        RunningMeansHeld(Now(), Key(kind, id));
      }
      assert id in holder ==> Held(Now(), Key(holder[id], id));
    }

    /** A new entry in the slot. */
    method Install(k: Key, st: Status, folder: Folder) returns (r: Ref)
      modifies this`status, this`entries, this`next, this`holder, this`merging, this`home
      ensures merging == if k.kind.Compact? then old(merging)[k.id := folder] else old(merging)
      ensures r == old(next) && next == r + 1 && status == old(status)[r := st] && entries == old(entries)[k := r]
      ensures holder == old(holder)[k.id := k.kind] && home == old(home)[r := k]
    {
      r := next;
      status, entries, next := status[r := st], entries[k := r], next + 1;
      merging := if k.kind.Compact? then merging[k.id := folder] else merging;
      holder, home := holder[k.id := k.kind], home[r := k];
    }

    /** `Trigger`, `TriggerRestore`, `TriggerCompact` and the SQL export: claim or refuse. */
    method Trigger(kind: Kind, id: Id, folder: Folder, now: Instant) returns (mine: Option<Ref>)
      requires Valid() && !kind.Refresh?
      modifies this`status, this`entries, this`next, this`holder, this`merging, this`home
      ensures Valid() && Now() == Next(old(Now()), Claim(kind, id, folder, now))
      ensures mine.None? <==> id in old(holder) || (kind.Compact? && folder in resolving)
    {
      var busy := Busy(id);
      StepKeeps(Now(), Claim(kind, id, folder, now));
      if busy || (kind.Compact? && folder in resolving) {
        return None;
      }
      var r := Install(Key(kind, id), FRESH.(since := now), folder);
      return Some(r);
    }

    /** `TriggerRefresh`: the claim keeps what it displaces, and the list of new tables it carried. */
    method TriggerRefresh(id: Id, folder: Folder, now: Instant) returns (since: Option<Instant>)
      requires Valid()
      modifies this`status, this`entries, this`prior, this`gateSkips, this`next, this`holder, this`found, this`merging, this`home
      ensures Valid() && Now() == Next(old(Now()), Claim(Refresh, id, folder, now))
      ensures since == if id in old(holder) then None else Some(now)
      ensures gateSkips == if since.None? then old(gateSkips) else old(gateSkips) - {id}
    {
      var busy := Busy(id);
      StepKeeps(Now(), Claim(Refresh, id, folder, now));
      if busy {
        return None;
      }
      TakeSlot(id, folder, now);
      return Some(now);
    }

    method TakeSlot(id: Id, folder: Folder, now: Instant)
      requires Inv(Now()) && id !in holder
      modifies this`status, this`entries, this`prior, this`gateSkips, this`next, this`holder, this`found, this`merging, this`home
      ensures Now() == Next(old(Now()), Claim(Refresh, id, folder, now)) && gateSkips == old(gateSkips) - {id}
    {
      var carried := KeepPrior(id);
      var _ := Install(Key(Refresh, id), FRESH.(since := now, newTables := carried), folder);
    }

    method KeepPrior(id: Id) returns (newTables: set<nat>)
      modifies this`prior, this`gateSkips, this`found
      ensures Now() == Kept(old(Now()), id) && gateSkips == old(gateSkips) - {id}
      ensures newTables == NewTablesAt(old(Now()), Key(Refresh, id))
    {
      var k := Key(Refresh, id);
      var was := if k in entries then Some(entries[k]) else None;
      found := found[id := if was.Some? && was.value in status then Some(status[was.value]) else None];
      prior := prior[id := was];
      gateSkips := gateSkips - {id};
      newTables := if k in entries && entries[k] in status then status[entries[k]].newTables else {};
    }

    /** `anchorRefresh`: the instant goes on the claim, if there is one. */
    method AnchorRefresh(id: Id, at: Instant)
      requires Valid() && Held(Now(), Key(Refresh, id))
      modifies this`status
      ensures Valid() && Now() == Next(old(Now()), Anchor(id, at))
    {
      ghost var b := Now();
      StepKeeps(b, Anchor(id, at));
      HeldHasEntry(b, Key(Refresh, id));
      if Key(Refresh, id) in entries {
        var r := entries[Key(Refresh, id)];
        status := status[r := status[r].(at := Some(at))];
      }
    }

    /** `releaseRefreshSlot`. */
    method ReleaseRefreshSlot(id: Id, now: Instant)
      requires Valid() && Held(Now(), Key(Refresh, id))
      modifies this`entries, this`prior, this`gateSkips, this`checked, this`holder
      ensures Valid() && Now() == Next(old(Now()), Skip(id))
      ensures id in old(found) && StatusAt(Now(), Key(Refresh, id)) == old(found[id]) && checked == old(checked)[id := now]
      ensures id in gateSkips && Some(gateSkips[id]) == SinceAt(old(Now()), Key(Refresh, id))
    {
      ghost var b := Now();
      StepKeeps(b, Skip(id));
      HeldHasEntry(b, Key(Refresh, id));
      PutBack(id, now);
    }

    method PutBack(id: Id, now: Instant)
      modifies this`entries, this`prior, this`gateSkips, this`checked, this`holder
      ensures id in old(prior) ==> Now() == Released(old(Now()), id)
      ensures checked == old(checked)[id := now]
      ensures gateSkips == var since := SinceAt(old(Now()), Key(Refresh, id)); if since.Some? then old(gateSkips)[id := since.value] else old(gateSkips)
    {
      var k := Key(Refresh, id);
      var skips := if k in entries && entries[k] in status then gateSkips[id := status[entries[k]].since] else gateSkips;
      var back := if id in prior && prior[id].Some? then entries[k := prior[id].value] else entries - {k};
      gateSkips, checked, entries, prior := skips, checked[id := now], back, prior - {id};
      holder := holder - {id};
    }

    /** The terminal status every job writes when it ends; a refresh also forgets what it displaced. */
    method FinishJob(kind: Kind, id: Id, ok: bool, tables: nat, now: Instant)
      requires Valid() && Held(Now(), Key(kind, id))
      modifies this`status, this`prior, this`checked, this`holder
      ensures Valid() && Now() == Next(old(Now()), Finish(kind, id, ok, tables))
      ensures var was := StatusAt(old(Now()), Key(kind, id));
              was.Some? && EndedAs(was, StatusAt(Now(), Key(kind, id)), if ok then Succeeded else Failed, was.value.published, false, tables)
      ensures checked == if kind.Refresh? then old(checked)[id := now] else old(checked)
    {
      ghost var b := Now();
      StepKeeps(b, Finish(kind, id, ok, tables));
      EndsAreShown(b, kind, id);
      HeldHasEntry(b, Key(kind, id));
      WriteEnd(Key(kind, id), ok, tables);
      if kind.Refresh? {
        prior, checked := prior - {id}, checked[id := now];
      }
    }

    method WriteEnd(k: Key, ok: bool, tables: nat)
      requires k in entries && entries[k] in status
      modifies this`status, this`holder
      ensures Now() == Ended(old(Now()), k, Terminal(old(status[entries[k]]), ok, tables))
    {
      var r := entries[k];
      status := status[r := status[r].(state := if ok then Succeeded else Failed, uploading := false, tables := tables)];
      holder := holder - {k.id};
    }

    /** `failPanickedJob`: only while the slot still reads running. */
    method FailPanickedJob(kind: Kind, id: Id, now: Instant)
      requires Valid() && Held(Now(), Key(kind, id))
      modifies this`status, this`checked, this`holder
      ensures Valid() && Now() == Next(old(Now()), Panic(kind, id))
      ensures var was := StatusAt(old(Now()), Key(kind, id));
              was.Some? && EndedAs(was, StatusAt(Now(), Key(kind, id)), Failed, was.value.published, false, 0)
      ensures checked == if kind.Refresh? then old(checked)[id := now] else old(checked)
    {
      ghost var b := Now();
      StepKeeps(b, Panic(kind, id));
      EndsAreShown(b, kind, id);
      HeldHasEntry(b, Key(kind, id));
      if IsRunning(Key(kind, id)) {
        WriteEnd(Key(kind, id), false, 0);
        if kind.Refresh? {
          checked := checked[id := now];
        }
      }
    }

    /** `publishDump`: the run's own entry is returned, for when the map no longer holds it. */
    method PublishDump(id: Id, tables: nat) returns (own: Ref)
      requires Valid() && Held(Now(), Key(Dump, id))
      modifies this`status, this`holder, this`uploads
      ensures Valid() && Now() == Next(old(Now()), Publish(id, tables))
      ensures own in uploads && id !in holder
      ensures EndedAs(StatusAt(old(Now()), Key(Dump, id)), StatusAt(Now(), Key(Dump, id)), Succeeded, true, true, tables)
    {
      ghost var b := Now();
      StepKeeps(b, Publish(id, tables));
      EndsAreShown(b, Dump, id);
      HeldHasEntry(b, Key(Dump, id));
      own := entries[Key(Dump, id)];
      status := status[own := status[own].(state := Succeeded, published := true, uploading := true, tables := tables)];
      holder := holder - {id};
      uploads := uploads + {own};
    }

    /** `finishDump` of a run that published: over the map's entry only while that is still its own. */
    method FinishDump(id: Id, own: Ref, ok: bool)
      requires Valid() && own in uploads
      modifies this`status, this`uploads
      ensures Valid() && Now() == Next(old(Now()), FinishUpload(own, ok))
    {
      ghost var b := Now();
      StepKeeps(b, FinishUpload(own, ok));
      UploadHasEntry(b, own);
      var k := Key(Dump, id);
      var st := if k in entries then entries[k] else own;
      if st != own {
        st := own;
      }
      WriteUploadEnd(st, ok);
    }

    method WriteUploadEnd(r: Ref, ok: bool)
      requires r in status
      modifies this`status, this`uploads
      ensures Now() == UploadEnded(old(Now()), r, Terminal(old(status[r]), ok, old(status[r]).tables))
    {
      status := status[r := status[r].(state := if ok then Succeeded else Failed, uploading := false)];
      uploads := uploads - {r};
    }

    /** `recoverDumpJob` of a run that published: its own entry, and only while still uploading. */
    method RecoverDumpJob(own: Ref)
      requires Valid() && own in status && (status[own].uploading ==> own in uploads)
      modifies this`status, this`uploads
      ensures Valid() && Now() == Next(old(Now()), PanicUpload(own))
    {
      StepKeeps(Now(), PanicUpload(own));
      if !status[own].uploading {
        return;
      }
      WriteUploadEnd(own, false);
    }

    /** The claim `maybeResolve` makes on a folder, refused while another pass or this server's compaction runs. */
    method ClaimFolder(id: Id, folder: Folder) returns (claimed: bool)
      requires Valid()
      modifies this`resolving, this`resolver
      ensures Valid() && Now() == Next(old(Now()), StartResolve(id, folder))
      ensures claimed <==> folder !in old(resolving) && !Held(old(Now()), Key(Compact, id))
      ensures resolving == if claimed then old(resolving) + {folder} else old(resolving)
    {
      StepKeeps(Now(), StartResolve(id, folder));
      RunningMeansHeld(Now(), Key(Compact, id));
      if folder in resolving || IsRunning(Key(Compact, id)) {
        return false;
      }
      resolving, resolver := resolving + {folder}, resolver[folder := id];
      return true;
    }

    method ReleaseFolder(folder: Folder)
      requires Valid() && folder in resolving
      modifies this`resolving
      ensures Valid() && Now() == Next(old(Now()), EndResolve(folder)) && resolving == old(resolving) - {folder}
    {
      StepKeeps(Now(), EndResolve(folder));
      resolving := resolving - {folder};
    }
  }
}
