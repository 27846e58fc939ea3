/**
  The ProxySQL setup script: the statements it is made of, what applying them to the
  admin tables does, and the quoting of the values in them.
 */
module ProxySQL {

  import opened Prelude

  const PASSTHROUGH: nat := 990
  const SHIM: nat := 991
  const OUR_RULES: set<nat> := {990001, 990002, 990003, 990004, 990005, 990006}

  /** What a routing rule looks for. */
  datatype Pattern = Flashback | Diff | Snapshot | Hint | ShowTables | AsOf

  datatype Server = Server(hostgroup: nat, hostname: string, port: nat)
  datatype User = User(password: string, hostgroup: nat, active: bool)
  datatype Rule = Rule(active: bool, pattern: Pattern, destination: nat, apply: bool) | Foreign(text: string)

  /** The admin tables, by their primary keys. */
  datatype Tables = Tables(servers: set<Server>, users: map<string, User>, rules: map<nat, Rule>)

  /** A tenant of the shim; `hash` is what the native plugin stores for the password. */
  datatype Tenant = Tenant(user: string, password: string, hash: string)

  datatype Config = Config(host: string, mysqlPort: nat, shimPort: nat, tenants: seq<Tenant>, cachingPlugin: bool)

  datatype Statement =
    | Begin
    | Commit
    | DeleteServers(hostgroups: set<nat>)
    | InsertServer(server: Server)
    | DeleteUsers(hostgroup: nat)
    | InsertUser(name: string, user: User)
    | DeleteRules(ids: set<nat>)
    | InsertRule(id: nat, rule: Rule)
    | LoadAndSave

  // -------------------------------------------------------------- the script

  function Stored(t: Tenant, caching: bool): User {
    User(if caching then t.password else t.hash, PASSTHROUGH, true)
  }

  function RuleFor(p: Pattern): Rule {
    Rule(true, p, SHIM, true)
  }

  function UserInserts(tenants: seq<Tenant>, caching: bool): seq<Statement> {
    if tenants == [] then []
    else [InsertUser(tenants[0].user, Stored(tenants[0], caching))] + UserInserts(tenants[1..], caching)
  }

  function ServerEdits(c: Config): seq<Statement> {
    [DeleteServers({PASSTHROUGH, SHIM})] +
    ([InsertServer(Server(PASSTHROUGH, c.host, c.mysqlPort))] + [InsertServer(Server(SHIM, "127.0.0.1", c.shimPort))])
  }

  function UserEdits(c: Config): seq<Statement> {
    [DeleteUsers(PASSTHROUGH)] + UserInserts(c.tenants, c.cachingPlugin)
  }

  function InsertRuleFor(id: nat, p: Pattern): Statement {
    InsertRule(id, RuleFor(p))
  }

  function RuleInserts(): seq<Statement> {
    [InsertRuleFor(990001, Flashback)] + ([InsertRuleFor(990002, Diff)] + ([InsertRuleFor(990003, Snapshot)] +
    ([InsertRuleFor(990004, Hint)] + ([InsertRuleFor(990005, ShowTables)] + [InsertRuleFor(990006, AsOf)]))))
  }

  function RuleEdits(): seq<Statement> {
    [DeleteRules(OUR_RULES)] + RuleInserts()
  }

  function Script(c: Config): seq<Statement> {
    [Begin] + (ServerEdits(c) + (UserEdits(c) + RuleEdits()) + [Commit, LoadAndSave])
  }

  /** `generateProxySQLSetupSQL`, statement by statement. */
  method Generate(c: Config) returns (script: seq<Statement>)
    ensures script == Script(c)
  {
    var head := [Begin] + ServerEdits(c);
    var users := [DeleteUsers(PASSTHROUGH)];
    for i := 0 to |c.tenants|
      invariant users + UserInserts(c.tenants[i..], c.cachingPlugin) == UserEdits(c)
    {
      var t := c.tenants[i];
      var stored := if c.cachingPlugin then t.password else t.hash;
      assert c.tenants[i..][1..] == c.tenants[i + 1..];
      users := users + [InsertUser(t.user, User(stored, PASSTHROUGH, true))];
    }
    script := head + users + RuleEdits() + [Commit, LoadAndSave];
  }

  // ------------------------------------------------------------- applying it

  /** One edit; an insert whose key is taken fails. */
  function Edit(t: Tables, s: Statement): Option<Tables> {
    match s
    case DeleteServers(gs) => Some(t.(servers := OtherServers(t.servers, gs)))
    case InsertServer(x) => if x in t.servers then None else Some(t.(servers := t.servers + {x}))
    case DeleteUsers(g) => Some(t.(users := OtherUsers(t.users, g)))
    case InsertUser(n, u) => if n in t.users then None else Some(t.(users := t.users[n := u]))
    case DeleteRules(ids) => Some(t.(rules := t.rules - ids))
    case InsertRule(id, r) => if id in t.rules then None else Some(t.(rules := t.rules[id := r]))
    case Begin => Some(t)
    case Commit => Some(t)
    case LoadAndSave => Some(t)
  }

  function OtherServers(servers: set<Server>, gs: set<nat>): set<Server> {
    set x | x in servers && x.hostgroup !in gs
  }

  function OtherUsers(users: map<string, User>, g: nat): map<string, User> {
    map n | n in users && users[n].hostgroup != g :: users[n]
  }

  predicate IsEdit(s: Statement) {
    !s.Begin? && !s.Commit? && !s.LoadAndSave?
  }

  /** A connection: what is committed, and what an open transaction has made of it. */
  datatype Session = Session(committed: Tables, open: Option<Tables>)

  function Step(s: Session, st: Statement): Option<Session> {
    match st
    case Begin => Some(s.(open := Some(s.committed)))
    case Commit => Some(Session(if s.open.Some? then s.open.value else s.committed, None))
    case LoadAndSave => Some(s)
    case _ =>
      var r := Edit(if s.open.Some? then s.open.value else s.committed, st);
      if r.None? then None else if s.open.Some? then Some(s.(open := r)) else Some(s.(committed := r.value))
  }

  /** The script as a client runs it: it stops at the first error, and what was not committed is rolled back. */
  function Run(s: Session, script: seq<Statement>): Tables
    decreases |script|
  {
    if script == [] then s.committed
    else
      var next := Step(s, script[0]);
      if next.None? then s.committed else Run(next.value, script[1..])
  }

  function Apply(t: Tables, script: seq<Statement>): Tables {
    Run(Session(t, None), script)
  }

  /** The edits alone, or `None` if one of them fails. */
  function EditAll(t: Tables, edits: seq<Statement>): Option<Tables>
    decreases |edits|
  {
    if edits == [] then Some(t)
    else
      var next := Edit(t, edits[0]);
      if next.None? then None else EditAll(next.value, edits[1..])
  }

  lemma {:induction false} EditsInTurn(t: Tables, a: seq<Statement>, b: seq<Statement>)
    ensures EditAll(t, a + b) == var r := EditAll(t, a); if r.None? then None else EditAll(r.value, b)
    decreases |a|
  {
    if a == [] {
      assert a + b == b;
    } else {
      assert (a + b)[1..] == a[1..] + b;
      var next := Edit(t, a[0]);
      if next.Some? {
        EditsInTurn(next.value, a[1..], b);
      }
    }
  }

  /** Inside a transaction the committed tables change at the commit, or not at all. */
  lemma {:induction false} AllOrNothing(t: Tables, w: Tables, edits: seq<Statement>)
    requires forall s <- edits :: IsEdit(s)
    ensures Run(Session(t, Some(w)), edits + [Commit, LoadAndSave]) == var r := EditAll(w, edits); if r.None? then t else r.value
    decreases |edits|
  {
    var all := edits + [Commit, LoadAndSave];
    if edits == [] {
      assert all == [Commit, LoadAndSave] && all[1..] == [LoadAndSave] && all[1..][1..] == [];
      assert Run(Session(w, None), [LoadAndSave]) == w;
    } else {
      assert all[0] == edits[0] && all[1..] == edits[1..] + [Commit, LoadAndSave];
      assert edits[0] in edits && IsEdit(edits[0]);
      assert forall s <- edits[1..] :: s in edits;
      var next := Edit(w, edits[0]);
      if next.Some? {
        AllOrNothing(t, next.value, edits[1..]);
      }
    }
  }

  // -------------------------------------------------------- what it comes to

  predicate Names(tenants: seq<Tenant>, name: string) {
    exists i | 0 <= i < |tenants| :: tenants[i].user == name
  }

  predicate Distinct(tenants: seq<Tenant>) {
    forall i, j | 0 <= i < j < |tenants| :: tenants[i].user != tenants[j].user
  }

  function AddUsers(users: map<string, User>, tenants: seq<Tenant>, caching: bool): map<string, User>
    decreases |tenants|
  {
    if tenants == [] then users else AddUsers(users[tenants[0].user := Stored(tenants[0], caching)], tenants[1..], caching)
  }

  lemma {:induction false} InsertsAddUsers(t: Tables, tenants: seq<Tenant>, caching: bool)
    ensures EditAll(t, UserInserts(tenants, caching)) ==
            if Distinct(tenants) && forall n <- t.users :: !Names(tenants, n) then Some(t.(users := AddUsers(t.users, tenants, caching))) else None
    decreases |tenants|
  {
    if tenants != [] {
      var name, rest := tenants[0].user, tenants[1..];
      assert forall i | 0 <= i < |rest| :: rest[i] == tenants[i + 1];
      var inserts := UserInserts(tenants, caching);
      assert inserts[0] == InsertUser(name, Stored(tenants[0], caching)) && inserts[1..] == UserInserts(rest, caching);
      if name in t.users {
        assert Names(tenants, name);
      } else {
        var t1 := t.(users := t.users[name := Stored(tenants[0], caching)]);
        InsertsAddUsers(t1, rest, caching);
        NamesOfTheRest(t.users, tenants, caching);
      }
    }
  }

  lemma NamesOfTheRest(users: map<string, User>, tenants: seq<Tenant>, caching: bool)
    requires tenants != [] && tenants[0].user !in users
    ensures (Distinct(tenants) && forall n <- users :: !Names(tenants, n)) <==>
            (Distinct(tenants[1..]) && forall n <- users[tenants[0].user := Stored(tenants[0], caching)] :: !Names(tenants[1..], n))
  {
    var name, rest := tenants[0].user, tenants[1..];
    assert forall i | 0 <= i < |rest| :: rest[i] == tenants[i + 1];
    forall n
      ensures Names(tenants, n) <==> n == name || Names(rest, n)
    {
      if Names(rest, n) {
        var i :| 0 <= i < |rest| && rest[i].user == n;
        assert tenants[i + 1].user == n;
      }
      if n == name {
        assert tenants[0].user == n;
      }
      if Names(tenants, n) && n != name {
        var i :| 0 <= i < |tenants| && tenants[i].user == n;
        assert rest[i - 1].user == n;
      }
    }
    assert Distinct(tenants) <==> Distinct(rest) && !Names(rest, name);
  }

  function OurRules(): map<nat, Rule> {
    map[990001 := RuleFor(Flashback), 990002 := RuleFor(Diff), 990003 := RuleFor(Snapshot), 990004 := RuleFor(Hint),
        990005 := RuleFor(ShowTables), 990006 := RuleFor(AsOf)]
  }

  /** What the tables hold afterwards: everything that is not ours as it was, and ours as the configuration says. */
  function Managed(t: Tables, c: Config): Tables {
    Tables(OtherServers(t.servers, {PASSTHROUGH, SHIM}) + {Server(PASSTHROUGH, c.host, c.mysqlPort), Server(SHIM, "127.0.0.1", c.shimPort)},
           AddUsers(OtherUsers(t.users, PASSTHROUGH), c.tenants, c.cachingPlugin),
           (t.rules - OUR_RULES) + OurRules())
  }

  /** A tenant named twice, or named like a user that is not ours. */
  ghost predicate Collides(t: Tables, c: Config) {
    !Distinct(c.tenants) || exists n <- t.users :: t.users[n].hostgroup != PASSTHROUGH && Names(c.tenants, n)
  }

  lemma EditFirst(t: Tables, s: Statement, rest: seq<Statement>)
    ensures EditAll(t, [s] + rest) == var next := Edit(t, s); if next.None? then None else EditAll(next.value, rest)
    ensures EditAll(t, [s]) == Edit(t, s)
  {
    assert ([s] + rest)[1..] == rest;
    assert [s][1..] == [];
  }

  lemma ServersReplaced(t: Tables, c: Config)
    ensures EditAll(t, ServerEdits(c)) == Some(t.(servers := Managed(t, c).servers))
  {
    var a, b := Server(PASSTHROUGH, c.host, c.mysqlPort), Server(SHIM, "127.0.0.1", c.shimPort);
    var t1 := t.(servers := OtherServers(t.servers, {PASSTHROUGH, SHIM}));
    EditFirst(t, DeleteServers({PASSTHROUGH, SHIM}), [InsertServer(a)] + [InsertServer(b)]);
    EditFirst(t1, InsertServer(a), [InsertServer(b)]);
    EditFirst(t1.(servers := t1.servers + {a}), InsertServer(b), []);
    assert t1.servers + {a} + {b} == t1.servers + {a, b};
  }

  lemma UsersReplaced(t: Tables, c: Config)
    ensures EditAll(t, UserEdits(c)) == if Collides(t, c) then None else Some(t.(users := Managed(t, c).users))
  {
    var e := UserEdits(c);
    assert e[1..] == UserInserts(c.tenants, c.cachingPlugin);
    InsertsAddUsers(Edit(t, e[0]).value, c.tenants, c.cachingPlugin);
  }

  lemma RuleAdded(t: Tables, id: nat, p: Pattern, rest: seq<Statement>)
    requires id !in t.rules
    ensures EditAll(t, [InsertRuleFor(id, p)] + rest) == EditAll(t.(rules := t.rules[id := RuleFor(p)]), rest)
    ensures EditAll(t, [InsertRuleFor(id, p)]) == Some(t.(rules := t.rules[id := RuleFor(p)]))
  {
    EditFirst(t, InsertRuleFor(id, p), rest);
  }

  lemma LastRules(t: Tables)
    requires 990004 !in t.rules && 990005 !in t.rules && 990006 !in t.rules
    ensures EditAll(t, [InsertRuleFor(990004, Hint)] + ([InsertRuleFor(990005, ShowTables)] + [InsertRuleFor(990006, AsOf)])) ==
            Some(t.(rules := t.rules[990004 := RuleFor(Hint)][990005 := RuleFor(ShowTables)][990006 := RuleFor(AsOf)]))
  {
    var t1 := t.(rules := t.rules[990004 := RuleFor(Hint)]);
    RuleAdded(t, 990004, Hint, [InsertRuleFor(990005, ShowTables)] + [InsertRuleFor(990006, AsOf)]);
    RuleAdded(t1, 990005, ShowTables, [InsertRuleFor(990006, AsOf)]);
    RuleAdded(t1.(rules := t1.rules[990005 := RuleFor(ShowTables)]), 990006, AsOf, []);
  }

  lemma AllRules(t: Tables)
    requires forall id <- OUR_RULES :: id !in t.rules
    ensures EditAll(t, RuleInserts()) == Some(t.(rules := t.rules + OurRules()))
  {
    var last := [InsertRuleFor(990004, Hint)] + ([InsertRuleFor(990005, ShowTables)] + [InsertRuleFor(990006, AsOf)]);
    var two := [InsertRuleFor(990002, Diff)] + ([InsertRuleFor(990003, Snapshot)] + last);
    assert RuleInserts() == [InsertRuleFor(990001, Flashback)] + two;
    var t1 := t.(rules := t.rules[990001 := RuleFor(Flashback)]);
    var t2 := t1.(rules := t1.rules[990002 := RuleFor(Diff)]);
    var t3 := t2.(rules := t2.rules[990003 := RuleFor(Snapshot)]);
    RuleAdded(t, 990001, Flashback, two);
    RuleAdded(t1, 990002, Diff, [InsertRuleFor(990003, Snapshot)] + last);
    RuleAdded(t2, 990003, Snapshot, last);
    LastRules(t3);
    SixUpdates(t.rules);
  }

  lemma SixUpdates(m: map<nat, Rule>)
    ensures m[990001 := RuleFor(Flashback)][990002 := RuleFor(Diff)][990003 := RuleFor(Snapshot)][990004 := RuleFor(Hint)]
             [990005 := RuleFor(ShowTables)][990006 := RuleFor(AsOf)] == m + OurRules()
  {
  }

  lemma RulesReplaced(t: Tables)
    ensures EditAll(t, RuleEdits()) == Some(t.(rules := (t.rules - OUR_RULES) + OurRules()))
  {
    AllRules(t.(rules := t.rules - OUR_RULES));
    EditFirst(t, DeleteRules(OUR_RULES), RuleInserts());
  }

  lemma AllAreEdits(c: Config)
    ensures forall s <- ServerEdits(c) + (UserEdits(c) + RuleEdits()) :: IsEdit(s)
  {
    InsertsAreEdits(c.tenants, c.cachingPlugin);
  }

  lemma {:induction false} InsertsAreEdits(tenants: seq<Tenant>, caching: bool)
    ensures forall s <- UserInserts(tenants, caching) :: IsEdit(s)
    decreases |tenants|
  {
    if tenants != [] {
      InsertsAreEdits(tenants[1..], caching);
    }
  }

  /** The script leaves the tables exactly as managed, or, when a name collides, exactly as they were. */
  lemma ScriptReplacesOrRollsBack(t: Tables, c: Config)
    ensures Apply(t, Script(c)) == if Collides(t, c) then t else Managed(t, c)
  {
    var edits := ServerEdits(c) + (UserEdits(c) + RuleEdits());
    AllAreEdits(c);
    AllOrNothing(t, t, edits);
    assert Script(c)[1..] == edits + [Commit, LoadAndSave];
    assert Apply(t, Script(c)) == Run(Session(t, Some(t)), edits + [Commit, LoadAndSave]);
    EditsInTurn(t, ServerEdits(c), UserEdits(c) + RuleEdits());
    ServersReplaced(t, c);
    var t1 := t.(servers := Managed(t, c).servers);
    EditsInTurn(t1, UserEdits(c), RuleEdits());
    UsersReplaced(t1, c);
    if !Collides(t, c) {
      RulesReplaced(t1.(users := Managed(t, c).users));
    }
  }

  lemma {:induction false} AddedUsers(users: map<string, User>, tenants: seq<Tenant>, caching: bool, n: string)
    requires Distinct(tenants)
    ensures n in AddUsers(users, tenants, caching) <==> n in users || Names(tenants, n)
    ensures n in users && !Names(tenants, n) ==> AddUsers(users, tenants, caching)[n] == users[n]
    ensures forall i | 0 <= i < |tenants| && tenants[i].user == n :: AddUsers(users, tenants, caching)[n] == Stored(tenants[i], caching)
    decreases |tenants|
  {
    if tenants != [] {
      var rest, next := tenants[1..], users[tenants[0].user := Stored(tenants[0], caching)];
      assert forall i | 0 <= i < |rest| :: rest[i] == tenants[i + 1];
      NamesStep(tenants, n);
      AddedUsers(next, rest, caching, n);
      forall i | 0 <= i < |tenants| && tenants[i].user == n
        ensures AddUsers(users, tenants, caching)[n] == Stored(tenants[i], caching)
      {
        if i == 0 {
          assert !Names(rest, n);
        } else {
          assert rest[i - 1] == tenants[i];
        }
      }
    }
  }

  lemma NamesStep(tenants: seq<Tenant>, n: string)
    requires tenants != []
    ensures Names(tenants, n) <==> n == tenants[0].user || Names(tenants[1..], n)
  {
    var rest := tenants[1..];
    if Names(rest, n) {
      var i :| 0 <= i < |rest| && rest[i].user == n;
      assert tenants[i + 1].user == n;
    }
    if Names(tenants, n) {
      var i :| 0 <= i < |tenants| && tenants[i].user == n;
      assert i > 0 ==> rest[i - 1].user == n;
    }
  }

  /** The users that are not ours are the same before and after. */
  lemma OtherUsersStay(t: Tables, c: Config)
    requires !Collides(t, c)
    ensures OtherUsers(Managed(t, c).users, PASSTHROUGH) == OtherUsers(t.users, PASSTHROUGH)
  {
    var before, after := OtherUsers(t.users, PASSTHROUGH), Managed(t, c).users;
    forall n
      ensures n in OtherUsers(after, PASSTHROUGH) <==> n in before
      ensures n in before ==> after[n] == before[n]
    {
      AddedUsers(before, c.tenants, c.cachingPlugin, n);
      if Names(c.tenants, n) {
        var i :| 0 <= i < |c.tenants| && c.tenants[i].user == n;
        assert after[n] == Stored(c.tenants[i], c.cachingPlugin);
      }
    }
  }

  /** Applying the script twice is applying it once. */
  lemma ScriptIsIdempotent(t: Tables, c: Config)
    ensures Apply(Apply(t, Script(c)), Script(c)) == Apply(t, Script(c))
  {
    ScriptReplacesOrRollsBack(t, c);
    if !Collides(t, c) {
      var m := Managed(t, c);
      OtherUsersStay(t, c);
      assert !Collides(m, c) by {
        forall n <- m.users | m.users[n].hostgroup != PASSTHROUGH
          ensures !Names(c.tenants, n)
        {
          assert n in OtherUsers(m.users, PASSTHROUGH);
        }
      }
      ScriptReplacesOrRollsBack(m, c);
      assert OtherServers(m.servers, {PASSTHROUGH, SHIM}) == OtherServers(t.servers, {PASSTHROUGH, SHIM});
      assert (m.rules - OUR_RULES) + OurRules() == m.rules;
    }
  }

  /** The rows the script owns are exactly what the configuration says: two servers, the tenants, six rules. */
  ghost predicate OwnRowsAre(m: Tables, c: Config) {
    && (set x | x in m.servers && x.hostgroup in {PASSTHROUGH, SHIM}) == {Server(PASSTHROUGH, c.host, c.mysqlPort), Server(SHIM, "127.0.0.1", c.shimPort)}
    && (forall id <- OUR_RULES :: id in m.rules && RoutesToTheShim(m.rules[id], id))
    && (forall n <- m.users | m.users[n].hostgroup == PASSTHROUGH :: Names(c.tenants, n))
    && (forall x <- c.tenants :: x.user in m.users && LogsInAs(m.users[x.user], x, c.cachingPlugin))
  }

  const PATTERNS := [Flashback, Diff, Snapshot, Hint, ShowTables, AsOf]

  /** Rule `id` is live, sends what its own pattern matches to the shim, and stops there. */
  predicate RoutesToTheShim(r: Rule, id: nat)
    requires id in OUR_RULES
  {
    r.Rule? && r.active && r.apply && r.pattern == PATTERNS[id - 990001] && r.destination == 991
  }

  /** A tenant is let in by what its plugin needs, the password itself for the caching one and its hash for the native one, and goes to the real server. */
  predicate LogsInAs(u: User, t: Tenant, caching: bool) {
    u.active && u.hostgroup == 990 && u.password == if caching then t.password else t.hash
  }

  lemma OwnUsers(t: Tables, c: Config)
    requires !Collides(t, c)
    ensures var m := Managed(t, c);
            && (forall n <- m.users | m.users[n].hostgroup == PASSTHROUGH :: Names(c.tenants, n))
            && (forall x <- c.tenants :: x.user in m.users && m.users[x.user] == Stored(x, c.cachingPlugin))
  {
    var m, before := Managed(t, c), OtherUsers(t.users, PASSTHROUGH);
    forall n <- m.users | m.users[n].hostgroup == PASSTHROUGH
      ensures Names(c.tenants, n)
    {
      AddedUsers(before, c.tenants, c.cachingPlugin, n);
    }
    forall x <- c.tenants
      ensures x.user in m.users && m.users[x.user] == Stored(x, c.cachingPlugin)
    {
      var i :| 0 <= i < |c.tenants| && c.tenants[i] == x;
      AddedUsers(before, c.tenants, c.cachingPlugin, x.user);
    }
  }

  lemma ManagedOwnRows(t: Tables, c: Config)
    requires !Collides(t, c)
    ensures OwnRowsAre(Managed(t, c), c)
  {
    OwnUsers(t, c);
  }

  /** Nothing outside the script's own rows changes, whether it goes through or not, and its own are what the configuration says. */
  lemma ScriptIsFramed(t: Tables, c: Config)
    ensures var m := Apply(t, Script(c));
            && OtherServers(m.servers, {PASSTHROUGH, SHIM}) == OtherServers(t.servers, {PASSTHROUGH, SHIM})
            && OtherUsers(m.users, PASSTHROUGH) == OtherUsers(t.users, PASSTHROUGH)
            && m.rules - OUR_RULES == t.rules - OUR_RULES
            && (!Collides(t, c) ==> OwnRowsAre(m, c))
  {
    ScriptReplacesOrRollsBack(t, c);
    if !Collides(t, c) {
      OtherUsersStay(t, c);
      ManagedOwnRows(t, c);
    }
  }

  // ---------------------------------------------------------------- quoting

  function Doubled(s: string): string {
    if s == [] then [] else (if s[0] == '\'' then "''" else [s[0]]) + Doubled(s[1..])
  }

  /** `sqlQuote`. */
  function SqlQuote(s: string): string {
    "'" + Doubled(s) + "'"
  }

  datatype Literal = Literal(value: string, rest: string)

  /** How the admin interface reads a literal after its opening quote: two quotes are one, one quote ends it. */
  function ReadBody(text: string): Option<Literal> {
    if text == [] then None
    else if text[0] != '\'' then
      var more := ReadBody(text[1..]);
      if more.None? then None else Some(Literal([text[0]] + more.value.value, more.value.rest))
    else if |text| > 1 && text[1] == '\'' then
      var more := ReadBody(text[2..]);
      if more.None? then None else Some(Literal(['\''] + more.value.value, more.value.rest))
    else Some(Literal("", text[1..]))
  }

  function ReadLiteral(text: string): Option<Literal> {
    if text != [] && text[0] == '\'' then ReadBody(text[1..]) else None
  }

  predicate StartsWithQuote(text: string) {
    text != [] && text[0] == '\''
  }

  lemma {:induction false} BodyReadsBack(s: string, rest: string)
    requires !StartsWithQuote(rest)
    ensures ReadBody(Doubled(s) + "'" + rest) == Some(Literal(s, rest))
    decreases |s|
  {
    var text := Doubled(s) + "'" + rest;
    if s == [] {
      assert text == "'" + rest && text[1..] == rest;
    } else {
      BodyReadsBack(s[1..], rest);
      var tail := Doubled(s[1..]) + "'" + rest;
      if s[0] == '\'' {
        assert text == "''" + tail && text[2..] == tail;
      } else {
        assert text == [s[0]] + tail && text[1..] == tail;
      }
      assert [s[0]] + s[1..] == s;
    }
  }

  /** Every quoted value reads back exactly, whatever it holds, before anything that does not itself begin with a quote. */
  lemma QuotedReadsBack(s: string, rest: string)
    requires !StartsWithQuote(rest)
    ensures ReadLiteral(SqlQuote(s) + rest) == Some(Literal(s, rest))
  {
    BodyReadsBack(s, rest);
    assert (SqlQuote(s) + rest)[1..] == Doubled(s) + "'" + rest;
  }

  /** So the values of a user's row read back from the text of its insert. */
  lemma InsertedUserReadsBack(user: string, password: string, end: string)
    requires !StartsWithQuote(end)
    ensures var first := ReadLiteral(SqlQuote(user) + ", " + SqlQuote(password) + end);
            && first.Some? && first.value.value == user && |first.value.rest| >= 2 && first.value.rest[..2] == ", "
            && ReadLiteral(first.value.rest[2..]) == Some(Literal(password, end))
  {
    var tail := ", " + SqlQuote(password) + end;
    assert SqlQuote(user) + ", " + SqlQuote(password) + end == SqlQuote(user) + tail;
    QuotedReadsBack(user, tail);
    assert tail[2..] == SqlQuote(password) + end;
    QuotedReadsBack(password, end);
  }
}
