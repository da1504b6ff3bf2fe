/** The ClickHouse migration applier: crashing anywhere and starting over ends where one clean run
    would have. */
module Migrations {
  import opened Common
  import SqlSplit

  /** What a statement text means to ClickHouse; these are the two forms the migrations use. */
  datatype Stmt = CreateTable(table: string, columns: seq<string>) | AddColumn(table: string, column: string)

  datatype Migration = Migration(version: int, stmts: seq<Stmt>)

  /** Tables with their columns, and the rows of `schema_versions` once that table exists. */
  datatype Warehouse = Warehouse(schema: map<string, seq<string>>, ready: bool, versions: seq<int>)

  const FRESH := Warehouse(map[], false, [])

  datatype Command = EnsureVersions | Exec(stmt: Stmt) | Record(version: int)

  /** Both forms do nothing when what they ask for is there; adding to a missing table raises. */
  function Execute(schema: map<string, seq<string>>, s: Stmt): Option<map<string, seq<string>>> {
    match s
    case CreateTable(table, columns) => Some(if table in schema then schema else schema[table := columns])
    case AddColumn(table, column) =>
      if table !in schema then None
      else Some(if column in schema[table] then schema else schema[table := schema[table] + [column]])
  }

  /** One command; None means it raises. */
  function Do(w: Warehouse, c: Command): Option<Warehouse> {
    match c
    case EnsureVersions => Some(w.(ready := true))
    case Exec(s) =>
      (match Execute(w.schema, s)
       case Some(schema) => Some(w.(schema := schema))
       case None => None)
    case Record(version) => if w.ready then Some(w.(versions := w.versions + [version])) else None
  }

  /** Commands in turn, up to the first that raises; and whether none did. */
  function DoAll(w: Warehouse, cs: seq<Command>): (Warehouse, bool)
    decreases |cs|
  {
    if cs == [] then (w, true)
    else
      match Do(w, cs[0])
      case None => (w, false)
      case Some(next) => DoAll(next, cs[1..])
  }

  function Execs(stmts: seq<Stmt>): (cs: seq<Command>)
    ensures |cs| == |stmts| && forall i :: 0 <= i < |cs| ==> cs[i] == Exec(stmts[i])
  {
    if stmts == [] then [] else [Exec(stmts[0])] + Execs(stmts[1..])
  }

  function Body(m: Migration): seq<Command> {
    Execs(m.stmts)
  }

  /** `apply_one`: the file's statements, then its version. */
  function Script(m: Migration): seq<Command> {
    Body(m) + [Record(m.version)]
  }

  function Scripts(ms: seq<Migration>): seq<Command> {
    if ms == [] then [] else Script(ms[0]) + Scripts(ms[1..])
  }

  function Pending(ms: seq<Migration>, versions: seq<int>): seq<Migration> {
    if ms == [] then []
    else if ms[0].version in versions then Pending(ms[1..], versions)
    else [ms[0]] + Pending(ms[1..], versions)
  }

  /** The commands `main` would issue if nothing went wrong. */
  function Plan(w: Warehouse, ms: seq<Migration>): seq<Command> {
    [EnsureVersions] + Scripts(Pending(ms, w.versions))
  }

  function Versions(ms: seq<Migration>): (r: seq<int>)
    ensures |r| == |ms| && forall i :: 0 <= i < |r| ==> r[i] == ms[i].version
  {
    if ms == [] then [] else [ms[0].version] + Versions(ms[1..])
  }

  predicate Distinct(ms: seq<Migration>) {
    forall i, j :: 0 <= i < j < |ms| ==> ms[i].version != ms[j].version
  }

  /** Commands issued by a process that lives for `k` of them; and whether they were all done. */
  function Interrupted(w: Warehouse, cs: seq<Command>, k: nat): (Warehouse, bool) {
    if k < |cs| then (DoAll(w, cs[..k]).0, false) else DoAll(w, cs)
  }

  /** A run that dies after at most `k` commands; it also stops where a command raises. */
  function Crashed(w: Warehouse, ms: seq<Migration>, k: nat): Warehouse {
    Interrupted(w, Plan(w, ms), k).0
  }

  function AfterCrashes(w: Warehouse, ms: seq<Migration>, crashes: seq<nat>): Warehouse
    decreases |crashes|
  {
    if crashes == [] then w else AfterCrashes(Crashed(w, ms, crashes[0]), ms, crashes[1..])
  }

  /** A run left alone: the result, and whether it finished. */
  function Completed(w: Warehouse, ms: seq<Migration>): (Warehouse, bool) {
    DoAll(w, Plan(w, ms))
  }

  // ---- running commands in pieces -------------------------------------------

  lemma {:induction false} DoAllAppend(w: Warehouse, a: seq<Command>, b: seq<Command>)
    ensures DoAll(w, a + b) == if DoAll(w, a).1 then DoAll(DoAll(w, a).0, b) else DoAll(w, a)
    decreases |a|
  {
    if a == [] {
      assert a + b == b;
    } else {
      assert (a + b)[1..] == a[1..] + b;
      var next := Do(w, a[0]);
      if next.Some? {
        DoAllAppend(next.value, a[1..], b);
      }
    }
  }

  // ---- statements done stay done --------------------------------------------

  /** What a statement asks for is there. */
  predicate Satisfied(schema: map<string, seq<string>>, s: Stmt) {
    match s
    case CreateTable(table, _) => table in schema
    case AddColumn(table, column) => table in schema && column in schema[table]
  }

  predicate BodyOnly(cs: seq<Command>) {
    forall i :: 0 <= i < |cs| ==> cs[i].Exec?
  }

  lemma {:induction false} SatisfiedStays(w: Warehouse, cs: seq<Command>, s: Stmt)
    requires Satisfied(w.schema, s)
    ensures Satisfied(DoAll(w, cs).0.schema, s)
    decreases |cs|
  {
    if cs != [] {
      var next := Do(w, cs[0]);
      if next.Some? {
        SatisfiedStays(next.value, cs[1..], s);
      }
    }
  }

  /** Statements that ran are satisfied, and satisfied statements run again without effect. */
  lemma {:induction false} RanIsSatisfied(w: Warehouse, cs: seq<Command>)
    requires DoAll(w, cs).1
    ensures forall i :: 0 <= i < |cs| && cs[i].Exec? ==> Satisfied(DoAll(w, cs).0.schema, cs[i].stmt)
    decreases |cs|
  {
    if cs != [] {
      var next := Do(w, cs[0]).value;
      RanIsSatisfied(next, cs[1..]);
      forall i | 0 <= i < |cs| && cs[i].Exec? ensures Satisfied(DoAll(w, cs).0.schema, cs[i].stmt) {
        if i == 0 {
          SatisfiedStays(next, cs[1..], cs[0].stmt);
        } else {
          assert cs[i] == cs[1..][i - 1];
        }
      }
    }
  }

  lemma {:induction false} SatisfiedIsNoOp(w: Warehouse, cs: seq<Command>)
    requires BodyOnly(cs) && forall i :: 0 <= i < |cs| ==> Satisfied(w.schema, cs[i].stmt)
    ensures DoAll(w, cs) == (w, true)
    decreases |cs|
  {
    if cs != [] {
      assert Do(w, cs[0]) == Some(w);
      SatisfiedIsNoOp(w, cs[1..]);
    }
  }

  /** Repeating what was already run from `base`, and going on, is the same as having gone on. */
  lemma ReplayContinues(base: Warehouse, cs: seq<Command>, j: nat, k: nat)
    requires BodyOnly(cs) && j <= |cs| && k <= |cs| && DoAll(base, cs[..j]).1
    ensures var w := DoAll(base, cs[..j]).0;
            DoAll(w, cs[..k]) == if k <= j then (w, true) else DoAll(base, cs[..k])
  {
    var w := DoAll(base, cs[..j]).0;
    RanIsSatisfied(base, cs[..j]);
    var m := if k <= j then k else j;
    forall i | 0 <= i < m ensures Satisfied(w.schema, cs[..m][i].stmt) {
      assert cs[..m][i] == cs[..j][i];
    }
    SatisfiedIsNoOp(w, cs[..m]);
    if k > j {
      assert cs[..k] == cs[..j] + cs[j..k];
      DoAllAppend(base, cs[..j], cs[j..k]);
      DoAllAppend(w, cs[..j], cs[j..k]);
    }
  }

  // ---- where a run of runs can be -------------------------------------------

  const START := FRESH.(ready := true)

  /** After `m` whole migrations and `j` statements of the next, none of which raised. */
  ghost predicate At(w: Warehouse, ms: seq<Migration>, m: nat, j: nat) {
    && m <= |ms| && w.versions == Versions(ms[..m])
    && DoAll(START, Scripts(ms[..m])).1
    && (if m == |ms| then j == 0 && w == DoAll(START, Scripts(ms)).0
        else
          && j <= |Body(ms[m])|
          && DoAll(DoAll(START, Scripts(ms[..m])).0, Body(ms[m])[..j]) == (w, true))
  }

  ghost predicate Reached(w: Warehouse, ms: seq<Migration>) {
    w == FRESH || exists m: nat, j: nat :: At(w, ms, m, j)
  }

  lemma {:induction false} ScriptsAppend(a: seq<Migration>, b: seq<Migration>)
    ensures Scripts(a + b) == Scripts(a) + Scripts(b)
    decreases |a|
  {
    if a == [] {
      assert a + b == b;
    } else {
      assert (a + b)[1..] == a[1..] + b;
      ScriptsAppend(a[1..], b);
    }
  }

  lemma {:induction false} PendingAppend(a: seq<Migration>, b: seq<Migration>, versions: seq<int>)
    ensures Pending(a + b, versions) == Pending(a, versions) + Pending(b, versions)
    decreases |a|
  {
    if a == [] {
      assert a + b == b;
    } else {
      assert (a + b)[1..] == a[1..] + b;
      PendingAppend(a[1..], b, versions);
    }
  }

  lemma {:induction false} AllDone(ms: seq<Migration>, versions: seq<int>)
    requires forall i :: 0 <= i < |ms| ==> ms[i].version in versions
    ensures Pending(ms, versions) == []
  {
    if ms != [] {
      AllDone(ms[1..], versions);
    }
  }

  lemma {:induction false} NoneAmong(ms: seq<Migration>, versions: seq<int>)
    requires forall i :: 0 <= i < |ms| ==> ms[i].version !in versions
    ensures Pending(ms, versions) == ms
  {
    if ms != [] {
      NoneAmong(ms[1..], versions);
    }
  }

  lemma PendingAfter(a: seq<Migration>, b: seq<Migration>)
    requires Distinct(a + b)
    ensures Pending(a + b, Versions(a)) == b
  {
    var versions := Versions(a);
    forall i, n | 0 <= i < |b| && 0 <= n < |a| ensures versions[n] != b[i].version {
      assert (a + b)[n] == a[n] && (a + b)[|a| + i] == b[i];
    }
    AllDone(a, versions);
    NoneAmong(b, versions);
    PendingAppend(a, b, versions);
  }

  /** With no version shared, what is pending after `m` migrations is the rest of the list. */
  lemma PendingIsRest(ms: seq<Migration>, m: nat)
    requires Distinct(ms) && m <= |ms|
    ensures Pending(ms, Versions(ms[..m])) == ms[m..]
  {
    assert ms == ms[..m] + ms[m..];
    PendingAfter(ms[..m], ms[m..]);
  }

  lemma PlanIsRest(w: Warehouse, ms: seq<Migration>, m: nat, j: nat)
    requires Distinct(ms) && At(w, ms, m, j)
    ensures Plan(w, ms) == [EnsureVersions] + Scripts(ms[m..])
    ensures w.ready
  {
    PendingIsRest(ms, m);
    ReadyStays(START, Scripts(ms[..m]));
    if m < |ms| {
      ReadyStays(DoAll(START, Scripts(ms[..m])).0, Body(ms[m])[..j]);
    } else {
      assert ms[..m] == ms;
    }
  }

  lemma {:induction false} ReadyStays(w: Warehouse, cs: seq<Command>)
    requires w.ready
    ensures DoAll(w, cs).0.ready
    decreases |cs|
  {
    if cs != [] && Do(w, cs[0]).Some? {
      ReadyStays(Do(w, cs[0]).value, cs[1..]);
    }
  }

  lemma {:induction false} BodyKeepsVersions(w: Warehouse, cs: seq<Command>)
    requires BodyOnly(cs)
    ensures DoAll(w, cs).0.versions == w.versions && DoAll(w, cs).0.ready == w.ready
    decreases |cs|
  {
    if cs != [] && Do(w, cs[0]).Some? {
      BodyKeepsVersions(Do(w, cs[0]).value, cs[1..]);
    }
  }

  /** Where a body stops when it raises: after some statements that did not. */
  lemma {:induction false} StopsAfter(base: Warehouse, cs: seq<Command>) returns (n: nat)
    ensures n <= |cs| && DoAll(base, cs[..n]) == (DoAll(base, cs).0, true)
    ensures DoAll(base, cs).1 ==> n == |cs|
    decreases |cs|
  {
    if cs == [] {
      n := 0;
    } else if Do(base, cs[0]).None? {
      n := 0;
      assert cs[..0] == [];
    } else {
      var next := Do(base, cs[0]).value;
      var r := StopsAfter(next, cs[1..]);
      n := r + 1;
      assert cs[..n][1..] == cs[1..][..r];
      assert cs[1..][..|cs[1..]|] == cs[1..];
    }
  }

  /** The warehouse once `m` whole migrations ran from nothing. */
  function BaseOf(ms: seq<Migration>, m: nat): Warehouse
    requires m <= |ms|
  {
    DoAll(START, Scripts(ms[..m])).0
  }

  /** One migration on its own: its statements, then its version if none raised. */
  lemma ScriptRuns(w: Warehouse, m: Migration)
    requires w.ready
    ensures var (next, ok) := DoAll(w, Body(m));
            DoAll(w, Script(m))
              == if ok then (next.(versions := w.versions + [m.version]), true) else (next, false)
  {
    var body := Body(m);
    BodyKeepsVersions(w, body);
    DoAllAppend(w, body, [Record(m.version)]);
    var next := DoAll(w, body).0;
    assert Do(next, Record(m.version)) == Some(next.(versions := next.versions + [m.version]));
    assert [Record(m.version)][1..] == [];
  }

  lemma AlikeThen(w: Warehouse, a: seq<Command>, w': Warehouse, b: seq<Command>, more: seq<Command>)
    requires DoAll(w, a) == DoAll(w', b)
    ensures DoAll(w, a + more) == DoAll(w', b + more)
  {
    DoAllAppend(w, a, more);
    DoAllAppend(w', b, more);
  }

  /** A script replayed from inside its own body ends where running it once would have. */
  lemma ScriptReplays(base: Warehouse, m: Migration, j: nat)
    requires j <= |Body(m)| && DoAll(base, Body(m)[..j]).1
    ensures DoAll(DoAll(base, Body(m)[..j]).0, Script(m)) == DoAll(base, Script(m))
  {
    var body := Body(m);
    assert body[..|body|] == body;
    ReplayContinues(base, body, j, |body|);
    AlikeThen(DoAll(base, body[..j]).0, body, base, body, [Record(m.version)]);
  }

  lemma BaseGrows(ms: seq<Migration>, m: nat)
    requires m < |ms| && DoAll(START, Scripts(ms[..m])).1
    ensures DoAll(START, Scripts(ms[..m + 1])) == DoAll(BaseOf(ms, m), Script(ms[m]))
    ensures BaseOf(ms, m).ready
  {
    ScriptsLast(ms, m);
    DoAllAppend(START, Scripts(ms[..m]), Script(ms[m]));
    ReadyStays(START, Scripts(ms[..m]));
  }

  /** Migrations run to their end record their versions, in order. */
  lemma {:induction false} VersionsRecorded(w: Warehouse, ms: seq<Migration>)
    requires w.ready && DoAll(w, Scripts(ms)).1
    ensures DoAll(w, Scripts(ms)).0.versions == w.versions + Versions(ms)
    decreases |ms|
  {
    if ms != [] {
      var script, rest := Script(ms[0]), ms[1..];
      DoAllAppend(w, script, Scripts(rest));
      ScriptRuns(w, ms[0]);
      ReadyStays(w, script);
      VersionsRecorded(DoAll(w, script).0, rest);
    }
  }

  lemma AtStart(ms: seq<Migration>, m: nat)
    requires m <= |ms| && DoAll(START, Scripts(ms[..m])).1
    ensures At(BaseOf(ms, m), ms, m, 0)
  {
    VersionsRecorded(START, ms[..m]);
    if m == |ms| {
      assert ms[..m] == ms;
    } else {
      assert Body(ms[m])[..0] == [];
    }
  }

  /** Finishing migration `m` from anywhere inside it leads to the start of the next. */
  lemma NextMigration(w: Warehouse, ms: seq<Migration>, m: nat, j: nat)
    requires m < |ms| && At(w, ms, m, j)
    ensures DoAll(w, Script(ms[m])) == DoAll(START, Scripts(ms[..m + 1]))
    ensures DoAll(w, Script(ms[m])).1
            ==> At(DoAll(w, Script(ms[m])).0, ms, m + 1, 0)
  {
    BaseGrows(ms, m);
    ScriptReplays(BaseOf(ms, m), ms[m], j);
    if DoAll(w, Script(ms[m])).1 {
      AtStart(ms, m + 1);
    }
  }

  lemma InsideBody(w: Warehouse, ms: seq<Migration>, m: nat, j: nat, k: nat)
    requires m < |ms| && At(w, ms, m, j) && k <= |Body(ms[m])|
    ensures Reached(DoAll(w, Body(ms[m])[..k]).0, ms)
  {
    var base := BaseOf(ms, m);
    var body := Body(ms[m]);
    ReplayContinues(base, body, j, k);
    if k > j {
      var n := StopsAfter(base, body[..k]);
      assert body[..k][..n] == body[..n];
      BodyKeepsVersions(base, body[..n]);
      BodyKeepsVersions(base, body[..j]);
      assert At(DoAll(base, body[..k]).0, ms, m, n);
    }
  }

  lemma RaisingBody(w: Warehouse, ms: seq<Migration>, m: nat, j: nat)
    requires m < |ms| && At(w, ms, m, j) && !DoAll(w, Script(ms[m])).1
    ensures Reached(DoAll(w, Script(ms[m])).0, ms)
  {
    var body := Body(ms[m]);
    assert body[..|body|] == body;
    InsideBody(w, ms, m, j, |body|);
    BaseGrows(ms, m);
    BodyKeepsVersions(BaseOf(ms, m), body[..j]);
    ScriptRuns(w, ms[m]);
  }

  /** Any number of commands of the rest of the plan lead from one such place to another. */
  lemma {:induction false} RestReaches(w: Warehouse, ms: seq<Migration>, m: nat, j: nat, k: nat)
    requires At(w, ms, m, j) && k <= |Scripts(ms[m..])|
    ensures Reached(DoAll(w, Scripts(ms[m..])[..k]).0, ms)
    decreases |ms| - m
  {
    var cs := Scripts(ms[m..]);
    if m == |ms| {
      assert cs[..k] == [];
    } else {
      var body, script, more := Body(ms[m]), Script(ms[m]), Scripts(ms[m + 1..]);
      assert ms[m..][1..] == ms[m + 1..];
      assert cs == script + more;
      if k <= |body| {
        assert cs[..k] == body[..k];
        InsideBody(w, ms, m, j, k);
      } else {
        var k' := k - |script|;
        assert cs[..k] == script + more[..k'];
        DoAllAppend(w, script, more[..k']);
        NextMigration(w, ms, m, j);
        if DoAll(w, script).1 {
          RestReaches(DoAll(w, script).0, ms, m + 1, 0, k');
        } else {
          RaisingBody(w, ms, m, j);
        }
      }
    }
  }

  lemma ScriptsCut(ms: seq<Migration>, i: nat)
    requires i <= |ms|
    ensures Scripts(ms) == Scripts(ms[..i]) + Scripts(ms[i..])
  {
    assert ms == ms[..i] + ms[i..];
    ScriptsAppend(ms[..i], ms[i..]);
  }

  lemma ScriptsLast(ms: seq<Migration>, i: nat)
    requires i < |ms|
    ensures Scripts(ms[..i + 1]) == Scripts(ms[..i]) + Script(ms[i])
  {
    var last := [ms[i]];
    assert ms[..i + 1] == ms[..i] + last && last[1..] == [];
    ScriptsAppend(ms[..i], last);
    assert Scripts(last) == Script(ms[i]) + Scripts(last[1..]);
  }

  /** The list's scripts, cut around one of them. */
  lemma ScriptsAround(ms: seq<Migration>, i: nat)
    requires i < |ms|
    ensures Scripts(ms[i..]) == Script(ms[i]) + Scripts(ms[i + 1..])
    ensures Scripts(ms) == Scripts(ms[..i]) + (Script(ms[i]) + Scripts(ms[i + 1..]))
    ensures Scripts(ms) == Scripts(ms[..i + 1]) + Scripts(ms[i + 1..])
    ensures Scripts(ms[..i + 1]) == Scripts(ms[..i]) + Script(ms[i])
  {
    assert ms[i..][1..] == ms[i + 1..];
    ScriptsCut(ms, i);
    ScriptsCut(ms, i + 1);
    ScriptsLast(ms, i);
  }

  /** The rest of the plan, run to its end, is the whole list run from nothing. */
  lemma RestCompletes(w: Warehouse, ms: seq<Migration>, m: nat, j: nat)
    requires At(w, ms, m, j)
    ensures DoAll(w, Scripts(ms[m..])) == DoAll(START, Scripts(ms))
  {
    if m == |ms| {
      assert ms[..m] == ms && ms[m..] == [];
    } else {
      NextMigration(w, ms, m, j);
      AlikeThen(w, Script(ms[m]), START, Scripts(ms[..m + 1]), Scripts(ms[m + 1..]));
      ScriptsAround(ms, m);
    }
  }

  // ---- runs of the applier --------------------------------------------------

  lemma PlanFromFresh(ms: seq<Migration>)
    ensures Plan(FRESH, ms) == [EnsureVersions] + Scripts(ms)
    ensures At(START, ms, 0, 0)
  {
    NoneAmong(ms, []);
    assert ms[..0] == [];
    AtStart(ms, 0);
  }

  lemma EnsureFirst(w: Warehouse, cs: seq<Command>)
    ensures DoAll(w, [EnsureVersions] + cs) == DoAll(w.(ready := true), cs)
  {
  }

  /** A run that got through `cs` goes on as one that starts there, with the commands left to it. */
  lemma GoesOn(w: Warehouse, cs: seq<Command>, more: seq<Command>, k: nat, now: Warehouse)
    requires DoAll(w, cs) == (now, true) && |cs| <= k
    ensures Interrupted(w, cs + more, k) == Interrupted(now, more, k - |cs|)
  {
    DoAllAppend(w, cs, more);
    if k - |cs| < |more| {
      assert (cs + more)[..k] == cs + more[..k - |cs|];
      DoAllAppend(w, cs, more[..k - |cs|]);
    }
  }

  lemma EnsureInterrupted(w: Warehouse, rest: seq<Command>, k: nat)
    ensures Interrupted(w, [EnsureVersions] + rest, k)
            == if k == 0 then (w, false) else Interrupted(w.(ready := true), rest, k - 1)
  {
    if k == 0 {
      assert ([EnsureVersions] + rest)[..0] == [];
    } else {
      EnsureFirst(w, []);
      assert [EnsureVersions] + [] == [EnsureVersions];
      GoesOn(w, [EnsureVersions], rest, k, w.(ready := true));
    }
  }

  /** Being cut short in the rest of the plan is running a prefix of it. */
  lemma InterruptedReaches(w: Warehouse, ms: seq<Migration>, m: nat, j: nat, k: nat)
    requires At(w, ms, m, j)
    ensures Reached(Interrupted(w, Scripts(ms[m..]), k).0, ms)
  {
    var rest := Scripts(ms[m..]);
    RestReaches(w, ms, m, j, if k < |rest| then k else |rest|);
    assert rest[..|rest|] == rest;
  }

  /** One run of the applier, cut short anywhere, keeps the warehouse where a run of runs can be. */
  lemma CrashReaches(w: Warehouse, ms: seq<Migration>, k: nat)
    requires Distinct(ms) && Reached(w, ms)
    ensures Reached(Crashed(w, ms, k), ms)
  {
    var m: nat, j: nat := 0, 0;
    PlanFromFresh(ms);
    if w != FRESH {
      m, j :| At(w, ms, m, j);
      PlanIsRest(w, ms, m, j);
    } else {
      assert ms[0..] == ms;
    }
    EnsureInterrupted(w, Scripts(ms[m..]), k);
    if k > 0 {
      InterruptedReaches(w.(ready := true), ms, m, j, k - 1);
    }
  }

  lemma {:induction false} CrashesReach(w: Warehouse, ms: seq<Migration>, crashes: seq<nat>)
    requires Distinct(ms) && Reached(w, ms)
    ensures Reached(AfterCrashes(w, ms, crashes), ms)
    decreases |crashes|
  {
    if crashes != [] {
      CrashReaches(w, ms, crashes[0]);
      CrashesReach(Crashed(w, ms, crashes[0]), ms, crashes[1..]);
    }
  }

  lemma CompletesAlike(w: Warehouse, ms: seq<Migration>)
    requires Distinct(ms) && Reached(w, ms)
    ensures Completed(w, ms) == DoAll(START, Scripts(ms))
  {
    PlanFromFresh(ms);
    EnsureFirst(FRESH, Scripts(ms));
    if w != FRESH {
      var m: nat, j: nat :| At(w, ms, m, j);
      PlanIsRest(w, ms, m, j);
      EnsureFirst(w, Scripts(ms[m..]));
      RestCompletes(w, ms, m, j);
    }
  }

  /** Any number of runs that crash between any two commands, then one that is left alone, end
      exactly where a single clean run ends, and the last finishes exactly when that one does. */
  lemma CrashesDoNotShow(ms: seq<Migration>, crashes: seq<nat>)
    requires Distinct(ms)
    ensures Completed(AfterCrashes(FRESH, ms, crashes), ms) == Completed(FRESH, ms)
  {
    CrashesReach(FRESH, ms, crashes);
    CompletesAlike(FRESH, ms);
    CompletesAlike(AfterCrashes(FRESH, ms, crashes), ms);
  }

  /** After any crashes the recorded versions are a prefix of the list, and everything the recorded
      migrations ask for is there. */
  lemma RecordedMeansDone(ms: seq<Migration>, crashes: seq<nat>) returns (m: nat)
    requires Distinct(ms)
    ensures m <= |ms|
    ensures AfterCrashes(FRESH, ms, crashes).versions == Versions(ms[..m])
    ensures forall i, n :: 0 <= i < m && 0 <= n < |ms[i].stmts| ==>
              Satisfied(AfterCrashes(FRESH, ms, crashes).schema, ms[i].stmts[n])
  {
    var w := AfterCrashes(FRESH, ms, crashes);
    CrashesReach(FRESH, ms, crashes);
    if w == FRESH {
      m := 0;
    } else {
      var j: nat;
      m, j :| At(w, ms, m, j);
      forall i, n | 0 <= i < m && 0 <= n < |ms[i].stmts|
        ensures Satisfied(w.schema, ms[i].stmts[n])
      {
        RecordedDoneAt(w, ms, m, j, i, n);
      }
    }
  }

  lemma DoneInScripts(ms: seq<Migration>, i: nat, n: nat)
    requires DoAll(START, Scripts(ms)).1 && i < |ms| && n < |ms[i].stmts|
    ensures Satisfied(DoAll(START, Scripts(ms)).0.schema, ms[i].stmts[n])
  {
    ScriptsAround(ms, i);
    RanIsSatisfied(START, Scripts(ms));
    assert Scripts(ms)[|Scripts(ms[..i])| + n] == Body(ms[i])[n];
  }

  lemma RecordedDoneAt(w: Warehouse, ms: seq<Migration>, m: nat, j: nat, i: nat, n: nat)
    requires At(w, ms, m, j) && i < m && n < |ms[i].stmts|
    ensures Satisfied(w.schema, ms[i].stmts[n])
  {
    DoneInScripts(ms[..m], i, n);
    if m < |ms| {
      SatisfiedStays(BaseOf(ms, m), Body(ms[m])[..j], ms[i].stmts[n]);
    } else {
      assert ms[..m] == ms;
    }
  }

  /** What the two statement forms do: make what is missing as written, and leave alone what is there. */
  lemma ExecuteExactly(schema: map<string, seq<string>>, table: string, columns: seq<string>, column: string)
    ensures table !in schema ==> Execute(schema, CreateTable(table, columns)) == Some(schema[table := columns])
    ensures table in schema ==> Execute(schema, CreateTable(table, columns)) == Some(schema)
    ensures table !in schema ==> Execute(schema, AddColumn(table, column)) == None
    ensures table in schema && column !in schema[table] ==>
              Execute(schema, AddColumn(table, column)) == Some(schema[table := schema[table] + [column]])
    ensures table in schema && column in schema[table] ==> Execute(schema, AddColumn(table, column)) == Some(schema)
  {
  }

  /** What one clean run ends with, if it finishes: every version recorded, in order, and everything its
      migrations ask for. */
  lemma CleanRunDoesAll(ms: seq<Migration>)
    requires Completed(FRESH, ms).1
    ensures Completed(FRESH, ms).0.versions == Versions(ms)
    ensures forall i, n :: 0 <= i < |ms| && 0 <= n < |ms[i].stmts| ==>
              Satisfied(Completed(FRESH, ms).0.schema, ms[i].stmts[n])
  {
    PlanFromFresh(ms);
    EnsureFirst(FRESH, Scripts(ms));
    VersionsRecorded(START, ms);
    assert [] + Versions(ms) == Versions(ms);
    forall i, n | 0 <= i < |ms| && 0 <= n < |ms[i].stmts| ensures Satisfied(Completed(FRESH, ms).0.schema, ms[i].stmts[n]) {
      DoneInScripts(ms, i, n);
    }
  }

  // ---- two files with one version -------------------------------------------

  lemma PendingShorter(ms: seq<Migration>, versions: seq<int>)
    ensures |Pending(ms, versions)| <= |ms|
  {}

  /** Where the process must die for a shared version to show: right after it is first recorded. */
  function AfterFirst(ms: seq<Migration>, i: nat): nat
    requires i < |ms|
  {
    1 + |Scripts(ms[..i + 1])|
  }

  lemma InterruptedAt(w: Warehouse, first: seq<Command>, rest: seq<Command>)
    requires DoAll(w, first + rest).1
    ensures Interrupted(w, first + rest, |first|).0 == DoAll(w, first).0 && DoAll(w, first).1
  {
    DoAllAppend(w, first, rest);
    if rest == [] {
      assert first + rest == first;
    } else {
      assert (first + rest)[..|first|] == first;
    }
  }

  lemma CrashAfterFirst(ms: seq<Migration>, i: nat)
    requires i < |ms| && Completed(FRESH, ms).1
    ensures Crashed(FRESH, ms, AfterFirst(ms, i)).versions == Versions(ms[..i + 1])
    ensures Crashed(FRESH, ms, AfterFirst(ms, i)).ready
  {
    var first, rest := Scripts(ms[..i + 1]), Scripts(ms[i + 1..]);
    PlanFromFresh(ms);
    ScriptsCut(ms, i + 1);
    EnsureFirst(FRESH, first + rest);
    EnsureInterrupted(FRESH, first + rest, AfterFirst(ms, i));
    InterruptedAt(START, first, rest);
    VersionsRecorded(START, ms[..i + 1]);
    ReadyStays(START, first);
  }

  lemma SharedVersionShows(ms: seq<Migration>, i: nat, j: nat)
    requires i < j < |ms| && ms[i].version == ms[j].version && Completed(FRESH, ms).1
    ensures Completed(Crashed(FRESH, ms, AfterFirst(ms, i)), ms) != Completed(FRESH, ms)
  {
    var w := Crashed(FRESH, ms, AfterFirst(ms, i));
    CrashAfterFirst(ms, i);
    var pending := Pending(ms, w.versions);
    FewerPending(ms, i, j);
    EnsureFirst(w, Scripts(pending));
    PlanFromFresh(ms);
    EnsureFirst(FRESH, Scripts(ms));
    VersionsRecorded(START, ms);
    if Completed(w, ms).1 {
      VersionsRecorded(w.(ready := true), pending);
    }
  }

  lemma FewerPending(ms: seq<Migration>, i: nat, j: nat)
    requires i < j < |ms| && ms[i].version == ms[j].version
    ensures |Pending(ms, Versions(ms[..i + 1]))| < |ms| - (i + 1)
  {
    var versions := Versions(ms[..i + 1]);
    var first, second, shared, last := ms[..i + 1], ms[i + 1..j], [ms[j]], ms[j + 1..];
    assert ms == first + (second + (shared + last));
    PendingAppend(first, second + (shared + last), versions);
    PendingAppend(second, shared + last, versions);
    PendingAppend(shared, last, versions);
    assert forall n :: 0 <= n <= i ==> versions[n] == ms[n].version;
    AllDone(first, versions);
    assert versions[i] == ms[j].version;
    AllDone(shared, versions);
    PendingShorter(second, versions);
    PendingShorter(last, versions);
  }

  /** Whatever crashes come first, a run left alone ends as a single clean run does. */
  ghost predicate CrashSafe(ms: seq<Migration>) {
    forall crashes: seq<nat> :: SameAsClean(ms, crashes)
  }

  ghost predicate SameAsClean(ms: seq<Migration>, crashes: seq<nat>) {
    Completed(AfterCrashes(FRESH, ms, crashes), ms) == Completed(FRESH, ms)
  }

  /** For migrations one clean run can apply, crashes never show exactly when no version is shared. */
  lemma CrashSafeExactlyWhenDistinct(ms: seq<Migration>)
    requires Completed(FRESH, ms).1
    ensures CrashSafe(ms) <==> Distinct(ms)
  {
    if Distinct(ms) {
      forall crashes: seq<nat> ensures SameAsClean(ms, crashes) {
        CrashesDoNotShow(ms, crashes);
      }
    } else {
      var i, j :| 0 <= i < j < |ms| && ms[i].version == ms[j].version;
      SharedVersionShows(ms, i, j);
      OneCrash(ms, AfterFirst(ms, i));
      assert !SameAsClean(ms, [AfterFirst(ms, i)]);
    }
  }

  lemma OneCrash(ms: seq<Migration>, k: nat)
    ensures AfterCrashes(FRESH, ms, [k]) == Crashed(FRESH, ms, k)
  {
    assert [k][1..] == [];
    assert AfterCrashes(Crashed(FRESH, ms, k), ms, []) == Crashed(FRESH, ms, k);
  }

  /** What is lost need not be a record only: here the second file's table never comes to exist. */
  lemma SharedVersionLosesATable()
    ensures var ms := [Migration(1, [CreateTable("a", [])]), Migration(1, [CreateTable("b", [])])];
            && "b" in Completed(FRESH, ms).0.schema
            && "b" !in Completed(AfterCrashes(FRESH, ms, [3]), ms).0.schema
  {
  }

  // ---- migration files --------------------------------------------------------

  datatype File = File(version: int, sql: string)

  /** What each statement text asks of ClickHouse. */
  type Meaning = string -> Stmt

  function Meant(texts: seq<string>, meaning: Meaning): (stmts: seq<Stmt>)
    ensures |stmts| == |texts| && forall i :: 0 <= i < |texts| ==> stmts[i] == meaning(texts[i])
  {
    seq(|texts|, i requires 0 <= i < |texts| => meaning(texts[i]))
  }

  function Parsed(f: File, meaning: Meaning): Migration {
    Migration(f.version, Meant(SqlSplit.SplitStatements(f.sql), meaning))
  }

  function ParsedAll(fs: seq<File>, meaning: Meaning): (ms: seq<Migration>)
    ensures |ms| == |fs| && forall i :: 0 <= i < |fs| ==> ms[i] == Parsed(fs[i], meaning)
  {
    if fs == [] then [] else [Parsed(fs[0], meaning)] + ParsedAll(fs[1..], meaning)
  }

  function PendingFiles(fs: seq<File>, versions: seq<int>): seq<File> {
    if fs == [] then []
    else if fs[0].version in versions then PendingFiles(fs[1..], versions)
    else [fs[0]] + PendingFiles(fs[1..], versions)
  }

  lemma {:induction false} PendingParsed(fs: seq<File>, versions: seq<int>, meaning: Meaning)
    ensures ParsedAll(PendingFiles(fs, versions), meaning) == Pending(ParsedAll(fs, meaning), versions)
  {
    if fs != [] {
      PendingParsed(fs[1..], versions, meaning);
      assert ParsedAll(fs, meaning)[1..] == ParsedAll(fs[1..], meaning);
      var rest := PendingFiles(fs[1..], versions);
      assert ([fs[0]] + rest)[1..] == rest;
    }
  }

  /** Files written statement by statement, with line comments before, between and after, mean just
      those statements. */
  lemma PrintedFileMeans(version: int, statements: seq<string>, comments: seq<seq<string>>, ended: bool, meaning: Meaning)
    requires |comments| == |statements| + 1 && SqlSplit.AllPrintable(statements, comments)
    ensures Parsed(File(version, SqlSplit.RenderAll(SqlSplit.Printed(statements, comments, ended))), meaning)
            == Migration(version, Meant(statements, meaning))
  {
    SqlSplit.PrintThenSplit(statements, comments, ended);
  }

  // ---- the applier as a process ---------------------------------------------

  /** One command of a process that lives for `k`: it gets one further, or the run ends here. */
  lemma Advances(w: Warehouse, cs: seq<Command>, i: nat, k: nat, now: Warehouse)
    requires i < |cs| && i <= k && DoAll(w, cs[..i]) == (now, true)
    ensures if i < k && Do(now, cs[i]).Some?
            then DoAll(w, cs[..i + 1]) == (Do(now, cs[i]).value, true)
            else Interrupted(w, cs, k) == (now, false)
  {
    if i < k {
      var done := if k < |cs| then cs[..k] else cs;
      if Do(now, cs[i]).Some? {
        done := cs[..i + 1];
        assert cs[i..i + 1][1..] == [];
      }
      assert done == cs[..i] + done[i..];
      DoAllAppend(w, cs[..i], done[i..]);
    }
  }

  lemma StopsWithin(w: Warehouse, cs: seq<Command>, more: seq<Command>, k: nat)
    requires !Interrupted(w, cs, k).1
    ensures Interrupted(w, cs + more, k) == Interrupted(w, cs, k)
  {
    if k < |cs| {
      assert (cs + more)[..k] == cs[..k];
    } else {
      DoAllAppend(w, cs, more);
      if k < |cs| + |more| {
        assert (cs + more)[..k] == cs + more[..k - |cs|];
        DoAllAppend(w, cs, more[..k - |cs|]);
      }
    }
  }

  /** A process with `given` commands got through all of `cs` and has `left` of them. */
  predicate Through(start: Warehouse, cs: seq<Command>, given: nat, now: Warehouse, left: nat) {
    |cs| <= given && left == given - |cs| && DoAll(start, cs) == (now, true)
  }

  /** One round of the applier's loop: what applying the next migration says of the whole run. */
  lemma NextScript(start: Warehouse, ms: seq<Migration>, i: nat, given: nat,
                   now: Warehouse, left: nat, next: Warehouse, ok: bool)
    requires i < |ms| && Through(start, Scripts(ms[..i]), given, now, left)
    requires (next, ok) == Interrupted(now, Script(ms[i]), left)
    ensures ok ==> |Script(ms[i])| <= left
                   && Through(start, Scripts(ms[..i + 1]), given, next, left - |Script(ms[i])|)
    ensures !ok ==> Interrupted(start, Scripts(ms), given) == (next, false)
  {
    var done, script, more := Scripts(ms[..i]), Script(ms[i]), Scripts(ms[i + 1..]);
    ScriptsAround(ms, i);
    if ok {
      DoAllAppend(start, done, script);
    } else {
      GoesOn(start, done, script + more, given, now);
      StopsWithin(now, script, more, left);
    }
  }

  lemma AllThrough(start: Warehouse, ms: seq<Migration>, given: nat, now: Warehouse, left: nat)
    requires Through(start, Scripts(ms[..|ms|]), given, now, left)
    ensures Interrupted(start, Scripts(ms), given) == (now, true)
  {
    assert ms[..|ms|] == ms;
  }

  /** A ClickHouse server together with the number of commands the applier's process will live for. */
  class Applier {
    var schema: map<string, seq<string>>
    var ready: bool
    var versions: seq<int>
    var left: nat
    const meaning: Meaning

    function State(): Warehouse
      reads this
    {
      Warehouse(schema, ready, versions)
    }

    constructor (state: Warehouse, meaning: Meaning, left: nat)
      ensures State() == state && this.meaning == meaning && this.left == left
    {
      schema, ready, versions := state.schema, state.ready, state.versions;
      this.meaning, this.left := meaning, left;
    }

    /** One command: nothing is left of it when the process is dead or the server raises. */
    method Send(c: Command) returns (ok: bool)
      modifies this
      ensures ok == (old(left) > 0 && Do(old(State()), c).Some?)
      ensures State() == if ok then Do(old(State()), c).value else old(State())
      ensures ok ==> left == old(left) - 1
    {
      if left == 0 {
        return false;
      }
      left := left - 1;
      match c {
        case EnsureVersions => ready := true;
        case Exec(stmt) =>
          match stmt {
            case CreateTable(table, columns) =>
              if table !in schema {
                schema := schema[table := columns];
              }
            case AddColumn(table, column) =>
              if table !in schema {
                return false;
              }
              if column !in schema[table] {
                schema := schema[table := schema[table] + [column]];
              }
          }
        case Record(version) =>
          if !ready {
            return false;
          }
          versions := versions + [version];
      }
      return true;
    }

    method ApplyOne(f: File) returns (ok: bool)
      modifies this
      ensures (State(), ok) == Interrupted(old(State()), Script(Parsed(f, meaning)), old(left))
      ensures ok ==> left == old(left) - |Script(Parsed(f, meaning))|
    {
      var stmts := SqlSplit.SplitStatements(f.sql);
      ghost var cs := Script(Parsed(f, meaning));
      ghost var was := State();
      ghost var k := left;
      for i := 0 to |stmts|
        invariant i <= k && left == k - i
        invariant DoAll(was, cs[..i]) == (State(), true)
      {
        Advances(was, cs, i, k, State());
        var sent := Send(Exec(meaning(stmts[i])));
        if !sent {
          return false;
        }
      }
      Advances(was, cs, |stmts|, k, State());
      ok := Send(Record(f.version));
      assert cs[..|stmts| + 1] == cs;
    }

    /** The loop of `main`. */
    method ApplyAll(pending: seq<File>) returns (ok: bool)
      modifies this
      ensures (State(), ok) == Interrupted(old(State()), Scripts(ParsedAll(pending, meaning)), old(left))
    {
      ghost var start, given := State(), left;
      ghost var ms := ParsedAll(pending, meaning);
      for i := 0 to |pending|
        invariant Through(start, Scripts(ms[..i]), given, State(), left)
      {
        ghost var now, lived := State(), left;
        var applied := ApplyOne(pending[i]);
        NextScript(start, ms, i, given, now, lived, State(), applied);
        if !applied {
          return false;
        }
      }
      AllThrough(start, ms, given, State(), left);
      return true;
    }

    /** One run: prepare the version table, read it once, apply what it does not list, in order. */
    method Run(files: seq<File>) returns (finished: bool)
      modifies this
      ensures (State(), finished)
              == Interrupted(old(State()), Plan(old(State()), ParsedAll(files, meaning)), old(left))
    {
      ghost var was := State();
      PendingParsed(files, versions, meaning);
      EnsureInterrupted(was, Scripts(Pending(ParsedAll(files, meaning), versions)), left);
      var prepared := Send(EnsureVersions);
      if !prepared {
        return false;
      }
      var pending := PendingFiles(files, versions);
      finished := ApplyAll(pending);
    }
  }
}
