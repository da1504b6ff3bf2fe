/** Finding the migration files: by name order, which is version order for prefixes of one width. */
module MigrationFiles {
  import opened Common
  import opened Numerals
  import Migrations
  import Text

  /** How many digits a name begins with. */
  function Width(name: string): (k: nat)
    ensures k <= |name| && AllDigits(name[..k])
    ensures k < |name| ==> !IsDigit(name[k])
  {
    if name == "" || !IsDigit(name[0]) then 0
    else
      var k := 1 + Width(name[1..]);
      assert forall i :: 0 < i < k ==> name[i] == name[1..][..k - 1][i - 1];
      k
  }

  /** The version in a name of the form digits, underscore, something, `.sql`; None for any other. */
  function Version(name: string): Option<nat> {
    var k := Width(name);
    if 0 < k && k + 6 <= |name| && name[k] == '_' && Text.EndsWith(name, ".sql") && '\n' !in name[k + 1..|name| - 4]
    then Some(Value(name[..k]))
    else None
  }

  /** A migration's name is its version's digits, an underscore, something on one line, and `.sql`. */
  lemma VersionExactly(digits: string, what: string)
    requires IsNumeral(digits) && what != "" && '\n' !in what
    ensures Version(digits + "_" + what + ".sql") == Some(Value(digits))
  {
    var name := digits + "_" + what + ".sql";
    var k := |digits|;
    assert name[..k] == digits && name[k] == '_';
    WidthIs(name, k);
    Text.EndsWithAppended(digits + "_" + what, ".sql");
    assert name[k + 1..|name| - 4] == what;
  }

  /** In particular the version printed, with or without zeros in front. */
  lemma VersionPrinted(version: nat, what: string)
    requires what != "" && '\n' !in what
    ensures Version(Numeral(version) + "_" + what + ".sql") == Some(version)
    ensures Version("0" + Numeral(version) + "_" + what + ".sql") == Some(version)
  {
    VersionExactly(Numeral(version), what);
    ZeroInFront(Numeral(version));
    VersionExactly("0" + Numeral(version), what);
  }

  lemma ZeroInFront(digits: string)
    requires IsNumeral(digits)
    ensures IsNumeral("0" + digits) && Value("0" + digits) == Value(digits)
  {
    ValueFromFront("0" + digits);
    assert ("0" + digits)[1..] == digits;
  }

  /** And any other name is passed over. */
  lemma VersionOnlyOf(name: string) returns (digits: string, what: string)
    requires Version(name).Some?
    ensures IsNumeral(digits) && what != "" && '\n' !in what && name == digits + "_" + what + ".sql"
  {
    var k := Width(name);
    digits, what := name[..k], name[k + 1..|name| - 4];
    assert name == name[..k] + [name[k]] + name[k + 1..|name| - 4] + name[|name| - 4..];
  }

  // ---- the order of names ---------------------------------------------------

  /** How Python compares strings. */
  predicate AtMost(a: string, b: string) {
    a == "" || (b != "" && (a[0] < b[0] || (a[0] == b[0] && AtMost(a[1..], b[1..]))))
  }

  /** The first difference decides, and a text comes before what goes on from it. */
  lemma {:induction false} FirstDifferenceDecides(same: string, c: char, x: string, d: char, y: string)
    requires c < d
    ensures AtMost(same + [c] + x, same + [d] + y) && !AtMost(same + [d] + y, same + [c] + x)
    ensures AtMost(same, same + x)
  {
    if same != "" {
      var rest := same[1..];
      FirstDifferenceDecides(rest, c, x, d, y);
      assert (same + [c] + x)[1..] == rest + [c] + x && (same + [d] + y)[1..] == rest + [d] + y;
      assert (same + x)[1..] == rest + x;
    }
  }

  lemma {:induction false} Total(a: string, b: string)
    ensures AtMost(a, b) || AtMost(b, a)
    ensures AtMost(a, b) && AtMost(b, a) ==> a == b
  {
    if a != "" && b != "" {
      Total(a[1..], b[1..]);
      if a[0] == b[0] && a[1..] == b[1..] {
        assert a == [a[0]] + a[1..] && b == [b[0]] + b[1..];
      }
    }
  }

  lemma {:induction false} Transitive(a: string, b: string, c: string)
    requires AtMost(a, b) && AtMost(b, c)
    ensures AtMost(a, c)
  {
    if a != "" && a[0] == b[0] && b[0] == c[0] {
      Transitive(a[1..], b[1..], c[1..]);
    }
  }

  predicate InOrder(names: seq<string>) {
    forall i, j :: 0 <= i < j < |names| ==> AtMost(names[i], names[j])
  }

  function Insert(name: string, names: seq<string>): (r: seq<string>)
    ensures multiset(r) == multiset(names) + multiset{name}
  {
    if names == [] || AtMost(name, names[0]) then
      [name] + names
    else
      assert names == [names[0]] + names[1..];
      [names[0]] + Insert(name, names[1..])
  }

  /** `sorted(names)`. */
  function Sorted(names: seq<string>): (r: seq<string>)
    ensures multiset(r) == multiset(names)
  {
    if names == [] then []
    else
      assert names == [names[0]] + names[1..];
      Insert(names[0], Sorted(names[1..]))
  }

  lemma Inserted(name: string, names: seq<string>, x: string)
    requires x in Insert(name, names)
    ensures x == name || x in names
  {
    assert x in multiset(Insert(name, names));
  }

  lemma InFront(name: string, names: seq<string>)
    requires InOrder(names) && (names != [] ==> AtMost(name, names[0]))
    ensures InOrder([name] + names)
  {
    forall j | 0 <= j < |names| ensures AtMost(name, names[j]) {
      if j > 0 {
        Transitive(name, names[0], names[j]);
      }
    }
  }

  lemma AfterFirst(first: string, rest: seq<string>)
    requires InOrder(rest) && forall j :: 0 <= j < |rest| ==> AtMost(first, rest[j])
    ensures InOrder([first] + rest)
  {
  }

  lemma {:induction false} InsertInOrder(name: string, names: seq<string>)
    requires InOrder(names)
    ensures InOrder(Insert(name, names))
  {
    if names == [] || AtMost(name, names[0]) {
      InFront(name, names);
    } else {
      var rest := Insert(name, names[1..]);
      Total(name, names[0]);
      InsertInOrder(name, names[1..]);
      forall j | 0 <= j < |rest| ensures AtMost(names[0], rest[j]) {
        Inserted(name, names[1..], rest[j]);
      }
      AfterFirst(names[0], rest);
    }
  }

  lemma {:induction false} SortedInOrder(names: seq<string>)
    ensures InOrder(Sorted(names))
  {
    if names != [] {
      SortedInOrder(names[1..]);
      InsertInOrder(names[0], Sorted(names[1..]));
    }
  }

  lemma SameNames(names: seq<string>, name: string)
    ensures name in Sorted(names) <==> name in names
  {
    assert name in multiset(Sorted(names)) <==> name in multiset(names);
  }

  // ---- discovering ----------------------------------------------------------

  /** The names that are migrations, in the order given. */
  function Migrating(names: seq<string>): (r: seq<string>)
    ensures forall i :: 0 <= i < |r| ==> Version(r[i]).Some?
  {
    if names == [] then []
    else
      var front := Migrating(names[..|names| - 1]);
      if Version(names[|names| - 1]).Some? then front + [names[|names| - 1]] else front
  }

  function FileOf(name: string, read: string -> string): Migrations.File
    requires Version(name).Some?
  {
    Migrations.File(Version(name).value, read(name))
  }

  /** `discover_migrations` on a directory listing in any order. */
  method Discover(names: seq<string>, read: string -> string) returns (files: seq<Migrations.File>)
    ensures |files| == |Migrating(Sorted(names))|
    ensures forall i :: 0 <= i < |files| ==> files[i] == FileOf(Migrating(Sorted(names))[i], read)
  {
    files := [];
    var paths := Sorted(names);
    for i := 0 to |paths|
      invariant |files| == |Migrating(paths[..i])|
      invariant forall k :: 0 <= k < |files| ==> files[k] == FileOf(Migrating(paths[..i])[k], read)
    {
      assert paths[..i + 1][..i] == paths[..i];
      if Version(paths[i]).Some? {
        files := files + [FileOf(paths[i], read)];
      }
    }
    assert paths[..|paths|] == paths;
  }

  lemma {:induction false} MigratingKeeps(names: seq<string>, name: string)
    ensures name in Migrating(names) <==> name in names && Version(name).Some?
  {
    if names != [] {
      var front := names[..|names| - 1];
      MigratingKeeps(front, name);
      assert names == front + [names[|names| - 1]];
    }
  }

  lemma {:induction false} MigratingInOrder(names: seq<string>)
    requires InOrder(names)
    ensures InOrder(Migrating(names))
  {
    if names != [] {
      var front, last := names[..|names| - 1], names[|names| - 1];
      MigratingInOrder(front);
      forall i | 0 <= i < |Migrating(front)| ensures AtMost(Migrating(front)[i], last) {
        MigratingKeeps(front, Migrating(front)[i]);
      }
    }
  }

  /** Versions come out in numeric order. */
  predicate Ascending(names: seq<string>)
    requires forall i :: 0 <= i < |names| ==> Version(names[i]).Some?
  {
    forall i, j :: 0 <= i < j < |names| ==> Version(names[i]).value <= Version(names[j]).value
  }

  predicate Agree(a: string, b: string) {
    Version(a).Some? && Version(b).Some? && a != b && AtMost(a, b) ==> Version(a).value <= Version(b).value
  }

  /** The migrations of a directory are found in numeric order exactly when, for every two of them,
      the order of the names is the order of the versions. */
  lemma NumericOrderExactlyWhen(names: seq<string>)
    ensures Ascending(Migrating(Sorted(names))) <==> forall a, b :: a in names && b in names ==> Agree(a, b)
  {
    var found := Migrating(Sorted(names));
    SortedInOrder(names);
    MigratingInOrder(Sorted(names));
    if Ascending(found) {
      forall a, b | a in names && b in names ensures Agree(a, b) {
        if Version(a).Some? && Version(b).Some? && a != b && AtMost(a, b) {
          AscendingAgrees(names, a, b);
        }
      }
    } else {
      var i, j :| 0 <= i < j < |found| && Version(found[i]).value > Version(found[j]).value;
      Found(names, found[i]);
      Found(names, found[j]);
      assert !Agree(found[i], found[j]);
    }
  }

  lemma Found(names: seq<string>, name: string)
    ensures name in Migrating(Sorted(names)) <==> name in names && Version(name).Some?
  {
    MigratingKeeps(Sorted(names), name);
    SameNames(names, name);
  }

  lemma AscendingAgrees(names: seq<string>, a: string, b: string)
    requires a in names && b in names && Version(a).Some? && Version(b).Some? && a != b && AtMost(a, b)
    requires Ascending(Migrating(Sorted(names))) && InOrder(Migrating(Sorted(names)))
    ensures Version(a).value <= Version(b).value
  {
    var found := Migrating(Sorted(names));
    Found(names, a);
    Found(names, b);
    var i :| 0 <= i < |found| && found[i] == a;
    var j :| 0 <= j < |found| && found[j] == b;
    Total(a, b);
  }

  // ---- prefixes of one width ------------------------------------------------

  predicate EqualWidths(names: seq<string>) {
    forall a, b :: a in names && b in names && Version(a).Some? && Version(b).Some? ==> Width(a) == Width(b)
  }

  lemma {:induction false} OrderIsNumeric(a: string, b: string, k: nat)
    requires k <= |a| && k <= |b| && AllDigits(a[..k]) && AllDigits(b[..k]) && AtMost(a, b)
    ensures Value(a[..k]) <= Value(b[..k])
    decreases k
  {
    if k > 0 {
      var x, y := a[..k], b[..k];
      ValueFromFront(x);
      ValueFromFront(y);
      assert x[1..] == a[1..][..k - 1] && y[1..] == b[1..][..k - 1];
      ValueBound(x[1..]);
      if a[0] == b[0] {
        OrderIsNumeric(a[1..], b[1..], k - 1);
      } else {
        HigherDigit(DigitValue(x[0]), DigitValue(y[0]), Pow10(k - 1));
      }
    }
  }

  lemma HigherDigit(d: nat, e: nat, p: nat)
    requires d < e
    ensures d * p + p <= e * p
  {
    assert e * p == d * p + (e - d) * p;
    assert (e - d) * p == p + (e - d - 1) * p;
  }

  /** What to look for in a directory: version prefixes of one width are found in numeric order. */
  lemma EqualWidthsSuffice(names: seq<string>)
    requires EqualWidths(names)
    ensures Ascending(Migrating(Sorted(names)))
  {
    forall a, b | a in names && b in names ensures Agree(a, b) {
      if Version(a).Some? && Version(b).Some? && AtMost(a, b) {
        OrderIsNumeric(a, b, Width(a));
      }
    }
    NumericOrderExactlyWhen(names);
  }

  lemma TenIsTen()
    ensures Version("10_a.sql") == Some(10)
  {
    var name := "10_a.sql";
    WidthIs(name, 2);
    ValueOfTwo();
    assert name[..2] == "10" && name[4..] == ".sql";
  }

  lemma NineIsNine()
    ensures Version("9_b.sql") == Some(9)
  {
    var name := "9_b.sql";
    WidthIs(name, 1);
    ValueOfTwo();
    assert name[..1] == "9" && name[3..] == ".sql";
  }

  /** Without it the promise fails: version 10 comes before version 9. */
  lemma TenBeforeNine()
    ensures !Ascending(Migrating(Sorted(["9_b.sql", "10_a.sql"])))
  {
    TenIsTen();
    NineIsNine();
    var nine, ten := "9_b.sql", "10_a.sql";
    assert ten[0] < nine[0] && AtMost(ten, nine);
    var names := [nine, ten];
    assert names[0] == nine && names[1] == ten;
    assert !Agree(ten, nine);
    NumericOrderExactlyWhen(names);
  }

  lemma ValueOfTwo()
    ensures Value("10") == 10 && Value("9") == 9
  {
    assert "10"[..1] == "1" && "1"[..0] == "" && "9"[..0] == "";
    assert Value("1") == 1;
  }

  lemma {:induction false} WidthIs(name: string, k: nat)
    requires k < |name| && !IsDigit(name[k]) && AllDigits(name[..k])
    ensures Width(name) == k
  {
    if k > 0 {
      assert name[..k][0] == name[0];
      assert name[1..][..k - 1] == name[..k][1..];
      WidthIs(name[1..], k - 1);
    }
  }
}
