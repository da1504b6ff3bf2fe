/** What the reporter stores of the scanners' findings: nothing is lost, the counts add up, and the
    metrics of a scan never claim more than is stored for it. */
module Ingest {
  import opened Common
  import opened Text

  /** A value of the scanners' JSON: a missing field is null; a number, boolean, list or object is
      known by its truth value and by what `str` prints. */
  datatype Json = Null | Str(s: string) | Other(truthy: bool, printed: string)

  /** Python's own readers of numbers and ISO times; None for what they refuse. */
  datatype Readers = Readers(float: Json -> Option<real>, isoTime: string -> Option<int>)

  datatype Context = Context(scanId: string, orgId: string, repoId: string, commitSha: string, scannedAt: int)

  predicate Truthy(v: Json) {
    match v
    case Null => false
    case Str(s) => s != ""
    case Other(truthy, _) => truthy
  }

  function Printed(v: Json): string {
    match v
    case Null => "None"
    case Str(s) => s
    case Other(_, printed) => printed
  }

  /** `str(v or fallback)`. */
  function Or(v: Json, fallback: string): string {
    if Truthy(v) then Printed(v) else fallback
  }

  /** Null, the empty text and whatever Python takes for false give way to the fallback; all else is
      printed. */
  lemma OrExactly(s: string, printed: string, fallback: string)
    ensures Or(Null, fallback) == fallback && Or(Str(""), fallback) == fallback && Or(Other(false, printed), fallback) == fallback
    ensures s != "" ==> Or(Str(s), fallback) == s
    ensures Or(Other(true, printed), fallback) == printed
  {
  }

  // ---- findings -------------------------------------------------------------

  datatype Fix = Fix(state: Json, versions: seq<Json>)
  datatype Cvss = Cvss(baseScore: Json, vector: Json)
  datatype Vulnerability = Vulnerability(id: Json, severity: Json, description: Json, fix: Fix, cvss: seq<Cvss>)
  datatype Artifact = Artifact(purl: Json, name: Json, version: Json)

  /** One Grype match, with the matchers of its details; what is missing is made of nulls. */
  datatype Match = Match(vulnerability: Vulnerability, artifact: Artifact, matchers: seq<Json>)

  datatype FindingRow = FindingRow(
    ctx: Context, cveId: string, purl: string, name: string, version: string, severity: string, fixState: string,
    fixVersions: seq<Json>, description: string, cvssScore: Option<real>, cvssVector: string, matcher: string)

  const SEVERITIES := ["critical", "high", "medium", "low", "negligible", "unknown"]

  function Canonical(severity: Json): string {
    var s := Lower(Or(severity, ""));
    if s in SEVERITIES then s else "unknown"
  }

  function CoerceFloat(v: Json, readers: Readers): Option<real> {
    if v.Null? then None else readers.float(v)
  }

  function RowOf(m: Match, ctx: Context, readers: Readers): FindingRow {
    var (vuln, artifact) := (m.vulnerability, m.artifact);
    var cvss := if vuln.cvss == [] then Cvss(Null, Null) else vuln.cvss[0];
    FindingRow(ctx, Or(vuln.id, ""), Or(artifact.purl, ""), Or(artifact.name, ""), Or(artifact.version, ""),
               Canonical(vuln.severity), Or(vuln.fix.state, "unknown"), vuln.fix.versions, Or(vuln.description, ""),
               CoerceFloat(cvss.baseScore, readers), Or(cvss.vector, ""),
               if m.matchers == [] then "" else Or(m.matchers[0], ""))
  }

  /** How many rows have severity `s`. */
  function Tally(rows: seq<FindingRow>, s: string): nat {
    if rows == [] then 0 else Tally(rows[..|rows| - 1], s) + if rows[|rows| - 1].severity == s then 1 else 0
  }

  /** Each of the six severities has its count, and nothing else has one. */
  ghost predicate Counted(counts: map<string, nat>, rows: seq<FindingRow>) {
    && (forall s :: s in counts <==> s in SEVERITIES)
    && (forall s :: s in counts ==> counts[s] == Tally(rows, s))
  }

  /** `dict.fromkeys(..., 0)`. */
  function Zeroes(): (counts: map<string, nat>)
    ensures Counted(counts, [])
  {
    map s | s in SEVERITIES :: 0
  }

  lemma CountedOneMore(counts: map<string, nat>, rows: seq<FindingRow>, row: FindingRow)
    requires Counted(counts, rows) && row.severity in counts
    ensures Counted(counts[row.severity := counts[row.severity] + 1], rows + [row])
  {
  }

  predicate Known(row: FindingRow) {
    row.severity in SEVERITIES
  }

  lemma RowKnown(m: Match, ctx: Context, readers: Readers)
    ensures Known(RowOf(m, ctx, readers))
  {
    CanonicalIsKnown(m.vulnerability.severity);
  }

  lemma KnownCounted(counts: map<string, nat>, rows: seq<FindingRow>, m: Match, ctx: Context, readers: Readers)
    requires Counted(counts, rows)
    ensures RowOf(m, ctx, readers).severity in counts
  {
    RowKnown(m, ctx, readers);
  }

  method FindingRows(matches: seq<Match>, ctx: Context, readers: Readers)
    returns (rows: seq<FindingRow>, counts: map<string, nat>)
    ensures |rows| == |matches| && forall i :: 0 <= i < |matches| ==> rows[i] == RowOf(matches[i], ctx, readers)
    ensures Counted(counts, rows)
    ensures forall word :: word in ["critical", "high", "medium", "low", "negligible"] ==>
              word in counts && counts[word] == Called(matches, word)
  {
    rows := [];
    counts := Zeroes();
    for i := 0 to |matches|
      invariant |rows| == i && forall k :: 0 <= k < i ==> rows[k] == RowOf(matches[k], ctx, readers)
      invariant Counted(counts, rows)
    {
      var row := RowOf(matches[i], ctx, readers);
      KnownCounted(counts, rows, matches[i], ctx, readers);
      CountedOneMore(counts, rows, row);
      rows := rows + [row];
      counts := counts[row.severity := counts[row.severity] + 1];
    }
    CountsCalled(matches, rows, counts, ctx, readers);
  }

  lemma CountsCalled(matches: seq<Match>, rows: seq<FindingRow>, counts: map<string, nat>, ctx: Context, readers: Readers)
    requires |rows| == |matches| && forall i :: 0 <= i < |matches| ==> rows[i] == RowOf(matches[i], ctx, readers)
    requires Counted(counts, rows)
    ensures forall word :: word in ["critical", "high", "medium", "low", "negligible"] ==>
              word in counts && counts[word] == Called(matches, word)
  {
    forall word | word in ["critical", "high", "medium", "low", "negligible"]
      ensures word in counts && counts[word] == Called(matches, word)
    {
      FiveListed(word);
      CountsAreTheScanners(matches, rows, ctx, readers, word);
    }
  }

  lemma FiveListed(word: string)
    requires word in ["critical", "high", "medium", "low", "negligible"]
    ensures word in SEVERITIES
  {
    assert SEVERITIES[0] == "critical" && SEVERITIES[1] == "high" && SEVERITIES[2] == "medium" && SEVERITIES[3] == "low"
        && SEVERITIES[4] == "negligible";
  }

  /** The scanner's severity reads as this word, in any letter case. */
  predicate Reads(m: Match, word: string) {
    Truthy(m.vulnerability.severity) && Lower(Printed(m.vulnerability.severity)) == word
  }

  predicate ReadsKnown(m: Match) {
    || Reads(m, "critical") || Reads(m, "high") || Reads(m, "medium") || Reads(m, "low") || Reads(m, "negligible")
    || Reads(m, "unknown")
  }

  /** What is stored is the word the scanner's severity reads as, if that is one of the six, and otherwise
      "unknown". */
  lemma SeverityExactly(m: Match, ctx: Context, readers: Readers)
    ensures var s := RowOf(m, ctx, readers).severity;
            if ReadsKnown(m) then Reads(m, s) else s == "unknown"
  {
    assert SEVERITIES == ["critical", "high", "medium", "low", "negligible", "unknown"];
    if !Truthy(m.vulnerability.severity) {
      assert Lower("") == "";
      NothingIsNoSeverity();
    }
  }

  lemma NothingIsNoSeverity()
    ensures "" !in SEVERITIES
  {
    assert forall s :: s in SEVERITIES ==> s != "";
  }

  /** How many matches the scanner calls so. */
  function Called(matches: seq<Match>, word: string): nat {
    if matches == [] then 0
    else Called(matches[..|matches| - 1], word) + if Reads(matches[|matches| - 1], word) then 1 else 0
  }

  lemma StoredAs(m: Match, ctx: Context, readers: Readers, word: string)
    requires word in ["critical", "high", "medium", "low", "negligible"]
    ensures RowOf(m, ctx, readers).severity == word <==> Reads(m, word)
  {
    SeverityExactly(m, ctx, readers);
    FiveAreKnown(m, word);
  }

  lemma FiveAreKnown(m: Match, word: string)
    requires word in ["critical", "high", "medium", "low", "negligible"]
    ensures word != "unknown" && (Reads(m, word) ==> ReadsKnown(m))
  {
    assert |"critical"| == 8 && |"high"| == 4 && |"medium"| == 6 && |"low"| == 3 && |"negligible"| == 10 && |"unknown"| == 7;
  }

  /** A severity's count is the number of matches the scanner calls so, in any letter case. */
  lemma {:induction false} CountsAreTheScanners(matches: seq<Match>, rows: seq<FindingRow>, ctx: Context, readers: Readers, word: string)
    requires |rows| == |matches| && forall i :: 0 <= i < |matches| ==> rows[i] == RowOf(matches[i], ctx, readers)
    requires word in ["critical", "high", "medium", "low", "negligible"]
    ensures Tally(rows, word) == Called(matches, word)
    decreases |rows|
  {
    if rows != [] {
      var n := |rows| - 1;
      CountsAreTheScanners(matches[..n], rows[..n], ctx, readers, word);
      StoredAs(matches[n], ctx, readers, word);
    }
  }

  /** Each column of a finding is its own field of the match. */
  lemma FindingColumns(id: string, severity: Json, description: string, state: string, versions: seq<Json>,
                       score: Json, vector: string, moreCvss: seq<Cvss>, purl: string, name: string, version: string,
                       matcher: string, moreMatchers: seq<Json>, ctx: Context, readers: Readers)
    ensures var m := Match(Vulnerability(Str(id), severity, Str(description), Fix(Str(state), versions),
                                         [Cvss(score, Str(vector))] + moreCvss),
                           Artifact(Str(purl), Str(name), Str(version)), [Str(matcher)] + moreMatchers);
            var row := RowOf(m, ctx, readers);
            && row.ctx == ctx && row.cveId == id && row.purl == purl && row.name == name && row.version == version
            && row.fixState == (if state == "" then "unknown" else state) && row.fixVersions == versions
            && row.description == description && row.cvssVector == vector && row.matcher == matcher
            && row.cvssScore == if score == Null then None else readers.float(score)
  {
    assert ([Cvss(score, Str(vector))] + moreCvss)[0] == Cvss(score, Str(vector));
    assert ([Str(matcher)] + moreMatchers)[0] == Str(matcher);
  }

  /** And where the match has nothing the row has nothing, or "unknown". */
  lemma NullFindingColumns(ctx: Context, readers: Readers)
    ensures var m := Match(Vulnerability(Null, Null, Null, Fix(Null, []), []), Artifact(Null, Null, Null), []);
            RowOf(m, ctx, readers) == FindingRow(ctx, "", "", "", "", "unknown", "unknown", [], "", None, "", "")
  {
    NothingIsNoSeverity();
    assert Lower("") == "";
  }

  lemma CanonicalIsKnown(severity: Json)
    ensures Canonical(severity) in SEVERITIES
  {
    assert SEVERITIES[5] == "unknown";
  }

  function Sum(rows: seq<FindingRow>, severities: seq<string>): nat {
    if severities == [] then 0 else Tally(rows, severities[0]) + Sum(rows, severities[1..])
  }

  /** One more row adds one to the sum exactly when its severity is listed, given it is listed once. */
  lemma {:induction false} SumOfOneMore(rows: seq<FindingRow>, row: FindingRow, severities: seq<string>)
    requires forall i, j :: 0 <= i < j < |severities| ==> severities[i] != severities[j]
    ensures Sum(rows + [row], severities) == Sum(rows, severities) + if row.severity in severities then 1 else 0
    decreases |severities|
  {
    if severities != [] {
      SumOfOneMore(rows, row, severities[1..]);
      assert (rows + [row])[..|rows|] == rows;
      assert severities == [severities[0]] + severities[1..];
    }
  }

  lemma {:induction false} SumOfNone(severities: seq<string>)
    ensures Sum([], severities) == 0
  {
    if severities != [] {
      SumOfNone(severities[1..]);
    }
  }

  /** The counts of the six severities add up to the number of rows. */
  lemma {:induction false} CountsAddUp(rows: seq<FindingRow>)
    requires forall i :: 0 <= i < |rows| ==> Known(rows[i])
    ensures Sum(rows, SEVERITIES) == |rows|
    decreases |rows|
  {
    if rows == [] {
      SumOfNone(SEVERITIES);
    } else {
      var before, row := rows[..|rows| - 1], rows[|rows| - 1];
      assert rows == before + [row];
      assert Known(row);
      CountsAddUp(before);
      SeveritiesDiffer();
      SumOfOneMore(before, row, SEVERITIES);
    }
  }

  lemma SeveritiesDiffer()
    ensures forall i, j :: 0 <= i < j < |SEVERITIES| ==> SEVERITIES[i] != SEVERITIES[j]
  {
  }

  lemma SumOfSix(rows: seq<FindingRow>)
    ensures Sum(rows, SEVERITIES)
            == Tally(rows, "critical") + Tally(rows, "high") + Tally(rows, "medium") + Tally(rows, "low")
               + Tally(rows, "negligible") + Tally(rows, "unknown")
  {
    SumSplits(rows, "critical", ["high", "medium", "low", "negligible", "unknown"]);
    SumSplits(rows, "high", ["medium", "low", "negligible", "unknown"]);
    SumSplits(rows, "medium", ["low", "negligible", "unknown"]);
    SumSplits(rows, "low", ["negligible", "unknown"]);
    SumSplits(rows, "negligible", ["unknown"]);
    SumSplits(rows, "unknown", []);
    var none: seq<string> := [];
    assert SEVERITIES == ["critical"] + ["high", "medium", "low", "negligible", "unknown"];
    assert ["high", "medium", "low", "negligible", "unknown"] == ["high"] + ["medium", "low", "negligible", "unknown"];
    assert ["medium", "low", "negligible", "unknown"] == ["medium"] + ["low", "negligible", "unknown"];
    assert ["low", "negligible", "unknown"] == ["low"] + ["negligible", "unknown"];
    assert ["negligible", "unknown"] == ["negligible"] + ["unknown"];
    assert ["unknown"] + none == ["unknown"];
  }

  lemma SumSplits(rows: seq<FindingRow>, s: string, more: seq<string>)
    ensures Sum(rows, [s] + more) == Tally(rows, s) + Sum(rows, more)
  {
  }

  // ---- secrets --------------------------------------------------------------

  /** One betterleaks entry. */
  datatype Entry = Entry(
    commit: Json, ruleId: Json, description: Json, file: Json, startLine: int, endLine: int, shown: Json,
    fingerprint: Json, author: Json, email: Json, date: Json, tags: seq<Json>, validation: Json)

  datatype SecretRow = SecretRow(
    ctx: Context, commit: string, ruleId: string, description: string, file: string, startLine: int, endLine: int,
    shown: string, fingerprint: string, author: string, email: string, committedAt: Option<int>, tags: seq<string>,
    verified: bool, status: string, historical: bool)

  function ParseValidation(raw: Json): (bool, string) {
    if raw.Null? then (false, "unverified")
    else
      var v := Lower(Strip(Printed(raw)));
      if v in ["valid", "active", "verified"] then (true, "verified")
      else if v in ["invalid", "inactive"] then (false, "invalid")
      else if v == "error" then (false, "error")
      else (false, "unverified")
  }

  /** `s.replace("Z", "+00:00")`. */
  function ZuluToOffset(s: string): string {
    if s == "" then "" else (if s[0] == 'Z' then "+00:00" else [s[0]]) + ZuluToOffset(s[1..])
  }

  function ParseGitDate(v: Json, readers: Readers): Option<int> {
    if !Truthy(v) then None else readers.isoTime(ZuluToOffset(Printed(v)))
  }

  function PrintedAll(vs: seq<Json>): seq<string> {
    seq(|vs|, i requires 0 <= i < |vs| => Printed(vs[i]))
  }

  function SecretRowOf(e: Entry, ctx: Context, head: string, readers: Readers): SecretRow {
    var (verified, status) := ParseValidation(e.validation);
    SecretRow(ctx, Or(e.commit, ""), Or(e.ruleId, ""), Or(e.description, ""), Or(e.file, ""), e.startLine, e.endLine,
              Or(e.shown, ""), Or(e.fingerprint, ""), Or(e.author, ""), Or(e.email, ""), ParseGitDate(e.date, readers),
              PrintedAll(e.tags), verified, status, Or(e.commit, "") != head)
  }

  function VerifiedRows(rows: seq<SecretRow>): nat {
    if rows == [] then 0 else VerifiedRows(rows[..|rows| - 1]) + if rows[|rows| - 1].verified then 1 else 0
  }

  function StatusRows(rows: seq<SecretRow>, status: string): nat {
    if rows == [] then 0
    else StatusRows(rows[..|rows| - 1], status) + if rows[|rows| - 1].status == status then 1 else 0
  }

  /** A secret is stored as verified exactly under the status "verified", and the only other statuses
      are the three listed: "unknown", which the schema also names, is never stored. */
  lemma StatusTellsVerified(e: Entry, ctx: Context, head: string, readers: Readers)
    ensures var row := SecretRowOf(e, ctx, head, readers);
            && (row.verified <==> row.status == "verified")
            && row.status in ["verified", "unverified", "invalid", "error"] && row.status != "unknown"
  {
    var unverified, invalid, error, verified := "unverified", "invalid", "error", "verified";
    assert |verified| == 8 && |unverified| == 10 && |invalid| == 7 && |error| == 5;
    assert unverified[0] == 'u' && invalid[0] == 'i' && "unknown"[0] == 'u' && |"unknown"| == 7;
    assert [verified, unverified, invalid, error][0] == verified && [verified, unverified, invalid, error][1] == unverified
        && [verified, unverified, invalid, error][2] == invalid && [verified, unverified, invalid, error][3] == error;
  }

  /** Which words verify, disprove and fail, with blanks around them and in any letter case; without a check,
      or with any other word, the secret is unverified. */
  lemma ValidationExactly(raw: Json)
    ensures raw == Null ==> ParseValidation(raw) == (false, "unverified")
    ensures raw != Null ==>
              var v := Lower(Strip(Printed(raw)));
              ParseValidation(raw) == if v == "valid" || v == "active" || v == "verified" then (true, "verified")
                                      else if v == "invalid" || v == "inactive" then (false, "invalid")
                                      else if v == "error" then (false, "error")
                                      else (false, "unverified")
  {
  }

  /** Each column of a secret is its own field of the entry; it is historical unless found in the head. */
  lemma SecretColumns(commit: string, ruleId: string, description: string, file: string, startLine: int, endLine: int,
                      shown: string, fingerprint: string, author: string, email: string, date: Json, tags: seq<Json>,
                      validation: Json, ctx: Context, head: string, readers: Readers)
    ensures var e := Entry(Str(commit), Str(ruleId), Str(description), Str(file), startLine, endLine, Str(shown),
                           Str(fingerprint), Str(author), Str(email), date, tags, validation);
            var row := SecretRowOf(e, ctx, head, readers);
            && row.ctx == ctx && row.commit == commit && row.ruleId == ruleId && row.description == description
            && row.file == file && row.startLine == startLine && row.endLine == endLine && row.shown == shown
            && row.fingerprint == fingerprint && row.author == author && row.email == email
            && row.committedAt == ParseGitDate(date, readers) && |row.tags| == |tags|
            && (forall i :: 0 <= i < |tags| ==> row.tags[i] == Printed(tags[i]))
            && (row.verified, row.status) == ParseValidation(validation) && (row.historical <==> commit != head)
  {
  }

  /** A date is read with its Z as the offset it stands for; none is read from nothing. */
  lemma DateExactly(day: string, readers: Readers)
    requires 'Z' !in day && day != ""
    ensures ParseGitDate(Str(day + "Z"), readers) == readers.isoTime(day + "+00:00")
    ensures ParseGitDate(Str(day), readers) == readers.isoTime(day)
    ensures ParseGitDate(Null, readers) == None && ParseGitDate(Str(""), readers) == None
  {
    NoZulu(day, "Z");
    NoZulu(day, "");
    assert ZuluToOffset("") == "" && "Z"[1..] == "" && "+00:00" + "" == "+00:00";
    assert ZuluToOffset("Z") == "+00:00";
    assert day + "" == day && (day + "Z") != "" && Truthy(Str(day + "Z"));
  }

  lemma {:induction false} NoZulu(s: string, rest: string)
    requires 'Z' !in s
    ensures ZuluToOffset(s + rest) == s + ZuluToOffset(rest)
  {
    if s == "" {
      assert s + rest == rest;
    } else {
      assert (s + rest)[1..] == s[1..] + rest;
      NoZulu(s[1..], rest);
    }
  }

  lemma OneMoreSecret(rows: seq<SecretRow>, e: Entry, ctx: Context, head: string, readers: Readers)
    ensures var (row, more) := (SecretRowOf(e, ctx, head, readers), rows + [SecretRowOf(e, ctx, head, readers)]);
            && VerifiedRows(more) == VerifiedRows(rows) + (if row.verified then 1 else 0)
            && StatusRows(more, "verified") == StatusRows(rows, "verified") + (if row.verified then 1 else 0)
  {
    var more := rows + [SecretRowOf(e, ctx, head, readers)];
    assert more[..|more| - 1] == rows;
    StatusTellsVerified(e, ctx, head, readers);
  }

  /** The rows of the first entries, and both counts of the verified ones. */
  predicate StoredSecrets(rows: seq<SecretRow>, verified: nat, secrets: seq<Entry>, ctx: Context, head: string, readers: Readers)
    requires |rows| <= |secrets|
  {
    && (forall i :: 0 <= i < |rows| ==> rows[i] == SecretRowOf(secrets[i], ctx, head, readers))
    && verified == VerifiedRows(rows) == StatusRows(rows, "verified")
  }

  lemma OneMoreStored(rows: seq<SecretRow>, verified: nat, secrets: seq<Entry>, ctx: Context, head: string, readers: Readers)
    requires |rows| < |secrets| && StoredSecrets(rows, verified, secrets, ctx, head, readers)
    ensures var e := secrets[|rows|];
            StoredSecrets(rows + [SecretRowOf(e, ctx, head, readers)],
                          if ParseValidation(e.validation).0 then verified + 1 else verified, secrets, ctx, head, readers)
  {
    OneMoreSecret(rows, secrets[|rows|], ctx, head, readers);
    assert SecretRowOf(secrets[|rows|], ctx, head, readers).verified == ParseValidation(secrets[|rows|].validation).0;
  }

  method SecretFindingRows(secrets: seq<Entry>, ctx: Context, head: string, readers: Readers)
    returns (rows: seq<SecretRow>, verifiedCount: nat)
    ensures |rows| == |secrets|
    ensures forall i :: 0 <= i < |secrets| ==> rows[i] == SecretRowOf(secrets[i], ctx, head, readers)
    ensures verifiedCount == VerifiedRows(rows) == StatusRows(rows, "verified")
  {
    rows, verifiedCount := [], 0;
    for i := 0 to |secrets|
      invariant |rows| == i && StoredSecrets(rows, verifiedCount, secrets, ctx, head, readers)
    {
      OneMoreStored(rows, verifiedCount, secrets, ctx, head, readers);
      var (verified, _) := ParseValidation(secrets[i].validation);
      if verified {
        verifiedCount := verifiedCount + 1;
      }
      rows := rows + [SecretRowOf(secrets[i], ctx, head, readers)];
    }
  }

  // ---- dependencies ---------------------------------------------------------

  /** A licence entry: an object with `license`, an object without, or something else. */
  datatype License = Named(id: Json, name: Json) | Expression(expression: Json) | NotAnObject

  datatype Component = Component(purl: Json, name: Json, version: Json, scope: Json, licenses: seq<License>)

  datatype DependencyRow = DependencyRow(
    ctx: Context, purl: string, name: string, version: string, ecosystem: string, scope: string, license: string)

  function LicenseNames(licenses: seq<License>): seq<string> {
    if licenses == [] then []
    else
      (match licenses[0]
       case Named(id, name) => if Truthy(id) then [Printed(id)] else if Truthy(name) then [Printed(name)] else []
       case Expression(e) => if Truthy(e) then [Printed(e)] else []
       case NotAnObject => []) + LicenseNames(licenses[1..])
  }

  function Join(sep: string, parts: seq<string>): string {
    if parts == [] then "" else if |parts| == 1 then parts[0] else parts[0] + sep + Join(sep, parts[1..])
  }

  function UpTo(s: string, c: char): string {
    if s == "" || s[0] == c then "" else [s[0]] + UpTo(s[1..], c)
  }

  function Ecosystem(purl: string): string {
    if "pkg:" <= purl then UpTo(purl[4..], '/') else ""
  }

  /** The ecosystem of a package URL is the type it was written with. */
  lemma {:induction false} EcosystemOfWritten(kind: string, rest: string)
    requires '/' !in kind
    ensures Ecosystem("pkg:" + kind + "/" + rest) == kind && Ecosystem("pkg:" + kind) == kind
  {
    assert ("pkg:" + kind + "/" + rest)[4..] == kind + ("/" + rest) && ("pkg:" + kind)[4..] == kind + "";
    UpToFirst(kind, '/', "/" + rest);
    UpToFirst(kind, '/', "");
  }

  lemma {:induction false} UpToFirst(s: string, c: char, rest: string)
    requires c !in s && (rest == "" || rest[0] == c)
    ensures UpTo(s + rest, c) == s
  {
    if s == "" {
      assert s + rest == rest;
    } else {
      assert (s + rest)[1..] == s[1..] + rest;
      UpToFirst(s[1..], c, rest);
    }
  }

  function DependencyRowOf(c: Component, ctx: Context): DependencyRow {
    var purl := Or(c.purl, "");
    DependencyRow(ctx, purl, Or(c.name, ""), Or(c.version, ""), Ecosystem(purl), Or(c.scope, "required"),
                  Join(", ", LicenseNames(c.licenses)))
  }

  /** Each column of a dependency is its own field of the component. */
  lemma DependencyColumns(purl: string, name: string, version: string, scope: string, licenses: seq<License>, ctx: Context)
    ensures var row := DependencyRowOf(Component(Str(purl), Str(name), Str(version), Str(scope), licenses), ctx);
            && row.ctx == ctx && row.purl == purl && row.name == name && row.version == version
            && row.ecosystem == Ecosystem(purl) && row.scope == (if scope == "" then "required" else scope)
            && row.license == Join(", ", LicenseNames(licenses))
  {
  }

  /** A licence is known by its id, or else its name, or else its expression. */
  lemma LicenseExactly(id: string, name: string, e: string, rest: seq<License>)
    ensures LicenseNames([Named(Str(id), Str(name))] + rest)
         == (if id != "" then [id] else if name != "" then [name] else []) + LicenseNames(rest)
    ensures LicenseNames([Named(Null, Str(name))] + rest) == (if name != "" then [name] else []) + LicenseNames(rest)
    ensures LicenseNames([Expression(Str(e))] + rest) == (if e != "" then [e] else []) + LicenseNames(rest)
    ensures LicenseNames([NotAnObject] + rest) == LicenseNames(rest)
  {
    assert ([Named(Str(id), Str(name))] + rest)[1..] == rest && ([Named(Null, Str(name))] + rest)[1..] == rest;
    assert ([Expression(Str(e))] + rest)[1..] == rest && ([NotAnObject] + rest)[1..] == rest;
  }

  lemma JoinExactly(sep: string, part: string, parts: seq<string>)
    ensures Join(sep, []) == "" && Join(sep, [part]) == part
    ensures parts != [] ==> Join(sep, [part] + parts) == part + sep + Join(sep, parts)
  {
    assert ([part] + parts)[1..] == parts;
  }

  /** What is no package URL has no ecosystem. */
  lemma NoPackageUrl(s: string)
    requires |s| < 4 || s[..4] != "pkg:"
    ensures Ecosystem(s) == ""
  {
  }

  method DependencyRows(components: seq<Component>, ctx: Context) returns (rows: seq<DependencyRow>)
    ensures |rows| == |components| && forall i :: 0 <= i < |rows| ==> rows[i] == DependencyRowOf(components[i], ctx)
  {
    rows := [];
    for i := 0 to |components|
      invariant |rows| == i && forall k :: 0 <= k < i ==> rows[k] == DependencyRowOf(components[k], ctx)
    {
      rows := rows + [DependencyRowOf(components[i], ctx)];
    }
  }

  // ---- one ingest -----------------------------------------------------------

  /** The secrets report: not there, nothing but blanks, some other JSON, or an array. */
  datatype Report = Missing | Blank | NotAnArray | Array(entries: seq<Entry>)

  function Entries(r: Report): seq<Entry> {
    if r.Array? then r.entries else []
  }

  datatype Metrics = Metrics(
    ctx: Context, duration: int, dependencies: nat, findings: nat, critical: nat, high: nat, medium: nat, low: nat,
    secrets: nat, verifiedSecrets: nat)

  /** What one ingest has to store. */
  datatype Content = Content(
    ctx: Context, dependencies: seq<DependencyRow>, findings: seq<FindingRow>, secrets: seq<SecretRow>, metrics: Metrics)

  /** The metrics agree with the rows: everything is counted, once; what the four severity columns leave
      out of the findings is exactly the negligible and the unknown ones. */
  predicate Agrees(c: Content) {
    && c.metrics.ctx == c.ctx && c.metrics.dependencies == |c.dependencies|
    && c.metrics.findings == |c.findings| && c.metrics.secrets == |c.secrets|
    && c.metrics.critical == Tally(c.findings, "critical") && c.metrics.high == Tally(c.findings, "high")
    && c.metrics.medium == Tally(c.findings, "medium") && c.metrics.low == Tally(c.findings, "low")
    && |c.findings| == c.metrics.critical + c.metrics.high + c.metrics.medium + c.metrics.low
                       + Tally(c.findings, "negligible") + Tally(c.findings, "unknown")
    && c.metrics.verifiedSecrets == VerifiedRows(c.secrets)
  }

  /** Every row is the content's own scan's. */
  predicate OwnRows(c: Content) {
    && (forall i :: 0 <= i < |c.dependencies| ==> c.dependencies[i].ctx == c.ctx)
    && (forall i :: 0 <= i < |c.findings| ==> c.findings[i].ctx == c.ctx)
    && (forall i :: 0 <= i < |c.secrets| ==> c.secrets[i].ctx == c.ctx)
  }

  lemma SixAddUp(matches: seq<Match>, ctx: Context, readers: Readers, rows: seq<FindingRow>)
    requires |rows| == |matches| && forall i :: 0 <= i < |matches| ==> rows[i] == RowOf(matches[i], ctx, readers)
    ensures |rows| == Tally(rows, "critical") + Tally(rows, "high") + Tally(rows, "medium") + Tally(rows, "low")
                      + Tally(rows, "negligible") + Tally(rows, "unknown")
  {
    forall i | 0 <= i < |rows| ensures Known(rows[i]) {
      RowKnown(matches[i], ctx, readers);
    }
    CountsAddUp(rows);
    SumOfSix(rows);
  }

  lemma FourCounted(counts: map<string, nat>, rows: seq<FindingRow>)
    requires Counted(counts, rows)
    ensures "critical" in counts && "high" in counts && "medium" in counts && "low" in counts
    ensures counts["critical"] == Tally(rows, "critical") && counts["high"] == Tally(rows, "high")
    ensures counts["medium"] == Tally(rows, "medium") && counts["low"] == Tally(rows, "low")
  {
    assert SEVERITIES[0] == "critical" && SEVERITIES[1] == "high" && SEVERITIES[2] == "medium" && SEVERITIES[3] == "low";
  }

  /** The rows and the metrics of one scan; a report that is not an array counts as none. */
  method Collect(components: seq<Component>, matches: seq<Match>, report: Report, ctx: Context, readers: Readers,
                 duration: int)
    returns (c: Content)
    ensures c.ctx == ctx && Agrees(c) && OwnRows(c) && c.metrics.duration == duration
    ensures |c.dependencies| == |components| && |c.findings| == |matches| && |c.secrets| == |Entries(report)|
    ensures forall i :: 0 <= i < |components| ==> c.dependencies[i] == DependencyRowOf(components[i], ctx)
    ensures forall i :: 0 <= i < |matches| ==> c.findings[i] == RowOf(matches[i], ctx, readers)
    ensures forall i :: 0 <= i < |c.secrets| ==> c.secrets[i] == SecretRowOf(Entries(report)[i], ctx, ctx.commitSha, readers)
  {
    var dependencies := DependencyRows(components, ctx);
    var findings, counts := FindingRows(matches, ctx, readers);
    FourCounted(counts, findings);
    SixAddUp(matches, ctx, readers, findings);
    var entries := if report.Array? then report.entries else [];
    var secrets, verified := SecretFindingRows(entries, ctx, ctx.commitSha, readers);
    c := Content(ctx, dependencies, findings, secrets,
                 Metrics(ctx, duration, |dependencies|, |findings|, counts["critical"], counts["high"],
                         counts["medium"], counts["low"], |secrets|, verified));
  }

  // ---- storing it -----------------------------------------------------------

  datatype Step = Upload | Connect | InsertSbom | InsertDependencies | InsertFindings | InsertSecrets | InsertMetrics | Close

  /** How a call ends; one that raises may have stored what it was given all the same. */
  datatype Outcome = Fine | Raised(exc: string, stored: bool)

  type World = Step -> Outcome

  /** Scans whose SBOM was uploaded, and the rows of the five tables. */
  datatype Tables = Tables(
    uploads: seq<Context>, sboms: seq<Context>, dependencies: seq<DependencyRow>, findings: seq<FindingRow>,
    secrets: seq<SecretRow>, metrics: seq<Metrics>)

  const EMPTY := Tables([], [], [], [], [], [])

  /** The inserts of one ingest, in order; empty lists are not inserted. */
  function Inserts(c: Content): seq<Step> {
    [InsertSbom] + Later(c)
  }

  /** The three tables that may have nothing to take, then the metrics. */
  function Later(c: Content): seq<Step> {
    (if c.dependencies != [] then [InsertDependencies] else [])
    + ((if c.findings != [] then [InsertFindings] else [])
       + ((if c.secrets != [] then [InsertSecrets] else []) + [InsertMetrics]))
  }

  function Add(t: Tables, c: Content, s: Step): Tables {
    match s
    case Upload => t.(uploads := t.uploads + [c.ctx])
    case InsertSbom => t.(sboms := t.sboms + [c.ctx])
    case InsertDependencies => t.(dependencies := t.dependencies + c.dependencies)
    case InsertFindings => t.(findings := t.findings + c.findings)
    case InsertSecrets => t.(secrets := t.secrets + c.secrets)
    case InsertMetrics => t.(metrics := t.metrics + [c.metrics])
    case Connect => t
    case Close => t
  }

  /** What the step is there to store is stored. */
  predicate Lands(w: World, s: Step) {
    w(s).Fine? || w(s).stored
  }

  function After(t: Tables, c: Content, s: Step, w: World): Tables {
    if Lands(w, s) then Add(t, c, s) else t
  }

  function Raises(w: World, s: Step): Option<string> {
    if w(s).Raised? then Some(w(s).exc) else None
  }

  /** Steps in turn up to the first that raises, and the exception. */
  function Perform(t: Tables, c: Content, steps: seq<Step>, w: World): (Tables, Option<string>)
    decreases |steps|
  {
    if steps == [] then (t, None)
    else if w(steps[0]).Raised? then (After(t, c, steps[0], w), Raises(w, steps[0]))
    else Perform(Add(t, c, steps[0]), c, steps[1..], w)
  }

  /** `ingest`: the upload, the client, the inserts, and in any case closing the client again; an
      exception while closing replaces the one in flight. */
  function Ingested(t: Tables, c: Content, w: World): (Tables, Option<string>) {
    var (begun, failed) := Perform(t, c, [Upload, Connect], w);
    if failed.Some? then (begun, failed)
    else
      var (after, exc) := Perform(begun, c, Inserts(c), w);
      (after, if w(Close).Raised? then Raises(w, Close) else exc)
  }

  /** Everything, the metrics included. */
  function Whole(t: Tables, c: Content): Tables {
    Tables(t.uploads + [c.ctx], t.sboms + [c.ctx], t.dependencies + c.dependencies, t.findings + c.findings,
           t.secrets + c.secrets, t.metrics + [c.metrics])
  }

  /** Each table has all of its rows of this scan or none, and a metrics row means all of them. */
  predicate Between(t: Tables, after: Tables, c: Content) {
    && (after.uploads == t.uploads || after.uploads == t.uploads + [c.ctx])
    && (after.sboms == t.sboms || after.sboms == t.sboms + [c.ctx])
    && (after.dependencies == t.dependencies || after.dependencies == t.dependencies + c.dependencies)
    && (after.findings == t.findings || after.findings == t.findings + c.findings)
    && (after.secrets == t.secrets || after.secrets == t.secrets + c.secrets)
    && (after.metrics == t.metrics || after == Whole(t, c))
  }

  /** Every insert before the metrics is fine, where there is one. */
  predicate RowsFine(c: Content, w: World) {
    && (c.dependencies != [] ==> w(InsertDependencies).Fine?)
    && (c.findings != [] ==> w(InsertFindings).Fine?)
    && (c.secrets != [] ==> w(InsertSecrets).Fine?)
  }

  lemma One(t: Tables, c: Content, s: Step, rest: seq<Step>, w: World)
    ensures Perform(t, c, [s] + rest, w)
         == if w(s).Raised? then (After(t, c, s, w), Raises(w, s)) else Perform(Add(t, c, s), c, rest, w)
  {
    assert ([s] + rest)[1..] == rest;
  }

  /** A step that is left out when there is nothing to insert. */
  lemma Maybe(t: Tables, c: Content, s: Step, needed: bool, rest: seq<Step>, w: World, next: Tables)
    requires next == if needed then Add(t, c, s) else t
    ensures Perform(t, c, (if needed then [s] else []) + rest, w)
         == if needed && w(s).Raised? then (After(t, c, s, w), Raises(w, s)) else Perform(next, c, rest, w)
  {
    if needed {
      One(t, c, s, rest, w);
    } else {
      assert [] + rest == rest;
    }
  }

  lemma LastSteps(t: Tables, c: Content, w: World)
    ensures var (after, exc) := Perform(t, c, (if c.secrets != [] then [InsertSecrets] else []) + [InsertMetrics], w);
            var s := t.(secrets := t.secrets + c.secrets);
            var fine := c.secrets != [] ==> w(InsertSecrets).Fine?;
            && (exc.None? <==> fine && w(InsertMetrics).Fine?)
            && (if fine && Lands(w, InsertMetrics) then after == s.(metrics := s.metrics + [c.metrics])
                else after == t || after == s)
  {
    var next := t.(secrets := t.secrets + c.secrets);
    Maybe(t, c, InsertSecrets, c.secrets != [], [InsertMetrics], w, next);
    One(next, c, InsertMetrics, [], w);
    assert [InsertMetrics] + [] == [InsertMetrics];
  }

  /** The tables filled so far, one after the other, when a step raises. */
  lemma LaterSteps(t: Tables, c: Content, w: World)
    ensures var (after, exc) := Perform(t, c, Later(c), w);
            var d := t.(dependencies := t.dependencies + c.dependencies);
            var f := d.(findings := d.findings + c.findings);
            var s := f.(secrets := f.secrets + c.secrets);
            && (exc.None? <==> RowsFine(c, w) && w(InsertMetrics).Fine?)
            && (if RowsFine(c, w) && Lands(w, InsertMetrics) then after == s.(metrics := s.metrics + [c.metrics])
                else after == t || after == d || after == f || after == s)
  {
    var d := t.(dependencies := t.dependencies + c.dependencies);
    var f := d.(findings := d.findings + c.findings);
    var secrets := (if c.secrets != [] then [InsertSecrets] else []) + [InsertMetrics];
    var findings := (if c.findings != [] then [InsertFindings] else []) + secrets;
    Maybe(t, c, InsertDependencies, c.dependencies != [], findings, w, d);
    Maybe(d, c, InsertFindings, c.findings != [], secrets, w, f);
    LastSteps(f, c, w);
  }

  lemma Opening(t: Tables, c: Content, w: World)
    ensures var (begun, exc) := Perform(t, c, [Upload, Connect], w);
            && (exc.None? <==> w(Upload).Fine? && w(Connect).Fine?)
            && (exc.None? ==> begun == Add(t, c, Upload))
            && (begun == t || begun == Add(t, c, Upload))
  {
    One(t, c, Upload, [Connect], w);
    One(Add(t, c, Upload), c, Connect, [], w);
    assert [Upload] + [Connect] == [Upload, Connect] && [Connect] + [] == [Connect];
  }

  /** All that comes before the metrics is fine. */
  predicate FineSoFar(c: Content, w: World) {
    w(Upload).Fine? && w(Connect).Fine? && w(InsertSbom).Fine? && RowsFine(c, w)
  }

  /** The metrics row comes last: it is stored exactly when every step before it is fine and its own
      insert lands, and then so is every row it counts; otherwise each table has all of its rows of
      this scan or none. Ingest returns exactly when all steps are fine, and closing is too. */
  lemma MetricsComeLast(t: Tables, c: Content, w: World)
    ensures var (after, exc) := Ingested(t, c, w);
            && Between(t, after, c)
            && (after.metrics == t.metrics + [c.metrics] <==> FineSoFar(c, w) && Lands(w, InsertMetrics))
            && (after.metrics == t.metrics + [c.metrics] ==> after == Whole(t, c))
            && (exc.None? <==> FineSoFar(c, w) && w(InsertMetrics).Fine? && w(Close).Fine?)
            && (exc.None? ==> after == Whole(t, c))
  {
    var t1 := Add(t, c, Upload);
    Opening(t, c, w);
    One(t1, c, InsertSbom, Later(c), w);
    LaterSteps(Add(t1, c, InsertSbom), c, w);
  }

  class Store {
    var uploads: seq<Context>
    var sboms: seq<Context>
    var dependencies: seq<DependencyRow>
    var findings: seq<FindingRow>
    var secrets: seq<SecretRow>
    var metrics: seq<Metrics>

    function State(): Tables
      reads this
    {
      Tables(uploads, sboms, dependencies, findings, secrets, metrics)
    }

    constructor ()
      ensures State() == EMPTY
    {
      uploads, sboms, dependencies, findings, secrets, metrics := [], [], [], [], [], [];
    }

    method Do(c: Content, s: Step, w: World) returns (exc: Option<string>)
      modifies this
      ensures exc == Raises(w, s) && State() == After(old(State()), c, s, w)
    {
      exc := Raises(w, s);
      if !Lands(w, s) {
        return;
      }
      match s {
        case Upload => uploads := uploads + [c.ctx];
        case InsertSbom => sboms := sboms + [c.ctx];
        case InsertDependencies => dependencies := dependencies + c.dependencies;
        case InsertFindings => findings := findings + c.findings;
        case InsertSecrets => secrets := secrets + c.secrets;
        case InsertMetrics => metrics := metrics + [c.metrics];
        case Connect =>
        case Close =>
      }
    }

    method DoAll(c: Content, steps: seq<Step>, w: World) returns (exc: Option<string>)
      modifies this
      ensures (State(), exc) == Perform(old(State()), c, steps, w)
    {
      ghost var was := State();
      for i := 0 to |steps|
        invariant Perform(was, c, steps, w) == Perform(State(), c, steps[i..], w)
      {
        assert steps[i..][1..] == steps[i + 1..];
        exc := Do(c, steps[i], w);
        if exc.Some? {
          return;
        }
      }
      exc := None;
    }

    /** `ingest`: the upload, then the client with the inserts in its `try`, then the `finally`. */
    method Ingest(c: Content, w: World) returns (exc: Option<string>)
      modifies this
      ensures (State(), exc) == Ingested(old(State()), c, w)
    {
      exc := DoAll(c, [Upload, Connect], w);
      if exc.Some? {
        return;
      }
      exc := DoAll(c, Inserts(c), w);
      var closing := Do(c, Close, w);
      if closing.Some? {
        exc := closing;
      }
    }
  }

  // ---- any number of ingests ------------------------------------------------

  datatype Run = Run(content: Content, world: World)

  ghost function AfterRuns(t: Tables, runs: seq<Run>): Tables
    decreases |runs|
  {
    if runs == [] then t else AfterRuns(Ingested(t, runs[0].content, runs[0].world).0, runs[1..])
  }

  function FindingsOf(rows: seq<FindingRow>, scan: string): nat {
    if rows == [] then 0 else FindingsOf(rows[..|rows| - 1], scan) + if rows[|rows| - 1].ctx.scanId == scan then 1 else 0
  }

  function SecretsOf(rows: seq<SecretRow>, scan: string): nat {
    if rows == [] then 0 else SecretsOf(rows[..|rows| - 1], scan) + if rows[|rows| - 1].ctx.scanId == scan then 1 else 0
  }

  function DependenciesOf(rows: seq<DependencyRow>, scan: string): nat {
    if rows == [] then 0 else DependenciesOf(rows[..|rows| - 1], scan) + if rows[|rows| - 1].ctx.scanId == scan then 1 else 0
  }

  lemma {:induction false} MoreFindings(a: seq<FindingRow>, b: seq<FindingRow>, scan: string)
    ensures FindingsOf(a + b, scan) >= FindingsOf(a, scan)
    ensures (forall i :: 0 <= i < |b| ==> b[i].ctx.scanId == scan) ==> FindingsOf(a + b, scan) >= |b|
    decreases |b|
  {
    if b == [] {
      assert a + b == a;
    } else {
      assert (a + b)[..|a + b| - 1] == a + b[..|b| - 1];
      MoreFindings(a, b[..|b| - 1], scan);
    }
  }

  lemma {:induction false} MoreSecrets(a: seq<SecretRow>, b: seq<SecretRow>, scan: string)
    ensures SecretsOf(a + b, scan) >= SecretsOf(a, scan)
    ensures (forall i :: 0 <= i < |b| ==> b[i].ctx.scanId == scan) ==> SecretsOf(a + b, scan) >= |b|
    decreases |b|
  {
    if b == [] {
      assert a + b == a;
    } else {
      assert (a + b)[..|a + b| - 1] == a + b[..|b| - 1];
      MoreSecrets(a, b[..|b| - 1], scan);
    }
  }

  lemma {:induction false} MoreDependencies(a: seq<DependencyRow>, b: seq<DependencyRow>, scan: string)
    ensures DependenciesOf(a + b, scan) >= DependenciesOf(a, scan)
    ensures (forall i :: 0 <= i < |b| ==> b[i].ctx.scanId == scan) ==> DependenciesOf(a + b, scan) >= |b|
    decreases |b|
  {
    if b == [] {
      assert a + b == a;
    } else {
      assert (a + b)[..|a + b| - 1] == a + b[..|b| - 1];
      MoreDependencies(a, b[..|b| - 1], scan);
    }
  }

  /** The rows stored for the metrics' scan are at least what the metrics claim. */
  predicate Covered(t: Tables, m: Metrics) {
    && m.findings <= FindingsOf(t.findings, m.ctx.scanId)
    && m.secrets <= SecretsOf(t.secrets, m.ctx.scanId)
    && m.dependencies <= DependenciesOf(t.dependencies, m.ctx.scanId)
  }

  predicate AllCovered(t: Tables) {
    forall i :: 0 <= i < |t.metrics| ==> Covered(t, t.metrics[i])
  }

  lemma StaysCovered(t: Tables, after: Tables, c: Content, m: Metrics)
    requires Between(t, after, c) && Covered(t, m)
    ensures Covered(after, m)
  {
    MoreFindings(t.findings, c.findings, m.ctx.scanId);
    MoreSecrets(t.secrets, c.secrets, m.ctx.scanId);
    MoreDependencies(t.dependencies, c.dependencies, m.ctx.scanId);
  }

  lemma IngestKeepsCovered(t: Tables, c: Content, w: World)
    requires AllCovered(t) && Agrees(c) && OwnRows(c)
    ensures AllCovered(Ingested(t, c, w).0)
  {
    var after := Ingested(t, c, w).0;
    MetricsComeLast(t, c, w);
    forall i | 0 <= i < |after.metrics| ensures Covered(after, after.metrics[i]) {
      if i < |t.metrics| {
        StaysCovered(t, after, c, t.metrics[i]);
      } else {
        MoreFindings(t.findings, c.findings, c.ctx.scanId);
        MoreSecrets(t.secrets, c.secrets, c.ctx.scanId);
        MoreDependencies(t.dependencies, c.dependencies, c.ctx.scanId);
      }
    }
  }

  /** After any ingests of any scans, repeated and failing wherever they like, no metrics row claims
      more findings, secrets or dependencies than are stored for its scan. */
  lemma {:induction false} MetricsNeverOvercount(t: Tables, runs: seq<Run>)
    requires AllCovered(t) && forall i :: 0 <= i < |runs| ==> Agrees(runs[i].content) && OwnRows(runs[i].content)
    ensures AllCovered(AfterRuns(t, runs))
    decreases |runs|
  {
    if runs != [] {
      var c := runs[0].content;
      IngestKeepsCovered(t, c, runs[0].world);
      MetricsNeverOvercount(Ingested(t, c, runs[0].world).0, runs[1..]);
    }
  }
}
