/** Every run keeps tenants apart, so the unique constraints are never hit; and the stored secrets
    are always the ones last handed out. */
module Tenancy {
  import opened Common
  import opened Text
  import opened Sources
  import opened Resolution

  /** Connections, repositories and scans stay inside one org, and names are unique in it. */
  ghost predicate Inv(t: Tables) {
    && (forall i :: i in t.conns ==> t.conns[i].org in t.orgs)
    && (forall i :: i in t.repos ==> RepoInPlace(t, t.repos[i]))
    && (forall i :: i in t.scans ==> t.scans[i].repo in t.repos && t.repos[t.scans[i].repo].org == t.scans[i].org)
    && UniqueNames(t.conns) && UniqueFullNames(t.repos)
  }

  /** The repository's connection exists in the repository's own org. */
  ghost predicate RepoInPlace(t: Tables, r: Repo) {
    && r.org in t.orgs && r.connection in t.conns && t.conns[r.connection].org == r.org
    && r.remoteId == r.fullName
  }

  /** The second unique constraint follows from the first. */
  lemma RemotesUnique(t: Tables)
    requires Inv(t)
    ensures UniqueRemotes(t.repos)
  {
  }

  // ---- resolving ------------------------------------------------------------

  lemma DefaultKeepsInv(t: Tables, org: OrgId, p: Provider, newConn: ConnId)
    requires Inv(t) && org in t.orgs
    ensures var r := DefaultSource(t, org, p, newConn);
            && r != Err(UniqueViolation)
            && (r.Ok? ==> && Inv(r.value.0) && r.value.0 == t.(conns := r.value.0.conns)
                          && r.value.1 in r.value.0.conns && r.value.0.conns[r.value.1].org == org)
  {
    var r := DefaultSource(t, org, p, newConn);
    if r.Ok? && r.value.0 != t {
      var after := r.value.0;
      forall i | i in after.repos ensures RepoInPlace(after, after.repos[i]) {
        assert RepoInPlace(t, t.repos[i]);
      }
    }
  }

  lemma SourceKeepsInv(t: Tables, rows: seq<ConnId>, q: Query)
    requires Inv(t) && q.org in t.orgs && Lists(t, q.org, rows)
    ensures var r := ResolveSource(t, q.org, rows, q.url, q.explicitId, q.newConn);
            && r != Err(UniqueViolation)
            && (r.Ok? ==> && Inv(r.value.0) && r.value.0 == t.(conns := r.value.0.conns)
                          && r.value.1 in r.value.0.conns && r.value.0.conns[r.value.1].org == q.org)
  {
    if q.url.parsed.Parsed? {
      DefaultKeepsInv(t, q.org, ProviderForHost(NormalizeHost(q.url.parsed.hostname)), q.newConn);
    }
  }

  lemma RepoKeepsInv(t: Tables, org: OrgId, conn: ConnId, url: Url, newRepo: RepoId)
    requires Inv(t) && org in t.orgs && conn in t.conns && t.conns[conn].org == org
    ensures var r := ResolveRepo(t, org, conn, url, newRepo);
            && r != Err(UniqueViolation)
            && (r.Ok? ==> && Inv(r.value.0) && r.value.0.conns == t.conns && r.value.0.scans == t.scans
                          && r.value.1 in r.value.0.repos && r.value.0.repos[r.value.1].org == org)
  {
    if url.parsed.Parsed? && RepoByName(t.repos, org, FullName(url)).None? {
      forall i | i in t.repos && t.repos[i].connection == conn ensures t.repos[i].remoteId != FullName(url) {
        assert RepoInPlace(t, t.repos[i]);
      }
      if newRepo !in t.repos {
        var row := Repo(org, conn, FullName(url), FullName(url), url.text);
        var after := t.(repos := t.repos[newRepo := row]);
        forall i | i in after.repos ensures RepoInPlace(after, after.repos[i]) {
          assert i != newRepo ==> RepoInPlace(t, t.repos[i]);
        }
      }
    }
  }

  /** In a reachable state no insert that resolution makes can hit a unique or foreign-key constraint,
      and the target it returns lies within the org asked for. */
  lemma ResolvingIsSafe(t: Tables, rows: seq<ConnId>, q: Query)
    requires Inv(t) && Lists(t, q.org, rows)
    ensures ResolveTarget(t, rows, q) != Err(UniqueViolation)
    ensures ResolveTarget(t, rows, q).Ok? ==>
              var (after, target) := ResolveTarget(t, rows, q).value;
              && Inv(after)
              && target.conn in after.conns && after.conns[target.conn].org == q.org
              && target.repo in after.repos && after.repos[target.repo].org == q.org
  {
    if q.org in t.orgs {
      SourceKeepsInv(t, rows, q);
      var r := ResolveSource(t, q.org, rows, q.url, q.explicitId, q.newConn);
      if r.Ok? {
        RepoKeepsInv(r.value.0, q.org, r.value.1, q.url, q.newRepo);
      }
    }
  }

  // ---- the other transactions -----------------------------------------------

  lemma ScanKeepsInv(t: Tables, rows: seq<ConnId>, q: Query, newScan: ScanId, requestedRef: string)
    requires Inv(t) && Lists(t, q.org, rows) && AfterCreateScan(t, rows, q, newScan, requestedRef).Ok?
    ensures Inv(AfterCreateScan(t, rows, q, newScan, requestedRef).value)
    ensures AfterCreateScan(t, rows, q, newScan, requestedRef).value.scans[newScan].org == q.org
  {
    ResolvingIsSafe(t, rows, q);
    var (resolved, target) := ResolveTarget(t, rows, q).value;
    var after := AfterCreateScan(t, rows, q, newScan, requestedRef).value;
    forall i | i in after.repos ensures RepoInPlace(after, after.repos[i]) {
      assert RepoInPlace(resolved, resolved.repos[i]);
    }
  }

  lemma ConnWritesKeepInv(t: Tables, after: Tables)
    requires Inv(t) && after.orgs >= t.orgs && after.repos == t.repos && after.scans == t.scans
    requires UniqueNames(after.conns) && forall i :: i in after.conns ==> after.conns[i].org in after.orgs
    requires forall i :: i in t.conns && (exists r :: r in t.repos && t.repos[r].connection == i) ==>
               i in after.conns && after.conns[i].org == t.conns[i].org
    ensures Inv(after)
  {
  }

  lemma DeleteOrgKeepsInv(t: Tables, org: OrgId)
    requires Inv(t) && org in t.orgs
    ensures Inv(AfterDeleteOrg(t, org, false).value)
  {
  }

  lemma CreateSourceKeepsInv(t: Tables, org: OrgId, s: NewSource, newConn: ConnId, webhookSecret: string, master: string)
    requires Inv(t) && AfterCreateSource(t, org, s, newConn, webhookSecret, master).Ok?
    ensures Inv(AfterCreateSource(t, org, s, newConn, webhookSecret, master).value)
  {
  }

  lemma RotateKeepsInv(t: Tables, org: OrgId, id: ConnId, webhookSecret: string, master: string)
    requires Inv(t) && AfterRotate(t, org, id, webhookSecret, master).Ok?
    ensures Inv(AfterRotate(t, org, id, webhookSecret, master).value)
  {
  }

  lemma DeleteSourceKeepsInv(t: Tables, org: OrgId, id: ConnId)
    requires Inv(t) && AfterDeleteSource(t, org, id).Ok?
    ensures Inv(AfterDeleteSource(t, org, id).value)
  {
  }

  lemma StepKeepsInv(t: Tables, step: Step, master: string)
    requires Inv(t) && Possible(t, step)
    ensures Inv(Next(t, step, master))
  {
    if Attempt(t, step, master).Ok? {
      match step
      case CreateOrg(org) => ConnWritesKeepInv(t, t.(orgs := t.orgs + {org}));
      case DeleteOrg(org, _) => DeleteOrgKeepsInv(t, org);
      case CreateSource(org, source, newConn, secret) => CreateSourceKeepsInv(t, org, source, newConn, secret, master);
      case Rotate(org, id, secret) => RotateKeepsInv(t, org, id, secret, master);
      case DeleteSource(org, id) => DeleteSourceKeepsInv(t, org, id);
      case CreateScan(query, rows, newScan, requestedRef) => ScanKeepsInv(t, rows, query, newScan, requestedRef);
    }
  }

  lemma StepNeverViolates(t: Tables, step: Step, master: string)
    requires Inv(t) && Possible(t, step) && (step.CreateSource? ==> step.org in t.orgs)
    ensures Attempt(t, step, master) != Err(UniqueViolation)
  {
    if step.CreateScan? {
      ResolvingIsSafe(t, step.rows, step.query);
    }
  }

  lemma {:induction false} RunKeepsInv(t: Tables, steps: seq<Step>, master: string)
    requires Inv(t) && IsRun(t, steps, master)
    ensures Inv(After(t, steps, master))
    decreases |steps|
  {
    if steps != [] {
      StepKeepsInv(t, steps[0], master);
      RunKeepsInv(Next(t, steps[0], master), steps[1..], master);
    }
  }

  /** The main result: from empty tables, after any serial run, every repository's connection and every
      scan's repository are in its own org, both repository constraints hold, and no further step in
      an existing org can violate a constraint. */
  lemma TenantsStayApart(steps: seq<Step>, master: string, next: Step)
    requires IsRun(EMPTY, steps, master) && Possible(After(EMPTY, steps, master), next)
    requires next.CreateSource? ==> next.org in After(EMPTY, steps, master).orgs
    ensures Inv(After(EMPTY, steps, master)) && UniqueRemotes(After(EMPTY, steps, master).repos)
    ensures Attempt(After(EMPTY, steps, master), next, master) != Err(UniqueViolation)
  {
    RunKeepsInv(EMPTY, steps, master);
    RemotesUnique(After(EMPTY, steps, master));
    StepNeverViolates(After(EMPTY, steps, master), next, master);
  }

  // ---- names kept for the fallbacks -----------------------------------------

  /** No step of the run lets an operator take a `default-` name. */
  predicate NamesAvoidDefault(steps: seq<Step>) {
    forall i :: 0 <= i < |steps| && steps[i].CreateSource? ==> !(DEFAULT_PREFIX <= steps[i].source.name)
  }

  lemma StepAvoidsDefault(t: Tables, step: Step, master: string)
    requires OperatorsAvoidDefault(t) && Possible(t, step)
    requires step.CreateSource? ==> !(DEFAULT_PREFIX <= step.source.name)
    ensures OperatorsAvoidDefault(Next(t, step, master))
  {
    if step.CreateScan? && ResolveTarget(t, step.rows, step.query).Ok? {
      ResolvingAddsFallback(t, step.rows, step.query);
    }
  }

  /** If no operator ever takes such a name, every run leaves resolution a pure function. */
  lemma {:induction false} RunAvoidsDefault(t: Tables, steps: seq<Step>, master: string)
    requires OperatorsAvoidDefault(t) && IsRun(t, steps, master) && NamesAvoidDefault(steps)
    ensures OperatorsAvoidDefault(After(t, steps, master))
    decreases |steps|
  {
    if steps != [] {
      StepAvoidsDefault(t, steps[0], master);
      RunAvoidsDefault(Next(t, steps[0], master), steps[1..], master);
    }
  }

  /** Scans resolved in between, however many, change no operator's connection and make no org. */
  lemma {:induction false} ScansKeepOperators(t: Tables, scans: seq<Step>, master: string, org: OrgId)
    requires IsRun(t, scans, master) && forall i :: 0 <= i < |scans| ==> scans[i].CreateScan?
    ensures OperatorConns(After(t, scans, master), org) == OperatorConns(t, org)
    ensures After(t, scans, master).orgs == t.orgs
    decreases |scans|
  {
    if scans != [] {
      ScanKeepsOperators(t, scans[0], master, org);
      ScansKeepOperators(Next(t, scans[0], master), scans[1..], master, org);
    }
  }

  lemma ScanKeepsOperators(t: Tables, scan: Step, master: string, org: OrgId)
    requires Possible(t, scan) && scan.CreateScan?
    ensures OperatorConns(Next(t, scan, master), org) == OperatorConns(t, org)
    ensures Next(t, scan, master).orgs == t.orgs
  {
    if ResolveTarget(t, scan.rows, scan.query).Ok? {
      ResolvingKeepsOperators(t, scan.rows, scan.query, org);
    }
  }

  /** The main result about hosts: after any such run and any number of scans resolved since, resolving
      a host answers what the operators' connections said before those scans. */
  lemma ResolutionStaysPure(steps: seq<Step>, scans: seq<Step>, master: string,
                            org: OrgId, listing: seq<ConnId>, url: Url, newConn: ConnId)
    requires IsRun(EMPTY, steps, master) && NamesAvoidDefault(steps)
    requires IsRun(After(EMPTY, steps, master), scans, master)
    requires forall i :: 0 <= i < |scans| ==> scans[i].CreateScan?
    requires var t := After(After(EMPTY, steps, master), scans, master);
             && Lists(t, org, listing) && org in t.orgs && url.parsed.Parsed? && newConn !in t.conns
    ensures var before := After(EMPTY, steps, master);
            var t := After(before, scans, master);
            var r := ResolveSource(t, org, listing, url, None, newConn);
            match Intended(OperatorConns(before, org), NormalizeHost(url.parsed.hostname))
            case BadUrl => r == Err(ValueError)
            case Several => r == Err(Ambiguous)
            case Operator(id) => r == Ok((t, id))
            case Anonymous(p) => r.Ok? && r.value.1 in r.value.0.conns && IsFallback(r.value.0.conns[r.value.1], org, p)
  {
    var before := After(EMPTY, steps, master);
    var t := After(before, scans, master);
    RunKeepsInv(EMPTY, steps, master);
    RunKeepsInv(before, scans, master);
    RunAvoidsDefault(EMPTY, steps, master);
    RunAvoidsDefault(before, scans, master);
    ScansKeepOperators(before, scans, master, org);
    ResolutionIsPure(t, org, listing, url, newConn);
  }
}
