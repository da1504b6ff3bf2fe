/** Source connections, repositories and scans in the operators' own terms: addresses, names, rows. */
module SourceMeaning {
  import opened Common
  import opened Text
  import opened Sources
  import Resolution
  import Secrets
  import Tenancy

  // ---- hosts ----------------------------------------------------------------

  /** A connection with an address serves the address's host, in lower case and without blanks; one without
      serves its provider's cloud. */
  predicate ServesHost(c: Conn, host: string) {
    if c.baseUrl.None? || c.baseUrl.value.text == "" then
      match c.provider
      case Github => host == "github.com"
      case Gitlab => host == "gitlab.com"
      case AzureDevops => host == "dev.azure.com"
    else
      && c.baseUrl.value.parsed.Parsed? && c.baseUrl.value.parsed.hostname.Some?
      && host != "" && host == Strip(Lower(c.baseUrl.value.parsed.hostname.value))
  }

  predicate BadAddress(c: Conn) {
    c.baseUrl.Some? && c.baseUrl.value.text != "" && c.baseUrl.value.parsed.Unparsable?
  }

  predicate Reserved(c: Conn) {
    "default-" <= c.name
  }

  lemma ServesExactly(c: Conn, host: string)
    ensures Resolution.Serves(c, host) <==> ServesHost(c, host)
  {
  }

  lemma BadExactly(c: Conn)
    ensures ConnectionHost(c).None? <==> BadAddress(c)
  {
  }

  /** `id` is the org's, not reserved, and serves the host. */
  predicate Offers(t: Tables, org: OrgId, id: ConnId, host: string) {
    id in t.conns && t.conns[id].org == org && !Reserved(t.conns[id]) && ServesHost(t.conns[id], host)
  }

  lemma OffersExactly(t: Tables, org: OrgId, host: string)
    ensures forall id :: id in Resolution.RealHits(t, org, host) <==> Offers(t, org, id, host)
    ensures forall id :: id in Resolution.Hits(t, org, host) <==>
              id in t.conns && t.conns[id].org == org && ServesHost(t.conns[id], host)
    ensures Resolution.SomeBadUrl(t, org) <==> exists i :: i in t.conns && t.conns[i].org == org && BadAddress(t.conns[i])
  {
    forall c: Conn ensures Resolution.Serves(c, host) <==> ServesHost(c, host) {
      ServesExactly(c, host);
    }
  }

  ghost predicate NoBadAddress(t: Tables, org: OrgId) {
    forall i :: i in t.conns && t.conns[i].org == org ==> !BadAddress(t.conns[i])
  }

  function HostOf(url: Url): string
    requires url.parsed.Parsed?
  {
    if url.parsed.hostname.Some? then Strip(Lower(url.parsed.hostname.value)) else ""
  }

  /** The one connection that offers a clone URL's host is the one resolved to. */
  lemma OnlyOfferResolves(t: Tables, org: OrgId, rows: seq<ConnId>, url: Url, newConn: ConnId, id: ConnId)
    requires Lists(t, org, rows) && url.parsed.Parsed? && NoBadAddress(t, org)
    requires Offers(t, org, id, HostOf(url)) && forall j :: Offers(t, org, j, HostOf(url)) ==> j == id
    ensures ResolveSource(t, org, rows, url, None, newConn) == Ok((t, id))
  {
    var host := HostOf(url);
    OffersExactly(t, org, host);
    Resolution.SelectBySets(t, org, rows, host);
    assert Resolution.RealHits(t, org, host) == {id};
  }

  /** Two that offer it are refused as ambiguous. */
  lemma TwoOffersRefused(t: Tables, org: OrgId, rows: seq<ConnId>, url: Url, newConn: ConnId, i: ConnId, j: ConnId)
    requires Lists(t, org, rows) && url.parsed.Parsed? && NoBadAddress(t, org)
    requires i != j && Offers(t, org, i, HostOf(url)) && Offers(t, org, j, HostOf(url))
    ensures ResolveSource(t, org, rows, url, None, newConn) == Err(Ambiguous)
  {
    var host := HostOf(url);
    OffersExactly(t, org, host);
    Resolution.SelectBySets(t, org, rows, host);
    var hits := Resolution.RealHits(t, org, host);
    assert {i, j} <= hits;
    assert |hits| >= |{i, j}| by { assert hits == {i, j} + (hits - {i, j}); }
  }

  /** Where none offers it and no reserved row stands for it, the provider's anonymous row is made. */
  lemma NoOfferMakesFallback(t: Tables, org: OrgId, rows: seq<ConnId>, url: Url, newConn: ConnId)
    requires Lists(t, org, rows) && url.parsed.Parsed? && NoBadAddress(t, org) && org in t.orgs && newConn !in t.conns
    requires forall i :: i in t.conns && t.conns[i].org == org ==>
               !ServesHost(t.conns[i], HostOf(url)) && t.conns[i].name != FallbackName(ProviderForHost(HostOf(url)))
    ensures ResolveSource(t, org, rows, url, None, newConn)
         == Ok((t.(conns := t.conns[newConn := Anonymous(org, ProviderForHost(HostOf(url)))]), newConn))
  {
    var host := HostOf(url);
    OffersExactly(t, org, host);
    Resolution.SelectBySets(t, org, rows, host);
    assert Resolution.Hits(t, org, host) == {} && Resolution.RealHits(t, org, host) == {};
    AnonymousExactly(org, ProviderForHost(host));
  }

  /** Where none offers it but one reserved row alone serves it, that row is used. */
  lemma OnlyReservedResolves(t: Tables, org: OrgId, rows: seq<ConnId>, url: Url, newConn: ConnId, id: ConnId)
    requires Lists(t, org, rows) && url.parsed.Parsed? && NoBadAddress(t, org)
    requires id in t.conns && t.conns[id].org == org && ServesHost(t.conns[id], HostOf(url))
    requires forall j :: j in t.conns && t.conns[j].org == org && ServesHost(t.conns[j], HostOf(url)) ==> j == id
    ensures ResolveSource(t, org, rows, url, None, newConn) == Ok((t, id))
  {
    var host := HostOf(url);
    OffersExactly(t, org, host);
    Resolution.SelectBySets(t, org, rows, host);
    assert Resolution.Hits(t, org, host) == {id};
    if Offers(t, org, id, host) {
      assert Resolution.RealHits(t, org, host) == {id};
    } else {
      assert Resolution.RealHits(t, org, host) == {};
    }
  }

  /** Where nothing serves it, the org's row of the provider's reserved name is used once it is there. */
  lemma FallbackReused(t: Tables, org: OrgId, rows: seq<ConnId>, url: Url, newConn: ConnId, id: ConnId)
    requires Lists(t, org, rows) && url.parsed.Parsed? && NoBadAddress(t, org) && UniqueNames(t.conns)
    requires forall i :: i in t.conns && t.conns[i].org == org ==> !ServesHost(t.conns[i], HostOf(url))
    requires id in t.conns && t.conns[id].org == org && t.conns[id].name == FallbackName(ProviderForHost(HostOf(url)))
    ensures ResolveSource(t, org, rows, url, None, newConn) == Ok((t, id))
  {
    var host := HostOf(url);
    OffersExactly(t, org, host);
    Resolution.SelectBySets(t, org, rows, host);
    assert Resolution.Hits(t, org, host) == {} && Resolution.RealHits(t, org, host) == {};
    AnonymousExactly(org, ProviderForHost(host));
  }

  function FallbackName(p: Provider): string {
    match p
    case Github => "default-github"
    case Gitlab => "default-gitlab"
    case AzureDevops => "default-azure_devops"
  }

  /** A provider's anonymous row: no credential, no address, nothing stored. */
  function Anonymous(org: OrgId, p: Provider): Conn {
    Conn(org, FallbackName(p), p, NoCredential, None, None, None, None)
  }

  lemma AnonymousExactly(org: OrgId, p: Provider)
    ensures FallbackConn(org, p) == Anonymous(org, p) && DefaultName(p) == FallbackName(p)
  {
    assert "default-" + "github" == "default-github";
    assert "default-" + "gitlab" == "default-gitlab";
    assert "default-" + "azure_devops" == "default-azure_devops";
  }

  /** Whose host it is, by the names in it, whatever their letters' case. */
  lemma ProviderExactly(host: string)
    ensures Contains(Lower(host), "gitlab") ==> ProviderForHost(host) == Gitlab
    ensures !Contains(Lower(host), "gitlab") && (Contains(Lower(host), "dev.azure.com") || Contains(Lower(host), "visualstudio.com"))
            ==> ProviderForHost(host) == AzureDevops
    ensures !Contains(Lower(host), "gitlab") && !Contains(Lower(host), "dev.azure.com") && !Contains(Lower(host), "visualstudio.com")
            ==> ProviderForHost(host) == Github
  {
  }

  /** A malformed clone URL is an error, and so is a malformed address of any connection of the org. */
  lemma BadAddressRefused(t: Tables, org: OrgId, rows: seq<ConnId>, url: Url, newConn: ConnId)
    requires Lists(t, org, rows) && (url.parsed.Unparsable? || !NoBadAddress(t, org))
    ensures ResolveSource(t, org, rows, url, None, newConn) == Err(ValueError)
  {
    if url.parsed.Parsed? {
      OffersExactly(t, org, HostOf(url));
      Resolution.SelectBySets(t, org, rows, HostOf(url));
    }
  }

  /** An explicit connection is the one used if it is the org's, and not found otherwise; the URL's host
      plays no part. */
  lemma ExplicitExactly(t: Tables, org: OrgId, rows: seq<ConnId>, url: Url, id: ConnId, newConn: ConnId)
    requires Lists(t, org, rows)
    ensures ResolveSource(t, org, rows, url, Some(id), newConn)
         == if id in t.conns && t.conns[id].org == org then Ok((t, id)) else Err(NotFound)
  {
  }

  // ---- names ----------------------------------------------------------------

  predicate Slashes(s: string) {
    forall i :: 0 <= i < |s| ==> s[i] == '/'
  }

  /** A path's name is what stands between its slashes, less one `.git`. */
  lemma FullNameExactly(url: Url, before: string, name: string, git: bool, after: string)
    requires url.parsed.Parsed? && Slashes(before) && Slashes(after)
    requires url.parsed.path == before + (name + if git then ".git" else "") + after
    requires name != "" && name[0] != '/' && (!git ==> name[|name| - 1] != '/' && !EndsWith(name, ".git"))
    ensures FullName(url) == name
  {
    var core := name + if git then ".git" else "";
    assert core[|core| - 1] == if git then 't' else name[|name| - 1];
    assert before + core + after == before + (core + after);
    LeadingDropped(before, core + after);
    TrailingDropped(core, after);
    if git {
      EndsWithAppended(name, ".git");
      assert core[..|core| - 4] == name;
    } else {
      assert core == name;
    }
  }

  /** A path of slashes only, or of a bare `.git`, has no name: the URL itself serves. */
  lemma NoNameUsesUrl(url: Url, before: string, git: bool, after: string)
    requires url.parsed.Parsed? && Slashes(before) && Slashes(after)
    requires url.parsed.path == before + (if git then ".git" else "") + after
    ensures FullName(url) == url.text
  {
    var core := if git then ".git" else "";
    if git {
      assert before + core + after == before + (core + after);
      LeadingDropped(before, core + after);
      TrailingDropped(core, after);
      assert core[..0] == "";
    } else {
      assert before + core + after == (before + after) + "";
      LeadingDropped(before + after, "");
    }
  }

  lemma {:induction false} LeadingDropped(slashes: string, s: string)
    requires Slashes(slashes) && (s != "" ==> s[0] != '/')
    ensures DropLeadingSlashes(slashes + s) == s
  {
    if slashes == "" {
      assert slashes + s == s;
    } else {
      assert (slashes + s)[1..] == slashes[1..] + s;
      LeadingDropped(slashes[1..], s);
    }
  }

  lemma {:induction false} TrailingDropped(s: string, slashes: string)
    requires Slashes(slashes) && (s != "" ==> s[|s| - 1] != '/')
    ensures DropTrailingSlashes(s + slashes) == s
  {
    if slashes == "" {
      assert s + slashes == s;
    } else {
      assert (s + slashes)[..|s + slashes| - 1] == s + slashes[..|slashes| - 1];
      TrailingDropped(s, slashes[..|slashes| - 1]);
    }
  }

  // ---- what resolving and scanning write ------------------------------------

  /** The repository is the org's one of that name, or a new one under the connection with the clone URL
      as given; nothing else is written. */
  lemma RepositoryExactly(t: Tables, org: OrgId, conn: ConnId, url: Url, newRepo: RepoId)
    requires Tenancy.Inv(t) && org in t.orgs && conn in t.conns && t.conns[conn].org == org
    requires url.parsed.Parsed? && newRepo !in t.repos
    ensures var r := ResolveRepo(t, org, conn, url, newRepo);
            && r.Ok?
            && var (after, id) := r.value;
               && id in after.repos && after.repos[id].org == org && after.repos[id].fullName == FullName(url)
               && (id in t.repos ==> after == t)
               && (id !in t.repos ==>
                     && id == newRepo
                     && after == t.(repos := t.repos[newRepo := Repo(org, conn, FullName(url), FullName(url), url.text)])
                     && forall i :: i in t.repos && t.repos[i].org == org ==> t.repos[i].fullName != FullName(url))
  {
    Tenancy.RepoKeepsInv(t, org, conn, url, newRepo);
  }

  /** A target is a connection and a repository: the connection resolving the source answers, and the
      repository under it. */
  lemma TargetExactly(t: Tables, rows: seq<ConnId>, q: Query)
    requires Lists(t, q.org, rows) && ResolveTarget(t, rows, q).Ok?
    ensures var (after, target) := ResolveTarget(t, rows, q).value;
            var source := ResolveSource(t, q.org, rows, q.url, q.explicitId, q.newConn);
            && q.org in t.orgs && source.Ok? && source.value.1 == target.conn
            && ResolveRepo(source.value.0, q.org, target.conn, q.url, q.newRepo) == Ok((after, target.repo))
  {
  }

  lemma SourceWritesConnections(t: Tables, rows: seq<ConnId>, q: Query)
    requires Lists(t, q.org, rows) && ResolveSource(t, q.org, rows, q.url, q.explicitId, q.newConn).Ok?
    ensures var after := ResolveSource(t, q.org, rows, q.url, q.explicitId, q.newConn).value.0;
            after == t.(conns := after.conns)
  {
  }

  lemma RepoWritesRepositories(t: Tables, org: OrgId, conn: ConnId, url: Url, newRepo: RepoId)
    requires ResolveRepo(t, org, conn, url, newRepo).Ok?
    ensures var after := ResolveRepo(t, org, conn, url, newRepo).value.0;
            after == t.(repos := after.repos)
  {
  }

  /** Resolving makes no org and no scan. */
  lemma TargetKeepsRest(t: Tables, rows: seq<ConnId>, q: Query)
    requires Lists(t, q.org, rows) && ResolveTarget(t, rows, q).Ok?
    ensures ResolveTarget(t, rows, q).value.0.orgs == t.orgs && ResolveTarget(t, rows, q).value.0.scans == t.scans
  {
    TargetExactly(t, rows, q);
    SourceWritesConnections(t, rows, q);
    var (withConn, conn) := ResolveSource(t, q.org, rows, q.url, q.explicitId, q.newConn).value;
    RepoWritesRepositories(withConn, q.org, conn, q.url, q.newRepo);
  }

  /** Of an org that does not exist nothing is resolved. */
  lemma NoOrgNoTarget(t: Tables, rows: seq<ConnId>, q: Query)
    requires Lists(t, q.org, rows) && q.org !in t.orgs
    ensures ResolveTarget(t, rows, q) == Err(NotFound)
  {
  }

  /** A new scan is of the repository resolved, in the org asked for, at the ref asked for; beside it only
      what resolving wrote is written. */
  lemma ScanExactly(t: Tables, rows: seq<ConnId>, q: Query, newScan: ScanId, requestedRef: string)
    requires Tenancy.Inv(t) && Lists(t, q.org, rows)
    ensures var (scan, target) := (AfterCreateScan(t, rows, q, newScan, requestedRef), ResolveTarget(t, rows, q));
            && (target.Err? ==> scan == Err(target.error))
            && (target.Ok? && newScan !in t.scans ==>
                  scan == Ok(target.value.0.(scans := t.scans[newScan := Scan(q.org, target.value.1.repo, requestedRef)])))
  {
    if ResolveTarget(t, rows, q).Ok? {
      Tenancy.ResolvingIsSafe(t, rows, q);
      TargetKeepsRest(t, rows, q);
    }
  }

  // ---- what operators write -------------------------------------------------

  /** A well-formed request: a name, and a credential exactly where the type calls for one. */
  predicate Proper(s: NewSource) {
    s.name != "" && (s.credentialType == NoCredential <==> (s.credential == None || s.credential == Some("")))
  }

  predicate NameFree(t: Tables, org: OrgId, name: string) {
    forall i :: i in t.conns && t.conns[i].org == org ==> t.conns[i].name != name
  }

  /** A source is made from a proper request under a name the org does not use; the row has what was asked
      for, its credential opens to the one given and its webhook secret to the one shown. */
  lemma CreateSourceExactly(t: Tables, org: OrgId, s: NewSource, id: ConnId, secret: string, master: string)
    requires org in t.orgs && id !in t.conns
    ensures var r := AfterCreateSource(t, org, s, id, secret, master);
            && (r.Ok? <==> Proper(s) && NameFree(t, org, s.name))
            && (Proper(s) && !NameFree(t, org, s.name) ==> r == Err(Conflict)) && (!Proper(s) ==> r == Err(Invalid))
            && (r.Ok? ==>
                 && r.value == t.(conns := r.value.conns) && r.value.conns.Keys == t.conns.Keys + {id}
                 && (forall i :: i in t.conns ==> r.value.conns[i] == t.conns[i])
                 && var c := r.value.conns[id];
                    && c.org == org && c.name == s.name && c.provider == s.provider
                    && c.credentialType == s.credentialType && c.baseUrl == s.baseUrl && c.kid == Some("v1")
                    && c.webhookBlob.Some? && Secrets.Decrypt(c.webhookBlob.value, "v1", master) == Some(secret)
                    && (c.credentialBlob == None <==> s.credentialType == NoCredential)
                    && (c.credentialBlob.Some? ==> Secrets.Decrypt(c.credentialBlob.value, "v1", master) == s.credential))
  {
    var found := ConnByName(t.conns, org, s.name);
    if found.None? {
      assert NameFree(t, org, s.name);
    }
  }

  /** Rotating replaces the webhook secret of the org's connection and nothing else, the credential
      included. */
  lemma RotateExactly(t: Tables, org: OrgId, id: ConnId, secret: string, master: string)
    ensures var r := AfterRotate(t, org, id, secret, master);
            && (r.Ok? <==> id in t.conns && t.conns[id].org == org) && (r.Err? ==> r == Err(NotFound))
            && (r.Ok? ==>
                 && r.value == t.(conns := t.conns[id := r.value.conns[id]])
                 && var (c, was) := (r.value.conns[id], t.conns[id]);
                    && c.webhookBlob.Some? && c.kid.Some?
                    && Secrets.Decrypt(c.webhookBlob.value, c.kid.value, master) == Some(secret)
                    && c == was.(webhookBlob := c.webhookBlob, kid := c.kid))
  {
  }

  /** A connection goes exactly if it is the org's and no repository uses it. */
  lemma DeleteSourceExactly(t: Tables, org: OrgId, id: ConnId)
    ensures var r := AfterDeleteSource(t, org, id);
            var used := exists k :: k in t.repos && t.repos[k].connection == id;
            if id !in t.conns || t.conns[id].org != org then r == Err(NotFound)
            else if used then r == Err(Conflict)
            else r == Ok(t.(conns := t.conns - {id}))
  {
  }

  /** Of a deleted org nothing is left; all else stays. */
  lemma DeleteOrgExactly(t: Tables, org: OrgId)
    requires org in t.orgs
    ensures var r := AfterDeleteOrg(t, org, false);
            && r.Ok? && r.value.orgs == t.orgs - {org}
            && (forall i :: i in r.value.conns <==> i in t.conns && t.conns[i].org != org)
            && (forall i :: i in r.value.conns ==> r.value.conns[i] == t.conns[i])
            && (forall i :: i in r.value.repos <==> i in t.repos && t.repos[i].org != org)
            && (forall i :: i in r.value.repos ==> r.value.repos[i] == t.repos[i])
            && (forall i :: i in r.value.scans <==> i in t.scans && t.scans[i].org != org)
            && (forall i :: i in r.value.scans ==> r.value.scans[i] == t.scans[i])
  {
  }

  /** No step but its own deletion, or its org's, ever changes what a connection's credential opens to, its
      name, its provider or its address. */
  lemma StepKeepsConnection(t: Tables, step: Step, master: string, id: ConnId)
    requires Possible(t, step) && id in t.conns && id in Next(t, step, master).conns
    ensures var (was, c) := (t.conns[id], Next(t, step, master).conns[id]);
            c.(webhookBlob := None, kid := None) == was.(webhookBlob := None, kid := None)
  {
    if step.CreateScan? && ResolveTarget(t, step.rows, step.query).Ok? {
      Resolution.ResolvingAddsFallback(t, step.rows, step.query);
    }
  }

  /** Through every step of the run the connection is there. */
  ghost predicate Stays(t: Tables, steps: seq<Step>, master: string, id: ConnId)
    requires IsRun(t, steps, master)
    decreases |steps|
  {
    id in t.conns && (steps == [] || Stays(Next(t, steps[0], master), steps[1..], master, id))
  }

  /** So over any run in which it stays, a connection's credential opens to what was given when it was
      made. */
  lemma {:induction false} CredentialStays(t: Tables, steps: seq<Step>, master: string, id: ConnId)
    requires IsRun(t, steps, master) && Stays(t, steps, master, id)
    ensures id in After(t, steps, master).conns
    ensures After(t, steps, master).conns[id].credentialBlob == t.conns[id].credentialBlob
    decreases |steps|
  {
    if steps != [] {
      StepKeepsConnection(t, steps[0], master, id);
      CredentialStays(Next(t, steps[0], master), steps[1..], master, id);
    }
  }
}
