/** The source-connection and scan routes over live tables. */
module SourcesDb {
  import opened Common
  import opened Sources
  import Tenancy
  import Secrets

  class Database {
    const master: string
    var orgs: set<OrgId>
    var conns: map<ConnId, Conn>
    var repos: map<RepoId, Repo>
    var scans: map<ScanId, Scan>

    function State(): Tables
      reads this
    {
      Tables(orgs, conns, repos, scans)
    }

    ghost predicate Valid()
      reads this
    {
      Tenancy.Inv(State())
    }

    constructor (master: string)
      ensures State() == EMPTY && Valid() && this.master == master
    {
      this.master := master;
      orgs, conns, repos, scans := {}, map[], map[], map[];
    }

    method Rollback(saved: Tables)
      modifies this
      ensures State() == saved
    {
      orgs, conns, repos, scans := saved.orgs, saved.conns, saved.repos, saved.scans;
    }

    method FindConn(org: OrgId, name: string) returns (found: Option<ConnId>)
      requires UniqueNames(conns)
      ensures found == ConnByName(conns, org, name)
    {
      if i :| i in conns && conns[i].org == org && conns[i].name == name {
        return Some(i);
      }
      return None;
    }

    /** `get_or_create_default_source`. */
    method GetOrCreateDefaultSource(org: OrgId, p: Provider, newConn: ConnId) returns (r: Result<ConnId, Error>)
      requires UniqueNames(conns)
      modifies this`conns
      ensures match DefaultSource(old(State()), org, p, newConn)
              case Ok((after, id)) => State() == after && r == Ok(id)
              case Err(e) => State() == old(State()) && r == Err(e)
    {
      var existing := FindConn(org, DefaultName(p));
      if existing.Some? {
        return Ok(existing.value);
      }
      if org !in orgs {
        return Err(UniqueViolation);
      }
      if newConn in conns {
        return Err(KeyClash);
      }
      conns := conns[newConn := FallbackConn(org, p)];
      return Ok(newConn);
    }

    /** `_resolve_source`: the explicit connection, else the host's match, else the fallback. */
    method ResolveSourceRow(org: OrgId, rows: seq<ConnId>, url: Url, explicitId: Option<ConnId>, newConn: ConnId)
      returns (r: Result<ConnId, Error>)
      requires UniqueNames(conns) && Lists(State(), org, rows)
      modifies this`conns
      ensures match ResolveSource(old(State()), org, rows, url, explicitId, newConn)
              case Ok((after, id)) => State() == after && r == Ok(id)
              case Err(e) => State() == old(State()) && r == Err(e)
    {
      if explicitId.Some? {
        var id := explicitId.value;
        return if id in conns && conns[id].org == org then Ok(id) else Err(NotFound);
      }
      if url.parsed.Unparsable? {
        return Err(ValueError);
      }
      var host := NormalizeHost(url.parsed.hostname);
      var selected := Select(conns, rows, host);
      match selected {
        case Err(e) => return Err(e);
        case Ok(Some(id)) => return Ok(id);
        case Ok(None) => r := GetOrCreateDefaultSource(org, ProviderForHost(host), newConn);
      }
    }

    /** `get_or_create_repository`. */
    method GetOrCreateRepository(org: OrgId, conn: ConnId, url: Url, newRepo: RepoId) returns (r: Result<RepoId, Error>)
      requires UniqueFullNames(repos)
      modifies this`repos
      ensures match ResolveRepo(old(State()), org, conn, url, newRepo)
              case Ok((after, id)) => State() == after && r == Ok(id)
              case Err(e) => State() == old(State()) && r == Err(e)
    {
      if url.parsed.Unparsable? {
        return Err(ValueError);
      }
      var fullName := FullName(url);
      if i :| i in repos && repos[i].org == org && repos[i].fullName == fullName {
        return Ok(i);
      }
      var row := Repo(org, conn, fullName, fullName, url.text);
      if org !in orgs || conn !in conns
         || exists i :: i in repos && repos[i].connection == conn && repos[i].remoteId == fullName
      {
        return Err(UniqueViolation);
      }
      if newRepo in repos {
        return Err(KeyClash);
      }
      repos := repos[newRepo := row];
      return Ok(newRepo);
    }

    /** `resolve_scan_target`: a refused call has written nothing, and no constraint is ever violated. */
    method ResolveScanTarget(rows: seq<ConnId>, q: Query) returns (r: Result<Target, Error>)
      requires Valid() && Lists(State(), q.org, rows)
      modifies this
      ensures match ResolveTarget(old(State()), rows, q)
              case Ok((after, target)) => State() == after && r == Ok(target)
              case Err(e) => r == Err(e) && (e != KeyClash ==> State() == old(State()))
      ensures r != Err(UniqueViolation)
    {
      Tenancy.ResolvingIsSafe(State(), rows, q);
      if q.org !in orgs {
        return Err(NotFound);
      }
      Tenancy.SourceKeepsInv(State(), rows, q);
      var source := ResolveSourceRow(q.org, rows, q.url, q.explicitId, q.newConn);
      if source.Err? {
        return Err(source.error);
      }
      Tenancy.RepoKeepsInv(State(), q.org, source.value, q.url, q.newRepo);
      var repo := GetOrCreateRepository(q.org, source.value, q.url, q.newRepo);
      if repo.Err? {
        return Err(repo.error);
      }
      return Ok(Target(source.value, repo.value));
    }

    /** `create_scan`: the new scan belongs to its repository's org. */
    method CreateScan(rows: seq<ConnId>, q: Query, newScan: ScanId, requestedRef: string) returns (r: Result<ScanId, Error>)
      requires Valid() && Lists(State(), q.org, rows)
      modifies this
      ensures Valid() && State() == Next(old(State()), Step.CreateScan(q, rows, newScan, requestedRef), master)
      ensures r.Ok? ==> r.value in scans && scans[r.value].org == q.org
    {
      Tenancy.StepKeepsInv(State(), Step.CreateScan(q, rows, newScan, requestedRef), master);
      Tenancy.ResolvingIsSafe(State(), rows, q);
      var saved := State();
      var target := ResolveScanTarget(rows, q);
      if target.Err? {
        Rollback(saved);
        return Err(target.error);
      }
      if newScan in scans {
        Rollback(saved);
        return Err(KeyClash);
      }
      var repo := target.value.repo;
      scans := scans[newScan := Scan(repos[repo].org, repo, requestedRef)];
      return Ok(newScan);
    }

    /** `create_source`: the reply carries the webhook secret, once. */
    method CreateSource(org: OrgId, s: NewSource, newConn: ConnId, webhookSecret: string) returns (shown: Result<string, Error>)
      requires Valid()
      modifies this
      ensures Valid() && State() == Next(old(State()), Step.CreateSource(org, s, newConn, webhookSecret), master)
      ensures shown.Ok? ==> shown.value == webhookSecret
                            && Secrets.LoadSecret(conns, newConn, s.provider, master) == Ok(webhookSecret)
    {
      Tenancy.StepKeepsInv(State(), Step.CreateSource(org, s, newConn, webhookSecret), master);
      if !WellFormed(s) {
        return Err(Invalid);
      }
      var dup := FindConn(org, s.name);
      if dup.Some? {
        return Err(Conflict);
      }
      var kid, credentialBlob := None, None;
      if s.credentialType != NoCredential && Given(s.credential) {
        var (blob, version) := Secrets.Encrypt(s.credential.value, master);
        credentialBlob, kid := Some(blob), Some(version);
      }
      var (webhookBlob, secretKid) := Secrets.Encrypt(webhookSecret, master);
      if kid.None? {
        kid := Some(secretKid);
      }
      if org !in orgs {
        return Err(UniqueViolation);
      }
      if newConn in conns {
        return Err(KeyClash);
      }
      conns := conns[newConn := Conn(org, s.name, s.provider, s.credentialType, s.baseUrl, credentialBlob, Some(webhookBlob), kid)];
      return Ok(webhookSecret);
    }

    /** `rotate_webhook_secret`. */
    method RotateWebhookSecret(org: OrgId, id: ConnId, webhookSecret: string) returns (shown: Result<string, Error>)
      requires Valid()
      modifies this
      ensures Valid() && State() == Next(old(State()), Rotate(org, id, webhookSecret), master)
      ensures shown.Ok? ==> shown.value == webhookSecret
                            && id in conns && Secrets.LoadSecret(conns, id, conns[id].provider, master) == Ok(webhookSecret)
    {
      Tenancy.StepKeepsInv(State(), Rotate(org, id, webhookSecret), master);
      if id !in conns || conns[id].org != org {
        return Err(NotFound);
      }
      var (blob, version) := Secrets.Encrypt(webhookSecret, master);
      conns := conns[id := conns[id].(webhookBlob := Some(blob), kid := Some(version))];
      return Ok(webhookSecret);
    }

    /** `delete_source`: refused while a repository uses the connection. */
    method DeleteSource(org: OrgId, id: ConnId) returns (r: Result<(), Error>)
      requires Valid()
      modifies this
      ensures Valid() && State() == Next(old(State()), Step.DeleteSource(org, id), master)
      ensures r == Err(Conflict) <==>
              id in old(conns) && old(conns)[id].org == org && exists k :: k in repos && repos[k].connection == id
    {
      Tenancy.StepKeepsInv(State(), Step.DeleteSource(org, id), master);
      ghost var was := State();
      if id !in conns || conns[id].org != org {
        return Err(NotFound);
      }
      var users := set k | k in repos && repos[k].connection == id;
      if |users| != 0 {
        assert exists k :: k in users;
        return Err(Conflict);
      }
      assert forall k :: k in repos && repos[k].connection == id ==> k in users;
      conns := conns - {id};
      assert State() == Next(was, Step.DeleteSource(org, id), master);
      return Ok(());
    }
  }
}
