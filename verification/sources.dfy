/** Source connections, repositories and scans: the tables and the transactions that write them. */
module Sources {
  import opened Common
  import opened Text

  type OrgId = nat
  type ConnId = nat
  type RepoId = nat
  type ScanId = nat

  datatype Provider = Github | Gitlab | AzureDevops

  datatype CredentialType = NoCredential | Pat | OAuth | App

  /** A URL with what `urlparse` makes of it; parsing may raise. */
  datatype Url = Url(text: string, parsed: Parsed)
  datatype Parsed = Parsed(hostname: Option<string>, path: string) | Unparsable

  /** An ideal Fernet token: it opens under the key that made it and no other. */
  datatype Blob = Fernet(master: string, plaintext: string)

  const CURRENT_KID := "v1"
  const DEFAULT_PREFIX := "default-"

  datatype Conn = Conn(
    org: OrgId, name: string, provider: Provider, credentialType: CredentialType, baseUrl: Option<Url>,
    credentialBlob: Option<Blob>, webhookBlob: Option<Blob>, kid: Option<string>)

  datatype Repo = Repo(org: OrgId, connection: ConnId, remoteId: string, fullName: string, cloneUrl: string)

  datatype Scan = Scan(org: OrgId, repo: RepoId, requestedRef: string)

  datatype Tables = Tables(orgs: set<OrgId>, conns: map<ConnId, Conn>, repos: map<RepoId, Repo>, scans: map<ScanId, Scan>)

  const EMPTY := Tables({}, map[], map[], map[])

  /** `UniqueViolation` is a unique or foreign-key constraint; `KeyClash` two equal random keys. */
  datatype Error = NotFound | Ambiguous | ValueError | Conflict | Invalid | UniqueViolation | KeyClash | Blocked

  // ---- hosts and names ------------------------------------------------------

  function ProviderName(p: Provider): string {
    match p
    case Github => "github"
    case Gitlab => "gitlab"
    case AzureDevops => "azure_devops"
  }

  function CloudHost(p: Provider): string {
    match p
    case Github => "github.com"
    case Gitlab => "gitlab.com"
    case AzureDevops => "dev.azure.com"
  }

  function ProviderForHost(host: string): Provider {
    var h := Lower(host);
    if Contains(h, "gitlab") then Gitlab
    else if Contains(h, "dev.azure.com") || Contains(h, "visualstudio.com") then AzureDevops
    else Github
  }

  function NormalizeHost(host: Option<string>): string {
    if host.Some? then Strip(Lower(host.value)) else ""
  }

  /** The host a connection serves; None when its base URL does not parse. */
  function ConnectionHost(c: Conn): Option<string> {
    if c.baseUrl.Some? && c.baseUrl.value.text != "" then
      match c.baseUrl.value.parsed
      case Unparsable => None
      case Parsed(hostname, _) => Some(NormalizeHost(hostname))
    else Some(CloudHost(c.provider))
  }

  function DropLeadingSlashes(s: string): string {
    if s != "" && s[0] == '/' then DropLeadingSlashes(s[1..]) else s
  }

  function DropTrailingSlashes(s: string): string {
    if s != "" && s[|s| - 1] == '/' then DropTrailingSlashes(s[..|s| - 1]) else s
  }

  /** `_derive_full_name`. */
  function FullName(url: Url): string
    requires url.parsed.Parsed?
  {
    var path := DropTrailingSlashes(DropLeadingSlashes(url.parsed.path));
    var name := if EndsWith(path, ".git") then path[..|path| - 4] else path;
    if name != "" then name else url.text
  }

  predicate NamedDefault(c: Conn) {
    DEFAULT_PREFIX <= c.name
  }

  function DefaultName(p: Provider): string {
    DEFAULT_PREFIX + ProviderName(p)
  }

  /** The anonymous fallback row of a provider. */
  function FallbackConn(org: OrgId, p: Provider): Conn {
    Conn(org, DefaultName(p), p, NoCredential, None, None, None, None)
  }

  // ---- constraints ----------------------------------------------------------

  ghost predicate UniqueNames(conns: map<ConnId, Conn>) {
    forall i, j :: i in conns && j in conns && conns[i].org == conns[j].org && conns[i].name == conns[j].name ==> i == j
  }

  ghost predicate UniqueFullNames(repos: map<RepoId, Repo>) {
    forall i, j :: i in repos && j in repos && repos[i].org == repos[j].org && repos[i].fullName == repos[j].fullName ==> i == j
  }

  ghost predicate UniqueRemotes(repos: map<RepoId, Repo>) {
    forall i, j | i in repos && j in repos ::
      repos[i].connection == repos[j].connection && repos[i].remoteId == repos[j].remoteId ==> i == j
  }

  ghost function ConnByName(conns: map<ConnId, Conn>, org: OrgId, name: string): (r: Option<ConnId>)
    ensures r.Some? ==> r.value in conns && conns[r.value].org == org && conns[r.value].name == name
    ensures r.None? ==> forall i :: i in conns ==> !(conns[i].org == org && conns[i].name == name)
  {
    if i :| i in conns && conns[i].org == org && conns[i].name == name then
      var i :| i in conns && conns[i].org == org && conns[i].name == name;
      Some(i)
    else None
  }

  ghost function RepoByName(repos: map<RepoId, Repo>, org: OrgId, fullName: string): (r: Option<RepoId>)
    ensures r.Some? ==> r.value in repos && repos[r.value].org == org && repos[r.value].fullName == fullName
    ensures r.None? ==> forall i :: i in repos ==> !(repos[i].org == org && repos[i].fullName == fullName)
  {
    if i :| i in repos && repos[i].org == org && repos[i].fullName == fullName then
      var i :| i in repos && repos[i].org == org && repos[i].fullName == fullName;
      Some(i)
    else None
  }

  /** The database's own checks on a new row. */
  ghost function InsertConn(t: Tables, id: ConnId, c: Conn): Result<Tables, Error> {
    if c.org !in t.orgs || ConnByName(t.conns, c.org, c.name).Some? then Err(UniqueViolation)
    else if id in t.conns then Err(KeyClash)
    else Ok(t.(conns := t.conns[id := c]))
  }

  ghost function InsertRepo(t: Tables, id: RepoId, r: Repo): Result<Tables, Error> {
    if r.org !in t.orgs || r.connection !in t.conns || RepoByName(t.repos, r.org, r.fullName).Some?
       || (exists i :: i in t.repos && t.repos[i].connection == r.connection && t.repos[i].remoteId == r.remoteId)
    then Err(UniqueViolation)
    else if id in t.repos then Err(KeyClash)
    else Ok(t.(repos := t.repos[id := r]))
  }

  // ---- resolution -----------------------------------------------------------

  /** `rows` is the org's connections in whatever order the query returned them. */
  ghost predicate Lists(t: Tables, org: OrgId, rows: seq<ConnId>) {
    && (forall i, j :: 0 <= i < j < |rows| ==> rows[i] != rows[j])
    && (forall id :: id in rows <==> id in t.conns && t.conns[id].org == org)
  }

  function Matching(conns: map<ConnId, Conn>, rows: seq<ConnId>, host: string): (r: seq<ConnId>)
    requires forall id :: id in rows ==> id in conns
    ensures forall id :: id in r <==> id in rows && host != "" && ConnectionHost(conns[id]) == Some(host)
  {
    if rows == [] then []
    else
      var rest := Matching(conns, rows[1..], host);
      if host != "" && ConnectionHost(conns[rows[0]]) == Some(host) then [rows[0]] + rest else rest
  }

  function Real(conns: map<ConnId, Conn>, matches: seq<ConnId>): (r: seq<ConnId>)
    requires forall id :: id in matches ==> id in conns
    ensures forall id :: id in r <==> id in matches && !NamedDefault(conns[id])
  {
    if matches == [] then []
    else
      var rest := Real(conns, matches[1..]);
      if !NamedDefault(conns[matches[0]]) then [matches[0]] + rest else rest
  }

  /** The connection a clone host selects; None sends it to the anonymous fallback. */
  function Select(conns: map<ConnId, Conn>, rows: seq<ConnId>, host: string): Result<Option<ConnId>, Error>
    requires forall id :: id in rows ==> id in conns
  {
    if exists i :: 0 <= i < |rows| && ConnectionHost(conns[rows[i]]).None? then Err(ValueError)
    else
      var matches := Matching(conns, rows, host);
      var chosen := Real(conns, matches);
      if |chosen| == 1 then Ok(Some(chosen[0]))
      else if |chosen| > 1 then Err(Ambiguous)
      else if |matches| == 1 then Ok(Some(matches[0]))
      else Ok(None)
  }

  ghost function DefaultSource(t: Tables, org: OrgId, p: Provider, newConn: ConnId): Result<(Tables, ConnId), Error> {
    match ConnByName(t.conns, org, DefaultName(p))
    case Some(id) => Ok((t, id))
    case None =>
      match InsertConn(t, newConn, FallbackConn(org, p))
      case Ok(after) => Ok((after, newConn))
      case Err(e) => Err(e)
  }

  ghost function ResolveSource(t: Tables, org: OrgId, rows: seq<ConnId>, url: Url, explicitId: Option<ConnId>,
                               newConn: ConnId): Result<(Tables, ConnId), Error>
    requires Lists(t, org, rows)
  {
    if explicitId.Some? then
      if explicitId.value in t.conns && t.conns[explicitId.value].org == org then Ok((t, explicitId.value)) else Err(NotFound)
    else if url.parsed.Unparsable? then Err(ValueError)
    else
      var host := NormalizeHost(url.parsed.hostname);
      match Select(t.conns, rows, host)
      case Err(e) => Err(e)
      case Ok(Some(id)) => Ok((t, id))
      case Ok(None) => DefaultSource(t, org, ProviderForHost(host), newConn)
  }

  ghost function ResolveRepo(t: Tables, org: OrgId, conn: ConnId, url: Url, newRepo: RepoId): Result<(Tables, RepoId), Error> {
    if url.parsed.Unparsable? then Err(ValueError)
    else
      match RepoByName(t.repos, org, FullName(url))
      case Some(id) => Ok((t, id))
      case None =>
        match InsertRepo(t, newRepo, Repo(org, conn, FullName(url), FullName(url), url.text))
        case Ok(after) => Ok((after, newRepo))
        case Err(e) => Err(e)
  }

  datatype Target = Target(conn: ConnId, repo: RepoId)

  /** A request to resolve; the keys are what the database would draw for rows it has to insert. */
  datatype Query = Query(org: OrgId, url: Url, explicitId: Option<ConnId>, newConn: ConnId, newRepo: RepoId)

  ghost function ResolveTarget(t: Tables, rows: seq<ConnId>, q: Query): Result<(Tables, Target), Error>
    requires Lists(t, q.org, rows)
  {
    if q.org !in t.orgs then Err(NotFound)
    else
      match ResolveSource(t, q.org, rows, q.url, q.explicitId, q.newConn)
      case Err(e) => Err(e)
      case Ok((withConn, conn)) =>
        match ResolveRepo(withConn, q.org, conn, q.url, q.newRepo)
        case Err(e) => Err(e)
        case Ok((after, repo)) => Ok((after, Target(conn, repo)))
  }

  // ---- the other transactions ----------------------------------------------

  datatype NewSource = NewSource(
    name: string, provider: Provider, credentialType: CredentialType, credential: Option<string>, baseUrl: Option<Url>)

  function Given(credential: Option<string>): bool {
    credential.Some? && credential.value != ""
  }

  /** The request schema: a name, and a credential exactly when the type calls for one. */
  predicate WellFormed(s: NewSource) {
    s.name != "" && (s.credentialType == NoCredential <==> !Given(s.credential))
  }

  function SourceRow(org: OrgId, s: NewSource, webhookSecret: string, master: string): Conn {
    Conn(org, s.name, s.provider, s.credentialType, s.baseUrl,
         if s.credentialType != NoCredential && Given(s.credential) then Some(Fernet(master, s.credential.value)) else None,
         Some(Fernet(master, webhookSecret)), Some(CURRENT_KID))
  }

  ghost function AfterCreateSource(t: Tables, org: OrgId, s: NewSource, newConn: ConnId, webhookSecret: string,
                                   master: string): Result<Tables, Error>
  {
    if !WellFormed(s) then Err(Invalid)
    else if ConnByName(t.conns, org, s.name).Some? then Err(Conflict)
    else InsertConn(t, newConn, SourceRow(org, s, webhookSecret, master))
  }

  ghost function AfterRotate(t: Tables, org: OrgId, id: ConnId, webhookSecret: string, master: string): Result<Tables, Error> {
    if id !in t.conns || t.conns[id].org != org then Err(NotFound)
    else Ok(t.(conns := t.conns[id := t.conns[id].(webhookBlob := Some(Fernet(master, webhookSecret)), kid := Some(CURRENT_KID))]))
  }

  ghost function AfterDeleteSource(t: Tables, org: OrgId, id: ConnId): Result<Tables, Error> {
    if id !in t.conns || t.conns[id].org != org then Err(NotFound)
    else if exists r :: r in t.repos && t.repos[r].connection == id then Err(Conflict)
    else Ok(t.(conns := t.conns - {id}))
  }

  ghost function AfterDeleteOrg(t: Tables, org: OrgId, blocked: bool): Result<Tables, Error> {
    if org !in t.orgs then Err(NotFound)
    else if blocked then Err(Blocked)
    else Ok(Tables(
              t.orgs - {org},
              map i | i in t.conns && t.conns[i].org != org :: t.conns[i],
              map i | i in t.repos && t.repos[i].org != org :: t.repos[i],
              map i | i in t.scans && t.scans[i].org != org :: t.scans[i]))
  }

  ghost function AfterCreateScan(t: Tables, rows: seq<ConnId>, q: Query, newScan: ScanId, requestedRef: string): Result<Tables, Error>
    requires Lists(t, q.org, rows)
  {
    match ResolveTarget(t, rows, q)
    case Err(e) => Err(e)
    case Ok((after, target)) =>
      if newScan in after.scans then Err(KeyClash)
      else Ok(after.(scans := after.scans[newScan := Scan(after.repos[target.repo].org, target.repo, requestedRef)]))
  }

  datatype Step =
    | CreateOrg(org: OrgId)
    | DeleteOrg(org: OrgId, blocked: bool)
    | CreateSource(org: OrgId, source: NewSource, newConn: ConnId, webhookSecret: string)
    | Rotate(org: OrgId, id: ConnId, webhookSecret: string)
    | DeleteSource(org: OrgId, id: ConnId)
    | CreateScan(query: Query, rows: seq<ConnId>, newScan: ScanId, requestedRef: string)

  /** The step's query results are ones the database could return. */
  ghost predicate Possible(t: Tables, step: Step) {
    step.CreateScan? ==> Lists(t, step.query.org, step.rows)
  }

  ghost function Attempt(t: Tables, step: Step, master: string): Result<Tables, Error>
    requires Possible(t, step)
  {
    match step
    case CreateOrg(org) => if org in t.orgs then Err(KeyClash) else Ok(t.(orgs := t.orgs + {org}))
    case DeleteOrg(org, blocked) => AfterDeleteOrg(t, org, blocked)
    case CreateSource(org, source, newConn, webhookSecret) => AfterCreateSource(t, org, source, newConn, webhookSecret, master)
    case Rotate(org, id, webhookSecret) => AfterRotate(t, org, id, webhookSecret, master)
    case DeleteSource(org, id) => AfterDeleteSource(t, org, id)
    case CreateScan(query, rows, newScan, requestedRef) => AfterCreateScan(t, rows, query, newScan, requestedRef)
  }

  /** A transaction that fails leaves every table as it was. */
  ghost function Next(t: Tables, step: Step, master: string): Tables
    requires Possible(t, step)
  {
    var r := Attempt(t, step, master);
    if r.Ok? then r.value else t
  }

  ghost predicate IsRun(t: Tables, steps: seq<Step>, master: string)
    decreases |steps|
  {
    steps == [] || (Possible(t, steps[0]) && IsRun(Next(t, steps[0], master), steps[1..], master))
  }

  ghost function After(t: Tables, steps: seq<Step>, master: string): Tables
    requires IsRun(t, steps, master)
    decreases |steps|
  {
    if steps == [] then t else After(Next(t, steps[0], master), steps[1..], master)
  }
}
