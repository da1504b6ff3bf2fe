/** Organisations, memberships and API tokens: the tables, what one request does to them,
    and the route handlers that do it in place. */
module Authority {
  import opened Common
  import opened TokenFormat
  import Text

  datatype Role = Viewer | Member | Admin | Owner

  function Rank(role: Role): nat {
    match role
    case Viewer => 0
    case Member => 1
    case Admin => 2
    case Owner => 3
  }

  predicate RoleAtLeast(role: Role, minimum: Role) {
    Rank(role) >= Rank(minimum)
  }

  type UserId = nat
  type OrgId = nat
  type TokenId = nat

  const DEV_USER_ID: UserId := 0xDE
  const DEV_ORG_ID: OrgId := 0x06
  const DEV_ORG_SLUG := "default"
  const DEV_EMAIL := "dev@ippon.local"

  datatype TokenRow = TokenRow(
    org: OrgId, createdBy: UserId, role: Role, prefix: string, digest: Digest,
    expiresAt: Option<int>, revokedAt: Option<int>, lastUsedAt: Option<int>)

  /** users: id to e-mail; orgs: id to slug; members: (org, user) to role. */
  datatype Tables = Tables(
    users: map<UserId, string>, orgs: map<OrgId, string>,
    members: map<(OrgId, UserId), Role>, tokens: map<TokenId, TokenRow>)

  const EMPTY := Tables(map[], map[], map[], map[])

  datatype Principal = UserPrincipal(user: UserId) | TokenPrincipal(user: UserId, org: OrgId, role: Role)

  /** What a caller presents: a log-in the server trusts, or a bearer text. */
  datatype Credential = Login(user: UserId) | Bearer(text: string)

  datatype OrgRef = ById(id: OrgId) | BySlug(slug: string)

  datatype Context = Context(principal: Principal, org: OrgId, role: Role)

  datatype Action =
    | CreateOrg(slug: string, newOrg: OrgId)
    | DeleteOrg(ref: OrgRef, blocked: bool)
    | AddMember(ref: OrgRef, email: string, role: Role, newUser: UserId)
    | UpdateMember(ref: OrgRef, user: UserId, role: Role)
    | RemoveMember(ref: OrgRef, user: UserId)
    | CreateToken(ref: OrgRef, role: Role, expiresAt: Option<int>, newToken: TokenId,
                  prefix: MintedPrefix, secret: MintedSecret)
    | RevokeToken(ref: OrgRef, token: TokenId)
    | ReadOrg(ref: OrgRef)

  /** `text` is the token a successful mint shows once. */
  datatype Reply = Done(text: Option<string>) | Refused(code: nat)

  const UNAUTHORIZED := 401
  const FORBIDDEN := 403
  const NOT_FOUND := 404
  const CONFLICT := 409
  const INTEGRITY := 500

  /** The tables' unique constraints. */
  ghost predicate Constraints(db: Tables) {
    && Injective(db.users)
    && Injective(db.orgs)
    && UniquePrefixes(db.tokens)
  }

  ghost predicate UniquePrefixes(tokens: map<TokenId, TokenRow>) {
    forall j, k :: j in tokens && k in tokens && tokens[j].prefix == tokens[k].prefix ==> j == k
  }

  ghost predicate PrefixTaken(tokens: map<TokenId, TokenRow>, prefix: string) {
    exists k :: k in tokens && tokens[k].prefix == prefix
  }

  // ---- authentication and authorization ------------------------------------

  /** The row `authenticate_api_token` accepts for a presented text. */
  ghost predicate Opens(row: TokenRow, presented: string, now: int) {
    && ParseToken(presented) == Some((row.prefix, row.digest.preimage))
    && row.revokedAt.None?
    && (row.expiresAt.Some? ==> row.expiresAt.value > now)
  }

  ghost function AcceptedToken(db: Tables, presented: string, now: int): (r: Option<TokenId>)
    ensures r.Some? ==> r.value in db.tokens && Opens(db.tokens[r.value], presented, now)
    ensures r.None? ==> forall k :: k in db.tokens ==> !Opens(db.tokens[k], presented, now)
  {
    if k :| k in db.tokens && Opens(db.tokens[k], presented, now) then
      var k :| k in db.tokens && Opens(db.tokens[k], presented, now);
      Some(k)
    else
      None
  }

  ghost function PrincipalOf(db: Tables, cred: Credential, now: int): Option<Principal> {
    match cred
    case Login(user) => Some(UserPrincipal(user))
    case Bearer(text) =>
      match AcceptedToken(db, text, now)
      case None => None
      case Some(k) => Some(TokenPrincipal(db.tokens[k].createdBy, db.tokens[k].org, db.tokens[k].role))
  }

  /** Accepting a token stamps when it was last used. */
  ghost function Stamped(db: Tables, cred: Credential, now: int): Tables {
    if cred.Login? || AcceptedToken(db, cred.text, now).None? then db
    else
      var k := AcceptedToken(db, cred.text, now).value;
      db.(tokens := db.tokens[k := db.tokens[k].(lastUsedAt := Some(now))])
  }

  ghost function ResolveOrg(db: Tables, ref: OrgRef): Option<OrgId> {
    match ref
    case ById(id) => if id in db.orgs then Some(id) else None
    case BySlug(slug) => Lookup(db.orgs, slug)
  }

  ghost function Authorize(db: Tables, p: Principal, ref: OrgRef): Result<Context, nat> {
    match ResolveOrg(db, ref)
    case None => Err(NOT_FOUND)
    case Some(org) =>
      match p
      case TokenPrincipal(_, bound, role) => if bound == org then Ok(Context(p, org, role)) else Err(NOT_FOUND)
      case UserPrincipal(user) =>
        if (org, user) in db.members then Ok(Context(p, org, db.members[(org, user)])) else Err(NOT_FOUND)
  }

  ghost function Gate(db: Tables, p: Principal, ref: OrgRef, minimum: Role): Result<Context, nat> {
    match Authorize(db, p, ref)
    case Err(code) => Err(code)
    case Ok(ctx) => if RoleAtLeast(ctx.role, minimum) then Ok(ctx) else Err(FORBIDDEN)
  }

  // ---- handlers, as state transformers -------------------------------------

  function OwnersOf(members: map<(OrgId, UserId), Role>, org: OrgId): set<(OrgId, UserId)> {
    set k | k in members && k.0 == org && members[k] == Owner
  }

  function NormalizeEmail(email: string): string {
    Text.Lower(Text.Strip(email))
  }

  ghost function AfterCreateOrg(db: Tables, p: Principal, slug: string, newOrg: OrgId): Result<Tables, nat> {
    if slug in db.orgs.Values then Err(CONFLICT)
    else if newOrg in db.orgs || p.user !in db.users then Err(INTEGRITY)
    else Ok(db.(orgs := db.orgs[newOrg := slug], members := db.members[(newOrg, p.user) := Owner]))
  }

  ghost function AfterDeleteOrg(db: Tables, ctx: Context, blocked: bool): Result<Tables, nat> {
    if blocked then Err(INTEGRITY)
    else Ok(Tables(
              db.users,
              db.orgs - {ctx.org},
              map k | k in db.members && k.0 != ctx.org :: db.members[k],
              map k | k in db.tokens && db.tokens[k].org != ctx.org :: db.tokens[k]))
  }

  ghost function AfterAddMember(db: Tables, ctx: Context, email: string, role: Role, newUser: UserId): Result<Tables, nat> {
    if role == Owner && ctx.role != Owner then Err(FORBIDDEN)
    else
      match Lookup(db.users, NormalizeEmail(email))
      case Some(user) =>
        if (ctx.org, user) in db.members then Err(CONFLICT)
        else Ok(db.(members := db.members[(ctx.org, user) := role]))
      case None =>
        if newUser in db.users then Err(INTEGRITY)
        else if (ctx.org, newUser) in db.members then Err(CONFLICT)
        else Ok(db.(users := db.users[newUser := NormalizeEmail(email)],
                    members := db.members[(ctx.org, newUser) := role]))
  }

  ghost function AfterUpdateMember(db: Tables, ctx: Context, user: UserId, role: Role): Result<Tables, nat> {
    if (ctx.org, user) !in db.members then Err(NOT_FOUND)
    else
      var was := db.members[(ctx.org, user)];
      if (was == Owner || role == Owner) && ctx.role != Owner then Err(FORBIDDEN)
      else if was == Owner && role != Owner && |OwnersOf(db.members, ctx.org)| <= 1 then Err(CONFLICT)
      else Ok(db.(members := db.members[(ctx.org, user) := role]))
  }

  ghost function AfterRemoveMember(db: Tables, ctx: Context, user: UserId): Result<Tables, nat> {
    if (ctx.org, user) !in db.members then Err(NOT_FOUND)
    else
      var was := db.members[(ctx.org, user)];
      if was == Owner && ctx.role != Owner then Err(FORBIDDEN)
      else if was == Owner && |OwnersOf(db.members, ctx.org)| <= 1 then Err(CONFLICT)
      else Ok(db.(members := db.members - {(ctx.org, user)}))
  }

  ghost function AfterCreateToken(db: Tables, ctx: Context, role: Role, expiresAt: Option<int>,
                                  newToken: TokenId, prefix: MintedPrefix, secret: MintedSecret): Result<Tables, nat> {
    if !RoleAtLeast(ctx.role, role) then Err(FORBIDDEN)
    else if newToken in db.tokens || PrefixTaken(db.tokens, prefix) || ctx.principal.user !in db.users then Err(INTEGRITY)
    else
      var row := TokenRow(ctx.org, ctx.principal.user, role, prefix, Sha256(secret), expiresAt, None, None);
      Ok(db.(tokens := db.tokens[newToken := row]))
  }

  ghost function AfterRevokeToken(db: Tables, ctx: Context, token: TokenId, now: int): Result<Tables, nat> {
    if token !in db.tokens || db.tokens[token].org != ctx.org then Err(NOT_FOUND)
    else if db.tokens[token].revokedAt.Some? then Ok(db)
    else Ok(db.(tokens := db.tokens[token := db.tokens[token].(revokedAt := Some(now))]))
  }

  function MinimumRole(a: Action): Role {
    match a
    case CreateOrg(_, _) => Viewer
    case DeleteOrg(_, _) => Owner
    case AddMember(_, _, _, _) => Admin
    case UpdateMember(_, _, _) => Admin
    case RemoveMember(_, _) => Admin
    case CreateToken(_, _, _, _, _, _) => Admin
    case RevokeToken(_, _) => Admin
    case ReadOrg(_) => Viewer
  }

  ghost function Handle(db: Tables, ctx: Context, a: Action, now: int): Result<Tables, nat>
    requires !a.CreateOrg?
  {
    match a
    case DeleteOrg(_, blocked) => AfterDeleteOrg(db, ctx, blocked)
    case AddMember(_, email, role, newUser) => AfterAddMember(db, ctx, email, role, newUser)
    case UpdateMember(_, user, role) => AfterUpdateMember(db, ctx, user, role)
    case RemoveMember(_, user) => AfterRemoveMember(db, ctx, user)
    case CreateToken(_, role, expiresAt, newToken, prefix, secret) =>
      AfterCreateToken(db, ctx, role, expiresAt, newToken, prefix, secret)
    case RevokeToken(_, token) => AfterRevokeToken(db, ctx, token, now)
    case ReadOrg(_) => Ok(db)
  }

  ghost function Perform(db: Tables, p: Principal, a: Action, now: int): Result<Tables, nat> {
    if a.CreateOrg? then AfterCreateOrg(db, p, a.slug, a.newOrg)
    else
      match Gate(db, p, a.ref, MinimumRole(a))
      case Err(code) => Err(code)
      case Ok(ctx) => Handle(db, ctx, a, now)
  }

  function Shown(a: Action): Option<string> {
    if a.CreateToken? then Some(PrintToken(a.prefix, a.secret)) else None
  }

  /** One request is one transaction: it commits everything, or leaves every table as it was. */
  ghost function Serve(db: Tables, cred: Credential, a: Action, now: int): (Tables, Reply) {
    match PrincipalOf(db, cred, now)
    case None => (db, Refused(UNAUTHORIZED))
    case Some(p) =>
      match Perform(Stamped(db, cred, now), p, a, now)
      case Err(code) => (db, Refused(code))
      case Ok(after) => (after, Done(Shown(a)))
  }

  // ---- seeding paths --------------------------------------------------------

  /** Find-or-create an org by slug; None is a primary-key collision. */
  ghost function SeedOrg(db: Tables, slug: string, newOrg: OrgId): Option<(Tables, OrgId)> {
    match Lookup(db.orgs, slug)
    case Some(org) => Some((db, org))
    case None => if newOrg in db.orgs then None else Some((db.(orgs := db.orgs[newOrg := slug]), newOrg))
  }

  ghost function SeedOwner(db: Tables, org: OrgId, user: UserId): Tables {
    if (org, user) in db.members then db else db.(members := db.members[(org, user) := Owner])
  }

  ghost function AfterSeedDev(db: Tables): Tables {
    if DEV_USER_ID !in db.users && DEV_EMAIL in db.users.Values then db
    else
      var seeded := if DEV_USER_ID in db.users then db else db.(users := db.users[DEV_USER_ID := DEV_EMAIL]);
      match SeedOrg(seeded, DEV_ORG_SLUG, DEV_ORG_ID)
      case None => db
      case Some((withOrg, org)) => SeedOwner(withOrg, org, DEV_USER_ID)
  }

  ghost function AfterBootstrap(db: Tables, slug: string, email: string, newUser: UserId, newOrg: OrgId): Tables {
    var address := NormalizeEmail(email);
    var found := Lookup(db.users, address);
    if found.None? && newUser in db.users then db
    else
      var user := if found.Some? then found.value else newUser;
      var seeded := if found.Some? then db else db.(users := db.users[newUser := address]);
      match SeedOrg(seeded, slug, newOrg)
      case None => db
      case Some((withOrg, org)) => SeedOwner(withOrg, org, user)
  }

  /** Everything that ever writes these tables. */
  datatype Step =
    | Request(cred: Credential, action: Action, now: int)
    | SeedDev
    | Bootstrap(slug: string, email: string, newUser: UserId, newOrg: OrgId)

  ghost function Apply(db: Tables, step: Step): Tables {
    match step
    case Request(cred, action, now) => Serve(db, cred, action, now).0
    case SeedDev => AfterSeedDev(db)
    case Bootstrap(slug, email, newUser, newOrg) => AfterBootstrap(db, slug, email, newUser, newOrg)
  }

  ghost function Run(db: Tables, steps: seq<Step>): Tables
    decreases |steps|
  {
    if steps == [] then db else Run(Apply(db, steps[0]), steps[1..])
  }
}
