/** The route handlers over live tables: rows are written as the handler goes along, and the
    session restores the tables when it raises. */
module AuthorityDb {
  import opened Common
  import opened TokenFormat
  import opened Authority
  import Owners

  lemma OneRowPerPrefix(db: Tables, presented: string, now: int, k: TokenId)
    requires Constraints(db) && k in db.tokens
    requires ParseToken(presented).Some? && ParseToken(presented).value.0 == db.tokens[k].prefix
    ensures AcceptedToken(db, presented, now) == if Opens(db.tokens[k], presented, now) then Some(k) else None
  {
  }

  /** What the dependencies every org route runs first decide. */
  ghost function Entered(db: Tables, cred: Credential, ref: OrgRef, minimum: Role, now: int): Result<Context, nat> {
    match PrincipalOf(db, cred, now)
    case None => Err(UNAUTHORIZED)
    case Some(p) => Gate(Stamped(db, cred, now), p, ref, minimum)
  }

  /** An org route is its dependencies followed by its handler. */
  lemma ServeByRoute(db: Tables, cred: Credential, a: Action, now: int)
    requires !a.CreateOrg?
    ensures Serve(db, cred, a, now)
            == match Entered(db, cred, a.ref, MinimumRole(a), now)
               case Err(code) => (db, Refused(code))
               case Ok(ctx) =>
                 match Handle(Stamped(db, cred, now), ctx, a, now)
                 case Err(code) => (db, Refused(code))
                 case Ok(after) => (after, Done(Shown(a)))
  {
  }

  class Database {
    var users: map<UserId, string>
    var orgs: map<OrgId, string>
    var members: map<(OrgId, UserId), Role>
    var tokens: map<TokenId, TokenRow>

    function State(): Tables
      reads this
    {
      Tables(users, orgs, members, tokens)
    }

    /** The unique constraints the lookups rely on. */
    ghost predicate Unique()
      reads this
    {
      Constraints(State())
    }

    ghost predicate Valid()
      reads this
    {
      Owners.Inv(State())
    }

    constructor ()
      ensures State() == EMPTY && Valid()
    {
      users, orgs, members, tokens := map[], map[], map[], map[];
    }

    method Rollback(saved: Tables)
      modifies this
      ensures State() == saved
    {
      users, orgs, members, tokens := saved.users, saved.orgs, saved.members, saved.tokens;
    }

    /** The query for a user row by its unique e-mail. */
    method FindUser(address: string) returns (user: Option<UserId>)
      requires Unique()
      ensures user == Lookup(users, address)
    {
      if found :| found in users && users[found] == address {
        LookupUnique(users, found);
        return Some(found);
      }
      return None;
    }

    /** The query for an org row by its unique slug. */
    method FindOrg(slug: string) returns (org: Option<OrgId>)
      requires Unique()
      ensures org == Lookup(orgs, slug)
    {
      if found :| found in orgs && orgs[found] == slug {
        LookupUnique(orgs, found);
        return Some(found);
      }
      return None;
    }

    /** `authenticate_api_token`: find by prefix, then check digest, revocation and expiry. */
    method AuthenticateApiToken(presented: string, now: int) returns (p: Option<Principal>)
      requires Unique()
      modifies this`tokens
      ensures State() == Stamped(old(State()), Bearer(presented), now)
      ensures Unique() && p == PrincipalOf(old(State()), Bearer(presented), now)
    {
      var parsed := ParseToken(presented);
      if parsed.None? {
        return None;
      }
      var prefix, secret := parsed.value.0, parsed.value.1;
      if k :| k in tokens && tokens[k].prefix == prefix {
        OneRowPerPrefix(State(), presented, now, k);
        var row := tokens[k];
        if Sha256(secret) != row.digest || row.revokedAt.Some? {
          return None;
        }
        if row.expiresAt.Some? && row.expiresAt.value <= now {
          return None;
        }
        tokens := tokens[k := row.(lastUsedAt := Some(now))];
        return Some(TokenPrincipal(row.createdBy, row.org, row.role));
      }
      return None;
    }

    method RequireUser(cred: Credential, now: int) returns (p: Option<Principal>)
      requires Unique()
      modifies this`tokens
      ensures Unique() && State() == Stamped(old(State()), cred, now)
      ensures p == PrincipalOf(old(State()), cred, now)
    {
      match cred
      case Login(user) => p := Some(UserPrincipal(user));
      case Bearer(text) => p := AuthenticateApiToken(text, now);
    }

    /** `require_org_member` followed by `require_role`. */
    method RequireRole(p: Principal, ref: OrgRef, minimum: Role) returns (ctx: Result<Context, nat>)
      requires Unique()
      ensures ctx == Gate(State(), p, ref, minimum)
    {
      var org: Option<OrgId> := None;
      match ref {
        case ById(id) =>
          if id in orgs { org := Some(id); }
        case BySlug(slug) => org := FindOrg(slug);
      }
      if org.None? {
        return Err(NOT_FOUND);
      }
      var role: Role;
      match p {
        case TokenPrincipal(_, bound, granted) =>
          if bound != org.value { return Err(NOT_FOUND); }
          role := granted;
        case UserPrincipal(user) =>
          if (org.value, user) !in members { return Err(NOT_FOUND); }
          role := members[(org.value, user)];
      }
      ctx := if RoleAtLeast(role, minimum) then Ok(Context(p, org.value, role)) else Err(FORBIDDEN);
    }

    /** The dependencies every org route runs first. */
    method Enter(cred: Credential, ref: OrgRef, minimum: Role, now: int) returns (ctx: Result<Context, nat>)
      requires Unique()
      modifies this`tokens
      ensures Unique() && State() == Stamped(old(State()), cred, now)
      ensures ctx == Entered(old(State()), cred, ref, minimum, now)
    {
      var p := RequireUser(cred, now);
      if p.None? {
        return Err(UNAUTHORIZED);
      }
      ctx := RequireRole(p.value, ref, minimum);
    }

    /** `count_owners`. */
    method CountOwners(org: OrgId) returns (n: nat)
      ensures n == |OwnersOf(members, org)|
      ensures n >= 1 <==> Owners.HasOwner(members, org)
    {
      n := |set k | k in members && k.0 == org && members[k] == Role.Owner|;
      Owners.OwnersOfCounts(members, org);
    }

    method CreateOrg(cred: Credential, slug: string, newOrg: OrgId, now: int) returns (reply: Reply)
      requires Unique()
      modifies this
      ensures (State(), reply) == Serve(old(State()), cred, Action.CreateOrg(slug, newOrg), now)
    {
      var saved := State();
      var p := RequireUser(cred, now);
      if p.None? {
        return Refused(UNAUTHORIZED);
      }
      if slug in orgs.Values {
        Rollback(saved);
        return Refused(CONFLICT);
      }
      if newOrg in orgs {
        Rollback(saved);
        return Refused(INTEGRITY);
      }
      orgs := orgs[newOrg := slug];
      if p.value.user !in users {
        Rollback(saved);
        return Refused(INTEGRITY);
      }
      members := members[(newOrg, p.value.user) := Role.Owner];
      return Done(None);
    }

    method DeleteOrg(cred: Credential, ref: OrgRef, blocked: bool, now: int) returns (reply: Reply)
      requires Unique()
      modifies this
      ensures (State(), reply) == Serve(old(State()), cred, Action.DeleteOrg(ref, blocked), now)
    {
      var saved := State();
      ServeByRoute(saved, cred, Action.DeleteOrg(ref, blocked), now);
      var ctx := Enter(cred, ref, Role.Owner, now);
      if ctx.Err? {
        Rollback(saved);
        return Refused(ctx.error);
      }
      if blocked {
        Rollback(saved);
        return Refused(INTEGRITY);
      }
      var org := ctx.value.org;
      orgs := orgs - {org};
      members := map k | k in members && k.0 != org :: members[k];
      tokens := map k | k in tokens && tokens[k].org != org :: tokens[k];
      return Done(None);
    }

    /** `add_member`: the user row may be inserted before the membership conflict is seen. */
    method AddMember(cred: Credential, ref: OrgRef, email: string, role: Role, newUser: UserId, now: int)
      returns (reply: Reply)
      requires Unique()
      modifies this
      ensures (State(), reply) == Serve(old(State()), cred, Action.AddMember(ref, email, role, newUser), now)
    {
      var saved := State();
      ServeByRoute(saved, cred, Action.AddMember(ref, email, role, newUser), now);
      var ctx := Enter(cred, ref, Admin, now);
      if ctx.Err? {
        Rollback(saved);
        return Refused(ctx.error);
      }
      var org, address := ctx.value.org, NormalizeEmail(email);
      if role == Role.Owner && ctx.value.role != Role.Owner {
        Rollback(saved);
        return Refused(FORBIDDEN);
      }
      var found := FindUser(address);
      var user := if found.Some? then found.value else newUser;
      if found.None? {
        if newUser in users {
          Rollback(saved);
          return Refused(INTEGRITY);
        }
        users := users[newUser := address];
      }
      if (org, user) in members {
        Rollback(saved);
        return Refused(CONFLICT);
      }
      members := members[(org, user) := role];
      return Done(None);
    }

    method UpdateMember(cred: Credential, ref: OrgRef, user: UserId, role: Role, now: int) returns (reply: Reply)
      requires Unique()
      modifies this
      ensures (State(), reply) == Serve(old(State()), cred, Action.UpdateMember(ref, user, role), now)
    {
      var saved := State();
      ServeByRoute(saved, cred, Action.UpdateMember(ref, user, role), now);
      var ctx := Enter(cred, ref, Admin, now);
      if ctx.Err? {
        Rollback(saved);
        return Refused(ctx.error);
      }
      var key := (ctx.value.org, user);
      if key !in members {
        Rollback(saved);
        return Refused(NOT_FOUND);
      }
      if (members[key] == Role.Owner || role == Role.Owner) && ctx.value.role != Role.Owner {
        Rollback(saved);
        return Refused(FORBIDDEN);
      }
      if members[key] == Role.Owner && role != Role.Owner {
        var n := CountOwners(ctx.value.org);
        if n <= 1 {
          Rollback(saved);
          return Refused(CONFLICT);
        }
      }
      members := members[key := role];
      return Done(None);
    }

    method RemoveMember(cred: Credential, ref: OrgRef, user: UserId, now: int) returns (reply: Reply)
      requires Unique()
      modifies this
      ensures (State(), reply) == Serve(old(State()), cred, Action.RemoveMember(ref, user), now)
    {
      var saved := State();
      ServeByRoute(saved, cred, Action.RemoveMember(ref, user), now);
      var ctx := Enter(cred, ref, Admin, now);
      if ctx.Err? {
        Rollback(saved);
        return Refused(ctx.error);
      }
      var key := (ctx.value.org, user);
      if key !in members {
        Rollback(saved);
        return Refused(NOT_FOUND);
      }
      if members[key] == Role.Owner && ctx.value.role != Role.Owner {
        Rollback(saved);
        return Refused(FORBIDDEN);
      }
      if members[key] == Role.Owner {
        var n := CountOwners(ctx.value.org);
        if n <= 1 {
          Rollback(saved);
          return Refused(CONFLICT);
        }
      }
      members := members - {key};
      return Done(None);
    }

    method CreateToken(cred: Credential, ref: OrgRef, role: Role, expiresAt: Option<int>, newToken: TokenId,
                       prefix: MintedPrefix, secret: MintedSecret, now: int)
      returns (reply: Reply)
      requires Unique()
      modifies this
      ensures (State(), reply) ==
              Serve(old(State()), cred, Action.CreateToken(ref, role, expiresAt, newToken, prefix, secret), now)
    {
      var saved := State();
      ServeByRoute(saved, cred, Action.CreateToken(ref, role, expiresAt, newToken, prefix, secret), now);
      var ctx := Enter(cred, ref, Admin, now);
      if ctx.Err? {
        Rollback(saved);
        return Refused(ctx.error);
      }
      if !RoleAtLeast(ctx.value.role, role) {
        Rollback(saved);
        return Refused(FORBIDDEN);
      }
      var creator := ctx.value.principal.user;
      if newToken in tokens || creator !in users || exists k :: k in tokens && tokens[k].prefix == prefix {
        Rollback(saved);
        return Refused(INTEGRITY);
      }
      tokens := tokens[newToken := TokenRow(ctx.value.org, creator, role, prefix, Sha256(secret), expiresAt, None, None)];
      return Done(Some(PrintToken(prefix, secret)));
    }

    method RevokeToken(cred: Credential, ref: OrgRef, token: TokenId, now: int) returns (reply: Reply)
      requires Unique()
      modifies this
      ensures (State(), reply) == Serve(old(State()), cred, Action.RevokeToken(ref, token), now)
    {
      var saved := State();
      ServeByRoute(saved, cred, Action.RevokeToken(ref, token), now);
      var ctx := Enter(cred, ref, Admin, now);
      if ctx.Err? {
        Rollback(saved);
        return Refused(ctx.error);
      }
      if token !in tokens || tokens[token].org != ctx.value.org {
        Rollback(saved);
        return Refused(NOT_FOUND);
      }
      if tokens[token].revokedAt.None? {
        tokens := tokens[token := tokens[token].(revokedAt := Some(now))];
      }
      return Done(None);
    }

    /** `ensure_dev_identity`. */
    method EnsureDevIdentity()
      requires Unique()
      modifies this
      ensures State() == AfterSeedDev(old(State()))
    {
      var saved := State();
      if DEV_USER_ID !in users {
        if DEV_EMAIL in users.Values {
          return;
        }
        users := users[DEV_USER_ID := DEV_EMAIL];
      }
      var found := FindOrg(DEV_ORG_SLUG);
      var org := if found.Some? then found.value else DEV_ORG_ID;
      if found.None? {
        if DEV_ORG_ID in orgs {
          Rollback(saved);
          return;
        }
        orgs := orgs[DEV_ORG_ID := DEV_ORG_SLUG];
      }
      if (org, DEV_USER_ID) !in members {
        members := members[(org, DEV_USER_ID) := Role.Owner];
      }
    }

    /** The bootstrap command line. */
    method Bootstrap(slug: string, email: string, newUser: UserId, newOrg: OrgId)
      requires Unique()
      modifies this
      ensures State() == AfterBootstrap(old(State()), slug, email, newUser, newOrg)
    {
      var saved, address := State(), NormalizeEmail(email);
      var found := FindUser(address);
      var user := if found.Some? then found.value else newUser;
      if found.None? {
        if newUser in users {
          return;
        }
        users := users[newUser := address];
      }
      var foundOrg := FindOrg(slug);
      var org := if foundOrg.Some? then foundOrg.value else newOrg;
      if foundOrg.None? {
        if newOrg in orgs {
          Rollback(saved);
          return;
        }
        orgs := orgs[newOrg := slug];
      }
      if (org, user) !in members {
        members := members[(org, user) := Role.Owner];
      }
    }

    /** Any route that only reads. */
    method ReadOrg(cred: Credential, ref: OrgRef, now: int) returns (reply: Reply)
      requires Unique()
      modifies this
      ensures (State(), reply) == Serve(old(State()), cred, Action.ReadOrg(ref), now)
    {
      var saved := State();
      ServeByRoute(saved, cred, Action.ReadOrg(ref), now);
      var ctx := Enter(cred, ref, Viewer, now);
      if ctx.Err? {
        Rollback(saved);
        return Refused(ctx.error);
      }
      return Done(None);
    }

    /** Serves one request by its route; no request, accepted or refused, breaks the tables. */
    method Route(cred: Credential, action: Action, now: int) returns (reply: Reply)
      requires Valid()
      modifies this
      ensures Valid() && (State(), reply) == Serve(old(State()), cred, action, now)
    {
      Owners.ServeInv(State(), cred, action, now);
      match action
      case CreateOrg(slug, newOrg) => reply := CreateOrg(cred, slug, newOrg, now);
      case DeleteOrg(ref, blocked) => reply := DeleteOrg(cred, ref, blocked, now);
      case AddMember(ref, email, role, newUser) => reply := AddMember(cred, ref, email, role, newUser, now);
      case UpdateMember(ref, user, role) => reply := UpdateMember(cred, ref, user, role, now);
      case RemoveMember(ref, user) => reply := RemoveMember(cred, ref, user, now);
      case CreateToken(ref, role, expiresAt, newToken, prefix, secret) =>
        reply := CreateToken(cred, ref, role, expiresAt, newToken, prefix, secret, now);
      case RevokeToken(ref, token) => reply := RevokeToken(cred, ref, token, now);
      case ReadOrg(ref) => reply := ReadOrg(cred, ref, now);
    }
  }
}
