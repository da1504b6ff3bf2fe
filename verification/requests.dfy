/** What each request means, said of the tables alone: exactly when it is accepted, in terms of the
    caller's role, and everything an accepted one changes. */
module Requests {
  import opened Common
  import opened TokenFormat
  import opened Authority
  import opened Owners
  import AuthorityDb
  import Text

  /** The path names the org, by its id or by its slug. */
  predicate Names(db: Tables, ref: OrgRef, org: OrgId) {
    org in db.orgs
    && match ref
       case ById(id) => id == org
       case BySlug(slug) => db.orgs[org] == slug
  }

  /** The token's text is the one printed for the row, and it is neither revoked nor expired. */
  predicate Shows(row: TokenRow, text: string, now: int) {
    && row.prefix != "" && row.digest.preimage != "" && '_' !in row.prefix
    && text == "ippon_pat_" + row.prefix + "_" + row.digest.preimage
    && row.revokedAt.None? && (row.expiresAt.None? || now < row.expiresAt.value)
  }

  /** The caller is this user, by log-in or by a token that user created. */
  ghost predicate CallerIs(db: Tables, cred: Credential, now: int, user: UserId) {
    match cred
    case Login(u) => u == user
    case Bearer(text) => exists k :: k in db.tokens && Shows(db.tokens[k], text, now) && db.tokens[k].createdBy == user
  }

  /** The caller's role in the org: the membership's, or the token's in the one org it is bound to. */
  ghost predicate HasRole(db: Tables, cred: Credential, now: int, org: OrgId, role: Role) {
    match cred
    case Login(u) => (org, u) in db.members && db.members[(org, u)] == role
    case Bearer(text) =>
      exists k :: k in db.tokens && Shows(db.tokens[k], text, now) && db.tokens[k].org == org && db.tokens[k].role == role
  }

  ghost predicate Administers(db: Tables, cred: Credential, now: int, org: OrgId) {
    HasRole(db, cred, now, org, Admin) || HasRole(db, cred, now, org, Owner)
  }

  /** Somebody else owns the org too. */
  ghost predicate OwnedWithout(db: Tables, org: OrgId, user: UserId) {
    exists u :: u != user && (org, u) in db.members && db.members[(org, u)] == Owner
  }

  predicate SameGrants(before: map<TokenId, TokenRow>, after: map<TokenId, TokenRow>) {
    && before.Keys == after.Keys
    && forall k :: k in before ==> before[k].(lastUsedAt := None) == after[k].(lastUsedAt := None)
  }

  // ---- who the caller is ----------------------------------------------------

  lemma OpensIsShows(row: TokenRow, text: string, now: int)
    ensures Opens(row, text, now) <==> Shows(row, text, now)
  {
    if Opens(row, text, now) {
      PrintParsedToken(text);
    }
    if Shows(row, text, now) {
      ParsePrintedToken(row.prefix, row.digest.preimage);
    }
  }

  /** With unique prefixes a text is accepted for the one row it shows. */
  lemma AcceptedShows(db: Tables, text: string, now: int, k: TokenId)
    requires Constraints(db)
    ensures AcceptedToken(db, text, now) == Some(k) <==> k in db.tokens && Shows(db.tokens[k], text, now)
  {
    var accepted := AcceptedToken(db, text, now);
    if accepted.Some? {
      OpensIsShows(db.tokens[accepted.value], text, now);
    }
    if k in db.tokens {
      OpensIsShows(db.tokens[k], text, now);
      if Opens(db.tokens[k], text, now) {
        assert db.tokens[accepted.value].prefix == db.tokens[k].prefix;
      }
    }
  }

  lemma PrincipalIsCaller(db: Tables, cred: Credential, now: int)
    requires Constraints(db)
    ensures var p := PrincipalOf(db, cred, now);
            && (forall user :: CallerIs(db, cred, now, user) <==> p.Some? && p.value.user == user)
            && (cred.Login? ==> p == Some(UserPrincipal(cred.user)))
            && (cred.Bearer? ==> forall k :: k in db.tokens && Shows(db.tokens[k], cred.text, now) <==>
                  AcceptedToken(db, cred.text, now) == Some(k))
  {
    if cred.Bearer? {
      forall k ensures k in db.tokens && Shows(db.tokens[k], cred.text, now) <==> AcceptedToken(db, cred.text, now) == Some(k) {
        AcceptedShows(db, cred.text, now, k);
      }
    }
  }

  lemma ResolvesNamed(db: Tables, ref: OrgRef, org: OrgId)
    requires Constraints(db)
    ensures ResolveOrg(db, ref) == Some(org) <==> Names(db, ref, org)
  {
    if ref.BySlug? && org in db.orgs && db.orgs[org] == ref.slug {
      LookupUnique(db.orgs, org);
    }
  }

  ghost function RoleOf(db: Tables, p: Principal, org: OrgId): Option<Role> {
    match p
    case TokenPrincipal(_, bound, role) => if bound == org then Some(role) else None
    case UserPrincipal(user) => if (org, user) in db.members then Some(db.members[(org, user)]) else None
  }

  lemma HasRoleIs(db: Tables, cred: Credential, now: int, org: OrgId, role: Role)
    requires Constraints(db)
    ensures HasRole(db, cred, now, org, role) <==>
            PrincipalOf(db, cred, now).Some? && RoleOf(db, PrincipalOf(db, cred, now).value, org) == Some(role)
  {
    if cred.Bearer? {
      var accepted := AcceptedToken(db, cred.text, now);
      if accepted.Some? {
        AcceptedShows(db, cred.text, now, accepted.value);
      }
      if k :| k in db.tokens && Shows(db.tokens[k], cred.text, now) && db.tokens[k].org == org && db.tokens[k].role == role {
        AcceptedShows(db, cred.text, now, k);
      }
    }
  }

  lemma GateIs(db: Tables, p: Principal, ref: OrgRef, minimum: Role)
    ensures var (g, o) := (Gate(db, p, ref, minimum), ResolveOrg(db, ref));
            if o.None? || RoleOf(db, p, o.value).None? then g == Err(404)
            else if Rank(RoleOf(db, p, o.value).value) < Rank(minimum) then g == Err(403)
            else g == Ok(Context(p, o.value, RoleOf(db, p, o.value).value))
  {
  }

  lemma StampedSame(db: Tables, cred: Credential, now: int, p: Principal, ref: OrgRef)
    ensures var s := Stamped(db, cred, now);
            s.orgs == db.orgs && s.members == db.members && s.users == db.users
            && ResolveOrg(s, ref) == ResolveOrg(db, ref) && forall org :: RoleOf(s, p, org) == RoleOf(db, p, org)
  {
  }

  /** The gates let a caller in exactly as the role it has in the org the path names, and only from the
      minimum on. */
  lemma EnteredExactlyWhen(db: Tables, cred: Credential, ref: OrgRef, minimum: Role, now: int, org: OrgId, role: Role)
    requires Constraints(db)
    ensures var e := AuthorityDb.Entered(db, cred, ref, minimum, now);
            (e.Ok? && e.value.org == org && e.value.role == role)
            <==> Names(db, ref, org) && HasRole(db, cred, now, org, role) && Rank(role) >= Rank(minimum)
  {
    HasRoleIs(db, cred, now, org, role);
    ResolvesNamed(db, ref, org);
    var p := PrincipalOf(db, cred, now);
    if p.Some? {
      StampedSame(db, cred, now, p.value, ref);
      GateIs(Stamped(db, cred, now), p.value, ref, minimum);
    }
  }

  lemma EntrantIsCaller(db: Tables, cred: Credential, ref: OrgRef, minimum: Role, now: int)
    requires Constraints(db) && AuthorityDb.Entered(db, cred, ref, minimum, now).Ok?
    ensures CallerIs(db, cred, now, AuthorityDb.Entered(db, cred, ref, minimum, now).value.principal.user)
  {
    PrincipalIsCaller(db, cred, now);
    GateGrants(Stamped(db, cred, now), PrincipalOf(db, cred, now).value, ref, minimum);
  }

  lemma StampedGrants(db: Tables, cred: Credential, now: int)
    ensures SameGrants(db.tokens, Stamped(db, cred, now).tokens)
    ensures Stamped(db, cred, now) == db.(tokens := Stamped(db, cred, now).tokens)
  {
  }

  /** The org and role a successful org request was authorized with. */
  lemma Authorized(db: Tables, cred: Credential, a: Action, now: int) returns (ctx: Context)
    requires Constraints(db) && !a.CreateOrg? && Serve(db, cred, a, now).1.Done?
    ensures AuthorityDb.Entered(db, cred, a.ref, MinimumRole(a), now) == Ok(ctx)
    ensures Names(db, a.ref, ctx.org) && HasRole(db, cred, now, ctx.org, ctx.role) && Rank(ctx.role) >= Rank(MinimumRole(a))
    ensures CallerIs(db, cred, now, ctx.principal.user)
    ensures Handle(Stamped(db, cred, now), ctx, a, now) == Ok(Serve(db, cred, a, now).0)
  {
    AuthorityDb.ServeByRoute(db, cred, a, now);
    ctx := AuthorityDb.Entered(db, cred, a.ref, MinimumRole(a), now).value;
    EnteredExactlyWhen(db, cred, a.ref, MinimumRole(a), now, ctx.org, ctx.role);
    EntrantIsCaller(db, cred, a.ref, MinimumRole(a), now);
  }

  /** A caller with enough of a role in the org named gets to the handler. */
  lemma Admitted(db: Tables, cred: Credential, a: Action, now: int, org: OrgId, role: Role) returns (ctx: Context)
    requires Constraints(db) && !a.CreateOrg?
    requires Names(db, a.ref, org) && HasRole(db, cred, now, org, role) && Rank(role) >= Rank(MinimumRole(a))
    ensures ctx.org == org && ctx.role == role && CallerIs(db, cred, now, ctx.principal.user)
    ensures Serve(db, cred, a, now).1.Done? <==> Handle(Stamped(db, cred, now), ctx, a, now).Ok?
  {
    AuthorityDb.ServeByRoute(db, cred, a, now);
    EnteredExactlyWhen(db, cred, a.ref, MinimumRole(a), now, org, role);
    EntrantIsCaller(db, cred, a.ref, MinimumRole(a), now);
    ctx := AuthorityDb.Entered(db, cred, a.ref, MinimumRole(a), now).value;
  }

  /** Accepting a token stamps its own row's last use with the time, and nothing else. */
  lemma LastUseStamped(db: Tables, text: string, now: int, k: TokenId)
    requires Constraints(db) && k in db.tokens && Shows(db.tokens[k], text, now)
    ensures Stamped(db, Bearer(text), now) == db.(tokens := db.tokens[k := db.tokens[k].(lastUsedAt := Some(now))])
  {
    AcceptedShows(db, text, now, k);
  }

  /** A refused request changes nothing at all. */
  lemma RefusedChangesNothing(db: Tables, cred: Credential, a: Action, now: int)
    requires Serve(db, cred, a, now).1.Refused?
    ensures Serve(db, cred, a, now).0 == db
  {
  }

  /** A caller is somebody, or turned away with 401. */
  lemma NobodyIs401(db: Tables, cred: Credential, a: Action, now: int)
    requires Constraints(db)
    ensures (exists user :: CallerIs(db, cred, now, user)) <==> PrincipalOf(db, cred, now).Some?
    ensures PrincipalOf(db, cred, now).None? ==> Serve(db, cred, a, now).1 == Refused(401)
  {
    PrincipalIsCaller(db, cred, now);
    var p := PrincipalOf(db, cred, now);
    if p.Some? {
      assert CallerIs(db, cred, now, p.value.user);
    }
  }

  /** A stranger to the org, or no such org. */
  lemma StrangerIs404(db: Tables, cred: Credential, a: Action, now: int, user: UserId)
    requires Constraints(db) && !a.CreateOrg? && CallerIs(db, cred, now, user)
    requires forall org: OrgId, role :: Names(db, a.ref, org) ==> !HasRole(db, cred, now, org, role)
    ensures Serve(db, cred, a, now).1 == Refused(404)
  {
    PrincipalIsCaller(db, cred, now);
    AuthorityDb.ServeByRoute(db, cred, a, now);
    var p, o := PrincipalOf(db, cred, now).value, ResolveOrg(db, a.ref);
    StampedSame(db, cred, now, p, a.ref);
    GateIs(Stamped(db, cred, now), p, a.ref, MinimumRole(a));
    if o.Some? && RoleOf(db, p, o.value).Some? {
      ResolvesNamed(db, a.ref, o.value);
      HasRoleIs(db, cred, now, o.value, RoleOf(db, p, o.value).value);
    }
  }

  /** A viewer or member where an admin is asked for, or an admin where an owner is. */
  lemma LowRoleIs403(db: Tables, cred: Credential, a: Action, now: int, org: OrgId, role: Role)
    requires Constraints(db) && HasRole(db, cred, now, org, role) && !a.CreateOrg? && Names(db, a.ref, org)
    requires ((a.AddMember? || a.UpdateMember? || a.RemoveMember? || a.CreateToken? || a.RevokeToken?) && role in [Viewer, Member])
             || (a.DeleteOrg? && role in [Viewer, Member, Admin])
    ensures Serve(db, cred, a, now).1 == Refused(403)
  {
    AuthorityDb.ServeByRoute(db, cred, a, now);
    HasRoleIs(db, cred, now, org, role);
    ResolvesNamed(db, a.ref, org);
    var p := PrincipalOf(db, cred, now).value;
    StampedSame(db, cred, now, p, a.ref);
    GateIs(Stamped(db, cred, now), p, a.ref, MinimumRole(a));
  }

  // ---- what accepted requests do --------------------------------------------

  lemma OneName(db: Tables, ref: OrgRef, a: OrgId, b: OrgId)
    requires Constraints(db) && Names(db, ref, a) && Names(db, ref, b)
    ensures a == b
  {
  }

  /** One caller has at most one role in an org. */
  lemma OneRole(db: Tables, cred: Credential, now: int, org: OrgId, r: Role, s: Role)
    requires Constraints(db) && HasRole(db, cred, now, org, r) && HasRole(db, cred, now, org, s)
    ensures r == s
  {
    HasRoleIs(db, cred, now, org, r);
    HasRoleIs(db, cred, now, org, s);
  }

  /** The count the guards read, as a person. */
  lemma OwnersElsewhere(db: Tables, org: OrgId, user: UserId)
    requires (org, user) in db.members && db.members[(org, user)] == Owner
    ensures |OwnersOf(db.members, org)| >= 2 <==> OwnedWithout(db, org, user)
  {
    var k := (org, user);
    assert k in OwnersOf(db.members, org);
    if |OwnersOf(db.members, org)| >= 2 {
      var other := AnotherOwner(db.members, org, k);
      assert other.1 != user && (org, other.1) == other;
    } else {
      OnlyOwner(db.members, org, k);
      forall u: UserId | u != user && (org, u) in db.members ensures db.members[(org, u)] != Owner {
        assert (org, u) !in OwnersOf(db.members, org);
      }
    }
  }

  /** The role of one who administers the org. */
  lemma AdminRole(db: Tables, cred: Credential, now: int, org: OrgId) returns (role: Role)
    requires Constraints(db) && Administers(db, cred, now, org)
    ensures HasRole(db, cred, now, org, role) && Rank(role) >= Rank(Admin)
    ensures role == Owner <==> HasRole(db, cred, now, org, Owner)
  {
    role := if HasRole(db, cred, now, org, Owner) then Owner else Admin;
  }

  /** Administering, from the gates' answer. */
  lemma Administering(db: Tables, cred: Credential, now: int, org: OrgId, role: Role)
    requires Constraints(db) && HasRole(db, cred, now, org, role) && Rank(role) >= Rank(Admin)
    ensures Administers(db, cred, now, org) && (role == Owner <==> HasRole(db, cred, now, org, Owner))
  {
    if HasRole(db, cred, now, org, Owner) {
      OneRole(db, cred, now, org, role, Owner);
    }
  }

  /** An admin may remove a member who is there; an owner's row only as an owner, and only while somebody
      else owns the org. */
  ghost predicate MayRemove(db: Tables, cred: Credential, now: int, org: OrgId, user: UserId) {
    && Administers(db, cred, now, org) && (org, user) in db.members
    && (db.members[(org, user)] == Owner ==> HasRole(db, cred, now, org, Owner) && OwnedWithout(db, org, user))
  }

  lemma RemoveHandled(db: Tables, ctx: Context, user: UserId)
    ensures var (r, k) := (AfterRemoveMember(db, ctx, user), (ctx.org, user));
            && (r.Ok? <==>
                 && k in db.members
                 && (db.members[k] == Owner ==> ctx.role == Owner && OwnedWithout(db, ctx.org, user)))
            && (r.Ok? ==> r.value == db.(members := db.members - {k}))
  {
    if (ctx.org, user) in db.members && db.members[(ctx.org, user)] == Owner {
      OwnersElsewhere(db, ctx.org, user);
    }
  }

  lemma RemoveDone(db: Tables, cred: Credential, ref: OrgRef, user: UserId, now: int, org: OrgId)
    requires Constraints(db) && Names(db, ref, org)
    requires Serve(db, cred, Action.RemoveMember(ref, user), now).1.Done?
    ensures var after := Serve(db, cred, Action.RemoveMember(ref, user), now).0;
            && MayRemove(db, cred, now, org, user)
            && (org, user) !in after.members && after.members == db.members - {(org, user)}
            && after.users == db.users && after.orgs == db.orgs && SameGrants(db.tokens, after.tokens)
  {
    var a, s := Action.RemoveMember(ref, user), Stamped(db, cred, now);
    StampedGrants(db, cred, now);
    var ctx := Authorized(db, cred, a, now);
    OneName(db, ref, org, ctx.org);
    Administering(db, cred, now, org, ctx.role);
    RemoveHandled(s, ctx, user);
    assert OwnedWithout(s, org, user) ==> OwnedWithout(db, org, user);
  }

  lemma RemoveAdmitted(db: Tables, cred: Credential, ref: OrgRef, user: UserId, now: int, org: OrgId)
    requires Constraints(db) && Names(db, ref, org) && MayRemove(db, cred, now, org, user)
    ensures Serve(db, cred, Action.RemoveMember(ref, user), now).1.Done?
  {
    var role := AdminRole(db, cred, now, org);
    var ctx := Admitted(db, cred, Action.RemoveMember(ref, user), now, org, role);
    StampedGrants(db, cred, now);
    RemoveHandled(Stamped(db, cred, now), ctx, user);
    assert OwnedWithout(db, org, user) ==> OwnedWithout(Stamped(db, cred, now), org, user);
  }

  /** Removing is accepted exactly so; then the row is gone, and nothing else is. */
  lemma RemoveMemberExactly(db: Tables, cred: Credential, ref: OrgRef, user: UserId, now: int, org: OrgId)
    requires Constraints(db) && Names(db, ref, org)
    ensures var (after, reply) := Serve(db, cred, Action.RemoveMember(ref, user), now);
            && (reply.Done? <==> MayRemove(db, cred, now, org, user))
            && (reply.Done? ==>
                 && (org, user) !in after.members && after.members == db.members - {(org, user)}
                 && after.users == db.users && after.orgs == db.orgs && SameGrants(db.tokens, after.tokens))
  {
    if Serve(db, cred, Action.RemoveMember(ref, user), now).1.Done? {
      RemoveDone(db, cred, ref, user, now, org);
    } else if MayRemove(db, cred, now, org, user) {
      RemoveAdmitted(db, cred, ref, user, now, org);
    }
  }

  /** An admin may change a member's role; to or from owner only as an owner, and away from it only while
      somebody else owns the org. */
  ghost predicate MayUpdate(db: Tables, cred: Credential, now: int, org: OrgId, user: UserId, role: Role) {
    && Administers(db, cred, now, org) && (org, user) in db.members
    && (db.members[(org, user)] == Owner || role == Owner ==> HasRole(db, cred, now, org, Owner))
    && (db.members[(org, user)] == Owner && role != Owner ==> OwnedWithout(db, org, user))
  }

  lemma UpdateHandled(db: Tables, ctx: Context, user: UserId, role: Role)
    ensures var (r, k) := (AfterUpdateMember(db, ctx, user, role), (ctx.org, user));
            && (r.Ok? <==>
                 && k in db.members && (db.members[k] == Owner || role == Owner ==> ctx.role == Owner)
                 && (db.members[k] == Owner && role != Owner ==> OwnedWithout(db, ctx.org, user)))
            && (r.Ok? ==> r.value == db.(members := db.members[k := role]))
  {
    if (ctx.org, user) in db.members && db.members[(ctx.org, user)] == Owner {
      OwnersElsewhere(db, ctx.org, user);
    }
  }

  lemma UpdateDone(db: Tables, cred: Credential, ref: OrgRef, user: UserId, role: Role, now: int, org: OrgId)
    requires Constraints(db) && Names(db, ref, org)
    requires Serve(db, cred, Action.UpdateMember(ref, user, role), now).1.Done?
    ensures var after := Serve(db, cred, Action.UpdateMember(ref, user, role), now).0;
            && MayUpdate(db, cred, now, org, user, role)
            && after.members == db.members[(org, user) := role]
            && after.users == db.users && after.orgs == db.orgs && SameGrants(db.tokens, after.tokens)
  {
    var a, s := Action.UpdateMember(ref, user, role), Stamped(db, cred, now);
    StampedGrants(db, cred, now);
    var ctx := Authorized(db, cred, a, now);
    OneName(db, ref, org, ctx.org);
    Administering(db, cred, now, org, ctx.role);
    UpdateHandled(s, ctx, user, role);
    assert OwnedWithout(s, org, user) <==> OwnedWithout(db, org, user);
  }

  lemma UpdateAdmitted(db: Tables, cred: Credential, ref: OrgRef, user: UserId, role: Role, now: int, org: OrgId)
    requires Constraints(db) && Names(db, ref, org) && MayUpdate(db, cred, now, org, user, role)
    ensures Serve(db, cred, Action.UpdateMember(ref, user, role), now).1.Done?
  {
    var callers := AdminRole(db, cred, now, org);
    var ctx := Admitted(db, cred, Action.UpdateMember(ref, user, role), now, org, callers);
    StampedGrants(db, cred, now);
    UpdateHandled(Stamped(db, cred, now), ctx, user, role);
    assert OwnedWithout(db, org, user) ==> OwnedWithout(Stamped(db, cred, now), org, user);
  }

  /** Changing a role is accepted exactly so; then the role stored is the one asked for. */
  lemma UpdateMemberExactly(db: Tables, cred: Credential, ref: OrgRef, user: UserId, role: Role, now: int, org: OrgId)
    requires Constraints(db) && Names(db, ref, org)
    ensures var (after, reply) := Serve(db, cred, Action.UpdateMember(ref, user, role), now);
            && (reply.Done? <==> MayUpdate(db, cred, now, org, user, role))
            && (reply.Done? ==>
                 && after.members == db.members[(org, user) := role]
                 && after.users == db.users && after.orgs == db.orgs && SameGrants(db.tokens, after.tokens))
  {
    if Serve(db, cred, Action.UpdateMember(ref, user, role), now).1.Done? {
      UpdateDone(db, cred, ref, user, role, now, org);
    } else if MayUpdate(db, cred, now, org, user, role) {
      UpdateAdmitted(db, cred, ref, user, role, now, org);
    }
  }

  /** The stored form of an address: without the blanks around it, in lower case. */
  lemma NormalizedIs(before: string, s: string, after: string)
    requires Text.AllSpace(before) && Text.AllSpace(after) && Text.Trimmed(s)
    ensures NormalizeEmail(before + s + after) == Text.Lower(s)
  {
    Text.StripPadding(before, s, after);
  }

  ghost predicate Known(db: Tables, address: string, user: UserId) {
    user in db.users && db.users[user] == address
  }

  /** An admin may add anyone who is no member yet, an owner only as an owner; one not known by that
      address gets a new user row. */
  ghost predicate MayAdd(db: Tables, cred: Credential, now: int, org: OrgId, address: string, role: Role, newUser: UserId) {
    && Administers(db, cred, now, org) && (role == Owner ==> HasRole(db, cred, now, org, Owner))
    && Addable(db, org, address, newUser)
  }

  ghost predicate Addable(db: Tables, org: OrgId, address: string, newUser: UserId) {
    if exists user :: Known(db, address, user)
    then forall user: UserId :: Known(db, address, user) ==> (org, user) !in db.members
    else newUser !in db.users && (org, newUser) !in db.members
  }

  /** The person of that address, the known one or a new one, has got the membership. */
  ghost predicate Added(db: Tables, after: Tables, org: OrgId, address: string, role: Role, newUser: UserId) {
    if exists user :: Known(db, address, user)
    then after.users == db.users
         && forall user: UserId :: Known(db, address, user) ==> after.members == db.members[(org, user) := role]
    else after.users == db.users[newUser := address] && after.members == db.members[(org, newUser) := role]
  }

  lemma KnownIsFound(db: Tables, address: string)
    requires Constraints(db)
    ensures forall user: UserId :: Known(db, address, user) <==> Lookup(db.users, address) == Some(user)
    ensures (exists user :: Known(db, address, user)) <==> Lookup(db.users, address).Some?
  {
    var found := Lookup(db.users, address);
    if found.Some? {
      assert Known(db, address, found.value);
    }
  }

  lemma AddHandled(db: Tables, ctx: Context, email: string, role: Role, newUser: UserId)
    requires Injective(db.users)
    ensures var (r, address) := (AfterAddMember(db, ctx, email, role, newUser), NormalizeEmail(email));
            && (r.Ok? <==> (role == Owner ==> ctx.role == Owner) && Addable(db, ctx.org, address, newUser))
            && (r.Ok? ==> r.value.orgs == db.orgs && r.value.tokens == db.tokens
                          && Added(db, r.value, ctx.org, address, role, newUser))
  {
    var address := NormalizeEmail(email);
    var found := Lookup(db.users, address);
    if found.Some? {
      assert Known(db, address, found.value);
      assert forall user: UserId :: Known(db, address, user) ==> user == found.value;
    }
  }

  /** Adding is accepted exactly so; then the person of that address is a member with the role asked for. */
  lemma AddMemberExactly(db: Tables, cred: Credential, ref: OrgRef, email: string, role: Role, newUser: UserId, now: int,
                         org: OrgId)
    requires Constraints(db) && Names(db, ref, org)
    ensures var (after, reply) := Serve(db, cred, Action.AddMember(ref, email, role, newUser), now);
            && (reply.Done? <==> MayAdd(db, cred, now, org, NormalizeEmail(email), role, newUser))
            && (reply.Done? ==>
                 && after.orgs == db.orgs && SameGrants(db.tokens, after.tokens)
                 && Added(db, after, org, NormalizeEmail(email), role, newUser))
  {
    var a, s := Action.AddMember(ref, email, role, newUser), Stamped(db, cred, now);
    StampedGrants(db, cred, now);
    if Serve(db, cred, a, now).1.Done? {
      var ctx := Authorized(db, cred, a, now);
      OneName(db, ref, org, ctx.org);
      Administering(db, cred, now, org, ctx.role);
      AddHandled(s, ctx, email, role, newUser);
      AddableStamped(db, s, org, NormalizeEmail(email), role, newUser, Serve(db, cred, a, now).0);
    } else if Administers(db, cred, now, org) {
      var callers := AdminRole(db, cred, now, org);
      var ctx := Admitted(db, cred, a, now, org, callers);
      AddHandled(s, ctx, email, role, newUser);
      AddableStamped(db, s, org, NormalizeEmail(email), role, newUser, db);
    }
  }

  lemma AddableStamped(db: Tables, s: Tables, org: OrgId, address: string, role: Role, newUser: UserId, after: Tables)
    requires s.users == db.users && s.members == db.members
    ensures Addable(s, org, address, newUser) <==> Addable(db, org, address, newUser)
    ensures Added(s, after, org, address, role, newUser) <==> Added(db, after, org, address, role, newUser)
  {
    assert forall user :: Known(s, address, user) <==> Known(db, address, user);
  }

  predicate SlugFree(db: Tables, slug: string) {
    forall o :: o in db.orgs ==> db.orgs[o] != slug
  }

  /** The new org has its founder for its one member, and owner. */
  ghost predicate Founded(db: Tables, after: Tables, slug: string, newOrg: OrgId, user: UserId) {
    && after.orgs == db.orgs[newOrg := slug] && after.members == db.members[(newOrg, user) := Owner]
    && after.users == db.users && SameGrants(db.tokens, after.tokens)
  }

  lemma CreateHandled(db: Tables, p: Principal, slug: string, newOrg: OrgId)
    ensures var r := AfterCreateOrg(db, p, slug, newOrg);
            && (r.Ok? <==> SlugFree(db, slug) && newOrg !in db.orgs && p.user in db.users)
            && (r.Ok? ==> Founded(db, r.value, slug, newOrg, p.user))
  {
    assert slug in db.orgs.Values <==> exists o :: o in db.orgs && db.orgs[o] == slug;
  }

  /** Anyone known may found an org under a slug nobody has. */
  lemma CreateOrgExactly(db: Tables, cred: Credential, slug: string, newOrg: OrgId, now: int, user: UserId)
    requires Constraints(db) && CallerIs(db, cred, now, user)
    ensures var (after, reply) := Serve(db, cred, Action.CreateOrg(slug, newOrg), now);
            && (reply.Done? <==> SlugFree(db, slug) && newOrg !in db.orgs && user in db.users)
            && (reply.Done? ==> Founded(db, after, slug, newOrg, user))
  {
    PrincipalIsCaller(db, cred, now);
    StampedGrants(db, cred, now);
    CreateHandled(Stamped(db, cred, now), PrincipalOf(db, cred, now).value, slug, newOrg);
  }

  lemma FounderAlone(db: Tables, after: Tables, slug: string, newOrg: OrgId, user: UserId)
    requires Inv(db) && newOrg !in db.orgs && Founded(db, after, slug, newOrg, user)
    ensures forall u: UserId :: (newOrg, u) in after.members <==> u == user
  {
    assert forall u: UserId :: (newOrg, u) !in db.members;
  }

  /** Every row of the org is gone and no other row. */
  ghost predicate Gone(db: Tables, after: Tables, org: OrgId) {
    && after.users == db.users && after.orgs == db.orgs - {org}
    && (forall k :: k in after.members <==> k in db.members && k.0 != org)
    && (forall k :: k in after.members ==> after.members[k] == db.members[k])
    && (forall t :: t in after.tokens <==> t in db.tokens && db.tokens[t].org != org)
    && (forall t :: t in after.tokens ==> after.tokens[t].(lastUsedAt := None) == db.tokens[t].(lastUsedAt := None))
  }

  lemma DeleteHandled(db: Tables, s: Tables, ctx: Context)
    requires s == db.(tokens := s.tokens) && SameGrants(db.tokens, s.tokens)
    ensures Gone(db, AfterDeleteOrg(s, ctx, false).value, ctx.org)
  {
    assert forall t :: t in db.tokens ==> s.tokens[t].(lastUsedAt := None).org == s.tokens[t].org;
  }

  lemma DeleteDone(db: Tables, cred: Credential, ref: OrgRef, blocked: bool, now: int, org: OrgId)
    requires Constraints(db) && Names(db, ref, org) && Serve(db, cred, Action.DeleteOrg(ref, blocked), now).1.Done?
    ensures HasRole(db, cred, now, org, Owner) && !blocked
    ensures Gone(db, Serve(db, cred, Action.DeleteOrg(ref, blocked), now).0, org)
  {
    var ctx := Authorized(db, cred, Action.DeleteOrg(ref, blocked), now);
    OneName(db, ref, org, ctx.org);
    StampedGrants(db, cred, now);
    DeleteHandled(db, Stamped(db, cred, now), ctx);
  }

  /** Only an owner may delete an org. */
  lemma DeleteOrgExactly(db: Tables, cred: Credential, ref: OrgRef, blocked: bool, now: int, org: OrgId)
    requires Constraints(db) && Names(db, ref, org)
    ensures var (after, reply) := Serve(db, cred, Action.DeleteOrg(ref, blocked), now);
            && (reply.Done? <==> HasRole(db, cred, now, org, Owner) && !blocked)
            && (reply.Done? ==> Gone(db, after, org))
  {
    if Serve(db, cred, Action.DeleteOrg(ref, blocked), now).1.Done? {
      DeleteDone(db, cred, ref, blocked, now, org);
    } else if HasRole(db, cred, now, org, Owner) {
      var ctx := Admitted(db, cred, Action.DeleteOrg(ref, blocked), now, org, Owner);
    }
  }

  /** The ranking of the roles, from the least. */
  predicate NoMoreThan(role: Role, bound: Role) {
    || role == Viewer || bound == Owner || role == bound
    || (role == Member && bound == Admin)
  }

  ghost predicate MayMint(db: Tables, cred: Credential, now: int, org: OrgId, role: Role, newToken: TokenId, prefix: string) {
    && Administers(db, cred, now, org) && (exists own :: HasRole(db, cred, now, org, own) && NoMoreThan(role, own))
    && newToken !in db.tokens && (forall k :: k in db.tokens ==> db.tokens[k].prefix != prefix)
    && (exists user :: CallerIs(db, cred, now, user) && user in db.users)
  }

  /** The new row has the org, role and expiry asked for, and its text opens it. */
  ghost predicate Minted(db: Tables, cred: Credential, now: int, org: OrgId, a: Action, after: Tables)
    requires a.CreateToken?
  {
    && after.users == db.users && after.orgs == db.orgs && after.members == db.members
    && a.newToken in after.tokens && SameGrants(db.tokens, after.tokens - {a.newToken})
    && var row := after.tokens[a.newToken];
       && row.org == org && row.role == a.role && row.expiresAt == a.expiresAt && row.revokedAt == None
       && CallerIs(db, cred, now, row.createdBy)
       && (a.expiresAt.None? || now < a.expiresAt.value ==> Shows(row, "ippon_pat_" + a.prefix + "_" + a.secret, now))
  }

  lemma MintDone(db: Tables, cred: Credential, a: Action, now: int, org: OrgId)
    requires Constraints(db) && a.CreateToken? && Names(db, a.ref, org) && Serve(db, cred, a, now).1.Done?
    ensures MayMint(db, cred, now, org, a.role, a.newToken, a.prefix)
    ensures Minted(db, cred, now, org, a, Serve(db, cred, a, now).0)
  {
    StampedGrants(db, cred, now);
    var ctx := Authorized(db, cred, a, now);
    OneName(db, a.ref, org, ctx.org);
    Administering(db, cred, now, org, ctx.role);
    MintShows(db, cred, ctx, a, now);
  }

  lemma MintReply(db: Tables, cred: Credential, a: Action, now: int)
    requires a.CreateToken? && Serve(db, cred, a, now).1.Done?
    ensures Serve(db, cred, a, now).1.text == Some("ippon_pat_" + a.prefix + "_" + a.secret)
  {
  }

  /** An admin may mint a token of at most its own role; the reply carries its text, which from then on
      shows the new row. */
  lemma CreateTokenExactly(db: Tables, cred: Credential, a: Action, now: int, org: OrgId)
    requires Constraints(db) && a.CreateToken? && Names(db, a.ref, org)
    ensures var (after, reply) := Serve(db, cred, a, now);
            && (reply.Done? <==> MayMint(db, cred, now, org, a.role, a.newToken, a.prefix))
            && (reply.Done? ==>
                 reply.text == Some("ippon_pat_" + a.prefix + "_" + a.secret) && Minted(db, cred, now, org, a, after))
  {
    if Serve(db, cred, a, now).1.Done? {
      MintDone(db, cred, a, now, org);
      MintReply(db, cred, a, now);
    } else if MayMint(db, cred, now, org, a.role, a.newToken, a.prefix) {
      MintAdmitted(db, cred, a, now, org);
    }
  }

  lemma MintShows(db: Tables, cred: Credential, ctx: Context, a: Action, now: int)
    requires a.CreateToken? && Handle(Stamped(db, cred, now), ctx, a, now).Ok?
    ensures var (s, after) := (Stamped(db, cred, now), Handle(Stamped(db, cred, now), ctx, a, now).value);
            && NoMoreThan(a.role, ctx.role) && a.newToken !in db.tokens && ctx.principal.user in db.users
            && (forall k :: k in db.tokens ==> db.tokens[k].prefix != a.prefix)
            && after == s.(tokens := after.tokens) && a.newToken in after.tokens && after.tokens - {a.newToken} == s.tokens
            && var row := after.tokens[a.newToken];
               && row.org == ctx.org && row.role == a.role && row.expiresAt == a.expiresAt && row.revokedAt == None
               && row.createdBy == ctx.principal.user
               && (a.expiresAt.None? || now < a.expiresAt.value ==> Shows(row, "ippon_pat_" + a.prefix + "_" + a.secret, now))
  {
    StampedGrants(db, cred, now);
    var s := Stamped(db, cred, now);
    assert forall k :: k in db.tokens ==> k in s.tokens && s.tokens[k].prefix == db.tokens[k].prefix;
  }

  lemma MintHandled(db: Tables, ctx: Context, role: Role, expiresAt: Option<int>, newToken: TokenId,
                    prefix: MintedPrefix, secret: MintedSecret)
    requires NoMoreThan(role, ctx.role) && newToken !in db.tokens && ctx.principal.user in db.users
    requires forall k :: k in db.tokens ==> db.tokens[k].prefix != prefix
    ensures AfterCreateToken(db, ctx, role, expiresAt, newToken, prefix, secret).Ok?
  {
  }

  lemma MintAdmitted(db: Tables, cred: Credential, a: Action, now: int, org: OrgId)
    requires Constraints(db) && a.CreateToken? && Names(db, a.ref, org)
    requires MayMint(db, cred, now, org, a.role, a.newToken, a.prefix)
    ensures Serve(db, cred, a, now).1.Done?
  {
    var role := AdminRole(db, cred, now, org);
    var own :| HasRole(db, cred, now, org, own) && NoMoreThan(a.role, own);
    OneRole(db, cred, now, org, role, own);
    var ctx := Admitted(db, cred, a, now, org, role);
    var s := Stamped(db, cred, now);
    PrincipalIsCaller(db, cred, now);
    StampedGrants(db, cred, now);
    SamePrefixes(db.tokens, s.tokens, a.prefix);
    MintHandled(s, ctx, a.role, a.expiresAt, a.newToken, a.prefix, a.secret);
  }

  lemma SamePrefixes(before: map<TokenId, TokenRow>, after: map<TokenId, TokenRow>, prefix: string)
    requires SameGrants(before, after) && forall k :: k in before ==> before[k].prefix != prefix
    ensures forall k :: k in after ==> after[k].prefix != prefix
  {
    forall k | k in after ensures after[k].prefix != prefix {
      assert before[k].(lastUsedAt := None).prefix == after[k].(lastUsedAt := None).prefix;
    }
  }

  lemma RevokeHandled(db: Tables, ctx: Context, token: TokenId, now: int)
    ensures var r := AfterRevokeToken(db, ctx, token, now);
            && (r.Ok? <==> token in db.tokens && db.tokens[token].org == ctx.org)
            && (r.Ok? ==>
                 && r.value == db.(tokens := r.value.tokens) && token in r.value.tokens
                 && r.value.tokens - {token} == db.tokens - {token} && r.value.tokens[token] == RevokedRow(db.tokens[token], now))
  {
  }

  /** The first revocation is stamped. */
  function RevokedRow(row: TokenRow, now: int): TokenRow {
    row.(revokedAt := if row.revokedAt.Some? then row.revokedAt else Some(now))
  }

  /** That token's row alone is stamped. */
  ghost predicate RevokedOnly(db: Tables, after: Tables, token: TokenId, now: int)
    requires token in db.tokens
  {
    && after.users == db.users && after.orgs == db.orgs && after.members == db.members
    && token in after.tokens && SameGrants(db.tokens - {token}, after.tokens - {token})
    && after.tokens[token].revokedAt.Some?
    && after.tokens[token].(lastUsedAt := None) == RevokedRow(db.tokens[token], now).(lastUsedAt := None)
  }

  lemma RevokeEffect(db: Tables, s: Tables, ctx: Context, token: TokenId, now: int)
    requires s == db.(tokens := s.tokens) && SameGrants(db.tokens, s.tokens) && AfterRevokeToken(s, ctx, token, now).Ok?
    ensures token in db.tokens && db.tokens[token].org == ctx.org
    ensures RevokedOnly(db, AfterRevokeToken(s, ctx, token, now).value, token, now)
  {
    RevokeHandled(s, ctx, token, now);
    StampedThenSame(db, s, AfterRevokeToken(s, ctx, token, now).value, token);
    assert db.tokens[token].(lastUsedAt := None) == s.tokens[token].(lastUsedAt := None);
  }

  lemma RevokeDone(db: Tables, cred: Credential, ref: OrgRef, token: TokenId, now: int, org: OrgId)
    requires Constraints(db) && Names(db, ref, org) && Serve(db, cred, Action.RevokeToken(ref, token), now).1.Done?
    ensures Administers(db, cred, now, org) && token in db.tokens && db.tokens[token].org == org
    ensures RevokedOnly(db, Serve(db, cred, Action.RevokeToken(ref, token), now).0, token, now)
  {
    var a, s := Action.RevokeToken(ref, token), Stamped(db, cred, now);
    StampedGrants(db, cred, now);
    var ctx := Authorized(db, cred, a, now);
    OneName(db, ref, org, ctx.org);
    Administering(db, cred, now, org, ctx.role);
    RevokeEffect(db, s, ctx, token, now);
  }

  /** An admin may revoke any token of the org. */
  lemma RevokeTokenExactly(db: Tables, cred: Credential, ref: OrgRef, token: TokenId, now: int, org: OrgId)
    requires Constraints(db) && Names(db, ref, org)
    ensures var (after, reply) := Serve(db, cred, Action.RevokeToken(ref, token), now);
            && (reply.Done? <==> Administers(db, cred, now, org) && token in db.tokens && db.tokens[token].org == org)
            && (reply.Done? ==> RevokedOnly(db, after, token, now))
  {
    if Serve(db, cred, Action.RevokeToken(ref, token), now).1.Done? {
      RevokeDone(db, cred, ref, token, now, org);
    } else if Administers(db, cred, now, org) {
      var role := AdminRole(db, cred, now, org);
      var ctx := Admitted(db, cred, Action.RevokeToken(ref, token), now, org, role);
      StampedGrants(db, cred, now);
      RevokeHandled(Stamped(db, cred, now), ctx, token, now);
    }
  }

  lemma StampedThenSame(db: Tables, s: Tables, after: Tables, token: TokenId)
    requires SameGrants(db.tokens, s.tokens) && after.tokens - {token} == s.tokens - {token}
    ensures SameGrants(db.tokens - {token}, after.tokens - {token})
  {
    forall k | k in db.tokens - {token}
      ensures k in after.tokens - {token} && db.tokens[k].(lastUsedAt := None) == after.tokens[k].(lastUsedAt := None)
    {
      assert k in s.tokens - {token} && (after.tokens - {token})[k] == (s.tokens - {token})[k];
    }
    assert (db.tokens - {token}).Keys == (s.tokens - {token}).Keys;
  }

  /** Anyone with a role in the org may read it. */
  lemma ReadOrgExactly(db: Tables, cred: Credential, ref: OrgRef, now: int, org: OrgId)
    requires Constraints(db) && Names(db, ref, org)
    ensures var (after, reply) := Serve(db, cred, Action.ReadOrg(ref), now);
            && (reply.Done? <==> exists role :: HasRole(db, cred, now, org, role))
            && after.users == db.users && after.orgs == db.orgs && after.members == db.members
            && SameGrants(db.tokens, after.tokens)
  {
    var a := Action.ReadOrg(ref);
    StampedGrants(db, cred, now);
    if Serve(db, cred, a, now).1.Done? {
      var ctx := Authorized(db, cred, a, now);
      OneName(db, ref, org, ctx.org);
    } else if role :| HasRole(db, cred, now, org, role) {
      var ctx := Admitted(db, cred, a, now, org, role);
    }
  }

  // ---- the seeding paths ----------------------------------------------------

  /** Nothing that was there is changed. */
  predicate OnlyAdds(before: Tables, after: Tables) {
    && (forall u :: u in before.users ==> u in after.users && after.users[u] == before.users[u])
    && (forall o :: o in before.orgs ==> o in after.orgs && after.orgs[o] == before.orgs[o])
    && (forall k :: k in before.members ==> k in after.members && after.members[k] == before.members[k])
    && after.tokens == before.tokens
  }

  /** The person of that address is a member of the org of that slug. */
  ghost predicate Seeded(db: Tables, slug: string, address: string) {
    exists user: UserId, org: OrgId :: Known(db, address, user) && org in db.orgs && db.orgs[org] == slug && (org, user) in db.members
  }

  /** The two find-or-create steps both paths end with. */
  lemma SeedingSteps(db: Tables, slug: string, newOrg: OrgId, user: UserId)
    requires Injective(db.orgs)
    ensures SeedOrg(db, slug, newOrg).None? ==> newOrg in db.orgs
    ensures SeedOrg(db, slug, newOrg).Some? ==>
              var (withOrg, org) := SeedOrg(db, slug, newOrg).value;
              var after := SeedOwner(withOrg, org, user);
              && OnlyAdds(db, after) && after.users == db.users && org in after.orgs && after.orgs[org] == slug
              && (org, user) in after.members
              && (forall k :: k in after.members && k !in db.members ==> k == (org, user) && after.members[k] == Owner)
  {
  }

  /** Bootstrapping changes nothing that is there, and unless a fresh key was not fresh it ends with the
      person in the org, as its owner where there was no membership before. */
  lemma BootstrapSeeds(db: Tables, slug: string, email: string, newUser: UserId, newOrg: OrgId)
    requires Constraints(db)
    ensures var after := AfterBootstrap(db, slug, email, newUser, newOrg);
            && OnlyAdds(db, after)
            && (newUser !in db.users && newOrg !in db.orgs ==> Seeded(after, slug, NormalizeEmail(email)))
            && (forall k :: k in after.members && k !in db.members ==> after.members[k] == Owner)
  {
    var address := NormalizeEmail(email);
    var found := Lookup(db.users, address);
    var user := if found.Some? then found.value else newUser;
    var seeded := if found.Some? then db else db.(users := db.users[newUser := address]);
    SeedingSteps(seeded, slug, newOrg, user);
    if newUser !in db.users && newOrg !in db.orgs {
      var after := AfterBootstrap(db, slug, email, newUser, newOrg);
      var (withOrg, org) := SeedOrg(seeded, slug, newOrg).value;
      assert after == SeedOwner(withOrg, org, user) && Known(after, address, user);
    }
  }

  /** Bootstrapping again with the same arguments, whatever keys are drawn, changes nothing. */
  lemma BootstrapTwice(db: Tables, slug: string, email: string, newUser: UserId, newOrg: OrgId)
    requires Inv(db) && Seeded(db, slug, NormalizeEmail(email))
    ensures AfterBootstrap(db, slug, email, newUser, newOrg) == db
  {
    var address := NormalizeEmail(email);
    var user: UserId, org: OrgId :| Known(db, address, user) && org in db.orgs && db.orgs[org] == slug && (org, user) in db.members;
    LookupUnique(db.users, user);
    LookupUnique(db.orgs, org);
  }

  /** The dev user is in the default org. */
  ghost predicate DevSeeded(db: Tables) {
    0xDE in db.users && exists org: OrgId :: org in db.orgs && db.orgs[org] == "default" && (org, 0xDE) in db.members
  }

  /** Seeding the dev identity changes nothing that is there, and unless its address or the default org's
      key is somebody else's it ends with the dev user in the default org. */
  lemma SeedDevSeeds(db: Tables)
    requires Constraints(db)
    ensures var after := AfterSeedDev(db);
            && OnlyAdds(db, after)
            && (forall k :: k in after.members && k !in db.members ==> after.members[k] == Owner && k.1 == 0xDE)
            && (after == db || DevSeeded(after))
            && ((0xDE in db.users || "dev@ippon.local" !in db.users.Values) && 0x06 !in db.orgs ==> DevSeeded(after))
            && (0xDE !in db.users && 0xDE in after.users ==> after.users[0xDE] == "dev@ippon.local")
  {
    var seeded := if DEV_USER_ID in db.users then db else db.(users := db.users[DEV_USER_ID := DEV_EMAIL]);
    SeedingSteps(seeded, DEV_ORG_SLUG, DEV_ORG_ID, DEV_USER_ID);
    var after := AfterSeedDev(db);
    if (DEV_USER_ID in db.users || DEV_EMAIL !in db.users.Values) && SeedOrg(seeded, DEV_ORG_SLUG, DEV_ORG_ID).Some? {
      var (withOrg, org) := SeedOrg(seeded, DEV_ORG_SLUG, DEV_ORG_ID).value;
      assert after == SeedOwner(withOrg, org, DEV_USER_ID) && after.orgs[org] == "default";
    }
  }

  /** Seeding it again changes nothing. */
  lemma SeedDevTwice(db: Tables)
    requires Inv(db)
    ensures AfterSeedDev(AfterSeedDev(db)) == AfterSeedDev(db)
  {
    var once := AfterSeedDev(db);
    ApplyInv(db, SeedDev);
    SeedDevSeeds(db);
    if once != db {
      SeededDevStays(once);
    }
  }

  lemma SeededDevStays(db: Tables)
    requires Constraints(db) && DevSeeded(db)
    ensures AfterSeedDev(db) == db
  {
    var org: OrgId :| org in db.orgs && db.orgs[org] == "default" && (org, 0xDE) in db.members;
    LookupUnique(db.orgs, org);
  }
}
