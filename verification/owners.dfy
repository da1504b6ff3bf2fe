/** Every run keeps the tables consistent and every org owned. */
module Owners {
  import opened Common
  import opened TokenFormat
  import opened Authority

  ghost predicate References(db: Tables) {
    && (forall k :: k in db.members ==> k.0 in db.orgs && k.1 in db.users)
    && (forall t :: t in db.tokens ==> db.tokens[t].org in db.orgs && db.tokens[t].createdBy in db.users)
  }

  ghost predicate HasOwner(members: map<(OrgId, UserId), Role>, org: OrgId) {
    exists k :: k in members && k.0 == org && members[k] == Owner
  }

  ghost predicate EveryOrgOwned(db: Tables) {
    forall org :: org in db.orgs ==> HasOwner(db.members, org)
  }

  ghost predicate Inv(db: Tables) {
    Constraints(db) && References(db) && EveryOrgOwned(db)
  }

  lemma OwnersOfCounts(members: map<(OrgId, UserId), Role>, org: OrgId)
    ensures |OwnersOf(members, org)| >= 1 <==> HasOwner(members, org)
  {
    if k :| k in members && k.0 == org && members[k] == Owner {
      assert k in OwnersOf(members, org);
    }
    if |OwnersOf(members, org)| >= 1 {
      var k :| k in OwnersOf(members, org);
    }
  }

  /** With two owner rows, changing or deleting one of them leaves another. */
  lemma AnotherOwner(members: map<(OrgId, UserId), Role>, org: OrgId, k: (OrgId, UserId)) returns (other: (OrgId, UserId))
    requires |OwnersOf(members, org)| >= 2
    ensures other != k && other in members && other.0 == org && members[other] == Owner
  {
    var rest := OwnersOf(members, org) - {k};
    assert |rest| >= |OwnersOf(members, org)| - |{k}|;
    other :| other in rest;
  }

  /** If `k` is an owner row and there are fewer than two, it is the only one. */
  lemma OnlyOwner(members: map<(OrgId, UserId), Role>, org: OrgId, k: (OrgId, UserId))
    requires k in OwnersOf(members, org) && |OwnersOf(members, org)| <= 1
    ensures OwnersOf(members, org) == {k}
  {
    var rest := OwnersOf(members, org) - {k};
    assert |rest| == |OwnersOf(members, org)| - 1;
    assert OwnersOf(members, org) == rest + {k};
  }

  /** For a caller who may touch owners, both handlers refuse with a conflict exactly when
      carrying on would leave the org with no owner. */
  lemma LastOwnerGuardExact(db: Tables, ctx: Context, user: UserId, role: Role)
    requires Inv(db) && ctx.role == Owner && (ctx.org, user) in db.members
    ensures AfterUpdateMember(db, ctx, user, role) == Err(CONFLICT)
       <==> !HasOwner(db.members[(ctx.org, user) := role], ctx.org)
    ensures AfterRemoveMember(db, ctx, user) == Err(CONFLICT)
       <==> !HasOwner(db.members - {(ctx.org, user)}, ctx.org)
  {
    var k := (ctx.org, user);
    var owners := OwnersOf(db.members, ctx.org);
    if db.members[k] == Owner {
      assert k in owners;
      if |owners| >= 2 {
        var other := AnotherOwner(db.members, ctx.org, k);
        assert other in db.members[k := role] && other in db.members - {k};
      } else {
        OnlyOwner(db.members, ctx.org, k);
        forall j | j in db.members && j != k && j.0 == ctx.org ensures db.members[j] != Owner {
          assert j !in owners;
        }
        if role == Owner {
          assert k in db.members[k := role];
        }
      }
    } else {
      var j :| j in db.members && j.0 == ctx.org && db.members[j] == Owner;
      assert j in db.members[k := role] && j in db.members - {k};
    }
  }

  // ---- each transaction keeps the invariant ---------------------------------

  lemma StampedInv(db: Tables, cred: Credential, now: int)
    requires Inv(db)
    ensures Inv(Stamped(db, cred, now))
    ensures Stamped(db, cred, now).members == db.members && Stamped(db, cred, now).orgs == db.orgs
  {
  }

  lemma CreateOrgInv(db: Tables, p: Principal, slug: string, newOrg: OrgId)
    requires Inv(db) && AfterCreateOrg(db, p, slug, newOrg).Ok?
    ensures Inv(AfterCreateOrg(db, p, slug, newOrg).value)
  {
    var after := AfterCreateOrg(db, p, slug, newOrg).value;
    assert (newOrg, p.user) in after.members;
    forall org | org in db.orgs ensures HasOwner(after.members, org) {
      var k :| k in db.members && k.0 == org && db.members[k] == Owner;
      assert k in after.members && after.members[k] == Owner;
    }
  }

  lemma DeleteOrgInv(db: Tables, ctx: Context)
    requires Inv(db)
    ensures Inv(AfterDeleteOrg(db, ctx, false).value)
  {
  }

  lemma AddMemberInv(db: Tables, ctx: Context, email: string, role: Role, newUser: UserId)
    requires Inv(db) && ctx.org in db.orgs && AfterAddMember(db, ctx, email, role, newUser).Ok?
    ensures Inv(AfterAddMember(db, ctx, email, role, newUser).value)
  {
    var after := AfterAddMember(db, ctx, email, role, newUser).value;
    forall org | org in after.orgs ensures HasOwner(after.members, org) {
      var k :| k in db.members && k.0 == org && db.members[k] == Owner;
      assert k in after.members;
    }
  }

  lemma UpdateMemberInv(db: Tables, ctx: Context, user: UserId, role: Role)
    requires Inv(db) && AfterUpdateMember(db, ctx, user, role).Ok?
    ensures Inv(AfterUpdateMember(db, ctx, user, role).value)
  {
    var after := AfterUpdateMember(db, ctx, user, role).value;
    var k := (ctx.org, user);
    forall org | org in after.orgs ensures HasOwner(after.members, org) {
      var j :| j in db.members && j.0 == org && db.members[j] == Owner;
      if j == k && role != Owner {
        var other := AnotherOwner(db.members, ctx.org, k);
        assert other in after.members;
      } else {
        assert j in after.members && after.members[j] == Owner;
      }
    }
  }

  lemma RemoveMemberInv(db: Tables, ctx: Context, user: UserId)
    requires Inv(db) && AfterRemoveMember(db, ctx, user).Ok?
    ensures Inv(AfterRemoveMember(db, ctx, user).value)
  {
    var after := AfterRemoveMember(db, ctx, user).value;
    var k := (ctx.org, user);
    forall org | org in after.orgs ensures HasOwner(after.members, org) {
      var j :| j in db.members && j.0 == org && db.members[j] == Owner;
      if j == k {
        var other := AnotherOwner(db.members, ctx.org, k);
        assert other in after.members;
      } else {
        assert j in after.members;
      }
    }
  }

  lemma CreateTokenInv(db: Tables, ctx: Context, role: Role, expiresAt: Option<int>, newToken: TokenId,
                       prefix: MintedPrefix, secret: MintedSecret)
    requires Inv(db) && ctx.org in db.orgs && AfterCreateToken(db, ctx, role, expiresAt, newToken, prefix, secret).Ok?
    ensures Inv(AfterCreateToken(db, ctx, role, expiresAt, newToken, prefix, secret).value)
  {
  }

  lemma RevokeTokenInv(db: Tables, ctx: Context, token: TokenId, now: int)
    requires Inv(db) && AfterRevokeToken(db, ctx, token, now).Ok?
    ensures Inv(AfterRevokeToken(db, ctx, token, now).value)
  {
  }

  lemma GateGrants(db: Tables, p: Principal, ref: OrgRef, minimum: Role)
    requires Gate(db, p, ref, minimum).Ok?
    ensures var ctx := Gate(db, p, ref, minimum).value;
            && ctx.org in db.orgs && ctx.principal == p && RoleAtLeast(ctx.role, minimum)
            && (p.UserPrincipal? ==> (ctx.org, p.user) in db.members && ctx.role == db.members[(ctx.org, p.user)])
            && (p.TokenPrincipal? ==> ctx.org == p.org && ctx.role == p.role)
  {
  }

  lemma HandleInv(db: Tables, ctx: Context, a: Action, now: int)
    requires Inv(db) && !a.CreateOrg? && ctx.org in db.orgs && Handle(db, ctx, a, now).Ok?
    ensures Inv(Handle(db, ctx, a, now).value)
  {
    match a
    case DeleteOrg(_, _) => DeleteOrgInv(db, ctx);
    case AddMember(_, email, role, newUser) => AddMemberInv(db, ctx, email, role, newUser);
    case UpdateMember(_, user, role) => UpdateMemberInv(db, ctx, user, role);
    case RemoveMember(_, user) => RemoveMemberInv(db, ctx, user);
    case CreateToken(_, role, expiresAt, newToken, prefix, secret) =>
      CreateTokenInv(db, ctx, role, expiresAt, newToken, prefix, secret);
    case RevokeToken(_, token) => RevokeTokenInv(db, ctx, token, now);
    case ReadOrg(_) =>
  }

  lemma ServeInv(db: Tables, cred: Credential, a: Action, now: int)
    requires Inv(db)
    ensures Inv(Serve(db, cred, a, now).0)
  {
    StampedInv(db, cred, now);
    var s := Stamped(db, cred, now);
    if PrincipalOf(db, cred, now).Some? {
      var p := PrincipalOf(db, cred, now).value;
      if Perform(s, p, a, now).Ok? {
        if a.CreateOrg? {
          CreateOrgInv(s, p, a.slug, a.newOrg);
        } else {
          GateGrants(s, p, a.ref, MinimumRole(a));
          HandleInv(s, Gate(s, p, a.ref, MinimumRole(a)).value, a, now);
        }
      }
    }
  }

  /** A seeding path may leave a just-created org ownerless only until its owner row is added. */
  lemma SeedInv(db: Tables, slug: string, newOrg: OrgId, user: UserId)
    requires Inv(db) && user in db.users
    ensures SeedOrg(db, slug, newOrg).Some? ==>
              var (withOrg, org) := SeedOrg(db, slug, newOrg).value;
              Inv(SeedOwner(withOrg, org, user))
  {
    if SeedOrg(db, slug, newOrg).Some? {
      var (withOrg, org) := SeedOrg(db, slug, newOrg).value;
      var after := SeedOwner(withOrg, org, user);
      forall o | o in after.orgs ensures HasOwner(after.members, o) {
        if o in db.orgs {
          var k :| k in db.members && k.0 == o && db.members[k] == Owner;
          assert k in after.members && after.members[k] == Owner;
        } else {
          assert (o, user) !in db.members;
          assert (o, user) in after.members;
        }
      }
    }
  }

  lemma ApplyInv(db: Tables, step: Step)
    requires Inv(db)
    ensures Inv(Apply(db, step))
  {
    match step
    case Request(cred, action, now) => ServeInv(db, cred, action, now);
    case SeedDev =>
      var seeded := if DEV_USER_ID in db.users then db else db.(users := db.users[DEV_USER_ID := DEV_EMAIL]);
      if !(DEV_USER_ID !in db.users && DEV_EMAIL in db.users.Values) {
        assert Inv(seeded);
        SeedInv(seeded, DEV_ORG_SLUG, DEV_ORG_ID, DEV_USER_ID);
      }
    case Bootstrap(slug, email, newUser, newOrg) =>
      var address := NormalizeEmail(email);
      var found := Lookup(db.users, address);
      if !(found.None? && newUser in db.users) {
        var user := if found.Some? then found.value else newUser;
        var seeded := if found.Some? then db else db.(users := db.users[newUser := address]);
        assert Inv(seeded);
        SeedInv(seeded, slug, newOrg, user);
      }
  }

  lemma {:induction false} RunInv(db: Tables, steps: seq<Step>)
    requires Inv(db)
    ensures Inv(Run(db, steps))
    decreases |steps|
  {
    if steps != [] {
      ApplyInv(db, steps[0]);
      RunInv(Apply(db, steps[0]), steps[1..]);
    }
  }

  /** From empty tables, after any requests, seedings and bootstraps in any order, every org
      has an owner and the count the guards read is at least one. */
  lemma EveryOrgAlwaysOwned(steps: seq<Step>, org: OrgId)
    requires org in Run(EMPTY, steps).orgs
    ensures HasOwner(Run(EMPTY, steps).members, org)
    ensures |OwnersOf(Run(EMPTY, steps).members, org)| >= 1
    ensures References(Run(EMPTY, steps)) && Constraints(Run(EMPTY, steps))
  {
    RunInv(EMPTY, steps);
    OwnersOfCounts(Run(EMPTY, steps).members, org);
  }
}
