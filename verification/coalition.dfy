/** No coalition of callers can raise itself: pooling log-ins and tokens, and using the tokens it
    mints on the way, it never exceeds in an org the highest role it started with. */
module Coalition {
  import opened Common
  import opened TokenFormat
  import opened Authority
  import opened Owners

  /** Not revoked, and not already expired at `t`. */
  ghost predicate LiveAt(row: TokenRow, t: int) {
    row.revokedAt.None? && (row.expiresAt.Some? ==> row.expiresAt.value > t)
  }

  ghost predicate OpenedBy(row: TokenRow, text: string) {
    ParseToken(text) == Some((row.prefix, row.digest.preimage))
  }

  /** The coalition's highest role in `org` ranks at most `r`; `r == -1` is no role at all. */
  ghost predicate Bounded(db: Tables, crew: set<UserId>, held: set<string>, org: OrgId, r: int, t: int) {
    && (forall u :: u in crew && (org, u) in db.members ==> Rank(db.members[(org, u)]) <= r)
    && (forall k, text | k in db.tokens && text in held && OpenedBy(db.tokens[k], text) ::
          db.tokens[k].org == org && LiveAt(db.tokens[k], t) ==> Rank(db.tokens[k].role) <= r)
  }

  predicate Usable(crew: set<UserId>, held: set<string>, cred: Credential) {
    match cred
    case Login(user) => user in crew
    case Bearer(text) => text in held
  }

  /** Memberships of `org` above `r` are exactly the old ones; a live token above `r` is an old one
      (it may have been revoked meanwhile, never granted); and below owner the org cannot go away. */
  ghost predicate Keeps(before: Tables, after: Tables, org: OrgId, r: int, t: int) {
    && (r < Rank(Owner) && org in before.orgs ==> org in after.orgs)
    && (forall u :: (org, u) in before.members && Rank(before.members[(org, u)]) > r ==>
          (org, u) in after.members && after.members[(org, u)] == before.members[(org, u)])
    && (forall u :: (org, u) in after.members && Rank(after.members[(org, u)]) > r ==>
          (org, u) in before.members && before.members[(org, u)] == after.members[(org, u)])
    && (forall k :: k in after.tokens && after.tokens[k].org == org && Rank(after.tokens[k].role) > r
                    && LiveAt(after.tokens[k], t) ==>
          k in before.tokens && SameGrant(before.tokens[k], after.tokens[k]))
  }

  ghost predicate SameGrant(a: TokenRow, b: TokenRow) {
    a.(lastUsedAt := None) == b.(lastUsedAt := None)
  }

  lemma KeepsTransitive(a: Tables, b: Tables, c: Tables, org: OrgId, r: int, t: int)
    requires Keeps(a, b, org, r, t) && Keeps(b, c, org, r, t)
    ensures Keeps(a, c, org, r, t)
  {
  }

  /** Whatever the coalition is authorized as, its role in `org` is within the bound. */
  lemma CallerWithinBound(db: Tables, crew: set<UserId>, held: set<string>, org: OrgId, r: int, t: int,
                          cred: Credential, now: int, ref: OrgRef, minimum: Role)
    requires Bounded(db, crew, held, org, r, t) && Usable(crew, held, cred) && t <= now
    requires PrincipalOf(db, cred, now).Some?
    requires Gate(Stamped(db, cred, now), PrincipalOf(db, cred, now).value, ref, minimum).Ok?
    ensures var ctx := Gate(Stamped(db, cred, now), PrincipalOf(db, cred, now).value, ref, minimum).value;
            ctx.org == org ==> Rank(ctx.role) <= r
  {
    if cred.Bearer? {
      var k := AcceptedToken(db, cred.text, now).value;
      assert Opens(db.tokens[k], cred.text, now);
      assert LiveAt(db.tokens[k], t) && OpenedBy(db.tokens[k], cred.text);
    }
  }

  /** Below admin no route changes anything in the org, so nothing at all may move. */
  function Ceiling(r: int): int {
    if r < Rank(Admin) then -1 else r
  }

  /** A new membership is put where there was none; nothing else moves but, perhaps, a user row. */
  lemma AddMemberEffect(db: Tables, ctx: Context, email: string, role: Role, newUser: UserId) returns (user: UserId)
    requires AfterAddMember(db, ctx, email, role, newUser).Ok?
    ensures var after := AfterAddMember(db, ctx, email, role, newUser).value;
            && (ctx.org, user) !in db.members && after.members == db.members[(ctx.org, user) := role]
            && after.orgs == db.orgs && after.tokens == db.tokens && (role == Owner ==> ctx.role == Owner)
  {
    match Lookup(db.users, NormalizeEmail(email))
    case Some(found) => user := found;
    case None => user := newUser;
  }

  lemma AddMemberKeeps(db: Tables, ctx: Context, email: string, role: Role, newUser: UserId, org: OrgId, r: int, t: int)
    requires AfterAddMember(db, ctx, email, role, newUser).Ok?
    requires ctx.org == org ==> Rank(Admin) <= Rank(ctx.role) <= r
    ensures Keeps(db, AfterAddMember(db, ctx, email, role, newUser).value, org, r, t)
  {
    var user := AddMemberEffect(db, ctx, email, role, newUser);
  }

  lemma UpdateMemberKeeps(db: Tables, ctx: Context, user: UserId, role: Role, org: OrgId, r: int, t: int)
    requires AfterUpdateMember(db, ctx, user, role).Ok?
    requires ctx.org == org ==> Rank(Admin) <= Rank(ctx.role) <= r
    ensures Keeps(db, AfterUpdateMember(db, ctx, user, role).value, org, r, t)
  {
  }

  lemma RemoveMemberKeeps(db: Tables, ctx: Context, user: UserId, org: OrgId, r: int, t: int)
    requires AfterRemoveMember(db, ctx, user).Ok?
    requires ctx.org == org ==> Rank(Admin) <= Rank(ctx.role) <= r
    ensures Keeps(db, AfterRemoveMember(db, ctx, user).value, org, r, t)
  {
  }

  lemma MintKeeps(db: Tables, ctx: Context, role: Role, expiresAt: Option<int>, newToken: TokenId,
                  prefix: MintedPrefix, secret: MintedSecret, org: OrgId, r: int, t: int)
    requires AfterCreateToken(db, ctx, role, expiresAt, newToken, prefix, secret).Ok?
    requires ctx.org == org ==> Rank(ctx.role) <= r
    ensures Keeps(db, AfterCreateToken(db, ctx, role, expiresAt, newToken, prefix, secret).value, org, r, t)
  {
  }

  lemma RevokeKeeps(db: Tables, ctx: Context, token: TokenId, now: int, org: OrgId, r: int, t: int)
    requires AfterRevokeToken(db, ctx, token, now).Ok?
    ensures Keeps(db, AfterRevokeToken(db, ctx, token, now).value, org, r, t)
  {
  }

  lemma CreateOrgKeeps(db: Tables, p: Principal, slug: string, newOrg: OrgId, org: OrgId, r: int, t: int)
    requires AfterCreateOrg(db, p, slug, newOrg).Ok?
    requires org in db.orgs || Rank(Owner) <= r
    ensures Keeps(db, AfterCreateOrg(db, p, slug, newOrg).value, org, r, t)
  {
  }

  lemma DeleteOrgKeeps(db: Tables, ctx: Context, org: OrgId, r: int, t: int)
    requires ctx.org == org ==> ctx.role == Owner && Rank(ctx.role) <= r
    ensures Keeps(db, AfterDeleteOrg(db, ctx, false).value, org, r, t)
  {
  }

  lemma HandleKeeps(db: Tables, ctx: Context, a: Action, now: int, org: OrgId, r: int, t: int)
    requires !a.CreateOrg? && Handle(db, ctx, a, now).Ok? && RoleAtLeast(ctx.role, MinimumRole(a))
    requires ctx.org == org ==> Rank(ctx.role) <= r
    ensures Keeps(db, Handle(db, ctx, a, now).value, org, Ceiling(r), t)
  {
    var q := Ceiling(r);
    match a
    case DeleteOrg(_, _) => DeleteOrgKeeps(db, ctx, org, q, t);
    case AddMember(_, email, role, newUser) => AddMemberKeeps(db, ctx, email, role, newUser, org, q, t);
    case UpdateMember(_, user, role) => UpdateMemberKeeps(db, ctx, user, role, org, q, t);
    case RemoveMember(_, user) => RemoveMemberKeeps(db, ctx, user, org, q, t);
    case CreateToken(_, role, expiresAt, newToken, prefix, secret) =>
      MintKeeps(db, ctx, role, expiresAt, newToken, prefix, secret, org, q, t);
    case RevokeToken(_, token) => RevokeKeeps(db, ctx, token, now, org, q, t);
    case ReadOrg(_) =>
  }

  lemma PerformKeeps(db: Tables, p: Principal, a: Action, now: int, org: OrgId, r: int, t: int)
    requires Perform(db, p, a, now).Ok?
    requires org in db.orgs || Rank(Owner) <= r
    requires !a.CreateOrg? ==> var ctx := Gate(db, p, a.ref, MinimumRole(a)).value;
                               ctx.org == org ==> Rank(ctx.role) <= r
    ensures Keeps(db, Perform(db, p, a, now).value, org, Ceiling(r), t)
  {
    if a.CreateOrg? {
      CreateOrgKeeps(db, p, a.slug, a.newOrg, org, Ceiling(r), t);
    } else {
      GateGrants(db, p, a.ref, MinimumRole(a));
      HandleKeeps(db, Gate(db, p, a.ref, MinimumRole(a)).value, a, now, org, r, t);
    }
  }

  // ---- below admin ----------------------------------------------------------

  /** The org, its memberships and its tokens are as they were; a token may have been used. */
  ghost predicate Untouched(before: Tables, after: Tables, org: OrgId) {
    && (org in before.orgs <==> org in after.orgs)
    && (forall u :: (org, u) in before.members <==> (org, u) in after.members)
    && (forall u :: (org, u) in before.members ==> after.members[(org, u)] == before.members[(org, u)])
    && (forall k :: k in before.tokens && before.tokens[k].org == org ==>
          k in after.tokens && SameGrant(before.tokens[k], after.tokens[k]))
    && (forall k :: k in after.tokens && after.tokens[k].org == org ==>
          k in before.tokens && SameGrant(before.tokens[k], after.tokens[k]))
  }

  lemma UntouchedTransitive(a: Tables, b: Tables, c: Tables, org: OrgId)
    requires Untouched(a, b, org) && Untouched(b, c, org)
    ensures Untouched(a, c, org)
  {
    forall k | k in a.tokens && a.tokens[k].org == org ensures k in c.tokens && SameGrant(a.tokens[k], c.tokens[k]) {
      assert SameGrant(a.tokens[k], b.tokens[k]);
    }
    forall k | k in c.tokens && c.tokens[k].org == org ensures k in a.tokens && SameGrant(a.tokens[k], c.tokens[k]) {
      assert SameGrant(b.tokens[k], c.tokens[k]);
    }
  }

  lemma StampedUntouched(db: Tables, cred: Credential, now: int, org: OrgId)
    ensures Untouched(db, Stamped(db, cred, now), org)
  {
  }

  /** A handler writes nothing outside the org it was authorized in. */
  lemma OtherOrgUntouched(db: Tables, ctx: Context, a: Action, now: int, org: OrgId)
    requires !a.CreateOrg? && Handle(db, ctx, a, now).Ok? && ctx.org != org
    ensures Untouched(db, Handle(db, ctx, a, now).value, org)
  {
    if a.AddMember? {
      var user := AddMemberEffect(db, ctx, a.email, a.role, a.newUser);
    }
  }

  /** Every route that writes in an org asks for an admin at least. */
  lemma HandleUntouched(db: Tables, ctx: Context, a: Action, now: int, org: OrgId)
    requires !a.CreateOrg? && Handle(db, ctx, a, now).Ok? && RoleAtLeast(ctx.role, MinimumRole(a))
    requires ctx.org == org ==> Rank(ctx.role) < Rank(Admin)
    ensures Untouched(db, Handle(db, ctx, a, now).value, org)
  {
    if ctx.org != org {
      OtherOrgUntouched(db, ctx, a, now, org);
    } else {
      assert a.ReadOrg?;
    }
  }

  lemma CreateOrgUntouched(db: Tables, p: Principal, slug: string, newOrg: OrgId, org: OrgId)
    requires AfterCreateOrg(db, p, slug, newOrg).Ok? && org in db.orgs
    ensures Untouched(db, AfterCreateOrg(db, p, slug, newOrg).value, org)
  {
  }

  lemma PerformUntouched(db: Tables, p: Principal, a: Action, now: int, org: OrgId)
    requires Perform(db, p, a, now).Ok? && org in db.orgs
    requires !a.CreateOrg? ==> var ctx := Gate(db, p, a.ref, MinimumRole(a)).value;
                               ctx.org == org ==> Rank(ctx.role) < Rank(Admin)
    ensures Untouched(db, Perform(db, p, a, now).value, org)
  {
    if a.CreateOrg? {
      CreateOrgUntouched(db, p, a.slug, a.newOrg, org);
    } else {
      GateGrants(db, p, a.ref, MinimumRole(a));
      HandleUntouched(db, Gate(db, p, a.ref, MinimumRole(a)).value, a, now, org);
    }
  }

  /** One call of a coalition without an admin leaves the org untouched. */
  lemma RequestUntouched(db: Tables, crew: set<UserId>, held: set<string>, org: OrgId, r: int, t: int,
                         cred: Credential, a: Action, now: int)
    requires Bounded(db, crew, held, org, r, t) && Usable(crew, held, cred) && t <= now
    requires r < Rank(Admin) && org in db.orgs
    ensures Untouched(db, Serve(db, cred, a, now).0, org)
  {
    if PrincipalOf(db, cred, now).Some? {
      var s := Stamped(db, cred, now);
      var p := PrincipalOf(db, cred, now).value;
      if Perform(s, p, a, now).Ok? {
        if !a.CreateOrg? {
          CallerWithinBound(db, crew, held, org, r, t, cred, now, a.ref, MinimumRole(a));
        }
        StampedUntouched(db, cred, now, org);
        PerformUntouched(s, p, a, now, org);
        UntouchedTransitive(db, s, Serve(db, cred, a, now).0, org);
      }
    }
  }

  ghost function HeldAfter(held: set<string>, reply: Reply): set<string> {
    if reply.Done? && reply.text.Some? then held + {reply.text.value} else held
  }

  lemma StampedKeeps(db: Tables, cred: Credential, now: int, org: OrgId, r: int, t: int)
    ensures Keeps(db, Stamped(db, cred, now), org, r, t)
    ensures Stamped(db, cred, now).orgs == db.orgs
  {
  }

  lemma RequestKeeps(db: Tables, crew: set<UserId>, held: set<string>, org: OrgId, r: int, t: int,
                     cred: Credential, a: Action, now: int)
    requires Bounded(db, crew, held, org, r, t) && Usable(crew, held, cred) && t <= now
    requires org in db.orgs || Rank(Owner) <= r
    ensures Keeps(db, Serve(db, cred, a, now).0, org, Ceiling(r), t)
  {
    if PrincipalOf(db, cred, now).Some? {
      var s := Stamped(db, cred, now);
      var p := PrincipalOf(db, cred, now).value;
      if Perform(s, p, a, now).Ok? {
        if !a.CreateOrg? {
          CallerWithinBound(db, crew, held, org, r, t, cred, now, a.ref, MinimumRole(a));
        }
        PerformKeeps(s, p, a, now, org, r, t);
        StampedKeeps(db, cred, now, org, Ceiling(r), t);
        KeepsTransitive(db, s, Serve(db, cred, a, now).0, org, Ceiling(r), t);
      }
    }
  }

  /** A token shown by a mint carries a prefix no other row has. */
  lemma ShownTokenIsNew(db: Tables, cred: Credential, a: Action, now: int, k: TokenId)
    requires Serve(db, cred, a, now).1.Done? && Serve(db, cred, a, now).1.text.Some?
    requires k in db.tokens
    ensures !OpenedBy(db.tokens[k], Serve(db, cred, a, now).1.text.value)
  {
    MintedTokenParses(a.prefix, a.secret);
    var s := Stamped(db, cred, now);
    assert s.tokens[k].prefix == db.tokens[k].prefix;
  }

  lemma RequestBounded(db: Tables, crew: set<UserId>, held: set<string>, org: OrgId, r: int, t: int,
                       cred: Credential, a: Action, now: int)
    requires Bounded(db, crew, held, org, r, t) && -1 <= r
    requires Keeps(db, Serve(db, cred, a, now).0, org, Ceiling(r), t)
    ensures var (after, reply) := Serve(db, cred, a, now);
            Bounded(after, crew, HeldAfter(held, reply), org, r, t)
  {
    var (after, reply) := Serve(db, cred, a, now);
    forall k, text | k in after.tokens && text in HeldAfter(held, reply) && after.tokens[k].org == org
                     && LiveAt(after.tokens[k], t) && OpenedBy(after.tokens[k], text)
      ensures Rank(after.tokens[k].role) <= r
    {
      if Rank(after.tokens[k].role) > r {
        assert SameGrant(db.tokens[k], after.tokens[k]);
        assert LiveAt(db.tokens[k], t) && OpenedBy(db.tokens[k], text);
        if text !in held {
          ShownTokenIsNew(db, cred, a, now, k);
        }
        assert false;
      }
    }
  }

  // ---- whole runs -----------------------------------------------------------

  datatype Call = Call(cred: Credential, action: Action, now: int)

  /** Every call uses a credential the coalition has by then, and the clock never goes below `t`. */
  ghost predicate CoalitionRun(db: Tables, crew: set<UserId>, held: set<string>, calls: seq<Call>, t: int)
    decreases |calls|
  {
    calls == [] ||
    (var c := calls[0];
     var (after, reply) := Serve(db, c.cred, c.action, c.now);
     && Usable(crew, held, c.cred) && t <= c.now
     && CoalitionRun(after, crew, HeldAfter(held, reply), calls[1..], t))
  }

  ghost function Outcome(db: Tables, held: set<string>, calls: seq<Call>): (Tables, set<string>)
    decreases |calls|
  {
    if calls == [] then (db, held)
    else
      var c := calls[0];
      var (after, reply) := Serve(db, c.cred, c.action, c.now);
      Outcome(after, HeldAfter(held, reply), calls[1..])
  }

  /** The main result: over any run of its own calls a coalition bounded by `r` stays bounded by
      `r`, adds or removes no membership above `r`, and brings about no live token above `r`; without
      an admin it leaves the org, its memberships and all its tokens, live or not, exactly as they
      were but for when a token was last used. (At owner the bound is the top, so the org itself may
      then be gone.) */
  lemma {:induction false} NoEscalation(db: Tables, crew: set<UserId>, held: set<string>, calls: seq<Call>,
                                        org: OrgId, r: int, t: int)
    requires Bounded(db, crew, held, org, r, t) && -1 <= r
    requires CoalitionRun(db, crew, held, calls, t)
    requires org in db.orgs || Rank(Owner) <= r
    ensures var (after, heldAfter) := Outcome(db, held, calls);
            && Bounded(after, crew, heldAfter, org, r, t) && Keeps(db, after, org, Ceiling(r), t)
            && (r < Rank(Admin) ==> Untouched(db, after, org))
    decreases |calls|
  {
    if calls != [] {
      var c := calls[0];
      var (after, reply) := Serve(db, c.cred, c.action, c.now);
      RequestKeeps(db, crew, held, org, r, t, c.cred, c.action, c.now);
      RequestBounded(db, crew, held, org, r, t, c.cred, c.action, c.now);
      NoEscalation(after, crew, HeldAfter(held, reply), calls[1..], org, r, t);
      KeepsTransitive(db, after, Outcome(db, held, calls).0, org, Ceiling(r), t);
      if r < Rank(Admin) {
        RequestUntouched(db, crew, held, org, r, t, c.cred, c.action, c.now);
        UntouchedTransitive(db, after, Outcome(db, held, calls).0, org);
      }
    }
  }
}
