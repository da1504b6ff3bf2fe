/** Token authentication against the log of what was ever minted, revoked and deleted. */
module TokenLog {
  import opened Common
  import opened TokenFormat
  import opened Authority
  import opened Owners

  datatype Event =
    | Minted(id: TokenId, text: string, createdBy: UserId, org: OrgId, role: Role, expiresAt: Option<int>)
    | Revoked(id: TokenId)
    | OrgGone(org: OrgId)

  /** What an authorized request that succeeds adds to the log. */
  function EventsOf(a: Action, ctx: Context): seq<Event> {
    match a
    case CreateToken(_, role, expiresAt, newToken, prefix, secret) =>
      [Minted(newToken, PrintToken(prefix, secret), ctx.principal.user, ctx.org, role, expiresAt)]
    case RevokeToken(_, token) => [Revoked(token)]
    case DeleteOrg(_, _) => [OrgGone(ctx.org)]
    case _ => []
  }

  /** What a step adds to the log: successful mints, revocations and org deletions. */
  ghost function Logged(db: Tables, step: Step): seq<Event> {
    if !step.Request? || step.action.CreateOrg? || Serve(db, step.cred, step.action, step.now).1.Refused? then []
    else
      var p := PrincipalOf(db, step.cred, step.now).value;
      EventsOf(step.action, Gate(Stamped(db, step.cred, step.now), p, step.action.ref, MinimumRole(step.action)).value)
  }

  /** Entry `i` is a mint that nothing later in the log undid. */
  ghost predicate Standing(log: seq<Event>, i: int) {
    && 0 <= i < |log| && log[i].Minted?
    && (forall j :: i < j < |log| ==> log[j] != Revoked(log[i].id) && log[j] != OrgGone(log[i].org))
  }

  ghost predicate Records(e: Event, k: TokenId, row: TokenRow) {
    && e.Minted? && e.id == k
    && ParseToken(e.text) == Some((row.prefix, row.digest.preimage))
    && e.createdBy == row.createdBy && e.org == row.org && e.role == row.role && e.expiresAt == row.expiresAt
  }

  /** Some standing mint is the row's. */
  ghost predicate Vouched(log: seq<Event>, k: TokenId, row: TokenRow) {
    exists i :: VouchedAt(log, i, k, row)
  }

  ghost predicate VouchedAt(log: seq<Event>, i: int, k: TokenId, row: TokenRow) {
    Standing(log, i) && Records(log[i], k, row)
  }

  /** Unrevoked rows and standing mints are the same thing. */
  ghost predicate Agree(db: Tables, log: seq<Event>) {
    && (forall i :: Standing(log, i) ==>
          var k := log[i].id;
          k in db.tokens && db.tokens[k].revokedAt.None? && Records(log[i], k, db.tokens[k]))
    && (forall k :: k in db.tokens && db.tokens[k].revokedAt.None? ==> Vouched(log, k, db.tokens[k]))
  }

  lemma StandingLater(log: seq<Event>, e: Event, i: int)
    ensures Standing(log + [e], i) <==>
            (i < |log| && Standing(log, i) && e != Revoked(log[i].id) && e != OrgGone(log[i].org))
            || (i == |log| && e.Minted?)
  {
    var more := log + [e];
    if i < |log| && Standing(log, i) && e != Revoked(log[i].id) && e != OrgGone(log[i].org) {
      forall j | i < j < |more| ensures more[j] != Revoked(more[i].id) && more[j] != OrgGone(more[i].org) {
        if j < |log| {
          assert more[j] == log[j];
        }
      }
    }
    if Standing(more, i) && i < |log| {
      assert more[|log|] == e;
      forall j | i < j < |log| ensures log[j] != Revoked(log[i].id) && log[j] != OrgGone(log[i].org) {
        assert more[j] == log[j];
      }
    }
  }

  /** Rows may be stamped, and nothing else: the log still agrees. */
  lemma AgreeUpToStamp(db: Tables, after: Tables, log: seq<Event>)
    requires Agree(db, log)
    requires after.tokens.Keys == db.tokens.Keys
    requires forall k :: k in db.tokens ==> after.tokens[k].(lastUsedAt := None) == db.tokens[k].(lastUsedAt := None)
    ensures Agree(after, log)
  {
    forall k | k in after.tokens && after.tokens[k].revokedAt.None? ensures Vouched(log, k, after.tokens[k]) {
      assert db.tokens[k].revokedAt.None?;
      var i :| VouchedAt(log, i, k, db.tokens[k]);
      assert VouchedAt(log, i, k, after.tokens[k]);
    }
  }

  lemma MintAgrees(db: Tables, ctx: Context, a: Action, log: seq<Event>)
    requires Agree(db, log) && a.CreateToken?
    requires AfterCreateToken(db, ctx, a.role, a.expiresAt, a.newToken, a.prefix, a.secret).Ok?
    ensures Agree(AfterCreateToken(db, ctx, a.role, a.expiresAt, a.newToken, a.prefix, a.secret).value,
                  log + [Minted(a.newToken, PrintToken(a.prefix, a.secret), ctx.principal.user, ctx.org, a.role, a.expiresAt)])
  {
    var after := AfterCreateToken(db, ctx, a.role, a.expiresAt, a.newToken, a.prefix, a.secret).value;
    var e := Minted(a.newToken, PrintToken(a.prefix, a.secret), ctx.principal.user, ctx.org, a.role, a.expiresAt);
    var more := log + [e];
    MintedTokenParses(a.prefix, a.secret);
    forall i | Standing(more, i)
      ensures var k := more[i].id; k in after.tokens && after.tokens[k].revokedAt.None? && Records(more[i], k, after.tokens[k])
    {
      StandingLater(log, e, i);
    }
    forall k | k in after.tokens && after.tokens[k].revokedAt.None?
      ensures Vouched(more, k, after.tokens[k])
    {
      if k == a.newToken {
        StandingLater(log, e, |log|);
        assert VouchedAt(more, |log|, k, after.tokens[k]);
      } else {
        var i :| VouchedAt(log, i, k, db.tokens[k]);
        StandingLater(log, e, i);
        assert VouchedAt(more, i, k, after.tokens[k]);
      }
    }
  }

  /** Revoking one row, or dropping all rows of an org, removes the matching standing mints. */
  lemma UndoAgrees(db: Tables, after: Tables, e: Event, log: seq<Event>)
    requires Agree(db, log) && !e.Minted?
    requires forall k :: k in after.tokens && after.tokens[k].revokedAt.None? <==>
               k in db.tokens && db.tokens[k].revokedAt.None? && e != Revoked(k) && e != OrgGone(db.tokens[k].org)
    requires forall k :: k in after.tokens && after.tokens[k].revokedAt.None? ==> after.tokens[k] == db.tokens[k]
    ensures Agree(after, log + [e])
  {
    var more := log + [e];
    forall i | Standing(more, i)
      ensures var k := more[i].id; k in after.tokens && after.tokens[k].revokedAt.None? && Records(more[i], k, after.tokens[k])
    {
      StandingLater(log, e, i);
    }
    forall k | k in after.tokens && after.tokens[k].revokedAt.None?
      ensures Vouched(more, k, after.tokens[k])
    {
      assert k in db.tokens;
      var i :| VouchedAt(log, i, k, db.tokens[k]);
      StandingLater(log, e, i);
      assert VouchedAt(more, i, k, after.tokens[k]);
    }
  }

  lemma RevokeAgrees(db: Tables, ctx: Context, token: TokenId, now: int, log: seq<Event>)
    requires Agree(db, log) && AfterRevokeToken(db, ctx, token, now).Ok?
    ensures Agree(AfterRevokeToken(db, ctx, token, now).value, log + [Revoked(token)])
  {
    UndoAgrees(db, AfterRevokeToken(db, ctx, token, now).value, Revoked(token), log);
  }

  lemma DeleteAgrees(db: Tables, ctx: Context, log: seq<Event>)
    requires Agree(db, log)
    ensures Agree(AfterDeleteOrg(db, ctx, false).value, log + [OrgGone(ctx.org)])
  {
    UndoAgrees(db, AfterDeleteOrg(db, ctx, false).value, OrgGone(ctx.org), log);
  }

  lemma HandleAgrees(db: Tables, ctx: Context, a: Action, now: int, log: seq<Event>)
    requires Agree(db, log) && !a.CreateOrg? && Handle(db, ctx, a, now).Ok?
    ensures Agree(Handle(db, ctx, a, now).value, log + EventsOf(a, ctx))
  {
    if a.CreateToken? {
      MintAgrees(db, ctx, a, log);
    } else if a.RevokeToken? {
      RevokeAgrees(db, ctx, a.token, now, log);
    } else if a.DeleteOrg? {
      DeleteAgrees(db, ctx, log);
    } else {
      assert log + [] == log;
      AgreeUpToStamp(db, Handle(db, ctx, a, now).value, log);
    }
  }

  lemma SeedingKeepsTokens(db: Tables, step: Step)
    requires !step.Request?
    ensures Apply(db, step).tokens == db.tokens
  {
  }

  lemma StampAgrees(db: Tables, cred: Credential, now: int, log: seq<Event>)
    requires Agree(db, log)
    ensures Agree(Stamped(db, cred, now), log)
  {
    AgreeUpToStamp(db, Stamped(db, cred, now), log);
  }

  lemma CreateOrgAgrees(db: Tables, p: Principal, slug: string, newOrg: OrgId, log: seq<Event>)
    requires Agree(db, log) && AfterCreateOrg(db, p, slug, newOrg).Ok?
    ensures Agree(AfterCreateOrg(db, p, slug, newOrg).value, log)
  {
    AgreeUpToStamp(db, AfterCreateOrg(db, p, slug, newOrg).value, log);
  }

  lemma RequestAgrees(db: Tables, step: Step, log: seq<Event>)
    requires Agree(db, log) && step.Request?
    requires Serve(db, step.cred, step.action, step.now).1.Done?
    ensures Agree(Apply(db, step), log + Logged(db, step))
  {
    var (s, p) := (Stamped(db, step.cred, step.now), PrincipalOf(db, step.cred, step.now).value);
    StampAgrees(db, step.cred, step.now, log);
    if step.action.CreateOrg? {
      assert log + [] == log;
      CreateOrgAgrees(s, p, step.action.slug, step.action.newOrg, log);
    } else {
      HandleAgrees(s, Gate(s, p, step.action.ref, MinimumRole(step.action)).value, step.action, step.now, log);
    }
  }

  lemma StepAgrees(db: Tables, step: Step, log: seq<Event>)
    requires Agree(db, log)
    ensures Agree(Apply(db, step), log + Logged(db, step))
  {
    if step.Request? && Serve(db, step.cred, step.action, step.now).1.Done? {
      RequestAgrees(db, step, log);
    } else {
      assert log + [] == log;
      if !step.Request? {
        SeedingKeepsTokens(db, step);
      }
      AgreeUpToStamp(db, Apply(db, step), log);
    }
  }

  ghost function LogOf(db: Tables, steps: seq<Step>): seq<Event>
    decreases |steps|
  {
    if steps == [] then [] else Logged(db, steps[0]) + LogOf(Apply(db, steps[0]), steps[1..])
  }

  lemma {:induction false} RunAgrees(db: Tables, steps: seq<Step>, log: seq<Event>)
    requires Agree(db, log)
    ensures Agree(Run(db, steps), log + LogOf(db, steps))
    decreases |steps|
  {
    if steps == [] {
      assert log + [] == log;
    } else {
      var next, first := Apply(db, steps[0]), Logged(db, steps[0]);
      StepAgrees(db, steps[0], log);
      RunAgrees(next, steps[1..], log + first);
      Regroup(log, first, LogOf(next, steps[1..]));
    }
  }

  ghost predicate Unexpired(e: Event, now: int)
    requires e.Minted?
  {
    e.expiresAt.Some? ==> e.expiresAt.value > now
  }

  ghost predicate Proves(log: seq<Event>, i: int, text: string, now: int, p: Principal) {
    && Standing(log, i) && log[i].text == text && Unexpired(log[i], now)
    && p == TokenPrincipal(log[i].createdBy, log[i].org, log[i].role)
  }

  lemma AcceptedWasMinted(db: Tables, log: seq<Event>, text: string, now: int, p: Principal) returns (i: int)
    requires Agree(db, log) && PrincipalOf(db, Bearer(text), now) == Some(p)
    ensures Proves(log, i, text, now, p)
  {
    var k := AcceptedToken(db, text, now).value;
    i :| VouchedAt(log, i, k, db.tokens[k]);
    PrintParsedToken(text);
    PrintParsedToken(log[i].text);
  }

  lemma MintedIsAccepted(db: Tables, log: seq<Event>, i: int, text: string, now: int, p: Principal)
    requires Agree(db, log) && Constraints(db) && Proves(log, i, text, now, p)
    ensures PrincipalOf(db, Bearer(text), now) == Some(p)
  {
    assert Opens(db.tokens[log[i].id], text, now);
    assert AcceptedToken(db, text, now) == Some(log[i].id);
  }

  ghost predicate Proven(log: seq<Event>, text: string, now: int, p: Principal) {
    exists i :: Proves(log, i, text, now, p)
  }

  lemma LogDecides(db: Tables, log: seq<Event>, text: string, now: int, p: Principal)
    requires Agree(db, log) && Constraints(db)
    ensures PrincipalOf(db, Bearer(text), now) == Some(p) <==> Proven(log, text, now, p)
  {
    if PrincipalOf(db, Bearer(text), now) == Some(p) {
      var i := AcceptedWasMinted(db, log, text, now, p);
    } else if i :| Proves(log, i, text, now, p) {
      MintedIsAccepted(db, log, i, text, now, p);
    }
  }

  /** The main result: after any run from empty tables a bearer text authenticates exactly when some
      mint returned that very text and was neither revoked since, nor removed with its org, nor has
      expired; the principal is the creator, org and role fixed when it was minted. */
  lemma AuthenticationRefinesLog(steps: seq<Step>, text: string, now: int, p: Principal)
    ensures PrincipalOf(Run(EMPTY, steps), Bearer(text), now) == Some(p) <==> Proven(LogOf(EMPTY, steps), text, now, p)
  {
    RunAgrees(EMPTY, steps, []);
    assert [] + LogOf(EMPTY, steps) == LogOf(EMPTY, steps);
    RunInv(EMPTY, steps);
    LogDecides(Run(EMPTY, steps), LogOf(EMPTY, steps), text, now, p);
  }

  // ---- revoked tokens -------------------------------------------------------

  /** Entry `i` is a mint in an org not deleted since. */
  ghost predicate OrgStands(log: seq<Event>, i: int) {
    0 <= i < |log| && log[i].Minted? && forall j :: i < j < |log| ==> log[j] != OrgGone(log[i].org)
  }

  /** While its org stands, a minted row stays, revoked or not. */
  ghost predicate RowsStay(db: Tables, log: seq<Event>) {
    forall i :: OrgStands(log, i) ==> log[i].id in db.tokens && Records(log[i], log[i].id, db.tokens[log[i].id])
  }

  /** Org deleted after mint `i` and before mint `m`. */
  ghost predicate GoneBetween(log: seq<Event>, i: int, m: int) {
    0 <= i < |log| && log[i].Minted? && exists g :: i < g < m && g < |log| && log[g] == OrgGone(log[i].org)
  }

  /** One text is minted twice only if the first mint's org was deleted in between. */
  ghost predicate TextsFresh(log: seq<Event>) {
    forall i, m :: 0 <= i < m < |log| && log[i].Minted? && log[m].Minted? && log[i].text == log[m].text ==>
      GoneBetween(log, i, m)
  }

  ghost predicate Steady(db: Tables, log: seq<Event>) {
    RowsStay(db, log) && TextsFresh(log)
  }

  lemma OrgStandsLater(log: seq<Event>, e: Event, i: int)
    ensures OrgStands(log + [e], i) <==>
            (i < |log| && OrgStands(log, i) && e != OrgGone(log[i].org)) || (i == |log| && e.Minted?)
  {
    var more := log + [e];
    if i < |log| && OrgStands(more, i) {
      assert more[|log|] == e;
      forall j | i < j < |log| ensures log[j] != OrgGone(log[i].org) {
        assert more[j] == log[j];
      }
    }
  }

  /** A later entry that mints nothing, or a text not minted in a standing org, keeps texts fresh. */
  lemma TextsFreshLater(log: seq<Event>, e: Event)
    requires TextsFresh(log)
    requires e.Minted? ==> forall i :: OrgStands(log, i) ==> log[i].text != e.text
    ensures TextsFresh(log + [e])
  {
    var more := log + [e];
    forall i, m | 0 <= i < m < |more| && more[i].Minted? && more[m].Minted? && more[i].text == more[m].text
      ensures GoneBetween(more, i, m)
    {
      if m < |log| {
        assert more[i] == log[i] && more[m] == log[m];
        var g :| i < g < m && log[g] == OrgGone(log[i].org);
        assert more[g] == log[g];
      } else {
        assert !OrgStands(log, i);
        var g :| i < g < |log| && log[g] == OrgGone(log[i].org);
        assert more[g] == log[g];
      }
    }
  }

  /** Rows may be stamped or revoked, and added, but none goes that the entry does not delete. */
  lemma RowsStayLater(db: Tables, after: Tables, log: seq<Event>, e: Event)
    requires RowsStay(db, log)
    requires forall k :: k in db.tokens && e != OrgGone(db.tokens[k].org) ==>
               k in after.tokens && SameMint(db.tokens[k], after.tokens[k])
    requires e.Minted? ==> e.id in after.tokens && Records(e, e.id, after.tokens[e.id])
    ensures RowsStay(after, log + [e])
  {
    forall i | OrgStands(log + [e], i)
      ensures var k := (log + [e])[i].id; k in after.tokens && Records((log + [e])[i], k, after.tokens[k])
    {
      OrgStandsLater(log, e, i);
    }
  }

  ghost predicate SameMint(a: TokenRow, b: TokenRow) {
    a.(lastUsedAt := None, revokedAt := None) == b.(lastUsedAt := None, revokedAt := None)
  }

  /** No entry at all, and rows at most stamped. */
  lemma SteadySame(db: Tables, after: Tables, log: seq<Event>)
    requires Steady(db, log)
    requires forall k :: k in db.tokens ==> k in after.tokens && SameMint(db.tokens[k], after.tokens[k])
    ensures Steady(after, log)
  {
    forall i | OrgStands(log, i) ensures log[i].id in after.tokens && Records(log[i], log[i].id, after.tokens[log[i].id]) {
      assert SameMint(db.tokens[log[i].id], after.tokens[log[i].id]);
    }
  }

  lemma MintSteady(db: Tables, ctx: Context, a: Action, log: seq<Event>)
    requires Steady(db, log) && a.CreateToken?
    requires AfterCreateToken(db, ctx, a.role, a.expiresAt, a.newToken, a.prefix, a.secret).Ok?
    ensures Steady(AfterCreateToken(db, ctx, a.role, a.expiresAt, a.newToken, a.prefix, a.secret).value, log + EventsOf(a, ctx))
  {
    var e := EventsOf(a, ctx)[0];
    MintedTokenParses(a.prefix, a.secret);
    forall i | OrgStands(log, i) ensures log[i].text != e.text {
      assert Records(log[i], log[i].id, db.tokens[log[i].id]);
    }
    TextsFreshLater(log, e);
    RowsStayLater(db, AfterCreateToken(db, ctx, a.role, a.expiresAt, a.newToken, a.prefix, a.secret).value, log, e);
  }

  lemma RevokeSteady(db: Tables, ctx: Context, token: TokenId, now: int, log: seq<Event>)
    requires Steady(db, log) && AfterRevokeToken(db, ctx, token, now).Ok?
    ensures Steady(AfterRevokeToken(db, ctx, token, now).value, log + [Revoked(token)])
  {
    TextsFreshLater(log, Revoked(token));
    RowsStayLater(db, AfterRevokeToken(db, ctx, token, now).value, log, Revoked(token));
  }

  lemma DeleteSteady(db: Tables, ctx: Context, log: seq<Event>)
    requires Steady(db, log)
    ensures Steady(AfterDeleteOrg(db, ctx, false).value, log + [OrgGone(ctx.org)])
  {
    TextsFreshLater(log, OrgGone(ctx.org));
    RowsStayLater(db, AfterDeleteOrg(db, ctx, false).value, log, OrgGone(ctx.org));
  }

  lemma HandleSteady(db: Tables, ctx: Context, a: Action, now: int, log: seq<Event>)
    requires Steady(db, log) && !a.CreateOrg? && Handle(db, ctx, a, now).Ok?
    ensures Steady(Handle(db, ctx, a, now).value, log + EventsOf(a, ctx))
  {
    if a.CreateToken? {
      MintSteady(db, ctx, a, log);
    } else if a.RevokeToken? {
      RevokeSteady(db, ctx, a.token, now, log);
    } else if a.DeleteOrg? {
      DeleteSteady(db, ctx, log);
    } else {
      assert log + [] == log;
      SteadySame(db, Handle(db, ctx, a, now).value, log);
    }
  }

  lemma StepSteady(db: Tables, step: Step, log: seq<Event>)
    requires Steady(db, log)
    ensures Steady(Apply(db, step), log + Logged(db, step))
  {
    assert log + [] == log;
    if !step.Request? {
      SeedingKeepsTokens(db, step);
      SteadySame(db, Apply(db, step), log);
    } else if Serve(db, step.cred, step.action, step.now).1.Done? {
      var (s, p) := (Stamped(db, step.cred, step.now), PrincipalOf(db, step.cred, step.now).value);
      SteadySame(db, s, log);
      if step.action.CreateOrg? {
        SteadySame(s, Apply(db, step), log);
      } else {
        HandleSteady(s, Gate(s, p, step.action.ref, MinimumRole(step.action)).value, step.action, step.now, log);
      }
    }
  }

  lemma {:induction false} RunSteady(db: Tables, steps: seq<Step>, log: seq<Event>)
    requires Steady(db, log)
    ensures Steady(Run(db, steps), log + LogOf(db, steps))
    decreases |steps|
  {
    if steps == [] {
      assert log + [] == log;
    } else {
      var next, first := Apply(db, steps[0]), Logged(db, steps[0]);
      StepSteady(db, steps[0], log);
      RunSteady(next, steps[1..], log + first);
      Regroup(log, first, LogOf(next, steps[1..]));
    }
  }

  lemma Regroup(a: seq<Event>, b: seq<Event>, c: seq<Event>)
    ensures (a + b) + c == a + (b + c)
  {
  }

  /** After `i` its org was deleted, and then a mint returned the same text once more. */
  ghost predicate MintedAnew(log: seq<Event>, i: int) {
    0 <= i < |log| && log[i].Minted?
    && exists m :: i < m < |log| && log[m].Minted? && log[m].text == log[i].text && GoneBetween(log, i, m)
  }

  /** Once revoked, a token's text never authenticates again, in any run and with no assumption on
      what is minted, unless its org was deleted and after that a mint returned the very same text. */
  lemma RevokedNeverAgain(steps: seq<Step>, i: int, j: int, now: int)
    requires 0 <= i < j < |LogOf(EMPTY, steps)|
    requires LogOf(EMPTY, steps)[i].Minted? && LogOf(EMPTY, steps)[j] == Revoked(LogOf(EMPTY, steps)[i].id)
    ensures PrincipalOf(Run(EMPTY, steps), Bearer(LogOf(EMPTY, steps)[i].text), now).Some? ==>
              MintedAnew(LogOf(EMPTY, steps), i)
  {
    var log := LogOf(EMPTY, steps);
    RunSteady(EMPTY, steps, []);
    assert [] + log == log;
    var found := PrincipalOf(Run(EMPTY, steps), Bearer(log[i].text), now);
    if found.Some? {
      AuthenticationRefinesLog(steps, log[i].text, now, found.value);
      var m :| Proves(log, m, log[i].text, now, found.value);
      LaterMint(log, i, j, m);
    }
  }

  lemma StandingNotGone(log: seq<Event>, i: int, m: int)
    requires Standing(log, i)
    ensures !GoneBetween(log, i, m)
  {
  }

  lemma LaterMint(log: seq<Event>, i: int, j: int, m: int)
    requires TextsFresh(log) && 0 <= i < j < |log| && log[i].Minted? && log[j] == Revoked(log[i].id)
    requires Standing(log, m) && log[m].text == log[i].text
    ensures MintedAnew(log, i)
  {
    StandingNotGone(log, m, i);
    assert i < m && GoneBetween(log, i, m);
  }

  /** In particular never while its org stands. */
  lemma RevokedNeverWhileOrgStands(steps: seq<Step>, i: int, j: int, now: int)
    requires 0 <= i < j < |LogOf(EMPTY, steps)| && OrgStands(LogOf(EMPTY, steps), i)
    requires LogOf(EMPTY, steps)[j] == Revoked(LogOf(EMPTY, steps)[i].id)
    ensures PrincipalOf(Run(EMPTY, steps), Bearer(LogOf(EMPTY, steps)[i].text), now).None?
  {
    RevokedNeverAgain(steps, i, j, now);
  }
}
