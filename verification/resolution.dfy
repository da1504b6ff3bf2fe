/** Scan-target resolution behaves like a pure function of the connections operators made. */
module Resolution {
  import opened Common
  import opened Text
  import opened Sources

  lemma AbsentCharacter(s: string, sub: string, c: char)
    requires c in sub && c !in s
    ensures !Contains(s, sub)
  {
  }

  /** The host names of the three clouds, and what they do not contain. */
  lemma GithubHost()
    ensures ProviderForHost("github.com") == Github
  {
    var h := "github.com";
    assert Lower(h) == h;
    AbsentCharacter(h, "gitlab", 'l');
    AbsentCharacter(h, "dev.azure.com", 'v');
    AbsentCharacter(h, "visualstudio.com", 'v');
  }

  lemma AzureHost()
    ensures ProviderForHost("dev.azure.com") == AzureDevops
  {
    var h := "dev.azure.com";
    assert Lower(h) == h && h[0..] == h;
    AbsentCharacter(h, "gitlab", 'g');
    assert "dev.azure.com" <= h[0..];
  }

  lemma GitlabHost()
    ensures ProviderForHost("gitlab.com") == Gitlab
  {
    var h := "gitlab.com";
    assert Lower(h) == h;
    assert "gitlab" <= h[0..];
  }

  /** A provider's cloud host is recognised as that provider's. */
  lemma CloudHostRecognised(p: Provider)
    ensures ProviderForHost(CloudHost(p)) == p
  {
    match p
    case Gitlab => GitlabHost();
    case Github => GithubHost();
    case AzureDevops => AzureHost();
  }

  // ---- resolution as a pure function of the operators' connections ----------

  /** The anonymous fallback of a provider; an admin may have given it a webhook secret since. */
  ghost predicate IsFallback(c: Conn, org: OrgId, p: Provider) {
    FallbackConn(org, p) == c.(webhookBlob := None, kid := None)
  }

  /** The only rows named `default-...` are the anonymous fallbacks. */
  ghost predicate OperatorsAvoidDefault(t: Tables) {
    forall i :: i in t.conns && NamedDefault(t.conns[i]) ==> IsFallback(t.conns[i], t.conns[i].org, t.conns[i].provider)
  }

  ghost function OperatorConns(t: Tables, org: OrgId): map<ConnId, Conn> {
    map i | i in t.conns && t.conns[i].org == org && !NamedDefault(t.conns[i]) :: t.conns[i]
  }

  ghost predicate Serves(c: Conn, host: string) {
    host != "" && ConnectionHost(c) == Some(host)
  }

  datatype Choice = Operator(id: ConnId) | Several | Anonymous(provider: Provider) | BadUrl

  ghost function Serving(operators: map<ConnId, Conn>, host: string): set<ConnId> {
    set i | i in operators && Serves(operators[i], host)
  }

  /** What an organisation's operators mean by a host, whatever rows resolution itself has made. */
  ghost function Intended(operators: map<ConnId, Conn>, host: string): Choice {
    var serving := Serving(operators, host);
    if exists i :: i in operators && ConnectionHost(operators[i]).None? then BadUrl
    else if |serving| == 1 then (var i :| i in serving; Operator(i))
    else if |serving| > 1 then Several
    else Anonymous(ProviderForHost(host))
  }

  ghost predicate NoRepeats(s: seq<ConnId>) {
    forall i, j :: 0 <= i < j < |s| ==> s[i] != s[j]
  }

  /** Filtering keeps a listing free of repeats. */
  lemma {:induction false} FiltersKeepDistinct(conns: map<ConnId, Conn>, rows: seq<ConnId>, host: string)
    requires NoRepeats(rows) && forall id :: id in rows ==> id in conns
    ensures NoRepeats(Matching(conns, rows, host))
  {
    if rows != [] {
      FiltersKeepDistinct(conns, rows[1..], host);
    }
  }

  lemma {:induction false} RealKeepsDistinct(conns: map<ConnId, Conn>, matches: seq<ConnId>)
    requires NoRepeats(matches) && forall id :: id in matches ==> id in conns
    ensures NoRepeats(Real(conns, matches))
  {
    if matches != [] {
      RealKeepsDistinct(conns, matches[1..]);
    }
  }

  lemma {:induction false} DistinctLength(s: seq<ConnId>, elements: set<ConnId>)
    requires NoRepeats(s) && forall id :: id in s <==> id in elements
    ensures |s| == |elements|
  {
    if s == [] {
      assert elements == {};
    } else {
      assert forall id :: id in s[1..] <==> id in elements - {s[0]};
      DistinctLength(s[1..], elements - {s[0]});
    }
  }

  /** Two fallback rows serving one host are the same row. */
  lemma OneFallbackPerHost(t: Tables, org: OrgId, i: ConnId, j: ConnId, host: string)
    requires UniqueNames(t.conns) && OperatorsAvoidDefault(t)
    requires i in t.conns && j in t.conns && t.conns[i].org == org && t.conns[j].org == org
    requires NamedDefault(t.conns[i]) && NamedDefault(t.conns[j])
    requires Serves(t.conns[i], host) && Serves(t.conns[j], host)
    ensures i == j && IsFallback(t.conns[i], org, ProviderForHost(host))
  {
    CloudHostRecognised(t.conns[i].provider);
    CloudHostRecognised(t.conns[j].provider);
  }

  // ---- selection, by sets ---------------------------------------------------

  ghost function Hits(t: Tables, org: OrgId, host: string): set<ConnId> {
    set i | i in t.conns && t.conns[i].org == org && Serves(t.conns[i], host)
  }

  ghost function RealHits(t: Tables, org: OrgId, host: string): set<ConnId> {
    set i | i in Hits(t, org, host) && !NamedDefault(t.conns[i])
  }

  ghost predicate SomeBadUrl(t: Tables, org: OrgId) {
    exists i :: i in t.conns && t.conns[i].org == org && ConnectionHost(t.conns[i]).None?
  }

  /** `x` is the one element of `s`. */
  ghost predicate Only(s: set<ConnId>, x: ConnId) {
    s == {x}
  }

  /** Selection depends on the rows as a set: listing them in another order changes nothing. */
  lemma SelectBySets(t: Tables, org: OrgId, rows: seq<ConnId>, host: string)
    requires Lists(t, org, rows)
    ensures var r, hits, chosen := Select(t.conns, rows, host), Hits(t, org, host), RealHits(t, org, host);
            && (r == Err(ValueError) <==> SomeBadUrl(t, org))
            && (r == Err(Ambiguous) <==> !SomeBadUrl(t, org) && |chosen| > 1)
            && (r == Ok(None) <==> !SomeBadUrl(t, org) && |chosen| == 0 && |hits| != 1)
            && (r.Ok? && r.value.Some? <==> !SomeBadUrl(t, org) && (|chosen| == 1 || (|chosen| == 0 && |hits| == 1)))
            && (r.Ok? && r.value.Some? && |chosen| == 1 ==> Only(chosen, r.value.value))
            && (r.Ok? && r.value.Some? && |chosen| == 0 ==> Only(hits, r.value.value))
  {
    var matches := Matching(t.conns, rows, host);
    var chosen := Real(t.conns, matches);
    FiltersKeepDistinct(t.conns, rows, host);
    RealKeepsDistinct(t.conns, matches);
    DistinctLength(matches, Hits(t, org, host));
    DistinctLength(chosen, RealHits(t, org, host));
    if SomeBadUrl(t, org) {
      var i :| i in t.conns && t.conns[i].org == org && ConnectionHost(t.conns[i]).None?;
      assert i in rows;
    }
    if |chosen| == 1 {
      assert chosen[0] in RealHits(t, org, host);
      SingletonSet(RealHits(t, org, host), chosen[0]);
    }
    if |matches| == 1 {
      assert matches[0] in Hits(t, org, host);
      SingletonSet(Hits(t, org, host), matches[0]);
    }
  }

  /** When only fallbacks serve a host, exactly one does: the host's own provider's. */
  lemma OnlyFallbackHits(t: Tables, org: OrgId, host: string)
    requires UniqueNames(t.conns) && OperatorsAvoidDefault(t) && |RealHits(t, org, host)| == 0
    ensures |Hits(t, org, host)| <= 1
    ensures forall i :: i in Hits(t, org, host) ==> IsFallback(t.conns[i], org, ProviderForHost(host))
  {
    var hits := Hits(t, org, host);
    forall i | i in hits ensures IsFallback(t.conns[i], org, ProviderForHost(host)) && hits == {i} {
      assert i !in RealHits(t, org, host);
      forall j | j in hits ensures j == i {
        assert j !in RealHits(t, org, host);
        OneFallbackPerHost(t, org, i, j, host);
      }
      OneFallbackPerHost(t, org, i, i, host);
    }
    if hits != {} {
      var i :| i in hits;
      assert hits == {i};
    }
  }

  /** Selecting from any listing of the rows agrees with what the operators mean. */
  lemma SelectionIsIntended(t: Tables, org: OrgId, rows: seq<ConnId>, host: string)
    requires Lists(t, org, rows) && UniqueNames(t.conns) && OperatorsAvoidDefault(t)
    ensures var r := Select(t.conns, rows, host);
            match Intended(OperatorConns(t, org), host)
            case BadUrl => r == Err(ValueError)
            case Several => r == Err(Ambiguous)
            case Operator(id) => r == Ok(Some(id)) && id in t.conns
            case Anonymous(p) =>
              p == ProviderForHost(host)
              && r.Ok? && (r.value.Some? ==> r.value.value in t.conns && IsFallback(t.conns[r.value.value], org, p))
  {
    SelectBySets(t, org, rows, host);
    var serving := Serving(OperatorConns(t, org), host);
    assert serving == RealHits(t, org, host);
    BadUrlsAreOperators(t, org);
    if |serving| == 1 {
      var i :| i in serving;
      SingletonSet(serving, i);
    } else if |serving| == 0 {
      OnlyFallbackHits(t, org, host);
    }
  }

  lemma SingletonSet(s: set<ConnId>, x: ConnId)
    requires |s| == 1 && x in s
    ensures s == {x}
  {
    assert |s - {x}| == 0;
    assert s == {x} + (s - {x});
  }

  lemma BadUrlsAreOperators(t: Tables, org: OrgId)
    requires OperatorsAvoidDefault(t)
    ensures SomeBadUrl(t, org)
       <==> (exists i :: i in OperatorConns(t, org) && ConnectionHost(OperatorConns(t, org)[i]).None?)
  {
    var operators := OperatorConns(t, org);
    if i :| i in t.conns && t.conns[i].org == org && ConnectionHost(t.conns[i]).None? {
      assert i in operators;
    }
  }

  /** Resolution's answer is what the operators mean by the host. */
  ghost predicate AsIntended(t: Tables, org: OrgId, host: string, r: Result<(Tables, ConnId), Error>) {
    match Intended(OperatorConns(t, org), host)
    case BadUrl => r == Err(ValueError)
    case Several => r == Err(Ambiguous)
    case Operator(id) => r == Ok((t, id))
    case Anonymous(p) => r.Ok? && r.value.1 in r.value.0.conns && IsFallback(r.value.0.conns[r.value.1], org, p)
  }

  /** The main result: without an explicit id, resolution returns the operators' unique match, refuses
      when there are several, and otherwise returns `default-<provider of the host>`, made on first
      use; the order of the rows and every earlier resolution are immaterial, because neither appears
      in what the answer is computed from. */
  lemma ResolutionIsPure(t: Tables, org: OrgId, rows: seq<ConnId>, url: Url, newConn: ConnId)
    requires Lists(t, org, rows) && UniqueNames(t.conns) && OperatorsAvoidDefault(t)
    requires org in t.orgs && url.parsed.Parsed? && newConn !in t.conns
    ensures AsIntended(t, org, NormalizeHost(url.parsed.hostname), ResolveSource(t, org, rows, url, None, newConn))
  {
    var host := NormalizeHost(url.parsed.hostname);
    SelectionIsIntended(t, org, rows, host);
    if Select(t.conns, rows, host) == Ok(None) {
      var found := ConnByName(t.conns, org, DefaultName(ProviderForHost(host)));
      if found.Some? {
        ProviderNamesDiffer(t.conns[found.value].provider, ProviderForHost(host));
      }
    }
  }

  ghost predicate OperatorBadUrl(t: Tables, org: OrgId) {
    exists i :: i in OperatorConns(t, org) && ConnectionHost(OperatorConns(t, org)[i]).None?
  }

  /** What a `default-` name may stand for where nobody else serves the host: the one row serving it,
      or if none or several do the row of that provider's name, is the provider's own fallback. */
  ghost predicate DefaultsHarmless(t: Tables, org: OrgId, host: string) {
    var p := ProviderForHost(host);
    if |Hits(t, org, host)| == 1
    then forall i :: i in Hits(t, org, host) ==> IsFallback(t.conns[i], org, p)
    else forall i :: i in t.conns && t.conns[i].org == org && t.conns[i].name == DefaultName(p) ==> IsFallback(t.conns[i], org, p)
  }

  /** No `default-` row has a malformed address unless another connection has one too, and those that
      stand in for the host, where no other connection serves it, are the host's own fallback. */
  ghost predicate NamesHarmless(t: Tables, org: OrgId, host: string) {
    && (SomeBadUrl(t, org) ==> OperatorBadUrl(t, org))
    && (!SomeBadUrl(t, org) && RealHits(t, org, host) == {} ==> DefaultsHarmless(t, org, host))
  }

  /** Whatever operators call their connections, resolution answers as intended exactly when the
      `default-` rows are harmless for the host. */
  lemma AsIntendedExactlyWhen(t: Tables, org: OrgId, rows: seq<ConnId>, url: Url, newConn: ConnId)
    requires Lists(t, org, rows) && UniqueNames(t.conns)
    requires org in t.orgs && url.parsed.Parsed? && newConn !in t.conns
    ensures AsIntended(t, org, NormalizeHost(url.parsed.hostname), ResolveSource(t, org, rows, url, None, newConn))
       <==> NamesHarmless(t, org, NormalizeHost(url.parsed.hostname))
  {
    var host := NormalizeHost(url.parsed.hostname);
    OperatorsBadToo(t, org);
    if SomeBadUrl(t, org) {
      SelectBySets(t, org, rows, host);
    } else if RealHits(t, org, host) != {} {
      OperatorServes(t, org, rows, host);
    } else {
      assert Serving(OperatorConns(t, org), host) == RealHits(t, org, host);
      StandsIn(t, org, rows, host, newConn);
    }
  }

  /** With no bad address, operators who serve the host are chosen as intended. */
  lemma OperatorServes(t: Tables, org: OrgId, rows: seq<ConnId>, host: string)
    requires Lists(t, org, rows) && !SomeBadUrl(t, org) && !OperatorBadUrl(t, org) && RealHits(t, org, host) != {}
    ensures match Intended(OperatorConns(t, org), host)
            case BadUrl => false
            case Several => Select(t.conns, rows, host) == Err(Ambiguous)
            case Operator(id) => Select(t.conns, rows, host) == Ok(Some(id))
            case Anonymous(_) => false
  {
    var serving := Serving(OperatorConns(t, org), host);
    SelectBySets(t, org, rows, host);
    assert serving == RealHits(t, org, host);
    if |serving| == 1 {
      var i :| i in serving;
      SingletonSet(serving, i);
    }
  }

  lemma OperatorsBadToo(t: Tables, org: OrgId)
    ensures OperatorBadUrl(t, org) ==> SomeBadUrl(t, org)
  {
    if i :| i in OperatorConns(t, org) && ConnectionHost(OperatorConns(t, org)[i]).None? {
      assert i in t.conns && t.conns[i].org == org;
    }
  }

  /** With no bad address and nobody serving the host, what stands in for it. */
  lemma StandsIn(t: Tables, org: OrgId, rows: seq<ConnId>, host: string, newConn: ConnId)
    requires Lists(t, org, rows) && UniqueNames(t.conns) && org in t.orgs && newConn !in t.conns
    requires !SomeBadUrl(t, org) && RealHits(t, org, host) == {}
    ensures var p := ProviderForHost(host);
            match Select(t.conns, rows, host)
            case Err(_) => false
            case Ok(Some(id)) => id in t.conns && (IsFallback(t.conns[id], org, p) <==> DefaultsHarmless(t, org, host))
            case Ok(None) =>
              var r := DefaultSource(t, org, p, newConn);
              && r.Ok? && r.value.1 in r.value.0.conns
              && (IsFallback(r.value.0.conns[r.value.1], org, p) <==> DefaultsHarmless(t, org, host))
  {
    SelectBySets(t, org, rows, host);
    var hits := Hits(t, org, host);
    if |hits| == 1 {
      var i :| i in hits;
      SingletonSet(hits, i);
    }
  }

  /** A connection an operator calls `default-<provider>` and gives a credential is what every host of
      that provider that nobody serves resolves to, and that is not as intended. */
  lemma DefaultNameCaptures(t: Tables, org: OrgId, rows: seq<ConnId>, url: Url, id: ConnId, newConn: ConnId)
    requires Lists(t, org, rows) && UniqueNames(t.conns) && url.parsed.Parsed? && !SomeBadUrl(t, org)
    requires org in t.orgs && newConn !in t.conns
    requires Hits(t, org, NormalizeHost(url.parsed.hostname)) == {}
    requires id in t.conns && t.conns[id].org == org && t.conns[id].credentialType != NoCredential
    requires t.conns[id].name == DefaultName(ProviderForHost(NormalizeHost(url.parsed.hostname)))
    ensures ResolveSource(t, org, rows, url, None, newConn) == Ok((t, id))
    ensures !AsIntended(t, org, NormalizeHost(url.parsed.hostname), ResolveSource(t, org, rows, url, None, newConn))
  {
    var host := NormalizeHost(url.parsed.hostname);
    SelectBySets(t, org, rows, host);
    assert RealHits(t, org, host) == {};
    AsIntendedExactlyWhen(t, org, rows, url, newConn);
  }

  /** Such rows are there for the asking: an org is made, and an operator names a source so. Any host
      but the cloud's own that passes for that provider's is then taken. */
  lemma CaptureReachable(org: OrgId, s: NewSource, id: ConnId, secret: string, master: string, url: Url, newConn: ConnId)
    requires WellFormed(s) && s.name == DefaultName(s.provider) && s.credentialType != NoCredential && s.baseUrl.None?
    requires url.parsed.Parsed? && newConn != id
    requires var host := NormalizeHost(url.parsed.hostname);
             host != CloudHost(s.provider) && ProviderForHost(host) == s.provider
    ensures var steps := [CreateOrg(org), CreateSource(org, s, id, secret)];
            && IsRun(EMPTY, steps, master)
            && var t := After(EMPTY, steps, master);
               && Lists(t, org, [id])
               && ResolveSource(t, org, [id], url, None, newConn) == Ok((t, id))
               && !AsIntended(t, org, NormalizeHost(url.parsed.hostname), ResolveSource(t, org, [id], url, None, newConn))
  {
    var first, second := CreateOrg(org), CreateSource(org, s, id, secret);
    var t1 := Next(EMPTY, first, master);
    var t := Next(t1, second, master);
    assert t1 == EMPTY.(orgs := {org});
    assert t.conns == map[id := SourceRow(org, s, secret, master)] && t.orgs == {org};
    assert [first, second][1..] == [second] && [second][1..] == [];
    assert IsRun(t, [], master) && IsRun(t1, [second], master);
    assert After(t1, [second], master) == After(t, [], master) == t;
    assert After(EMPTY, [first, second], master) == t;
    assert [id][0] == id;
    DefaultNameCaptures(t, org, [id], url, id, newConn);
  }

  /** For one: a credentialed source called `default-github` takes `sr.ht`. */
  lemma CaptureExample(url: Url, master: string)
    requires url.parsed.Parsed? && url.parsed.hostname == Some("sr.ht")
    ensures var s := NewSource("default-github", Github, Pat, Some("token"), None);
            var t := After(EMPTY, [CreateOrg(1), CreateSource(1, s, 7, "secret")], master);
            Lists(t, 1, [7]) && !AsIntended(t, 1, "sr.ht", ResolveSource(t, 1, [7], url, None, 8))
  {
    var s := NewSource("default-github", Github, Pat, Some("token"), None);
    assert s.name == DefaultName(Github);
    OtherHost();
    CaptureReachable(1, s, 7, "secret", master, url, 8);
  }

  lemma OtherHost()
    ensures NormalizeHost(Some("sr.ht")) == "sr.ht" && ProviderForHost("sr.ht") == Github && "sr.ht" != CloudHost(Github)
  {
    var h := "sr.ht";
    PlainHost(h);
    OtherProvider(h);
    assert |h| == 5 && |CloudHost(Github)| == 10;
  }

  /** A trimmed host in lower case is its own normal form. */
  lemma PlainHost(h: string)
    requires Lower(h) == h && Trimmed(h)
    ensures NormalizeHost(Some(h)) == h
  {
    StripPadding("", h, "");
    assert "" + h + "" == h;
  }

  /** A host without the letters g and v is taken for the default provider's. */
  lemma OtherProvider(h: string)
    requires Lower(h) == h && 'g' !in h && 'v' !in h
    ensures ProviderForHost(h) == Github
  {
    AbsentCharacter(h, "gitlab", 'g');
    AbsentCharacter(h, "dev.azure.com", 'v');
    AbsentCharacter(h, "visualstudio.com", 'v');
  }

  lemma ProviderNamesDiffer(p: Provider, q: Provider)
    requires DefaultName(p) == DefaultName(q)
    ensures p == q
  {
    assert DefaultName(p)[|DEFAULT_PREFIX|..] == ProviderName(p);
    assert DefaultName(q)[|DEFAULT_PREFIX|..] == ProviderName(q);
    assert |ProviderName(Github)| == 6 && |ProviderName(Gitlab)| == 6 && |ProviderName(AzureDevops)| == 12;
    assert ProviderName(Github)[3] != ProviderName(Gitlab)[3];
  }

  /** The only row resolution may add to the connections is a provider's fallback. */
  lemma ResolvingAddsFallback(t: Tables, rows: seq<ConnId>, q: Query)
    requires Lists(t, q.org, rows) && ResolveTarget(t, rows, q).Ok?
    ensures var after := ResolveTarget(t, rows, q).value.0;
            || after.conns == t.conns
            || (q.newConn !in t.conns && after.conns == t.conns[q.newConn := after.conns[q.newConn]]
                && after.conns[q.newConn] == FallbackConn(q.org, after.conns[q.newConn].provider))
  {
    var withConn := SourceAddsFallback(t, rows, q);
    assert ResolveTarget(t, rows, q).value.0.conns == withConn.conns;
  }

  lemma SourceAddsFallback(t: Tables, rows: seq<ConnId>, q: Query) returns (after: Tables)
    requires Lists(t, q.org, rows) && ResolveSource(t, q.org, rows, q.url, q.explicitId, q.newConn).Ok?
    ensures after == ResolveSource(t, q.org, rows, q.url, q.explicitId, q.newConn).value.0
    ensures after.conns == t.conns
            || (q.newConn !in t.conns && after.conns == t.conns[q.newConn := after.conns[q.newConn]]
                && after.conns[q.newConn] == FallbackConn(q.org, after.conns[q.newConn].provider))
  {
    after := ResolveSource(t, q.org, rows, q.url, q.explicitId, q.newConn).value.0;
  }

  /** Resolving never changes which connections are the operators', in any org. */
  lemma ResolvingKeepsOperators(t: Tables, rows: seq<ConnId>, q: Query, org: OrgId)
    requires Lists(t, q.org, rows) && ResolveTarget(t, rows, q).Ok?
    ensures OperatorConns(ResolveTarget(t, rows, q).value.0, org) == OperatorConns(t, org)
  {
    ResolvingAddsFallback(t, rows, q);
    var after := ResolveTarget(t, rows, q).value.0;
    if after.conns != t.conns {
      assert NamedDefault(after.conns[q.newConn]);
    }
  }

  // ---- idempotence ----------------------------------------------------------

  lemma HitsAfterFallback(t: Tables, org: OrgId, host: string, newConn: ConnId, p: Provider)
    requires newConn !in t.conns
    ensures var after := t.(conns := t.conns[newConn := FallbackConn(org, p)]);
            && RealHits(after, org, host) == RealHits(t, org, host)
            && Hits(after, org, host) == (Hits(t, org, host) + if Serves(FallbackConn(org, p), host) then {newConn} else {})
            && SomeBadUrl(after, org) == SomeBadUrl(t, org)
  {
  }

  /** After a fallback row was inserted, the same host selects it, or falls back to it again. */
  lemma FallbackFoundAgain(t: Tables, rows: seq<ConnId>, org: OrgId, host: string, newConn: ConnId,
                           after: Tables, again: seq<ConnId>)
    requires Lists(t, org, rows) && Lists(after, org, again)
    requires Select(t.conns, rows, host) == Ok(None) && newConn !in t.conns
    requires after.conns == t.conns[newConn := FallbackConn(org, ProviderForHost(host))]
    ensures Select(after.conns, again, host) == Ok(Some(newConn)) || Select(after.conns, again, host) == Ok(None)
  {
    SelectBySets(t, org, rows, host);
    SelectBySets(after, org, again, host);
    HitsAfterFallback(t, org, host, newConn, ProviderForHost(host));
    var same := t.(conns := after.conns);
    var hits := Hits(t, org, host);
    assert Hits(after, org, host) == Hits(same, org, host) && RealHits(after, org, host) == RealHits(same, org, host);
    assert SomeBadUrl(after, org) == SomeBadUrl(same, org);
    assert newConn !in hits;
    assert |hits + {newConn}| == |hits| + 1;
    if |Hits(after, org, host)| == 1 {
      assert hits == {};
    }
  }

  lemma NameFoundAgain(t: Tables, org: OrgId, p: Provider, newConn: ConnId)
    requires newConn !in t.conns && ConnByName(t.conns, org, DefaultName(p)).None?
    ensures ConnByName(t.conns[newConn := FallbackConn(org, p)], org, DefaultName(p)) == Some(newConn)
  {
    var conns := t.conns[newConn := FallbackConn(org, p)];
    assert conns[newConn].org == org && conns[newConn].name == DefaultName(p);
  }

  lemma SourceTwice(t: Tables, rows: seq<ConnId>, q: Query, after: Tables, again: seq<ConnId>, newConn: ConnId)
    requires UniqueNames(t.conns) && Lists(t, q.org, rows) && Lists(after, q.org, again)
    requires ResolveSource(t, q.org, rows, q.url, q.explicitId, q.newConn).Ok?
    requires after.conns == ResolveSource(t, q.org, rows, q.url, q.explicitId, q.newConn).value.0.conns
    ensures ResolveSource(after, q.org, again, q.url, q.explicitId, newConn)
         == Ok((after, ResolveSource(t, q.org, rows, q.url, q.explicitId, q.newConn).value.1))
  {
    if q.explicitId.None? {
      var host := NormalizeHost(q.url.parsed.hostname);
      if after.conns == t.conns {
        SelectBySets(t, q.org, rows, host);
        SelectBySets(after, q.org, again, host);
        assert Hits(after, q.org, host) == Hits(t, q.org, host);
        assert RealHits(after, q.org, host) == RealHits(t, q.org, host);
        assert SomeBadUrl(after, q.org) == SomeBadUrl(t, q.org);
      } else {
        FallbackFoundAgain(t, rows, q.org, host, q.newConn, after, again);
        NameFoundAgain(t, q.org, ProviderForHost(host), q.newConn);
      }
    }
  }

  /** Asking for the same target again, with the rows listed in any order, gives the same connection
      and repository and writes nothing; whatever the operators called their connections. */
  lemma ResolvingTwice(t: Tables, rows: seq<ConnId>, q: Query, again: seq<ConnId>, newConn: ConnId, newRepo: RepoId)
    requires UniqueNames(t.conns) && UniqueFullNames(t.repos)
    requires Lists(t, q.org, rows) && ResolveTarget(t, rows, q).Ok?
    requires Lists(ResolveTarget(t, rows, q).value.0, q.org, again)
    ensures var (after, target) := ResolveTarget(t, rows, q).value;
            ResolveTarget(after, again, q.(newConn := newConn, newRepo := newRepo)) == Ok((after, target))
  {
    var (after, target) := ResolveTarget(t, rows, q).value;
    var (withConn, conn) := ResolveSource(t, q.org, rows, q.url, q.explicitId, q.newConn).value;
    SourceTwice(t, rows, q, after, again, newConn);
    RepoTwice(withConn, q.org, conn, q.url, q.newRepo, newRepo);
  }

  lemma RepoTwice(t: Tables, org: OrgId, conn: ConnId, url: Url, newRepo: RepoId, other: RepoId)
    requires UniqueFullNames(t.repos) && ResolveRepo(t, org, conn, url, newRepo).Ok?
    ensures var (after, repo) := ResolveRepo(t, org, conn, url, newRepo).value;
            ResolveRepo(after, org, conn, url, other) == Ok((after, repo))
  {
    var (after, repo) := ResolveRepo(t, org, conn, url, newRepo).value;
    var found := RepoByName(t.repos, org, FullName(url));
    if found.None? {
      assert after.repos[repo].org == org && after.repos[repo].fullName == FullName(url);
    }
  }
}
