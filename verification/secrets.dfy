/** Stored secrets agree with what was handed out: creating and rotating return the webhook secret
    once, and verification later uses exactly the last one returned. */
module Secrets {
  import opened Common
  import opened Sources
  import Resolution

  datatype LoadError = UnknownConnection | OtherProvider | NotConfigured | Undecryptable

  /** `encrypt_secret`: the ciphertext and the key version. */
  function Encrypt(plaintext: string, master: string): (Blob, string) {
    (Fernet(master, plaintext), CURRENT_KID)
  }

  /** `decrypt_secret`; None is a `CredentialDecryptionError`. */
  function Decrypt(blob: Blob, kid: string, master: string): Option<string> {
    if kid == CURRENT_KID && blob.master == master then Some(blob.plaintext) else None
  }

  /** A blob opens to what was encrypted under the same master key and the key version stored with it, and
      under no other of either. */
  lemma DecryptExactly(plaintext: string, master: string, kid: string, other: string)
    ensures Encrypt(plaintext, master).1 == "v1"
    ensures Decrypt(Encrypt(plaintext, master).0, kid, other) == if kid == "v1" && other == master then Some(plaintext) else None
  {
  }

  /** `load_connection_secret`. */
  function LoadSecret(conns: map<ConnId, Conn>, id: ConnId, provider: Provider, master: string): Result<string, LoadError> {
    if id !in conns then Err(UnknownConnection)
    else if conns[id].provider != provider then Err(OtherProvider)
    else if conns[id].webhookBlob.None? || conns[id].kid.None? then Err(NotConfigured)
    else
      match Decrypt(conns[id].webhookBlob.value, conns[id].kid.value, master)
      case Some(secret) => Ok(secret)
      case None => Err(Undecryptable)
  }

  /** What a step shows its caller, and which connections it drops. */
  datatype Entry = Shown(id: ConnId, secret: string) | Dropped(ids: set<ConnId>)

  ghost function EntryOf(t: Tables, step: Step, master: string): seq<Entry>
    requires Possible(t, step)
  {
    if Attempt(t, step, master).Err? then []
    else
      match step
      case CreateSource(_, _, newConn, webhookSecret) => [Shown(newConn, webhookSecret)]
      case Rotate(_, id, webhookSecret) => [Shown(id, webhookSecret)]
      case DeleteSource(_, id) => [Dropped({id})]
      case DeleteOrg(org, _) => [Dropped(set i | i in t.conns && t.conns[i].org == org)]
      case _ => []
  }

  ghost function LogOf(t: Tables, steps: seq<Step>, master: string): seq<Entry>
    requires IsRun(t, steps, master)
    decreases |steps|
  {
    if steps == [] then [] else EntryOf(t, steps[0], master) + LogOf(Next(t, steps[0], master), steps[1..], master)
  }

  function Newer(e: Entry, id: ConnId, before: Option<string>): Option<string> {
    match e
    case Shown(i, secret) => if i == id then Some(secret) else before
    case Dropped(ids) => if id in ids then None else before
  }

  /** The secret last handed out for a connection that still exists. */
  function LastShown(log: seq<Entry>, id: ConnId): Option<string> {
    if log == [] then None else Newer(log[|log| - 1], id, LastShown(log[..|log| - 1], id))
  }

  /** A row's columns are consistent: a key version exactly when something is stored under it, a
      credential exactly when the type calls for one, and everything opens. */
  ghost predicate Sealed(c: Conn, master: string) {
    && (c.kid.None? <==> c.credentialBlob.None? && c.webhookBlob.None?)
    && (c.kid.Some? ==> c.kid.value == CURRENT_KID)
    && (c.credentialBlob.Some? <==> c.credentialType != NoCredential)
    && (c.credentialBlob.Some? ==> Decrypt(c.credentialBlob.value, c.kid.value, master).Some?)
    && (c.webhookBlob.Some? ==> Decrypt(c.webhookBlob.value, c.kid.value, master).Some?)
  }

  ghost predicate Agree(t: Tables, log: seq<Entry>, master: string) {
    && (forall i :: i in t.conns ==> Sealed(t.conns[i], master) && HoldsLast(t.conns[i], LastShown(log, i), master))
    && (forall i :: LastShown(log, i).Some? ==> i in t.conns)
  }

  ghost predicate HoldsLast(c: Conn, last: Option<string>, master: string) {
    match last
    case None => c.webhookBlob.None?
    case Some(secret) => c.webhookBlob == Some(Fernet(master, secret))
  }

  lemma ShowingAgrees(t: Tables, log: seq<Entry>, master: string, after: Tables, id: ConnId, secret: string)
    requires Agree(t, log, master)
    requires id in after.conns && after.conns == t.conns[id := after.conns[id]]
    requires Sealed(after.conns[id], master) && after.conns[id].webhookBlob == Some(Fernet(master, secret))
    ensures Agree(after, log + [Shown(id, secret)], master)
  {
  }

  lemma DroppingAgrees(t: Tables, log: seq<Entry>, master: string, after: Tables, ids: set<ConnId>)
    requires Agree(t, log, master) && after.conns == t.conns - ids
    ensures Agree(after, log + [Dropped(ids)], master)
  {
  }

  lemma StepAgrees(t: Tables, step: Step, log: seq<Entry>, master: string)
    requires Possible(t, step) && Agree(t, log, master)
    ensures Agree(Next(t, step, master), log + EntryOf(t, step, master), master)
  {
    assert log + [] == log;
    if Attempt(t, step, master).Ok? {
      var after := Next(t, step, master);
      match step
      case CreateOrg(_) =>
      case CreateSource(_, _, newConn, secret) => ShowingAgrees(t, log, master, after, newConn, secret);
      case Rotate(_, id, secret) => ShowingAgrees(t, log, master, after, id, secret);
      case DeleteSource(_, id) => DroppingAgrees(t, log, master, after, {id});
      case DeleteOrg(org, _) =>
        var ids := set i | i in t.conns && t.conns[i].org == org;
        assert after.conns == t.conns - ids;
        DroppingAgrees(t, log, master, after, ids);
      case CreateScan(query, rows, _, _) => Resolution.ResolvingAddsFallback(t, rows, query);
    }
  }

  lemma {:induction false} RunAgrees(t: Tables, steps: seq<Step>, log: seq<Entry>, master: string)
    requires IsRun(t, steps, master) && Agree(t, log, master)
    ensures Agree(After(t, steps, master), log + LogOf(t, steps, master), master)
    decreases |steps|
  {
    if steps == [] {
      assert log + [] == log;
    } else {
      var next, first := Next(t, steps[0], master), EntryOf(t, steps[0], master);
      var rest := LogOf(next, steps[1..], master);
      StepAgrees(t, steps[0], log, master);
      RunAgrees(next, steps[1..], log + first, master);
      AppendAssociates(log, first, rest);
    }
  }

  lemma AppendAssociates(a: seq<Entry>, b: seq<Entry>, c: seq<Entry>)
    ensures (a + b) + c == a + (b + c)
  {
  }

  /** The main result: after any run, loading a connection's secret returns one exactly when the
      connection exists with that provider and a secret was handed out for it, and then it is the one
      handed out last; it is never undecryptable. */
  lemma LoadsLastHandedOut(steps: seq<Step>, master: string, id: ConnId, provider: Provider)
    requires IsRun(EMPTY, steps, master)
    ensures var conns := After(EMPTY, steps, master).conns;
            LoadSecret(conns, id, provider, master)
            == if id !in conns then Err(UnknownConnection)
               else if conns[id].provider != provider then Err(OtherProvider)
               else match LastShown(LogOf(EMPTY, steps, master), id)
                    case Some(secret) => Ok(secret)
                    case None => Err(NotConfigured)
    ensures id in After(EMPTY, steps, master).conns ==> Sealed(After(EMPTY, steps, master).conns[id], master)
  {
    RunAgrees(EMPTY, steps, [], master);
    assert [] + LogOf(EMPTY, steps, master) == LogOf(EMPTY, steps, master);
    LoadsHeld(After(EMPTY, steps, master), LogOf(EMPTY, steps, master), master, id, provider);
  }

  lemma LoadsHeld(t: Tables, log: seq<Entry>, master: string, id: ConnId, provider: Provider)
    requires Agree(t, log, master)
    ensures LoadSecret(t.conns, id, provider, master)
            == if id !in t.conns then Err(UnknownConnection)
               else if t.conns[id].provider != provider then Err(OtherProvider)
               else match LastShown(log, id)
                    case Some(secret) => Ok(secret)
                    case None => Err(NotConfigured)
    ensures id in t.conns ==> Sealed(t.conns[id], master)
  {
  }

  /** Under another master key nothing that was stored can be read. */
  lemma OtherKeyOpensNothing(steps: seq<Step>, master: string, other: string, id: ConnId, provider: Provider)
    requires IsRun(EMPTY, steps, master) && other != master
    ensures LoadSecret(After(EMPTY, steps, master).conns, id, provider, other).Err?
  {
    RunAgrees(EMPTY, steps, [], master);
    assert [] + LogOf(EMPTY, steps, master) == LogOf(EMPTY, steps, master);
  }
}
