/** One `scan_jobs` row and the three transactions that write it after it is queued: the worker's
    start, the reporter's callback and the worker's backstop. */
module ScanJob {
  import opened Common
  import Text

  datatype Status = Pending | Queued | Running | Succeeded | Failed | Cancelled

  predicate Terminal(s: Status) {
    s == Succeeded || s == Failed || s == Cancelled
  }

  datatype Row = Row(
    status: Status, startedAt: Option<int>, finishedAt: Option<int>, duration: Option<int>,
    commitSha: Option<string>, objectKey: Option<string>, sbomSha256: Option<string>,
    syftVersion: Option<string>, grypeVersion: Option<string>, grypeDbVersion: Option<string>,
    errorMessage: Option<string>)

  /** The row as `create_scan` inserts it. */
  const QUEUED_ROW := Row(Queued, None, None, None, None, None, None, None, None, None, None)

  datatype Payload = Payload(
    scanId: string, status: string, finishedAt: int, commitSha: Option<string>, objectKey: Option<string>,
    sbomSha256: Option<string>, syftVersion: Option<string>, grypeVersion: Option<string>,
    grypeDbVersion: Option<string>, errorMessage: Option<string>)

  /** A request body that is, or is not, a well-formed payload. */
  datatype Body = Json(payload: Payload) | Garbled(text: string)

  /** An ideal HMAC: a signature determines the key and the message. */
  datatype Mac = HmacSha256(secret: string, body: Body)

  datatype Message = Message(signature: Option<Mac>, body: Body)

  datatype Task = Enrich | Notify

  /** The scan's identity and secret, its row if it still exists, and every task sent for it. */
  datatype Desk = Desk(scanId: string, secret: string, present: bool, row: Row, sent: seq<Task>)

  /** What can go wrong between the row update and the end of the callback's transaction. */
  datatype Fault = NoFault | EnrichSendFails | NotifySendFails | CommitFails

  datatype Reply = Rejected(code: nat) | Duplicate(current: Status) | Accepted(status: Status) | Aborted

  const BAD_REQUEST := 400
  const UNAUTHORIZED := 401
  const NOT_FOUND := 404
  const MALFORMED := 500
  const ERROR_LIMIT := 1024

  predicate Genuine(secret: string, m: Message) {
    m.signature == Some(HmacSha256(secret, m.body))
  }

  // ---- the transactions as state transformers -------------------------------

  /** Everything the callback checks before it touches the row; None lets it through. */
  function Screened(d: Desk, m: Message): Option<Reply> {
    if m.signature.None? then Some(Rejected(UNAUTHORIZED))
    else if !d.present then Some(Rejected(NOT_FOUND))
    else if !Genuine(d.secret, m) then Some(Rejected(UNAUTHORIZED))
    else if m.body.Garbled? then Some(Rejected(MALFORMED))
    else if m.body.payload.scanId != d.scanId then Some(Rejected(BAD_REQUEST))
    else if Terminal(d.row.status) then Some(Duplicate(d.row.status))
    else None
  }

  function Recorded(row: Row, p: Payload): Row {
    Row(if p.status == "succeeded" then Succeeded else Failed,
        row.startedAt,
        Some(p.finishedAt),
        if row.startedAt.Some? then Some(p.finishedAt - row.startedAt.value) else row.duration,
        p.commitSha, p.objectKey, p.sbomSha256, p.syftVersion, p.grypeVersion, p.grypeDbVersion, p.errorMessage)
  }

  /** Tasks that left for the broker before the transaction ended; they cannot be taken back. */
  function SentDespite(fault: Fault): seq<Task> {
    match fault
    case EnrichSendFails => []
    case NotifySendFails => [Enrich]
    case CommitFails => [Enrich, Notify]
    case NoFault => [Enrich, Notify]
  }

  function Callback(d: Desk, m: Message, fault: Fault): (Desk, Reply) {
    var screened := Screened(d, m);
    if screened.Some? then (d, screened.value)
    else
      var row := Recorded(d.row, m.body.payload);
      var sent := if row.status == Succeeded then SentDespite(fault) else [];
      var aborts := if row.status == Succeeded then fault != NoFault else fault == CommitFails;
      if aborts then (d.(sent := d.sent + sent), Aborted)
      else (d.(row := row, sent := d.sent + sent), Accepted(row.status))
  }

  datatype Start = NotFound | RepoMissing | SpecBuilt | BuildRaised(exc: string)

  /** The start transaction writes `running` whatever the row's status was. */
  function Started(d: Desk, repoFound: bool, buildError: Option<string>, now: int): (Desk, Start) {
    if !d.present then (d, NotFound)
    else if !repoFound then
      (d.(row := d.row.(status := Failed, errorMessage := Some("repository row missing"), finishedAt := Some(now))),
       RepoMissing)
    else if buildError.Some? then (d, BuildRaised(buildError.value))
    else (d.(row := d.row.(status := Running, startedAt := Some(now))), SpecBuilt)
  }

  function RunnerError(exc: string): string {
    Text.Clip("runner error: " + exc, ERROR_LIMIT)
  }

  function BackedUp(d: Desk, exc: string, now: int): Desk {
    if d.present && !Terminal(d.row.status) then
      d.(row := d.row.(status := Failed, errorMessage := Some(RunnerError(exc)), finishedAt := Some(now)))
    else d
  }

  // ---- what the transactions say --------------------------------------------

  /** The refusals, in order: unsigned, no such scan, wrongly signed, malformed, another scan's. */
  lemma RefusalsExactly(d: Desk, m: Message, fault: Fault)
    ensures var (after, reply) := Callback(d, m, fault);
            var signed := m.signature == Some(HmacSha256(d.secret, m.body));
            && (m.signature == None ==> reply == Rejected(401))
            && (m.signature != None && !d.present ==> reply == Rejected(404))
            && (m.signature != None && d.present && !signed ==> reply == Rejected(401))
            && (d.present && signed && m.body.Garbled? ==> reply == Rejected(500))
            && (d.present && signed && m.body.Json? && m.body.payload.scanId != d.scanId ==> reply == Rejected(400))
            && (!d.present || !signed || m.body.Garbled? || m.body.payload.scanId != d.scanId ==> after == d)
  {
  }

  /** Addressed to this scan and signed with its secret. */
  predicate Ours(d: Desk, m: Message) {
    && d.present && m.signature == Some(HmacSha256(d.secret, m.body))
    && m.body.Json? && m.body.payload.scanId == d.scanId
  }

  /** Such a callback finds the row done and leaves it, or open and writes every field the payload has. */
  lemma CallbackExactly(d: Desk, m: Message)
    requires Ours(d, m)
    ensures var (after, reply) := Callback(d, m, NoFault);
            var (row, p) := (after.row, m.body.payload);
            if d.row.status == Succeeded || d.row.status == Failed || d.row.status == Cancelled
            then after == d && reply == Duplicate(d.row.status)
            else
              && row.status == (if p.status == "succeeded" then Succeeded else Failed) && reply == Accepted(row.status)
              && row.startedAt == d.row.startedAt && row.finishedAt == Some(p.finishedAt)
              && row.duration == (if d.row.startedAt.Some? then Some(p.finishedAt - d.row.startedAt.value) else d.row.duration)
              && row.commitSha == p.commitSha && row.objectKey == p.objectKey && row.sbomSha256 == p.sbomSha256
              && row.syftVersion == p.syftVersion && row.grypeVersion == p.grypeVersion
              && row.grypeDbVersion == p.grypeDbVersion && row.errorMessage == p.errorMessage
              && after.sent == d.sent + (if p.status == "succeeded" then [Enrich, Notify] else [])
              && after.scanId == d.scanId && after.secret == d.secret && after.present
  {
  }

  /** A fault undoes the row, and what had left for the broker by then stays sent: nothing when the first
      send fails, enrichment when the second does, both when the commit does. A failure sends nothing. */
  lemma FaultsExactly(d: Desk, m: Message, fault: Fault)
    requires Ours(d, m) && fault != NoFault
    requires d.row.status == Pending || d.row.status == Queued || d.row.status == Running
    ensures var (after, reply) := Callback(d, m, fault);
            if m.body.payload.status == "succeeded" then
              && reply == Aborted
              && after == d.(sent := d.sent + if fault == EnrichSendFails then [] else if fault == NotifySendFails then [Enrich]
                                              else [Enrich, Notify])
            else if fault == CommitFails then reply == Aborted && after == d
            else (after, reply) == Callback(d, m, NoFault)
  {
    assert d.sent + [] == d.sent;
  }

  /** A task delivery: running from now on, or failed for want of a repository, or nothing at all. */
  lemma StartExactly(d: Desk, repoFound: bool, buildError: Option<string>, now: int)
    ensures var (after, start) := Started(d, repoFound, buildError, now);
            if !d.present then after == d && start == NotFound
            else if !repoFound then
              && start == RepoMissing
              && after == d.(row := d.row.(status := Failed, errorMessage := Some("repository row missing"), finishedAt := Some(now)))
            else if buildError != None then after == d && start == BuildRaised(buildError.value)
            else after == d.(row := d.row.(status := Running, startedAt := Some(now))) && start == SpecBuilt
  {
  }

  /** The runner error's text: the exception behind a fixed word, the first 1024 characters of it. */
  lemma RunnerErrorExactly(exc: string)
    ensures |exc| <= 1010 ==> RunnerError(exc) == "runner error: " + exc
    ensures |exc| > 1010 ==> RunnerError(exc) == "runner error: " + exc[..1010]
  {
    assert |"runner error: "| == 14;
    if |exc| > 1010 {
      assert ("runner error: " + exc)[..1024] == "runner error: " + exc[..1010];
    }
  }

  /** A raising run's backstop fails an open row with that text, and touches no other field. */
  lemma BackstopExactly(d: Desk, exc: string, now: int)
    ensures BackedUp(d, exc, now)
         == if d.present && (d.row.status == Pending || d.row.status == Queued || d.row.status == Running)
            then d.(row := d.row.(status := Failed, errorMessage := Some(RunnerError(exc)), finishedAt := Some(now)))
            else d
  {
  }

  // ---- the same transactions, field by field --------------------------------

  class Job {
    const scanId: string
    const secret: string
    var present: bool
    var status: Status
    var startedAt: Option<int>
    var finishedAt: Option<int>
    var duration: Option<int>
    var commitSha: Option<string>
    var objectKey: Option<string>
    var sbomSha256: Option<string>
    var syftVersion: Option<string>
    var grypeVersion: Option<string>
    var grypeDbVersion: Option<string>
    var errorMessage: Option<string>
    var sent: seq<Task>

    function CurrentRow(): Row
      reads this
    {
      Row(status, startedAt, finishedAt, duration, commitSha, objectKey, sbomSha256,
          syftVersion, grypeVersion, grypeDbVersion, errorMessage)
    }

    function State(): Desk
      reads this
    {
      Desk(scanId, secret, present, CurrentRow(), sent)
    }

    /** The row `create_scan` inserts. */
    constructor (scanId: string, secret: string)
      ensures State() == Desk(scanId, secret, true, QUEUED_ROW, [])
    {
      this.scanId, this.secret, present, status := scanId, secret, true, Queued;
      startedAt, finishedAt, duration := None, None, None;
      commitSha, objectKey, sbomSha256 := None, None, None;
      syftVersion, grypeVersion, grypeDbVersion, errorMessage := None, None, None, None;
      sent := [];
    }

    /** The session's rollback: the row returns to `saved`, tasks already sent stay sent. */
    method Rollback(saved: Row)
      modifies this`status, this`startedAt, this`finishedAt, this`duration, this`commitSha, this`objectKey,
               this`sbomSha256, this`syftVersion, this`grypeVersion, this`grypeDbVersion, this`errorMessage
      ensures CurrentRow() == saved
    {
      status, startedAt, finishedAt, duration := saved.status, saved.startedAt, saved.finishedAt, saved.duration;
      commitSha, objectKey, sbomSha256 := saved.commitSha, saved.objectKey, saved.sbomSha256;
      syftVersion, grypeVersion, grypeDbVersion := saved.syftVersion, saved.grypeVersion, saved.grypeDbVersion;
      errorMessage := saved.errorMessage;
    }

    /** The checks `scan_callback` makes before touching the row. */
    method Screen(m: Message) returns (refusal: Option<Reply>)
      ensures refusal == Screened(State(), m)
    {
      if m.signature.None? {
        return Some(Rejected(UNAUTHORIZED));
      }
      if !present {
        return Some(Rejected(NOT_FOUND));
      }
      if !Genuine(secret, m) {
        return Some(Rejected(UNAUTHORIZED));
      }
      if m.body.Garbled? {
        return Some(Rejected(MALFORMED));
      }
      if m.body.payload.scanId != scanId {
        return Some(Rejected(BAD_REQUEST));
      }
      return if Terminal(status) then Some(Duplicate(status)) else None;
    }

    /** The field assignments of `scan_callback`. */
    method Record(p: Payload)
      modifies this`status, this`finishedAt, this`duration, this`commitSha, this`objectKey,
               this`sbomSha256, this`syftVersion, this`grypeVersion, this`grypeDbVersion, this`errorMessage
      ensures CurrentRow() == Recorded(old(CurrentRow()), p)
    {
      status := if p.status == "succeeded" then Succeeded else Failed;
      finishedAt := Some(p.finishedAt);
      commitSha := p.commitSha;
      objectKey := p.objectKey;
      sbomSha256 := p.sbomSha256;
      syftVersion := p.syftVersion;
      grypeVersion := p.grypeVersion;
      grypeDbVersion := p.grypeDbVersion;
      errorMessage := p.errorMessage;
      if startedAt.Some? {
        duration := Some(p.finishedAt - startedAt.value);
      }
    }

    /** Sends the completion tasks; they leave before the transaction ends. */
    method SendTasks(fault: Fault) returns (raised: bool)
      modifies this`sent
      ensures State() == old(State()).(sent := old(sent) + SentDespite(fault))
      ensures raised <==> fault == EnrichSendFails || fault == NotifySendFails
    {
      if fault == EnrichSendFails {
        assert old(sent) + [] == old(sent);
        return true;
      }
      sent := sent + [Enrich];
      if fault == NotifySendFails {
        return true;
      }
      sent := sent + [Notify];
      assert sent == old(sent) + [Enrich, Notify];
      return false;
    }

    /** `scan_callback`. */
    method ScanCallback(m: Message, fault: Fault) returns (reply: Reply)
      modifies this
      ensures (State(), reply) == Callback(old(State()), m, fault)
    {
      var refusal := Screen(m);
      if refusal.Some? {
        return refusal.value;
      }
      var saved := CurrentRow();
      Record(m.body.payload);
      var raised := false;
      assert sent + [] == sent;
      if status == Succeeded {
        raised := SendTasks(fault);
      }
      if raised || fault == CommitFails {
        Rollback(saved);
        return Aborted;
      }
      return Accepted(status);
    }

    /** `run_scan`, the first transaction. */
    method StartTransaction(repoFound: bool, buildError: Option<string>, now: int) returns (r: Start)
      modifies this
      ensures (State(), r) == Started(old(State()), repoFound, buildError, now)
    {
      if !present {
        return NotFound;
      }
      if !repoFound {
        status := Failed;
        errorMessage := Some("repository row missing");
        finishedAt := Some(now);
        return RepoMissing;
      }
      var saved := CurrentRow();
      status := Running;
      startedAt := Some(now);
      if buildError.Some? {
        Rollback(saved);
        return BuildRaised(buildError.value);
      }
      return SpecBuilt;
    }

    /** `run_scan`, the transaction in its exception handler. */
    method BackstopTransaction(exc: string, now: int)
      modifies this
      ensures State() == BackedUp(old(State()), exc, now)
    {
      if present && !Terminal(status) {
        status := Failed;
        errorMessage := Some(RunnerError(exc));
        finishedAt := Some(now);
      }
    }
  }
}
