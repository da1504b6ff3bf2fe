/** The scan protocol: an at-least-once task queue, reporters that post signed callbacks which may
    be delivered any number of times, and backstops racing them, all interleaved over one row. */
module ScanProtocol {
  import opened Common
  import opened ScanJob

  /** `running`: task deliveries between their start and their end; `posted`: the callbacks reporters
      have sent, each of which the network may deliver again at any time. */
  datatype Proto = Proto(desk: Desk, running: nat, posted: set<Message>)

  datatype Event =
    | TaskDelivered(repoFound: bool, buildError: Option<string>, now: int)
    | Posted(message: Message)
    | Delivered(message: Message, fault: Fault)
    | RunEnded
    | RunRaised(exc: string, now: int)
    | RowDeleted

  /** A callback is either one a reporter posted or a forgery; only a run in flight posts or ends. */
  ghost predicate Allowed(p: Proto, e: Event) {
    match e
    case TaskDelivered(_, _, _) => true
    case Posted(m) => p.running > 0 && Genuine(p.desk.secret, m)
    case Delivered(m, _) => m in p.posted || !Genuine(p.desk.secret, m)
    case RunEnded => p.running > 0
    case RunRaised(_, _) => p.running > 0
    case RowDeleted => true
  }

  ghost function Next(p: Proto, e: Event): Proto
    requires Allowed(p, e)
  {
    match e
    case TaskDelivered(repoFound, buildError, now) =>
      var (desk, start) := Started(p.desk, repoFound, buildError, now);
      Proto(desk, if start.SpecBuilt? || start.BuildRaised? then p.running + 1 else p.running, p.posted)
    case Posted(m) => p.(posted := p.posted + {m})
    case Delivered(m, fault) => p.(desk := Callback(p.desk, m, fault).0)
    case RunEnded => p.(running := p.running - 1)
    case RunRaised(exc, now) => p.(desk := BackedUp(p.desk, exc, now), running := p.running - 1)
    case RowDeleted => p.(desk := p.desk.(present := false))
  }

  ghost predicate IsRun(p: Proto, events: seq<Event>)
    decreases |events|
  {
    events == [] || (Allowed(p, events[0]) && IsRun(Next(p, events[0]), events[1..]))
  }

  ghost function After(p: Proto, events: seq<Event>): Proto
    requires IsRun(p, events)
    decreases |events|
  {
    if events == [] then p else After(Next(p, events[0]), events[1..])
  }

  /** Sums a per-step count over a run. */
  ghost function Tally(p: Proto, events: seq<Event>, weigh: (Proto, Event) -> nat): nat
    requires IsRun(p, events)
    decreases |events|
  {
    if events == [] then 0 else weigh(p, events[0]) + Tally(Next(p, events[0]), events[1..], weigh)
  }

  ghost function StatusAfter(p: Proto, e: Event): Status {
    if Allowed(p, e) then Next(p, e).desk.row.status else p.desk.row.status
  }

  /** The row passes from an open status into succeeded. */
  ghost function Succeeds(p: Proto, e: Event): nat {
    if p.desk.row.status != Succeeded && StatusAfter(p, e) == Succeeded then 1 else 0
  }

  ghost function Closes(p: Proto, e: Event): nat {
    if !Terminal(p.desk.row.status) && Terminal(StatusAfter(p, e)) then 1 else 0
  }

  /** A task delivery that found the row already terminal and put it back to running. */
  ghost function Reopens(p: Proto, e: Event): nat {
    if e.TaskDelivered? && Terminal(p.desk.row.status) && !Terminal(StatusAfter(p, e)) then 1 else 0
  }

  /** A task delivery that found the row terminal, whatever it then did. */
  ghost function Revisits(p: Proto, e: Event): nat {
    if e.TaskDelivered? && Terminal(p.desk.row.status) then 1 else 0
  }

  ghost function Starts(p: Proto, e: Event): nat {
    if e.TaskDelivered? then 1 else 0
  }

  /** A task sent by a callback whose transaction was then undone. */
  ghost function Strays(task: Task): (Proto, Event) -> nat {
    (p: Proto, e: Event) => if e.Delivered? && Callback(p.desk, e.message, e.fault).1 == Aborted
                 && Screened(p.desk, e.message).None? && e.message.body.payload.status == "succeeded"
                 && task in SentDespite(e.fault) then 1 else 0
  }

  function Count(sent: seq<Task>, task: Task): nat {
    multiset(sent)[task]
  }

  // ---- first terminal writer wins -------------------------------------------

  /** Until the next task delivery a terminal row keeps every field and nothing more is sent. */
  lemma {:induction false} FirstTerminalWins(p: Proto, events: seq<Event>)
    requires IsRun(p, events) && Terminal(p.desk.row.status)
    requires forall i :: 0 <= i < |events| ==> !events[i].TaskDelivered?
    ensures After(p, events).desk.row == p.desk.row && After(p, events).desk.sent == p.desk.sent
    decreases |events|
  {
    if events != [] {
      FirstTerminalWins(Next(p, events[0]), events[1..]);
    }
  }

  /** Whenever a run raises, the row is terminal once its backstop commits; it keeps all it held if
      a callback came first, and otherwise is failed with the clipped runner error. */
  lemma BackstopSettles(p: Proto, e: Event)
    requires e.RunRaised? && Allowed(p, e) && p.desk.present
    ensures Terminal(Next(p, e).desk.row.status)
    ensures Terminal(p.desk.row.status) ==> Next(p, e).desk == p.desk
    ensures !Terminal(p.desk.row.status) ==>
              && Next(p, e).desk.row.status == Failed
              && Next(p, e).desk.row.errorMessage.Some?
              && "runner error: " <= Next(p, e).desk.row.errorMessage.value
              && |Next(p, e).desk.row.errorMessage.value| <= ERROR_LIMIT
  {
  }

  /** A callback not signed with the scan's own secret changes nothing, whatever it says. */
  lemma ForgeriesAreInert(d: Desk, m: Message, fault: Fault)
    requires !Genuine(d.secret, m)
    ensures Callback(d, m, fault).0 == d && Callback(d, m, fault).1.Rejected?
  {
  }

  // ---- accounting -----------------------------------------------------------

  lemma CountAppend(a: seq<Task>, b: seq<Task>, task: Task)
    ensures Count(a + b, task) == Count(a, task) + Count(b, task)
  {
  }

  lemma SentOnce(fault: Fault, task: Task)
    ensures Count(SentDespite(fault), task) == if task in SentDespite(fault) then 1 else 0
  {
    match fault
    case EnrichSendFails =>
    case NotifySendFails =>
    case CommitFails => assert Count([Enrich, Notify], task) == 1;
    case NoFault => assert Count([Enrich, Notify], task) == 1;
  }

  lemma DeliveryAccounts(d: Desk, m: Message, fault: Fault, task: Task)
    ensures var (after, reply) := Callback(d, m, fault);
            && (reply.Accepted? ==> !Terminal(d.row.status) && Terminal(after.row.status))
            && (!reply.Accepted? ==> after.row == d.row)
            && Count(after.sent, task) == Count(d.sent, task)
               + (if reply == Accepted(Succeeded) then 1
                  else if reply == Aborted && m.body.payload.status == "succeeded" && task in SentDespite(fault) then 1
                  else 0)
  {
    SentOnce(fault, task);
    var screened := Screened(d, m);
    if screened.None? && Recorded(d.row, m.body.payload).status == Succeeded {
      CountAppend(d.sent, SentDespite(fault), task);
    } else if screened.None? {
      assert d.sent + [] == d.sent;
    }
  }

  lemma StepAccounts(p: Proto, e: Event)
    requires Allowed(p, e)
    ensures var q := Next(p, e);
            && Closes(p, e) + (if Terminal(p.desk.row.status) then 1 else 0)
               == Reopens(p, e) + (if Terminal(q.desk.row.status) then 1 else 0)
            && Succeeds(p, e) <= Closes(p, e)
            && Count(q.desk.sent, Enrich) == Count(p.desk.sent, Enrich) + Succeeds(p, e) + Strays(Enrich)(p, e)
            && Count(q.desk.sent, Notify) == Count(p.desk.sent, Notify) + Succeeds(p, e) + Strays(Notify)(p, e)
  {
    if e.Delivered? {
      DeliveryAccounts(p.desk, e.message, e.fault, Enrich);
      DeliveryAccounts(p.desk, e.message, e.fault, Notify);
    }
  }

  /** The books of any run: an open row closes once more than it is reopened if it ends closed; each
      completion task was sent once per passage into succeeded, plus the strays of undone callbacks. */
  lemma {:induction false} Accounts(p: Proto, events: seq<Event>)
    requires IsRun(p, events)
    ensures Tally(p, events, Closes) + (if Terminal(p.desk.row.status) then 1 else 0)
         == Tally(p, events, Reopens) + (if Terminal(After(p, events).desk.row.status) then 1 else 0)
    ensures Tally(p, events, Succeeds) <= Tally(p, events, Closes)
    ensures Count(After(p, events).desk.sent, Enrich)
         == Count(p.desk.sent, Enrich) + Tally(p, events, Succeeds) + Tally(p, events, Strays(Enrich))
    ensures Count(After(p, events).desk.sent, Notify)
         == Count(p.desk.sent, Notify) + Tally(p, events, Succeeds) + Tally(p, events, Strays(Notify))
    decreases |events|
  {
    if events != [] {
      StepAccounts(p, events[0]);
      Accounts(Next(p, events[0]), events[1..]);
    }
  }

  ghost function Fresh(scanId: string, secret: string): Proto {
    Proto(Desk(scanId, secret, true, QUEUED_ROW, []), 0, {})
  }

  /** Passages into succeeded number at most one more than the deliveries that found the row
      terminal, under any redelivery of tasks and callbacks. */
  lemma SuccessesBounded(scanId: string, secret: string, events: seq<Event>)
    requires IsRun(Fresh(scanId, secret), events)
    ensures Tally(Fresh(scanId, secret), events, Succeeds) <= 1 + Tally(Fresh(scanId, secret), events, Reopens)
    ensures Tally(Fresh(scanId, secret), events, Reopens) <= Tally(Fresh(scanId, secret), events, Revisits)
  {
    Accounts(Fresh(scanId, secret), events);
    ReopensRevisitsStarts(Fresh(scanId, secret), events);
  }

  lemma {:induction false} ReopensRevisitsStarts(p: Proto, events: seq<Event>)
    requires IsRun(p, events)
    ensures Tally(p, events, Reopens) <= Tally(p, events, Revisits) <= Tally(p, events, Starts)
    decreases |events|
  {
    if events != [] {
      ReopensRevisitsStarts(Next(p, events[0]), events[1..]);
    }
  }

  /** Before its task is delivered a scan cannot move, so a single delivery never finds it terminal. */
  lemma {:induction false} SingleDeliveryNeverRevisits(p: Proto, events: seq<Event>)
    requires IsRun(p, events) && p.running == 0 && p.posted == {} && !Terminal(p.desk.row.status)
    requires Tally(p, events, Starts) <= 1
    ensures Tally(p, events, Revisits) == 0
    decreases |events|
  {
    if events != [] {
      var q := Next(p, events[0]);
      if events[0].TaskDelivered? {
        ReopensRevisitsStarts(q, events[1..]);
      } else {
        SingleDeliveryNeverRevisits(q, events[1..]);
      }
    }
  }

  lemma {:induction false} NoFaultNoStrays(p: Proto, events: seq<Event>, task: Task)
    requires IsRun(p, events)
    requires forall i :: 0 <= i < |events| && events[i].Delivered? ==> events[i].fault == NoFault
    ensures Tally(p, events, Strays(task)) == 0
    decreases |events|
  {
    if events != [] {
      NoFaultNoStrays(Next(p, events[0]), events[1..], task);
    }
  }

  /** Single task delivery and no fault in a callback: enrichment and notification are each sent
      exactly once if the scan succeeded and never otherwise, however often callbacks are redelivered. */
  lemma ExactlyOnce(scanId: string, secret: string, events: seq<Event>, task: Task)
    requires IsRun(Fresh(scanId, secret), events)
    requires Tally(Fresh(scanId, secret), events, Starts) <= 1
    requires forall i :: 0 <= i < |events| && events[i].Delivered? ==> events[i].fault == NoFault
    ensures Count(After(Fresh(scanId, secret), events).desk.sent, task)
         == (if After(Fresh(scanId, secret), events).desk.row.status == Succeeded then 1 else 0)
  {
    var p := Fresh(scanId, secret);
    Accounts(p, events);
    SingleDeliveryNeverRevisits(p, events);
    ReopensRevisitsStarts(p, events);
    NoFaultNoStrays(p, events, task);
    SucceededStays(p, events);
  }

  /** Without a revisit, the row is succeeded at the end exactly if it ever became so. */
  lemma {:induction false} SucceededStays(p: Proto, events: seq<Event>)
    requires IsRun(p, events) && Tally(p, events, Revisits) == 0
    ensures p.desk.row.status != Succeeded ==>
              (Tally(p, events, Succeeds) >= 1 <==> After(p, events).desk.row.status == Succeeded)
    ensures p.desk.row.status == Succeeded ==> After(p, events).desk.row.status == Succeeded
    decreases |events|
  {
    if events != [] {
      SucceededStays(Next(p, events[0]), events[1..]);
    }
  }

  // ---- when a failed row holds an object key --------------------------------

  /** A row holds an object key exactly when it is a succeeded one. */
  predicate KeyIffSucceeded(p: Proto) {
    p.desk.row.objectKey.Some? <==> p.desk.row.status == Succeeded
  }

  /** A message that gives an object key exactly with a success. */
  predicate Honest(m: Message) {
    m.body.Json? ==> (m.body.payload.objectKey.Some? <==> m.body.payload.status == "succeeded")
  }

  predicate HonestSoFar(p: Proto) {
    forall m :: m in p.posted ==> Honest(m)
  }

  /** The delivery of a task to a row that already holds an object key, whose start transaction commits. */
  predicate Reruns(p: Proto, e: Event) {
    e.TaskDelivered? && p.desk.present && p.desk.row.objectKey.Some? && (!e.repoFound || e.buildError.None?)
  }

  /** The one step that parts the object key from success is a rerun, and every rerun does. */
  lemma KeyStepExact(p: Proto, e: Event)
    requires Allowed(p, e) && KeyIffSucceeded(p) && HonestSoFar(p)
    ensures KeyIffSucceeded(Next(p, e)) <==> !Reruns(p, e)
  {
    if e.Delivered? && Genuine(p.desk.secret, e.message) {
      assert Honest(e.message);
    }
  }

  ghost predicate AlwaysKeyIffSucceeded(p: Proto, events: seq<Event>)
    requires IsRun(p, events)
    decreases |events|
  {
    KeyIffSucceeded(p) && (events == [] || AlwaysKeyIffSucceeded(Next(p, events[0]), events[1..]))
  }

  ghost predicate NeverReruns(p: Proto, events: seq<Event>)
    requires IsRun(p, events)
    decreases |events|
  {
    events == [] || (!Reruns(p, events[0]) && NeverReruns(Next(p, events[0]), events[1..]))
  }

  predicate HonestReporters(events: seq<Event>) {
    forall i :: 0 <= i < |events| && events[i].Posted? ==> Honest(events[i].message)
  }

  lemma {:induction false} KeyRunExact(p: Proto, events: seq<Event>)
    requires IsRun(p, events) && KeyIffSucceeded(p) && HonestSoFar(p) && HonestReporters(events)
    ensures AlwaysKeyIffSucceeded(p, events) <==> NeverReruns(p, events)
    decreases |events|
  {
    if events != [] {
      KeyStepExact(p, events[0]);
      if !Reruns(p, events[0]) {
        assert HonestReporters(events[1..]);
        KeyRunExact(Next(p, events[0]), events[1..]);
      } else {
        assert !KeyIffSucceeded(Next(p, events[0]));
      }
    }
  }

  /** Under any interleaving and redelivery of tasks and callbacks, a scan's row holds an object key
      exactly while it is succeeded, at every point of the run, if and only if no task delivery that
      commits found a key on the row: the check the start transaction does not make. */
  lemma KeyIffSucceededExactlyWhen(scanId: string, secret: string, events: seq<Event>)
    requires IsRun(Fresh(scanId, secret), events) && HonestReporters(events)
    ensures AlwaysKeyIffSucceeded(Fresh(scanId, secret), events) <==> NeverReruns(Fresh(scanId, secret), events)
  {
    KeyRunExact(Fresh(scanId, secret), events);
  }

  predicate FailedMeansNoKey(p: Proto) {
    p.desk.row.status == Failed ==> p.desk.row.objectKey.None?
  }

  /** A step that fails a row without looking at its key, when there is one: the start transaction
      without a repository, or the backstop of a rerun. */
  predicate Strands(p: Proto, e: Event) {
    p.desk.present && p.desk.row.objectKey.Some?
    && ((e.TaskDelivered? && !e.repoFound) || (e.RunRaised? && !Terminal(p.desk.row.status)))
  }

  lemma FailedStepExact(p: Proto, e: Event)
    requires Allowed(p, e) && FailedMeansNoKey(p) && HonestSoFar(p)
    ensures FailedMeansNoKey(Next(p, e)) <==> !Strands(p, e)
  {
    if e.Delivered? && Genuine(p.desk.secret, e.message) {
      assert Honest(e.message);
    }
  }

  ghost predicate AlwaysFailedMeansNoKey(p: Proto, events: seq<Event>)
    requires IsRun(p, events)
    decreases |events|
  {
    FailedMeansNoKey(p) && (events == [] || AlwaysFailedMeansNoKey(Next(p, events[0]), events[1..]))
  }

  ghost predicate NeverStrands(p: Proto, events: seq<Event>)
    requires IsRun(p, events)
    decreases |events|
  {
    events == [] || (!Strands(p, events[0]) && NeverStrands(Next(p, events[0]), events[1..]))
  }

  lemma {:induction false} FailedRunExact(p: Proto, events: seq<Event>)
    requires IsRun(p, events) && FailedMeansNoKey(p) && HonestSoFar(p) && HonestReporters(events)
    ensures AlwaysFailedMeansNoKey(p, events) <==> NeverStrands(p, events)
    decreases |events|
  {
    if events != [] {
      FailedStepExact(p, events[0]);
      if !Strands(p, events[0]) {
        assert HonestReporters(events[1..]);
        FailedRunExact(Next(p, events[0]), events[1..]);
      } else {
        assert !FailedMeansNoKey(Next(p, events[0]));
      }
    }
  }

  /** Under the same runs a failed row holds no object key, at every point, if and only if no start
      transaction without a repository meets a row that holds one, and no backstop an open one. */
  lemma FailedMeansNoKeyExactlyWhen(scanId: string, secret: string, events: seq<Event>)
    requires IsRun(Fresh(scanId, secret), events) && HonestReporters(events)
    ensures AlwaysFailedMeansNoKey(Fresh(scanId, secret), events) <==> NeverStrands(Fresh(scanId, secret), events)
  {
    FailedRunExact(Fresh(scanId, secret), events);
  }

  /** A single task delivery never is one. */
  lemma {:induction false} SingleDeliveryNeverReruns(p: Proto, events: seq<Event>)
    requires IsRun(p, events) && p.running == 0 && p.posted == {} && p.desk.row.objectKey.None?
    requires Tally(p, events, Starts) <= 1
    ensures NeverReruns(p, events)
    decreases |events|
  {
    if events != [] {
      var q := Next(p, events[0]);
      if events[0].TaskDelivered? {
        NoStartsNoReruns(q, events[1..]);
      } else {
        SingleDeliveryNeverReruns(q, events[1..]);
      }
    }
  }

  lemma {:induction false} NoStartsNoReruns(p: Proto, events: seq<Event>)
    requires IsRun(p, events) && Tally(p, events, Starts) == 0
    ensures NeverReruns(p, events)
    decreases |events|
  {
    if events != [] {
      NoStartsNoReruns(Next(p, events[0]), events[1..]);
    }
  }

  // ---- what redelivery breaks -----------------------------------------------

  lemma RunFrom(p: Proto, e: Event, rest: seq<Event>)
    requires Allowed(p, e) && IsRun(Next(p, e), rest)
    ensures IsRun(p, [e] + rest) && After(p, [e] + rest) == After(Next(p, e), rest)
  {
  }

  /** The start transaction has no terminal check: deliver a succeeded scan's task again, let the
      second run raise, and the row ends failed while still holding the object key, and everything
      else, of the run that succeeded; its two tasks are not called back either. */
  lemma RedeliveryReopens(p: Proto, start: int, exc: string, end: int)
    requires p.desk.present && p.desk.row.status == Succeeded
    ensures var events := [TaskDelivered(true, None, start), RunRaised(exc, end)];
            && IsRun(p, events)
            && After(p, events).desk.sent == p.desk.sent
            && After(p, events).desk.row == p.desk.row.(
                 status := Failed, startedAt := Some(start), finishedAt := Some(end), errorMessage := Some(RunnerError(exc)))
  {
    var first, second := TaskDelivered(true, None, start), RunRaised(exc, end);
    var reopened := Next(p, first);
    RunFrom(reopened, second, []);
    RunFrom(p, first, [second]);
    assert [second] + [] == [second] && [first] + [second] == [first, second];
  }

  /** And there are such scans: any scan whose reporter posts a success gets there. */
  lemma SuccessReachable(scanId: string, secret: string, payload: Payload, start: int)
    requires payload.scanId == scanId && payload.status == "succeeded"
    ensures var m := Message(Some(HmacSha256(secret, Json(payload))), Json(payload));
            var events := [TaskDelivered(true, None, start), Posted(m), Delivered(m, NoFault), RunEnded];
            && IsRun(Fresh(scanId, secret), events)
            && After(Fresh(scanId, secret), events).desk.row.status == Succeeded
            && After(Fresh(scanId, secret), events).desk.row.objectKey == payload.objectKey
            && After(Fresh(scanId, secret), events).desk.present
  {
    var m := Message(Some(HmacSha256(secret, Json(payload))), Json(payload));
    var p0, e0 := Fresh(scanId, secret), TaskDelivered(true, None, start);
    var p1 := Next(p0, e0);
    var p2 := Next(p1, Posted(m));
    var p3 := Next(p2, Delivered(m, NoFault));
    RunFrom(p3, RunEnded, []);
    RunFrom(p2, Delivered(m, NoFault), [RunEnded]);
    RunFrom(p1, Posted(m), [Delivered(m, NoFault), RunEnded]);
    RunFrom(p0, e0, [Posted(m), Delivered(m, NoFault), RunEnded]);
    assert [RunEnded] + [] == [RunEnded] && [Delivered(m, NoFault)] + [RunEnded] == [Delivered(m, NoFault), RunEnded];
    assert [Posted(m)] + [Delivered(m, NoFault), RunEnded] == [Posted(m), Delivered(m, NoFault), RunEnded];
    assert [e0] + [Posted(m), Delivered(m, NoFault), RunEnded] == [e0, Posted(m), Delivered(m, NoFault), RunEnded];
  }
}
