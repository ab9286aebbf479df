/**
 * The recovery protocol: any number of database sessions, interleaved transaction by transaction with the
 * AI provider, the payment provider, webhooks and the calendar.
 */
module Protocol {
  import opened Domain
  import opened Policy
  import opened AiService
  import opened Records
  import Diagnosis
  import opened Execution
  import opened Webhooks
  import opened Ingestion

  /** A create call made to the payment provider, with the log position of the entry into Executing behind it. */
  datatype CreateCall = CreateCall(c: nat, entry: nat, attempt: nat, amount: int)

  /** A session in flight: what it has loaded, the day it loaded it, and how far it has come. */
  datatype Session =
    | DiagnosisOpen(c: nat, snap: CaseRow, loaded: int)
    | ExecutionOpen(c: nat, snap: CaseRow, loaded: int)
    | InExecuting(c: nat, snap: CaseRow, entry: nat)
    | AttemptOpen(c: nat, snap: CaseRow, entry: nat, attempt: nat)
    | Answered(c: nat, snap: CaseRow, entry: nat, attempt: nat, answer: ProviderAnswer)
    | Reconciled(c: nat, snap: CaseRow, entry: nat, attempt: nat, found: Option<Link>)
    | WebhookOpen(c: nat, snap: CaseRow, event: LinkEvent, request: nat, seen: PaymentRequest)

  /** A sweep in flight: the payments it has listed, and the day it did. */
  datatype Listing = Listing(payments: seq<nat>, loaded: int)

  datatype Sys = Sys(
    db: Db, today: int, sessions: map<nat, Session>, creates: seq<CreateCall>, sweeps: map<nat, Listing>)

  const INIT := Sys(EMPTY_DB, 0, map[], [], map[])

  /** One atomic step of the world. An action whose session is not at that point changes nothing. */
  datatype Action =
    | Tick
    | Ingest(req: IngestRequest)
    | OpenCaseFor(payment: nat)
    | BeginSweep(sid: nat, limit: nat)
    | CommitSweep(sid: nat, day: int)
    | BeginDiagnosis(sid: nat, c: nat)
    | CommitDiagnosis(sid: nat, outcome: AiOutcome, day: int)
    | BeginExecution(sid: nat, c: nat)
    | CommitEntry(sid: nat, day: int)
    | CommitAttempt(sid: nat)
    | CallProvider(sid: nat, answer: ProviderAnswer)
    | CommitReconciliation(sid: nat, found: Option<Link>)
    | CommitFinish(sid: nat)
    | ReceiveWebhook(sid: nat, event: LinkEvent)
    | CommitWebhook(sid: nat)
    | NoteCycle(diagnosed: nat, executed: nat, failed: nat)

  predicate Busy(s: Sys, sid: nat) {
    sid in s.sessions
  }

  function Open(s: Sys, sid: nat, session: Session): Sys {
    s.(sessions := s.sessions[sid := session])
  }

  /** The session ends, leaving the database `db` committed. */
  function Close(s: Sys, sid: nat, db: Db): Sys {
    s.(db := db, sessions := s.sessions - {sid})
  }

  function DoBeginSweep(s: Sys, sid: nat, limit: nat): Sys {
    if sid in s.sweeps then s
    else s.(sweeps := s.sweeps[sid := Listing(FirstUncased(s.db, limit), s.today)])
  }

  /** The cases are dated by some day between the listing and this commit. */
  function DoCommitSweep(s: Sys, sid: nat, day: int): Sys {
    if sid !in s.sweeps || !(s.sweeps[sid].loaded <= day <= s.today) then s
    else s.(db := SweepTxn(s.db, s.sweeps[sid].payments, day).0, sweeps := s.sweeps - {sid})
  }

  /** The days an open session can have read the date on: any between its load and its commit. */
  predicate CouldRead(s: Sys, session: Session, day: int)
    requires session.DiagnosisOpen? || session.ExecutionOpen?
  {
    session.loaded <= day <= s.today
  }

  function DoBeginDiagnosis(s: Sys, sid: nat, c: nat): Sys {
    if Busy(s, sid) || c >= |s.db.cases| || !Diagnosis.Diagnosable(s.db.cases[c].status) then s
    else Open(s, sid, DiagnosisOpen(c, s.db.cases[c], s.today))
  }

  function DoCommitDiagnosis(s: Sys, sid: nat, outcome: AiOutcome, day: int, config: Config): Sys {
    if !Busy(s, sid) || !s.sessions[sid].DiagnosisOpen? || !CouldRead(s, s.sessions[sid], day) then s
    else
      var session := s.sessions[sid];
      Close(s, sid, Diagnosis.DiagnosisTxn(s.db, session.c, session.snap, outcome, day, config).0)
  }

  function DoBeginExecution(s: Sys, sid: nat, c: nat): Sys {
    if Busy(s, sid) || c >= |s.db.cases| || s.db.cases[c].status != Approved then s
    else Open(s, sid, ExecutionOpen(c, s.db.cases[c], s.today))
  }

  function DoCommitEntry(s: Sys, sid: nat, day: int, config: Config): Sys {
    if !Busy(s, sid) || !s.sessions[sid].ExecutionOpen? || !CouldRead(s, s.sessions[sid], day) then s
    else
      var c := s.sessions[sid].c;
      var (db, reply) := EnterTxn(s.db, c, s.sessions[sid].snap, day, config);
      match reply
      case Entered(row, entry) => Open(s.(db := db), sid, InExecuting(c, row, entry))
      case _ => Close(s, sid, db)
  }

  function DoCommitAttempt(s: Sys, sid: nat): Sys {
    if !Busy(s, sid) || !s.sessions[sid].InExecuting? || s.sessions[sid].snap.paymentId >= |s.db.payments| then s
    else
      var session := s.sessions[sid];
      var amount := s.db.payments[session.snap.paymentId].amount;
      Open(s.(db := StartTxn(s.db, session.c, amount)), sid,
           AttemptOpen(session.c, session.snap, session.entry, |s.db.attempts|))
  }

  /** The external call: no transaction is open, and the answer is whatever the provider says. */
  function DoCallProvider(s: Sys, sid: nat, answer: ProviderAnswer): Sys {
    if !Busy(s, sid) || !s.sessions[sid].AttemptOpen? || s.sessions[sid].attempt >= |s.db.attempts| then s
    else
      var session := s.sessions[sid];
      Open(s.(creates := s.creates + [CreateCall(session.c, session.entry, session.attempt,
                                                 s.db.attempts[session.attempt].amount)]),
           sid, Answered(session.c, session.snap, session.entry, session.attempt, answer))
  }

  predicate IsAmbiguous(answer: ProviderAnswer) {
    answer == Raised(AmbiguousError)
  }

  function DoCommitReconciliation(s: Sys, sid: nat, found: Option<Link>): Sys {
    if !Busy(s, sid) || !s.sessions[sid].Answered? || !IsAmbiguous(s.sessions[sid].answer) then s
    else
      var session := s.sessions[sid];
      Open(s.(db := ReconcileTxn(s.db, session.attempt, found)), sid,
           Reconciled(session.c, session.snap, session.entry, session.attempt, found))
  }

  /** What the session will do last: record this link, or fail with this category. */
  datatype Ending = Adopt(link: Link) | GiveUp(category: FailureCategory) | NotYet

  function EndingOf(session: Session): Ending {
    match session
    case Answered(_, _, _, _, answer) =>
      (match answer
       case Made(link) => Adopt(link)
       case Raised(error) => if error == AmbiguousError then NotYet else GiveUp(CategoryOf(error)))
    case Reconciled(_, _, _, _, found) =>
      if found.Some? then Adopt(found.value) else GiveUp(AmbiguousResult)
    case _ => NotYet
  }

  function DoCommitFinish(s: Sys, sid: nat): Sys {
    if !Busy(s, sid) || EndingOf(s.sessions[sid]).NotYet?
       || s.sessions[sid].c >= |s.db.cases| || s.sessions[sid].attempt >= |s.db.attempts| then s
    else
      var session := s.sessions[sid];
      match EndingOf(session)
      case Adopt(link) => Close(s, sid, RecordLinkTxn(s.db, session.c, session.snap, session.attempt, link).0)
      case GiveUp(category) => Close(s, sid, FailTxn(s.db, session.c, session.snap, session.attempt, category).0)
  }

  function DoReceiveWebhook(s: Sys, sid: nat, event: LinkEvent): Sys {
    if Busy(s, sid) then s
    else
      match Receive(s.db, event)
      case Settled(db, _) => s.(db := db)
      case Matched(r) =>
        var seen := s.db.requests[r];
        if seen.caseId >= |s.db.cases| then s
        else Open(s, sid, WebhookOpen(seen.caseId, s.db.cases[seen.caseId], event, r, seen))
  }

  function DoCommitWebhook(s: Sys, sid: nat): Sys {
    if !Busy(s, sid) || !s.sessions[sid].WebhookOpen? then s
    else
      var w := s.sessions[sid];
      if w.request >= |s.db.requests| || w.seen.caseId >= |s.db.cases| || w.event.status.None? then s
      else Close(s, sid, ApplyTxn(s.db, w.event, w.request, w.seen, w.snap).0)
  }

  function Apply(s: Sys, a: Action, config: Config): Sys {
    match a
    case Tick => s.(today := s.today + 1)
    case Ingest(req) => s.(db := IngestTxn(s.db, req, s.today).0)
    case OpenCaseFor(payment) => s.(db := OpenCaseTxn(s.db, payment, s.today).0)
    case BeginSweep(sid, limit) => DoBeginSweep(s, sid, limit)
    case CommitSweep(sid, day) => DoCommitSweep(s, sid, day)
    case BeginDiagnosis(sid, c) => DoBeginDiagnosis(s, sid, c)
    case CommitDiagnosis(sid, outcome, day) => DoCommitDiagnosis(s, sid, outcome, day, config)
    case BeginExecution(sid, c) => DoBeginExecution(s, sid, c)
    case CommitEntry(sid, day) => DoCommitEntry(s, sid, day, config)
    case CommitAttempt(sid) => DoCommitAttempt(s, sid)
    case CallProvider(sid, answer) => DoCallProvider(s, sid, answer)
    case CommitReconciliation(sid, found) => DoCommitReconciliation(s, sid, found)
    case CommitFinish(sid) => DoCommitFinish(s, sid)
    case ReceiveWebhook(sid, event) => DoReceiveWebhook(s, sid, event)
    case CommitWebhook(sid) => DoCommitWebhook(s, sid)
    case NoteCycle(diagnosed, executed, failed) =>
      s.(db := s.db.(log := s.db.log + [RecoveryCycleCompleted(diagnosed, executed, failed)]))
  }

  /** A run: any list of actions, in order. */
  function Run(s: Sys, actions: seq<Action>, config: Config): Sys {
    if actions == [] then s else Apply(Run(s, actions[..|actions| - 1], config), actions[|actions| - 1], config)
  }
}
