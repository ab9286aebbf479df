/**
 * Where recovered money comes from. Under an assumption on the payment provider, carried through every
 * request, session and case, the recovered amount of a case is positive exactly when it is RECOVERED, or is
 * exactly the revenue at risk.
 */
module Books {
  import opened Domain
  import opened Policy
  import opened AiService
  import opened Records
  import Diagnosis
  import opened Execution
  import opened Webhooks
  import opened Ingestion
  import opened Protocol
  import opened Coherence
  import opened Steps
  import opened Lifecycle

  /** What is assumed of the provider: links of positive amounts, or links of exactly the requested amount. */
  datatype Trust = Positive | Exact

  /** Exact providers link what was requested and never report more paid than the link. */
  predicate Trusted(trust: Trust, amount: int, amountPaid: int, requested: int) {
    match trust
    case Positive => amount > 0
    case Exact => amount == requested && amountPaid <= amount
  }

  predicate TrustedLink(trust: Trust, link: Link, requested: int) {
    Trusted(trust, link.amount, link.amountPaid, requested)
  }

  predicate TrustedEvent(trust: Trust, e: LinkEvent, req: PaymentRequest) {
    trust == Exact && e.amountPaid.Some? ==> e.amountPaid.value <= req.amount
  }

  /** The assumption, action by action. */
  predicate Environment(trust: Trust, s: Sys, a: Action) {
    match a
    case CallProvider(sid, Made(link)) =>
      sid in s.sessions && s.sessions[sid].AttemptOpen? ==>
        TrustedLink(trust, link, s.sessions[sid].snap.revenueAtRisk)
    case CommitReconciliation(sid, Some(link)) =>
      sid in s.sessions && s.sessions[sid].Answered? ==>
        TrustedLink(trust, link, s.sessions[sid].snap.revenueAtRisk)
    case ReceiveWebhook(_, e) =>
      Receive(s.db, e).Matched? ==> TrustedEvent(trust, e, s.db.requests[Receive(s.db, e).request])
    case _ => true
  }

  ghost predicate GoodRun(trust: Trust, s: Sys, actions: seq<Action>, config: Config) {
    actions == [] ||
    (var earlier := actions[..|actions| - 1];
     GoodRun(trust, s, earlier, config) && Environment(trust, Run(s, earlier, config), actions[|actions| - 1]))
  }

  ghost predicate RequestsTrusted(trust: Trust, db: Db) {
    forall r :: 0 <= r < |db.requests| ==>
      db.requests[r].caseId < |db.cases| &&
      Trusted(trust, db.requests[r].amount, db.requests[r].amountPaid, db.cases[db.requests[r].caseId].revenueAtRisk)
  }

  predicate SessionTrusted(trust: Trust, session: Session) {
    && (EndingOf(session).Adopt? ==> TrustedLink(trust, EndingOf(session).link, session.snap.revenueAtRisk))
    && (session.WebhookOpen? ==>
          && Trusted(trust, session.seen.amount, session.seen.amountPaid, session.snap.revenueAtRisk)
          && TrustedEvent(trust, session.event, session.seen))
  }

  ghost predicate SessionsTrusted(trust: Trust, s: Sys) {
    forall sid :: sid in s.sessions ==> SessionTrusted(trust, s.sessions[sid])
  }

  predicate RecoveredRight(trust: Trust, row: CaseRow) {
    row.status == Recovered ==>
      match trust
      case Positive => row.recoveredAmount > 0
      case Exact => row.recoveredAmount == row.revenueAtRisk
  }

  ghost predicate RowsRight(trust: Trust, db: Db) {
    forall c :: 0 <= c < |db.cases| ==> RecoveredRight(trust, db.cases[c])
  }

  ghost predicate BooksOk(trust: Trust, s: Sys) {
    RequestsTrusted(trust, s.db) && SessionsTrusted(trust, s) && RowsRight(trust, s.db)
  }

  /** No case becomes RECOVERED between a and b. */
  ghost predicate NoRecovery(a: Db, b: Db) {
    forall c :: 0 <= c < |b.cases| && b.cases[c].status == Recovered ==> c < |a.cases| && a.cases[c] == b.cases[c]
  }

  lemma UntouchedRequests(trust: Trust, a: Db, b: Db)
    requires RequestsTrusted(trust, a) && b.requests == a.requests && Evolves(a, b, -1)
    ensures RequestsTrusted(trust, b)
  {
  }

  lemma DiagnosisNoRecovery(db: Db, c: nat, snap: CaseRow, outcome: AiOutcome, today: int, config: Config)
    requires c < |db.cases| && Fresh(snap, db.cases[c])
    ensures NoRecovery(db, Diagnosis.DiagnosisTxn(db, c, snap, outcome, today, config).0)
  {
    hide Evaluate, Diagnosis.Trail;
  }

  lemma EnterNoRecovery(db: Db, c: nat, snap: CaseRow, today: int, config: Config)
    ensures NoRecovery(db, EnterTxn(db, c, snap, today, config).0)
  {
    hide Evaluate, EnterTrail;
  }

  lemma {:induction false} OpenAllNoRecovery(a: Db, b: Db, payments: seq<nat>, today: int)
    requires NoRecovery(a, b) && |a.cases| <= |b.cases|
    requires forall k :: 0 <= k < |payments| ==> payments[k] < |b.payments|
    ensures NoRecovery(a, OpenAll(b, payments, today))
    ensures OpenAll(b, payments, today).requests == b.requests
    decreases |payments|
  {
    if payments != [] {
      OpenAllNoRecovery(a, CreateCase(b, payments[0], today), payments[1..], today);
    }
  }

  lemma SweepNoRecovery(db: Db, payments: seq<nat>, today: int)
    ensures NoRecovery(db, SweepTxn(db, payments, today).0)
    ensures SweepTxn(db, payments, today).0.requests == db.requests
  {
    if Openable(db, payments, today) {
      OpenAllNoRecovery(db, db, payments, today);
    }
  }

  /** A database-only step that adds no request and recovers no case. */
  lemma QuietBooks(trust: Trust, s: Sys, t: Sys)
    requires BooksOk(trust, s) && SessionsTrusted(trust, t)
    requires t.db.requests == s.db.requests && Evolves(s.db, t.db, -1) && NoRecovery(s.db, t.db)
    ensures BooksOk(trust, t)
  {
    UntouchedRequests(trust, s.db, t.db);
  }

  lemma CommitDiagnosisBooks(trust: Trust, s: Sys, sid: nat, outcome: AiOutcome, day: int, config: Config)
    requires Base(s) && BooksOk(trust, s)
    ensures BooksOk(trust, DoCommitDiagnosis(s, sid, outcome, day, config))
  {
    hide Diagnosis.DiagnosisTxn, Base, NoRecovery, Evolves, RequestsTrusted, RowsRight, Linked, SessionOk;
    if Busy(s, sid) && s.sessions[sid].DiagnosisOpen? && CouldRead(s, s.sessions[sid], day) {
      BaseGives(s, sid);
      var session := s.sessions[sid];
      DiagnosisNoRecovery(s.db, session.c, session.snap, outcome, day, config);
      DiagnosisEvolves(s.db, session.c, session.snap, outcome, day, config);
      Diagnosis.LeavesTheRest(s.db, session.c, session.snap, outcome, day, config);
      QuietBooks(trust, s, DoCommitDiagnosis(s, sid, outcome, day, config));
    }
  }

  lemma CommitEntryBooks(trust: Trust, s: Sys, sid: nat, day: int, config: Config)
    requires Base(s) && BooksOk(trust, s)
    ensures BooksOk(trust, DoCommitEntry(s, sid, day, config))
  {
    hide EnterTxn, Base, NoRecovery, Evolves, RequestsTrusted, RowsRight, Linked, SessionOk;
    if Busy(s, sid) && s.sessions[sid].ExecutionOpen? && CouldRead(s, s.sessions[sid], day) {
      BaseGives(s, sid);
      var session := s.sessions[sid];
      EnterNoRecovery(s.db, session.c, session.snap, day, config);
      EnterEvolves(s.db, session.c, session.snap, day, config);
      EntryLeavesTheRest(s.db, session.c, session.snap, day, config);
      QuietBooks(trust, s, DoCommitEntry(s, sid, day, config));
    }
  }

  lemma RecordLinkBooks(trust: Trust, db: Db, c: nat, snap: CaseRow, attempt: nat, link: Link)
    requires Linked(db) && c < |db.cases| && Fresh(snap, db.cases[c]) && attempt < |db.attempts|
    requires snap.status == Executing
    requires RequestsTrusted(trust, db) && RowsRight(trust, db) && TrustedLink(trust, link, snap.revenueAtRisk)
    ensures RequestsTrusted(trust, RecordLinkTxn(db, c, snap, attempt, link).0)
    ensures RowsRight(trust, RecordLinkTxn(db, c, snap, attempt, link).0)
  {
  }

  lemma FailBooks(trust: Trust, db: Db, c: nat, snap: CaseRow, attempt: nat, category: FailureCategory)
    requires Linked(db) && c < |db.cases| && Fresh(snap, db.cases[c]) && attempt < |db.attempts|
    requires RequestsTrusted(trust, db) && RowsRight(trust, db)
    ensures RequestsTrusted(trust, FailTxn(db, c, snap, attempt, category).0)
    ensures RowsRight(trust, FailTxn(db, c, snap, attempt, category).0)
  {
  }

  lemma CommitFinishBooks(trust: Trust, s: Sys, sid: nat)
    requires Base(s) && BooksOk(trust, s)
    ensures BooksOk(trust, DoCommitFinish(s, sid))
  {
    hide RecordLinkTxn, FailTxn, RequestsTrusted, RowsRight;
    if DoCommitFinish(s, sid) != s {
      var session := s.sessions[sid];
      assert SessionTrusted(trust, session);
      match EndingOf(session)
      case Adopt(link) => RecordLinkBooks(trust, s.db, session.c, session.snap, session.attempt, link);
      case GiveUp(category) => FailBooks(trust, s.db, session.c, session.snap, session.attempt, category);
    }
  }

  lemma ApplyBooks(trust: Trust, db: Db, w: Session, config: Config)
    requires Linked(db) && RowsOk(db, config) && w.WebhookOpen? && SessionOk(db, w)
    requires RequestsTrusted(trust, db) && RowsRight(trust, db) && SessionTrusted(trust, w)
    ensures RequestsTrusted(trust, ApplyTxn(db, w.event, w.request, w.seen, w.snap).0)
    ensures RowsRight(trust, ApplyTxn(db, w.event, w.request, w.seen, w.snap).0)
  {
  }

  lemma CommitWebhookBooks(trust: Trust, s: Sys, sid: nat, config: Config)
    requires Inv(s, config) && BooksOk(trust, s)
    ensures BooksOk(trust, DoCommitWebhook(s, sid))
  {
    hide ApplyTxn, RequestsTrusted, RowsRight;
    if DoCommitWebhook(s, sid) != s {
      assert SessionTrusted(trust, s.sessions[sid]);
      ApplyBooks(trust, s.db, s.sessions[sid], config);
    }
  }

  lemma ReceiveTouches(db: Db, e: LinkEvent)
    ensures Receive(db, e).Settled? ==>
              Receive(db, e).db.requests == db.requests && Receive(db, e).db.cases == db.cases
  {
  }

  lemma ReceiveWebhookBooks(trust: Trust, s: Sys, sid: nat, e: LinkEvent)
    requires Base(s) && BooksOk(trust, s) && Environment(trust, s, ReceiveWebhook(sid, e))
    ensures BooksOk(trust, DoReceiveWebhook(s, sid, e))
  {
    hide Evolves, RowsRight, Linked;
    match Receive(s.db, e) {
      case Settled(db, _) =>
        hide RequestsTrusted;
        ReceiveEvolves(s.db, e);
        ReceiveTouches(s.db, e);
        QuietBooks(trust, s, DoReceiveWebhook(s, sid, e));
      case Matched(r) =>
    }
  }

  lemma CallProviderBooks(trust: Trust, s: Sys, sid: nat, answer: ProviderAnswer)
    requires BooksOk(trust, s) && Environment(trust, s, CallProvider(sid, answer))
    ensures BooksOk(trust, DoCallProvider(s, sid, answer))
  {
  }

  lemma CommitReconciliationBooks(trust: Trust, s: Sys, sid: nat, found: Option<Link>)
    requires BooksOk(trust, s) && Environment(trust, s, CommitReconciliation(sid, found))
    ensures BooksOk(trust, DoCommitReconciliation(s, sid, found))
  {
  }

  lemma CommitAttemptBooks(trust: Trust, s: Sys, sid: nat)
    requires BooksOk(trust, s)
    ensures BooksOk(trust, DoCommitAttempt(s, sid))
  {
  }

  lemma IngestBooks(trust: Trust, s: Sys, req: IngestRequest, config: Config)
    requires Base(s) && BooksOk(trust, s)
    ensures BooksOk(trust, Apply(s, Ingest(req), config))
  {
  }

  lemma OpenCaseBooks(trust: Trust, s: Sys, payment: nat, config: Config)
    requires Base(s) && BooksOk(trust, s)
    ensures BooksOk(trust, Apply(s, OpenCaseFor(payment), config))
  {
  }

  lemma SweepBooks(trust: Trust, s: Sys, sid: nat, day: int)
    requires Base(s) && BooksOk(trust, s)
    ensures BooksOk(trust, DoCommitSweep(s, sid, day))
  {
    if DoCommitSweep(s, sid, day) != s {
      assert Linked(s.db);
      hide SweepTxn, Base, NoRecovery, Evolves, RequestsTrusted, RowsRight, Linked;
      SweepEvolves(s.db, s.sweeps[sid].payments, day);
      SweepNoRecovery(s.db, s.sweeps[sid].payments, day);
      QuietBooks(trust, s, DoCommitSweep(s, sid, day));
    }
  }

  lemma ApplyKeepsBooks(trust: Trust, s: Sys, a: Action, config: Config)
    requires Inv(s, config) && BooksOk(trust, s) && Environment(trust, s, a)
    ensures BooksOk(trust, Apply(s, a, config))
  {
    hide BooksOk, Inv, Base;
    assert Base(s) by { BaseOfInv(s, config); }
    match a
    case Tick => TickBooks(trust, s, config);
    case Ingest(req) => IngestBooks(trust, s, req, config);
    case OpenCaseFor(payment) => OpenCaseBooks(trust, s, payment, config);
    case BeginSweep(_, _) => BeginBooks(trust, s, a, config);
    case CommitSweep(sid, day) => SweepBooks(trust, s, sid, day);
    case BeginDiagnosis(_, _) => BeginBooks(trust, s, a, config);
    case CommitDiagnosis(sid, outcome, day) => CommitDiagnosisBooks(trust, s, sid, outcome, day, config);
    case BeginExecution(_, _) => BeginBooks(trust, s, a, config);
    case CommitEntry(sid, day) => CommitEntryBooks(trust, s, sid, day, config);
    case CommitAttempt(sid) => CommitAttemptBooks(trust, s, sid);
    case CallProvider(sid, answer) => CallProviderBooks(trust, s, sid, answer);
    case CommitReconciliation(sid, found) => CommitReconciliationBooks(trust, s, sid, found);
    case CommitFinish(sid) => CommitFinishBooks(trust, s, sid);
    case ReceiveWebhook(sid, e) => ReceiveWebhookBooks(trust, s, sid, e);
    case CommitWebhook(sid) => CommitWebhookBooks(trust, s, sid, config);
    case NoteCycle(_, _, _) => NoteCycleBooks(trust, s, a, config);
  }

  lemma BaseOfInv(s: Sys, config: Config)
    requires Inv(s, config)
    ensures Base(s)
  {
  }

  lemma TickBooks(trust: Trust, s: Sys, config: Config)
    requires BooksOk(trust, s)
    ensures BooksOk(trust, Apply(s, Tick, config))
  {
  }

  lemma NoteCycleBooks(trust: Trust, s: Sys, a: Action, config: Config)
    requires BooksOk(trust, s) && a.NoteCycle?
    ensures BooksOk(trust, Apply(s, a, config))
  {
  }

  lemma BeginBooks(trust: Trust, s: Sys, a: Action, config: Config)
    requires BooksOk(trust, s) && (a.BeginDiagnosis? || a.BeginExecution? || a.BeginSweep?)
    ensures BooksOk(trust, Apply(s, a, config))
  {
  }

  lemma InitBooks(trust: Trust)
    ensures BooksOk(trust, INIT)
  {
  }

  lemma GoodStep(trust: Trust, s: Sys, actions: seq<Action>, config: Config)
    requires GoodRun(trust, s, actions, config) && actions != []
    ensures
      var earlier := actions[..|actions| - 1];
      GoodRun(trust, s, earlier, config) && Environment(trust, Run(s, earlier, config), actions[|actions| - 1])
  {
    hide Run, Environment;
  }

  lemma {:induction false} RunKeepsBooks(trust: Trust, actions: seq<Action>, config: Config)
    requires GoodRun(trust, INIT, actions, config)
    ensures BooksOk(trust, Run(INIT, actions, config)) && Inv(Run(INIT, actions, config), config)
  {
    hide Apply, Inv, BooksOk, Environment;
    InitInv(config);
    RunKeepsInv(INIT, actions, config);
    if actions == [] {
      InitBooks(trust);
    } else {
      var earlier := actions[..|actions| - 1];
      GoodStep(trust, INIT, actions, config);
      hide GoodRun;
      RunKeepsBooks(trust, earlier, config);
      ApplyKeepsBooks(trust, Run(INIT, earlier, config), actions[|actions| - 1], config);
    }
  }

  /** With links of positive amounts, a case has recovered money exactly when it is RECOVERED. */
  lemma RecoveredIffPositive(actions: seq<Action>, c: nat, config: Config)
    requires GoodRun(Positive, INIT, actions, config) && c < |Run(INIT, actions, config).db.cases|
    ensures
      var row := Run(INIT, actions, config).db.cases[c];
      row.recoveredAmount >= 0 && (row.recoveredAmount > 0 <==> row.status == Recovered)
  {
    RunKeepsBooks(Positive, actions, config);
  }

  /** With an exact provider, a case has recovered nothing or exactly what was at risk. */
  lemma RecoveredIsAllOrNothing(actions: seq<Action>, c: nat, config: Config)
    requires GoodRun(Exact, INIT, actions, config) && c < |Run(INIT, actions, config).db.cases|
    ensures
      var db := Run(INIT, actions, config).db;
      var row := db.cases[c];
      && row.recoveredAmount == (if row.status == Recovered then row.revenueAtRisk else 0)
      && (row.eligible <==> row.status !in {Discovered, Ineligible})
      && (row.eligible ==> row.revenueAtRisk > 0)
  {
    RunKeepsBooks(Exact, actions, config);
  }
}
