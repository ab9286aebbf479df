/** The life of one case: what any action of any run can do to its row. */
module Lifecycle {
  import opened Domain
  import opened Policy
  import opened AiService
  import opened Records
  import Diagnosis
  import opened Execution
  import opened Webhooks
  import opened Ingestion
  import opened Protocol
  import opened Coherence
  import opened Steps

  predicate Standing(row: CaseRow, amount: int, config: Config) {
    && row.action.Some? && row.confidence.Some?
    && StandingFacts(row.action.value, row.contactCount, row.confidence.value, amount, config)
  }

  predicate WindowOpen(row: CaseRow, today: int, config: Config) {
    today - row.createdDay <= config.maxRecoveryWindowDays
  }

  /** What holds of every committed case row. */
  predicate RowOk(row: CaseRow, payment: Payment, config: Config) {
    && CommittedStatus(row.status)
    && (row.status != Recovered ==> row.recoveredAmount == 0)
    && (row.eligible <==> row.status !in {Discovered, Ineligible})
    && (row.eligible ==> Diagnosis.PaymentEligible(payment))
    && (row.status == Approved ==> Standing(row, payment.amount, config))
  }

  ghost predicate RowsOk(db: Db, config: Config) {
    forall c :: 0 <= c < |db.cases| ==>
      db.cases[c].paymentId < |db.payments| && RowOk(db.cases[c], db.payments[db.cases[c].paymentId], config)
  }

  /** A recorded link: the only change to a row that leaves its status alone. */
  predicate LinkStep(a: CaseRow, b: CaseRow) {
    a.status == Executing && b == a.(attemptNumber := a.attemptNumber + 1, version := a.version + 1)
  }

  /** A committed change of status, and the conditions it comes with. */
  predicate StatusStep(a: CaseRow, b: CaseRow, payment: Payment, today: int, config: Config) {
    && CommittedChange(a.status, b.status)
    && SameCase(a, b) && a.version < b.version
    && b.attemptNumber == a.attemptNumber
    && (b.status != Recovered ==> b.recoveredAmount == a.recoveredAmount)
    && b.eligible == (if a.status == Discovered then Diagnosis.PaymentEligible(payment) else a.eligible)
    && (b.status == Ineligible ==> !b.eligible)
    && (a.status == Discovered && b.status != Ineligible ==> b.eligible)
    && (b.status == Approved ==> Standing(b, payment.amount, config))
    && (b.status in {Approved, Executing} ==> WindowOpen(a, today, config))
  }

  predicate RowStep(a: CaseRow, b: CaseRow, payment: Payment, today: int, config: Config) {
    a == b || LinkStep(a, b) || StatusStep(a, b, payment, today, config)
  }

  /** Every row of a is, in b, one step further at most; rows beyond a's are newborn. */
  ghost predicate RowsStep(a: Db, b: Db, today: int, config: Config) {
    && a.payments <= b.payments
    && |a.cases| <= |b.cases|
    && (forall c :: 0 <= c < |a.cases| ==>
          && a.cases[c].paymentId < |a.payments|
          && RowStep(a.cases[c], b.cases[c], a.payments[a.cases[c].paymentId], today, config))
    && (forall c :: |a.cases| <= c < |b.cases| ==>
          && b.cases[c].paymentId < |b.payments|
          && b.cases[c] == NewCase(b.cases[c].paymentId, b.payments[b.cases[c].paymentId].amount, today))
  }

  lemma RowStepKeepsOk(a: CaseRow, b: CaseRow, payment: Payment, today: int, config: Config)
    requires RowOk(a, payment, config) && RowStep(a, b, payment, today, config)
    ensures RowOk(b, payment, config)
  {
  }

  lemma RowsStepKeepsOk(a: Db, b: Db, today: int, config: Config)
    requires RowsOk(a, config) && RowsStep(a, b, today, config)
    ensures RowsOk(b, config)
  {
    forall c | 0 <= c < |a.cases| ensures RowOk(b.cases[c], b.payments[b.cases[c].paymentId], config) {
      RowStepKeepsOk(a.cases[c], b.cases[c], a.payments[a.cases[c].paymentId], today, config);
    }
  }

  lemma DiagnosisRowsStep(db: Db, c: nat, snap: CaseRow, outcome: AiOutcome, today: int, config: Config)
    requires Linked(db) && RowsOk(db, config) && c < |db.cases| && Fresh(snap, db.cases[c])
    ensures RowsStep(db, Diagnosis.DiagnosisTxn(db, c, snap, outcome, today, config).0, today, config)
  {
    hide Evaluate, Diagnosis.Trail;
    if Diagnosis.Diagnosable(snap.status) && db.cases[c].version == snap.version {
      var payment := db.payments[snap.paymentId];
      Diagnosis.VerdictExact(snap, payment, outcome, today, config);
      assert RowStep(snap, Diagnosis.Diagnosed(snap, payment, outcome, today, config), payment, today, config);
    }
  }

  lemma EnterRowsStep(db: Db, c: nat, snap: CaseRow, today: int, config: Config)
    requires Linked(db) && RowsOk(db, config) && c < |db.cases| && Fresh(snap, db.cases[c])
    ensures RowsStep(db, EnterTxn(db, c, snap, today, config).0, today, config)
  {
    if snap.status == Approved && snap.action.Some? && today - snap.createdDay > config.maxRecoveryWindowDays {
      ExpiredApprovalIsBlocked(RecheckInput(snap, db.payments[snap.paymentId].amount, today), config);
    }
    hide Evaluate, EnterTrail;
  }

  lemma RecordLinkRowsStep(db: Db, c: nat, snap: CaseRow, attempt: nat, link: Link, today: int, config: Config)
    requires Linked(db) && c < |db.cases| && Fresh(snap, db.cases[c]) && snap.status == Executing
    requires attempt < |db.attempts|
    ensures RowsStep(db, RecordLinkTxn(db, c, snap, attempt, link).0, today, config)
  {
  }

  lemma FailRowsStep(db: Db, c: nat, snap: CaseRow, attempt: nat, category: FailureCategory, today: int, config: Config)
    requires Linked(db) && c < |db.cases| && Fresh(snap, db.cases[c]) && snap.status == Executing
    requires attempt < |db.attempts|
    ensures RowsStep(db, FailTxn(db, c, snap, attempt, category).0, today, config)
  {
  }

  lemma ApplyRowsStep(db: Db, w: Session, today: int, config: Config)
    requires Linked(db) && w.WebhookOpen? && SessionOk(db, w)
    ensures RowsStep(db, ApplyTxn(db, w.event, w.request, w.seen, w.snap).0, today, config)
  {
  }

  lemma SameRows(a: Db, b: Db, today: int, config: Config)
    requires Linked(a) && a.payments <= b.payments && a.cases == b.cases
    ensures RowsStep(a, b, today, config)
  {
  }

  lemma NewCaseStep(a: Db, b: Db, payment: nat, today: int, config: Config)
    requires RowsStep(a, b, today, config) && payment < |b.payments|
    ensures RowsStep(a, CreateCase(b, payment, today), today, config)
  {
  }

  lemma IngestRowsStep(db: Db, req: IngestRequest, today: int, config: Config)
    requires Linked(db)
    ensures RowsStep(db, IngestTxn(db, req, today).0, today, config)
  {
    if Repeated(db, req) {
      SameRows(db, IngestTxn(db, req, today).0, today, config);
    } else {
      SameRows(db, RecordPayment(db, req), today, config);
      NewCaseStep(db, RecordPayment(db, req), |db.payments|, today, config);
    }
  }

  lemma {:induction false} OpenAllRowsStep(a: Db, b: Db, payments: seq<nat>, today: int, config: Config)
    requires RowsStep(a, b, today, config)
    requires forall k :: 0 <= k < |payments| ==> payments[k] < |b.payments|
    ensures RowsStep(a, OpenAll(b, payments, today), today, config)
    decreases |payments|
  {
    if payments != [] {
      NewCaseStep(a, b, payments[0], today, config);
      OpenAllRowsStep(a, CreateCase(b, payments[0], today), payments[1..], today, config);
    }
  }

  /** The date an action goes by. */
  function DayOf(s: Sys, a: Action): int {
    match a
    case CommitDiagnosis(_, _, day) => day
    case CommitEntry(_, day) => day
    case CommitSweep(_, day) => day
    case _ => s.today
  }

  /** The cases a birth brings are newborn, and the others are as they were. */
  lemma BirthRowsStep(s: Sys, a: Action, config: Config)
    requires Base(s) && (a.Ingest? || a.OpenCaseFor? || a.CommitSweep?)
    ensures RowsStep(s.db, Apply(s, a, config).db, DayOf(s, a), config)
  {
    hide IngestTxn, OpenCaseTxn, SweepTxn;
    assert Linked(s.db);
    hide Base, RowsStep, Linked;
    match a
    case Ingest(req) => IngestRowsStep(s.db, req, s.today, config);
    case OpenCaseFor(payment) => OpenCaseRowsStep(s.db, payment, s.today, config);
    case CommitSweep(sid, day) =>
      SameRows(s.db, s.db, day, config);
      if sid in s.sweeps {
        SweepRowsStep(s.db, s.sweeps[sid].payments, day, config);
      }
  }

  /** A verdict or an entry: the date it goes by is the one the session has read. */
  lemma DecisionRowsStep(s: Sys, a: Action, config: Config)
    requires Base(s) && RowsOk(s.db, config) && (a.CommitDiagnosis? || a.CommitEntry?)
    ensures RowsStep(s.db, Apply(s, a, config).db, DayOf(s, a), config)
  {
    hide Diagnosis.DiagnosisTxn, EnterTxn;
    SameRows(s.db, s.db, a.day, config);
    hide RowsStep, RowsOk;
    if Busy(s, a.sid) {
      BaseGives(s, a.sid);
      hide Base, Linked, Coherent, CallsAccounted, NoneConflict;
      var session := s.sessions[a.sid];
      match a
      case CommitDiagnosis(_, outcome, day) =>
        if session.DiagnosisOpen? {
          DiagnosisRowsStep(s.db, session.c, session.snap, outcome, day, config);
        }
      case CommitEntry(_, day) =>
        if session.ExecutionOpen? {
          EnterRowsStep(s.db, session.c, session.snap, day, config);
        }
    }
  }

  lemma WebhookRowsStep(s: Sys, sid: nat, config: Config)
    requires Base(s)
    ensures RowsStep(s.db, DoCommitWebhook(s, sid).db, s.today, config)
  {
    hide ApplyTxn;
    SameRows(s.db, s.db, s.today, config);
    hide RowsStep;
    if Busy(s, sid) && s.sessions[sid].WebhookOpen? {
      BaseGives(s, sid);
      hide Base, Linked, Coherent, CallsAccounted, NoneConflict;
      ApplyRowsStep(s.db, s.sessions[sid], s.today, config);
    }
  }

  /** Whatever the action, each case takes at most one legal step. */
  lemma ActionRowsStep(s: Sys, a: Action, config: Config)
    requires Base(s) && RowsOk(s.db, config)
    ensures RowsStep(s.db, Apply(s, a, config).db, DayOf(s, a), config)
  {
    if a.Ingest? || a.OpenCaseFor? || a.CommitSweep? {
      BirthRowsStep(s, a, config);
    } else if a.CommitDiagnosis? || a.CommitEntry? {
      DecisionRowsStep(s, a, config);
    } else if a.CommitFinish? || a.ReceiveWebhook? || a.CommitWebhook? {
      hide Base, RowsStep, RowsOk, DoCommitFinish, DoReceiveWebhook, DoCommitWebhook;
      match a
      case CommitFinish(sid) => FinishRowsStep(s, sid, config);
      case ReceiveWebhook(sid, event) => ReceiveRowsStep(s, sid, event, config);
      case CommitWebhook(sid) => WebhookRowsStep(s, sid, config);
    } else {
      hide Base, RowsStep, RowsOk, Apply;
      OtherRowsSame(s, a, config);
    }
  }

  /** Only ingestion, an opening and a sweep bring in a case. */
  lemma CasesStand(s: Sys, a: Action, config: Config)
    requires !a.Ingest? && !a.OpenCaseFor? && !a.CommitSweep?
    ensures |Apply(s, a, config).db.cases| == |s.db.cases|
  {
    hide Evaluate, Diagnosis.Trail, Diagnosis.Diagnosed, EnterTrail, FirstUncased;
  }

  lemma OtherRowsSame(s: Sys, a: Action, config: Config)
    requires Base(s)
    requires a.Tick? || a.BeginDiagnosis? || a.BeginExecution? || a.CommitAttempt? || a.CallProvider?
             || a.CommitReconciliation? || a.NoteCycle? || a.BeginSweep?
    ensures RowsStep(s.db, Apply(s, a, config).db, s.today, config)
  {
    SameRows(s.db, Apply(s, a, config).db, s.today, config);
  }

  lemma OpenCaseRowsStep(db: Db, payment: nat, today: int, config: Config)
    requires Linked(db)
    ensures RowsStep(db, OpenCaseTxn(db, payment, today).0, today, config)
  {
    SameRows(db, db, today, config);
    if payment < |db.payments| {
      NewCaseStep(db, db, payment, today, config);
    }
  }

  lemma SweepRowsStep(db: Db, payments: seq<nat>, today: int, config: Config)
    requires Linked(db)
    ensures RowsStep(db, SweepTxn(db, payments, today).0, today, config)
  {
    SameRows(db, db, today, config);
    if Openable(db, payments, today) {
      OpenAllRowsStep(db, db, payments, today, config);
    }
  }

  lemma FinishRowsStep(s: Sys, sid: nat, config: Config)
    requires Base(s)
    ensures RowsStep(s.db, DoCommitFinish(s, sid).db, s.today, config)
  {
    hide RecordLinkTxn, FailTxn;
    SameRows(s.db, s.db, s.today, config);
    if Busy(s, sid) && !EndingOf(s.sessions[sid]).NotYet? {
      var session := s.sessions[sid];
      match EndingOf(session)
      case Adopt(link) => RecordLinkRowsStep(s.db, session.c, session.snap, session.attempt, link, s.today, config);
      case GiveUp(category) => FailRowsStep(s.db, session.c, session.snap, session.attempt, category, s.today, config);
    }
  }

  lemma ReceiveRowsStep(s: Sys, sid: nat, e: LinkEvent, config: Config)
    requires Base(s)
    ensures RowsStep(s.db, DoReceiveWebhook(s, sid, e).db, s.today, config)
  {
    SameRows(s.db, DoReceiveWebhook(s, sid, e).db, s.today, config);
  }

  // ---- runs ----

  /** What sessions and sweeps in flight have loaded is fit to go on with. */
  ghost predicate Fit(s: Sys) {
    && (forall sid :: sid in s.sweeps ==> Listed(s.db, s.sweeps[sid].payments))
    && (forall sid :: sid in s.sessions && s.sessions[sid].ExecutionOpen? ==> s.sessions[sid].snap.action.Some?)
  }

  ghost predicate Inv(s: Sys, config: Config) {
    Base(s) && RowsOk(s.db, config) && Fit(s)
  }

  lemma FitSweeps(s: Sys, a: Action, config: Config)
    requires Fit(s) && s.db.payments <= Apply(s, a, config).db.payments
    ensures
      var t := Apply(s, a, config);
      forall sid :: sid in t.sweeps ==> Listed(t.db, t.sweeps[sid].payments)
  {
    hide Diagnosis.DiagnosisTxn, EnterTxn, StartTxn, ReconcileTxn, RecordLinkTxn, FailTxn, Receive, ApplyTxn,
         IngestTxn, OpenCaseTxn, SweepTxn, FirstUncased;
    if a.BeginSweep? {
      UncasedAreListed(s.db, a.limit);
    }
  }

  lemma FitSessions(s: Sys, a: Action, config: Config)
    requires Fit(s) && RowsOk(s.db, config)
    ensures
      var t := Apply(s, a, config);
      forall sid :: sid in t.sessions && t.sessions[sid].ExecutionOpen? ==> t.sessions[sid].snap.action.Some?
  {
    hide Diagnosis.DiagnosisTxn, EnterTxn, StartTxn, ReconcileTxn, RecordLinkTxn, FailTxn, Receive, ApplyTxn,
         IngestTxn, OpenCaseTxn, SweepTxn, FirstUncased, Listed;
    if a.BeginExecution? && a.c < |s.db.cases| {
      assert RowOk(s.db.cases[a.c], s.db.payments[s.db.cases[a.c].paymentId], config);
    }
  }

  lemma ApplyKeepsInv(s: Sys, a: Action, config: Config)
    requires Inv(s, config)
    ensures Inv(Apply(s, a, config), config)
  {
    hide Apply;
    ApplyKeepsBase(s, a, config);
    ActionRowsStep(s, a, config);
    RowsStepKeepsOk(s.db, Apply(s, a, config).db, DayOf(s, a), config);
    FitSweeps(s, a, config);
    FitSessions(s, a, config);
  }

  lemma InitInv(config: Config)
    ensures Inv(INIT, config)
  {
  }

  lemma {:induction false} RunKeepsInv(s: Sys, actions: seq<Action>, config: Config)
    requires Inv(s, config)
    ensures Inv(Run(s, actions, config), config)
  {
    if actions != [] {
      hide Apply;
      RunKeepsInv(s, actions[..|actions| - 1], config);
      ApplyKeepsInv(Run(s, actions[..|actions| - 1], config), actions[|actions| - 1], config);
    }
  }
}
