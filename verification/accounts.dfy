/** Link accounting across tables: attempt numbers, attempts, payment requests and audit events agree. */
module Accounts {
  import opened Domain
  import opened Policy
  import opened AiService
  import opened Records
  import opened Folds
  import opened AuditLog
  import Diagnosis
  import opened Execution
  import opened Webhooks
  import opened Ingestion
  import opened Protocol
  import opened Coherence
  import opened Steps
  import opened Lifecycle

  function SucceededOf(c: nat): Attempt -> int {
    (a: Attempt) => if a.caseId == c && a.status == Succeeded then 1 else 0
  }

  function RequestOf(c: nat): PaymentRequest -> int {
    (r: PaymentRequest) => if r.caseId == c then 1 else 0
  }

  function LinksOf(cases: seq<CaseRow>, c: nat): int {
    if c < |cases| then cases[c].attemptNumber else 0
  }

  ghost predicate AttemptsCount(db: Db) {
    forall c: nat :: Sum(db.attempts, SucceededOf(c)) == LinksOf(db.cases, c)
  }

  ghost predicate RequestsCount(db: Db) {
    forall c: nat :: Sum(db.requests, RequestOf(c)) == LinksOf(db.cases, c)
  }

  ghost predicate EventsCount(db: Db) {
    forall c: nat :: Sum(db.log, LinkEventOf(c)) == LinksOf(db.cases, c)
  }

  /** The number of links of each case, counted in four places. */
  ghost predicate CountsAgree(db: Db) {
    AttemptsCount(db) && RequestsCount(db) && EventsCount(db)
  }

  /** A case with a failed attempt is escalated and has exactly one. */
  predicate FailuresFinal(db: Db) {
    && (forall i :: 0 <= i < |db.attempts| && db.attempts[i].status == AttemptFailed ==>
          db.attempts[i].caseId < |db.cases| && db.cases[db.attempts[i].caseId].status == Escalated)
    && (forall i, j :: 0 <= i < j < |db.attempts| ==>
          !(db.attempts[i].status == AttemptFailed && db.attempts[j].status == AttemptFailed
            && db.attempts[i].caseId == db.attempts[j].caseId))
  }

  predicate NoLinkEvents(events: seq<Event>) {
    forall i :: 0 <= i < |events| ==> !events[i].PaymentLinkCreated?
  }

  lemma QuietEvents(log: seq<Event>, events: seq<Event>, c: nat)
    requires NoLinkEvents(events)
    ensures Sum(log + events, LinkEventOf(c)) == Sum(log, LinkEventOf(c))
  {
    SumConcat(log, events, LinkEventOf(c));
    SumZero(events, LinkEventOf(c));
  }

  /** The attempts tables differ in no caseId and no status. */
  predicate SameStatuses(a: seq<Attempt>, b: seq<Attempt>) {
    && |a| == |b|
    && forall i :: 0 <= i < |a| ==> a[i].caseId == b[i].caseId && a[i].status == b[i].status
  }

  predicate SameOwners(a: seq<PaymentRequest>, b: seq<PaymentRequest>) {
    |a| == |b| && forall i :: 0 <= i < |a| ==> a[i].caseId == b[i].caseId
  }

  /** A transaction that records no link and starts no attempt. */
  lemma QuietCounts(a: Db, b: Db, events: seq<Event>)
    requires CountsAgree(a)
    requires SameStatuses(a.attempts, b.attempts) && SameOwners(a.requests, b.requests)
    requires b.log == a.log + events && NoLinkEvents(events)
    requires forall c: nat :: LinksOf(a.cases, c) == LinksOf(b.cases, c)
    ensures CountsAgree(b)
  {
    forall c: nat
      ensures Sum(b.attempts, SucceededOf(c)) == LinksOf(b.cases, c)
      ensures Sum(b.requests, RequestOf(c)) == LinksOf(b.cases, c)
      ensures Sum(b.log, LinkEventOf(c)) == LinksOf(b.cases, c)
    {
      SumMonotone(a.attempts, b.attempts, SucceededOf(c), SucceededOf(c));
      SumMonotone(b.attempts, a.attempts, SucceededOf(c), SucceededOf(c));
      SumMonotone(a.requests, b.requests, RequestOf(c), RequestOf(c));
      SumMonotone(b.requests, a.requests, RequestOf(c), RequestOf(c));
      QuietEvents(a.log, events, c);
    }
  }

  lemma StartCounts(db: Db, c: nat, amount: int)
    requires CountsAgree(db)
    ensures CountsAgree(StartTxn(db, c, amount))
  {
  }

  lemma RecordLinkCounts(db: Db, c: nat, snap: CaseRow, attempt: nat, link: Link)
    requires CountsAgree(db) && c < |db.cases| && Fresh(snap, db.cases[c])
    requires attempt < |db.attempts| && db.attempts[attempt].caseId == c && db.attempts[attempt].status == InProgress
    ensures CountsAgree(RecordLinkTxn(db, c, snap, attempt, link).0)
  {
    hide Sum;
    var after := RecordLinkTxn(db, c, snap, attempt, link).0;
    if after != db {
      forall d: nat
        ensures Sum(after.attempts, SucceededOf(d)) == LinksOf(after.cases, d)
        ensures Sum(after.requests, RequestOf(d)) == LinksOf(after.cases, d)
        ensures Sum(after.log, LinkEventOf(d)) == LinksOf(after.cases, d)
      {
        SumUpdate(db.attempts, attempt, after.attempts[attempt], SucceededOf(d));
        SumPush(db.requests, after.requests[|db.requests|], RequestOf(d));
        SumPush(db.log, PaymentLinkCreated(c, link.providerReference, link.amount), LinkEventOf(d));
        assert LinksOf(after.cases, d) == LinksOf(db.cases, d) + if d == c then 1 else 0;
      }
    }
  }

  lemma FailCounts(db: Db, c: nat, snap: CaseRow, attempt: nat, category: FailureCategory)
    requires CountsAgree(db) && c < |db.cases| && Fresh(snap, db.cases[c])
    requires attempt < |db.attempts| && db.attempts[attempt].status == InProgress
    ensures CountsAgree(FailTxn(db, c, snap, attempt, category).0)
  {
    hide Sum;
    var after := FailTxn(db, c, snap, attempt, category).0;
    if after != db {
      forall d: nat
        ensures Sum(after.attempts, SucceededOf(d)) == LinksOf(after.cases, d)
        ensures Sum(after.log, LinkEventOf(d)) == LinksOf(after.cases, d)
      {
        SumUpdate(db.attempts, attempt, after.attempts[attempt], SucceededOf(d));
        SumPush(db.log, StatusChanged(c, snap.status, Escalated), LinkEventOf(d));
      }
    }
  }

  lemma DiagnosisTrailQuiet(c: nat, row: CaseRow, payment: Payment, outcome: AiOutcome, today: int, config: Config)
    ensures NoLinkEvents(Diagnosis.Trail(c, row, payment, outcome, today, config))
  {
    hide Evaluate, ResolveNextStatus;
  }

  lemma DiagnosisCounts(db: Db, c: nat, snap: CaseRow, outcome: AiOutcome, today: int, config: Config)
    requires CountsAgree(db) && c < |db.cases| && Fresh(snap, db.cases[c])
    ensures CountsAgree(Diagnosis.DiagnosisTxn(db, c, snap, outcome, today, config).0)
  {
    hide Diagnosis.Trail, CountsAgree, Evaluate, ResolveNextStatus;
    var after := Diagnosis.DiagnosisTxn(db, c, snap, outcome, today, config).0;
    if after != db {
      var payment := db.payments[snap.paymentId];
      DiagnosisTrailQuiet(c, snap, payment, outcome, today, config);
      QuietCounts(db, after, Diagnosis.Trail(c, snap, payment, outcome, today, config));
    }
  }

  lemma EnterCounts(db: Db, c: nat, snap: CaseRow, today: int, config: Config)
    requires CountsAgree(db) && c < |db.cases| && Fresh(snap, db.cases[c])
    ensures CountsAgree(EnterTxn(db, c, snap, today, config).0)
  {
    hide CountsAgree, Evaluate;
    var after := EnterTxn(db, c, snap, today, config).0;
    if after != db {
      var decision := Evaluate(RecheckInput(snap, db.payments[snap.paymentId].amount, today), config);
      if after.cases[c].status == Executing {
        QuietCounts(db, after, EnterTrail(c, snap, decision));
      } else {
        QuietCounts(db, after, EnterTrail(c, snap, decision) + [StatusChanged(c, Executing, Escalated)]);
      }
    }
  }

  lemma ApplyCounts(db: Db, w: Session)
    requires CountsAgree(db) && w.WebhookOpen? && SessionOk(db, w)
    ensures CountsAgree(ApplyTxn(db, w.event, w.request, w.seen, w.snap).0)
  {
    hide CountsAgree;
    var after := ApplyTxn(db, w.event, w.request, w.seen, w.snap).0;
    if after != db {
      var first := PaymentEvent(w.c, w.event, w.seen);
      if after.cases == db.cases {
        QuietCounts(db, after, [first]);
      } else {
        QuietCounts(db, after, [first, StatusChanged(w.c, Executing, Resolved(w.snap, w.event, w.seen).status)]);
      }
    }
  }

  lemma CreateCaseCounts(db: Db, payment: nat, today: int)
    requires CountsAgree(db) && payment < |db.payments|
    ensures CountsAgree(CreateCase(db, payment, today))
  {
    QuietCounts(db, CreateCase(db, payment, today),
                [CaseCreated(|db.cases|, payment, db.payments[payment].amount)]);
  }

  lemma {:induction false} OpenAllCounts(db: Db, payments: seq<nat>, today: int)
    requires CountsAgree(db)
    requires forall k :: 0 <= k < |payments| ==> payments[k] < |db.payments|
    ensures CountsAgree(OpenAll(db, payments, today))
    decreases |payments|
  {
    if payments != [] {
      CreateCaseCounts(db, payments[0], today);
      OpenAllCounts(CreateCase(db, payments[0], today), payments[1..], today);
    }
  }

  lemma IngestCounts(db: Db, req: IngestRequest, today: int)
    requires CountsAgree(db)
    ensures CountsAgree(IngestTxn(db, req, today).0)
  {
    hide CountsAgree;
    if Repeated(db, req) {
      QuietCounts(db, IngestTxn(db, req, today).0,
                  [PaymentIngestDeduplicated(FindPayment(db.payments, req.providerPaymentId.value).value)]);
    } else {
      QuietCounts(db, RecordPayment(db, req), [PaymentIngested(|db.payments|, req.status, req.amount)]);
      CreateCaseCounts(RecordPayment(db, req), |db.payments|, today);
    }
  }

  lemma SweepCounts(db: Db, payments: seq<nat>, today: int)
    requires CountsAgree(db)
    ensures CountsAgree(SweepTxn(db, payments, today).0)
  {
    hide CountsAgree;
    if Openable(db, payments, today) {
      OpenAllCounts(db, payments, today);
    }
  }

  lemma ReceiveCounts(db: Db, e: LinkEvent)
    requires CountsAgree(db) && Receive(db, e).Settled?
    ensures CountsAgree(Receive(db, e).db)
  {
    hide CountsAgree;
    var after := Receive(db, e).db;
    if after.log == db.log {
      QuietCounts(db, after, []);
    } else {
      QuietCounts(db, after, [WebhookUnmatchedLink(e.link.value)]);
    }
  }

  lemma ReconcileCounts(db: Db, attempt: nat, found: Option<Link>)
    requires CountsAgree(db)
    ensures CountsAgree(ReconcileTxn(db, attempt, found))
  {
    QuietCounts(db, ReconcileTxn(db, attempt, found),
                [ProviderAmbiguousResult(attempt), ProviderStateReconciliation(attempt, found.Some?)]);
  }

  lemma FinishCounts(s: Sys, sid: nat)
    requires Base(s) && CountsAgree(s.db)
    ensures CountsAgree(DoCommitFinish(s, sid).db)
  {
    hide RecordLinkTxn, FailTxn, CountsAgree;
    if DoCommitFinish(s, sid) != s {
      var session := s.sessions[sid];
      match EndingOf(session)
      case Adopt(link) => RecordLinkCounts(s.db, session.c, session.snap, session.attempt, link);
      case GiveUp(category) => FailCounts(s.db, session.c, session.snap, session.attempt, category);
    }
  }

  lemma ApplyKeepsCounts(s: Sys, a: Action, config: Config)
    requires Base(s) && CountsAgree(s.db)
    ensures CountsAgree(Apply(s, a, config).db)
  {
    hide Diagnosis.DiagnosisTxn, EnterTxn, StartTxn, ReconcileTxn, ApplyTxn, IngestTxn, SweepTxn, CountsAgree,
         Linked, NoneConflict, CallsAccounted;
    match a
    case Ingest(req) => IngestCounts(s.db, req, s.today);
    case OpenCaseFor(payment) =>
      if payment < |s.db.payments| {
        CreateCaseCounts(s.db, payment, s.today);
      }
    case CommitSweep(sid, day) =>
      if sid in s.sweeps {
        SweepCounts(s.db, s.sweeps[sid].payments, day);
      }
    case CommitDiagnosis(sid, outcome, day) =>
      if Busy(s, sid) && s.sessions[sid].DiagnosisOpen? {
        DiagnosisCounts(s.db, s.sessions[sid].c, s.sessions[sid].snap, outcome, day, config);
      }
    case CommitEntry(sid, day) =>
      if Busy(s, sid) && s.sessions[sid].ExecutionOpen? {
        EnterCounts(s.db, s.sessions[sid].c, s.sessions[sid].snap, day, config);
      }
    case CommitAttempt(sid) =>
      if DoCommitAttempt(s, sid) != s {
        StartCounts(s.db, s.sessions[sid].c, s.db.payments[s.sessions[sid].snap.paymentId].amount);
      }
    case CommitReconciliation(sid, found) =>
      if DoCommitReconciliation(s, sid, found) != s {
        ReconcileCounts(s.db, s.sessions[sid].attempt, found);
      }
    case CommitFinish(sid) => FinishCounts(s, sid);
    case ReceiveWebhook(sid, event) =>
      if Receive(s.db, event).Settled? {
        ReceiveCounts(s.db, event);
      }
    case CommitWebhook(sid) =>
      if Busy(s, sid) && s.sessions[sid].WebhookOpen? {
        ApplyCounts(s.db, s.sessions[sid]);
      }
    case NoteCycle(diagnosed, executed, failed) =>
      QuietCounts(s.db, Apply(s, a, config).db, [RecoveryCycleCompleted(diagnosed, executed, failed)]);
    case _ =>
  }

  // ---- failed attempts ----

  /** Attempts that have not newly failed, and rows that left terminal cases alone. */
  lemma FailuresCarry(a: Db, b: Db, today: int, config: Config)
    requires FailuresFinal(a) && RowsStep(a, b, today, config)
    requires |a.attempts| <= |b.attempts|
    requires forall i :: 0 <= i < |b.attempts| && b.attempts[i].status == AttemptFailed ==>
                           i < |a.attempts| && a.attempts[i].status == AttemptFailed
                           && a.attempts[i].caseId == b.attempts[i].caseId
    ensures FailuresFinal(b)
  {
  }

  lemma FailIsFirst(db: Db, c: nat, snap: CaseRow, attempt: nat, category: FailureCategory)
    requires FailuresFinal(db) && c < |db.cases| && Fresh(snap, db.cases[c]) && snap.status == Executing
    requires attempt < |db.attempts| && db.attempts[attempt].caseId == c
    ensures FailuresFinal(FailTxn(db, c, snap, attempt, category).0)
  {
  }

  lemma NoNewFailure(s: Sys, a: Action, config: Config)
    requires Base(s) && !a.CommitFinish?
    ensures
      var b := Apply(s, a, config).db;
      && |s.db.attempts| <= |b.attempts|
      && forall i :: 0 <= i < |b.attempts| && b.attempts[i].status == AttemptFailed ==>
           i < |s.db.attempts| && s.db.attempts[i].status == AttemptFailed
           && s.db.attempts[i].caseId == b.attempts[i].caseId
  {
    hide Diagnosis.DiagnosisTxn, EnterTxn, ApplyTxn, IngestTxn, SweepTxn, Receive, Base;
    match a
    case CommitDiagnosis(sid, outcome, day) =>
      if Busy(s, sid) && s.sessions[sid].DiagnosisOpen? {
        Diagnosis.LeavesTheRest(s.db, s.sessions[sid].c, s.sessions[sid].snap, outcome, day, config);
      }
    case CommitEntry(sid, day) =>
      if Busy(s, sid) && s.sessions[sid].ExecutionOpen? {
        EntryLeavesTheRest(s.db, s.sessions[sid].c, s.sessions[sid].snap, day, config);
      }
    case ReceiveWebhook(_, e) => WebhookAttempts(s.db, e);
    case CommitWebhook(sid) => CommitWebhookAttempts(s, sid);
    case Ingest(req) => IngestAttempts(s.db, req, s.today);
    case CommitSweep(sid, day) =>
      if sid in s.sweeps {
        SweepLeavesTheRest(s.db, s.sweeps[sid].payments, day);
      }
    case _ =>
  }

  lemma WebhookAttempts(db: Db, e: LinkEvent)
    ensures Receive(db, e).Settled? ==> Receive(db, e).db.attempts == db.attempts
  {
  }

  /** A webhook may write a code onto an attempt, never a status. */
  lemma CommitWebhookAttempts(s: Sys, sid: nat)
    ensures SameStatuses(s.db.attempts, DoCommitWebhook(s, sid).db.attempts)
  {
  }

  lemma IngestAttempts(db: Db, req: IngestRequest, today: int)
    ensures IngestTxn(db, req, today).0.attempts == db.attempts
  {
  }

  lemma RecordLinkAttempts(db: Db, c: nat, snap: CaseRow, attempt: nat, link: Link)
    requires c < |db.cases| && attempt < |db.attempts|
    ensures
      var after := RecordLinkTxn(db, c, snap, attempt, link).0;
      && |after.attempts| == |db.attempts|
      && forall i :: 0 <= i < |after.attempts| ==>
           && after.attempts[i].caseId == db.attempts[i].caseId
           && (after.attempts[i].status == AttemptFailed ==> db.attempts[i].status == AttemptFailed)
  {
  }

  lemma FinishFailures(s: Sys, sid: nat, config: Config)
    requires Inv(s, config) && FailuresFinal(s.db)
    ensures FailuresFinal(DoCommitFinish(s, sid).db)
  {
    hide RecordLinkTxn, FailTxn, RowsStep, FailuresFinal;
    if DoCommitFinish(s, sid) != s {
      BaseGives(s, sid);
      hide Inv, Base;
      var session := s.sessions[sid];
      match EndingOf(session)
      case Adopt(link) =>
        RecordLinkAttempts(s.db, session.c, session.snap, session.attempt, link);
        RecordLinkRowsStep(s.db, session.c, session.snap, session.attempt, link, s.today, config);
        FailuresCarry(s.db, RecordLinkTxn(s.db, session.c, session.snap, session.attempt, link).0, s.today, config);
      case GiveUp(category) => FailIsFirst(s.db, session.c, session.snap, session.attempt, category);
    }
  }

  lemma ApplyKeepsFailures(s: Sys, a: Action, config: Config)
    requires Inv(s, config) && FailuresFinal(s.db)
    ensures FailuresFinal(Apply(s, a, config).db)
  {
    if a.CommitFinish? {
      FinishFailures(s, a.sid, config);
    } else {
      hide Apply, RowsStep, FailuresFinal;
      NoNewFailure(s, a, config);
      ActionRowsStep(s, a, config);
      FailuresCarry(s.db, Apply(s, a, config).db, DayOf(s, a), config);
    }
  }

  lemma {:induction false} RunKeepsAccounts(actions: seq<Action>, config: Config)
    ensures CountsAgree(Run(INIT, actions, config).db)
    ensures FailuresFinal(Run(INIT, actions, config).db)
  {
    if actions != [] {
      var earlier := actions[..|actions| - 1];
      var before := Run(INIT, earlier, config);
      hide Apply, CountsAgree, FailuresFinal;
      RunKeepsAccounts(earlier, config);
      InitInv(config);
      RunKeepsInv(INIT, earlier, config);
      ApplyKeepsCounts(before, actions[|actions| - 1], config);
      ApplyKeepsFailures(before, actions[|actions| - 1], config);
    }
  }

  /**
   * A case's link accounting agrees across four tables in every reachable state: its attempt number, its
   * succeeded attempts, its payment requests and its payment_link_created events.
   */
  lemma LinkAccountingAgrees(actions: seq<Action>, c: nat, config: Config)
    requires c < |Run(INIT, actions, config).db.cases|
    ensures
      var db := Run(INIT, actions, config).db;
      && db.cases[c].attemptNumber == Sum(db.attempts, SucceededOf(c))
      && db.cases[c].attemptNumber == Sum(db.requests, RequestOf(c))
      && db.cases[c].attemptNumber == Sum(db.log, LinkEventOf(c))
  {
    RunKeepsAccounts(actions, config);
  }

  /** A provider failure is final: the case is ESCALATED, and no second attempt of it has failed. */
  lemma FailedAttemptIsFinal(actions: seq<Action>, i: nat, config: Config)
    requires i < |Run(INIT, actions, config).db.attempts|
    requires Run(INIT, actions, config).db.attempts[i].status == AttemptFailed
    ensures
      var db := Run(INIT, actions, config).db;
      var c := db.attempts[i].caseId;
      && c < |db.cases| && db.cases[c].status == Escalated
      && forall j :: 0 <= j < |db.attempts| && j != i && db.attempts[j].caseId == c ==>
           db.attempts[j].status != AttemptFailed
  {
    RunKeepsAccounts(actions, config);
  }
}
