/** The audit log as the protocol writes it: it replays to the committed statuses, with evidence for each step. */
module Trail {
  import opened Domain
  import opened Policy
  import opened AiService
  import opened Records
  import opened AuditLog
  import Diagnosis
  import opened Execution
  import opened Webhooks
  import opened Ingestion
  import opened Protocol
  import opened Coherence
  import opened Lifecycle

  function Statuses(cases: seq<CaseRow>): (st: seq<Status>)
    ensures |st| == |cases| && forall c :: 0 <= c < |cases| ==> st[c] == cases[c].status
  {
    seq(|cases|, c requires 0 <= c < |cases| => cases[c].status)
  }

  function StatusAt(st: seq<Status>, c: nat): Status {
    if c < |st| then st[c] else Discovered
  }

  /** The log is evidenced throughout and replays, case by case, to these statuses. */
  ghost predicate Tells(log: seq<Event>, st: seq<Status>) {
    Audited(log) && forall c: nat :: Replay(log, c) == Some(StatusAt(st, c))
  }

  ghost predicate TrailOk(db: Db) {
    Tells(db.log, Statuses(db.cases))
  }

  lemma PushQuiet(log: seq<Event>, st: seq<Status>, e: Event)
    requires Tells(log, st) && !e.StatusChanged?
    ensures Tells(log + [e], st)
  {
  }

  lemma PushChange(log: seq<Event>, st: seq<Status>, c: nat, to: Status)
    requires Tells(log, st) && c < |st| && CanTransition(st[c], to)
    requires Justified(log, StatusChanged(c, st[c], to))
    ensures Tells(log + [StatusChanged(c, st[c], to)], st[c := to])
  {
    var e := StatusChanged(c, st[c], to);
    AuditedPush(log, e);
    forall d: nat ensures Replay(log + [e], d) == Some(StatusAt(st[c := to], d)) {
      ReplayPush(log, e, d);
    }
  }

  /** Two quiet events in a row. */
  lemma PushQuietPair(log: seq<Event>, st: seq<Status>, e: Event, f: Event)
    requires Tells(log, st) && !e.StatusChanged? && !f.StatusChanged?
    ensures Tells(log + [e, f], st)
  {
    PushQuiet(log, st, e);
    PushQuiet(log + [e], st, f);
    assert log + [e, f] == log + [e] + [f];
  }

  lemma OpeningTells(log: seq<Event>, st: seq<Status>, c: nat)
    requires Tells(log, st) && c < |st| && Diagnosis.Diagnosable(st[c])
    ensures Tells(log + Diagnosis.Opening(c, st[c]), st[c := Diagnosing])
  {
    var l1 := log + [DiagnosisRequested(c, st[c])];
    PushQuiet(log, st, DiagnosisRequested(c, st[c]));
    if st[c] == Discovered {
      PushChange(l1, st, c, Eligible);
      var l2 := l1 + [StatusChanged(c, Discovered, Eligible)];
      PushChange(l2, st[c := Eligible], c, Diagnosing);
      assert log + Diagnosis.Opening(c, st[c]) == l2 + [StatusChanged(c, Eligible, Diagnosing)];
      assert st[c := Eligible][c := Diagnosing] == st[c := Diagnosing];
    } else {
      PushChange(l1, st, c, Diagnosing);
      assert log + Diagnosis.Opening(c, st[c]) == l1 + [StatusChanged(c, st[c], Diagnosing)];
    }
  }

  /** The six events of a review, for any proposal and decision of the policy engine. */
  lemma ReviewTells(log: seq<Event>, st: seq<Status>, c: nat, source: DecisionSource, retries: nat,
                    proposal: Recommendation, decision: Decision)
    requires Tells(log, st) && c < |st| && st[c] == Diagnosing
    requires decision.allow ==> decision == Decision(true, [])
    ensures Tells(log + [AiDiagnosisCreated(c, source, retries),
                         RecommendationCreated(c, proposal),
                         StatusChanged(c, Diagnosing, Recommended),
                         StatusChanged(c, Recommended, PolicyReview),
                         PolicyEvaluated(c, decision, proposal.action),
                         StatusChanged(c, PolicyReview, ResolveNextStatus(proposal.action, decision))],
                  st[c := ResolveNextStatus(proposal.action, decision)])
  {
    var next := ResolveNextStatus(proposal.action, decision);
    var l1 := log + [AiDiagnosisCreated(c, source, retries), RecommendationCreated(c, proposal)];
    PushQuietPair(log, st, AiDiagnosisCreated(c, source, retries), RecommendationCreated(c, proposal));
    PushChange(l1, st, c, Recommended);
    var l2 := l1 + [StatusChanged(c, Diagnosing, Recommended)];
    PushChange(l2, st[c := Recommended], c, PolicyReview);
    var l3 := l2 + [StatusChanged(c, Recommended, PolicyReview)];
    var st3 := st[c := Recommended][c := PolicyReview];
    PushQuiet(l3, st3, PolicyEvaluated(c, decision, proposal.action));
    var l4 := l3 + [PolicyEvaluated(c, decision, proposal.action)];
    PushChange(l4, st3, c, next);
    assert st3[c := next] == st[c := next];
    assert l4 + [StatusChanged(c, PolicyReview, next)]
        == log + [AiDiagnosisCreated(c, source, retries), RecommendationCreated(c, proposal),
                  StatusChanged(c, Diagnosing, Recommended), StatusChanged(c, Recommended, PolicyReview),
                  PolicyEvaluated(c, decision, proposal.action), StatusChanged(c, PolicyReview, next)];
  }

  lemma DiagnosisTells(db: Db, c: nat, snap: CaseRow, outcome: AiOutcome, today: int, config: Config)
    requires Linked(db) && TrailOk(db) && c < |db.cases| && Fresh(snap, db.cases[c])
    ensures TrailOk(Diagnosis.DiagnosisTxn(db, c, snap, outcome, today, config).0)
  {
    hide Evaluate, Tells;
    if Diagnosis.Diagnosable(snap.status) && db.cases[c].version == snap.version {
      var payment := db.payments[snap.paymentId];
      var st := Statuses(db.cases);
      var after := Diagnosis.DiagnosisTxn(db, c, snap, outcome, today, config).0;
      if snap.status == Discovered && !Diagnosis.PaymentEligible(payment) {
        PushQuiet(db.log, st, DiagnosisRequested(c, Discovered));
        PushChange(db.log + [DiagnosisRequested(c, Discovered)], st, c, Ineligible);
        assert after.log == db.log + [DiagnosisRequested(c, Discovered)] + [StatusChanged(c, Discovered, Ineligible)];
        assert Statuses(after.cases) == st[c := Ineligible];
      } else {
        var input := Diagnosis.ReviewInput(snap, payment, outcome, today);
        AllowIsClean(input, config);
        OpeningTells(db.log, st, c);
        var opening := db.log + Diagnosis.Opening(c, snap.status);
        ReviewTells(opening, st[c := Diagnosing], c, outcome.Source(), outcome.retryCount,
                    outcome.Proposal(), Evaluate(input, config));
        assert after.log == opening + Diagnosis.Review(c, snap, payment, outcome, today, config);
        assert Statuses(after.cases) == st[c := Diagnosing][c := after.cases[c].status];
      }
    }
  }

  lemma EnterTells(db: Db, c: nat, snap: CaseRow, today: int, config: Config)
    requires Linked(db) && TrailOk(db) && c < |db.cases| && Fresh(snap, db.cases[c])
    ensures TrailOk(EnterTxn(db, c, snap, today, config).0)
  {
    hide Evaluate, Tells;
    var after := EnterTxn(db, c, snap, today, config).0;
    if after != db {
      var decision := Evaluate(RecheckInput(snap, db.payments[snap.paymentId].amount, today), config);
      var st := Statuses(db.cases);
      PushQuietPair(db.log, st, ExecutionRequested(c, Approved), PolicyRechecked(c, decision));
      var l1 := db.log + [ExecutionRequested(c, Approved), PolicyRechecked(c, decision)];
      PushChange(l1, st, c, Executing);
      var l2 := l1 + [StatusChanged(c, Approved, Executing)];
      assert l2 == db.log + EnterTrail(c, snap, decision);
      if after.cases[c].status == Executing {
        assert after.log == l2;
        assert Statuses(after.cases) == st[c := Executing];
      } else {
        PushChange(l2, st[c := Executing], c, Escalated);
        assert after.log == l2 + [StatusChanged(c, Executing, Escalated)];
        assert Statuses(after.cases) == st[c := Executing][c := Escalated];
      }
    }
  }

  lemma RecordLinkTells(db: Db, c: nat, snap: CaseRow, attempt: nat, link: Link)
    requires TrailOk(db) && c < |db.cases| && Fresh(snap, db.cases[c]) && attempt < |db.attempts|
    ensures TrailOk(RecordLinkTxn(db, c, snap, attempt, link).0)
  {
    hide Tells;
    PushQuiet(db.log, Statuses(db.cases), PaymentLinkCreated(c, link.providerReference, link.amount));
    var after := RecordLinkTxn(db, c, snap, attempt, link).0;
    assert Statuses(after.cases) == Statuses(db.cases);
  }

  lemma FailTells(db: Db, c: nat, snap: CaseRow, attempt: nat, category: FailureCategory)
    requires TrailOk(db) && c < |db.cases| && Fresh(snap, db.cases[c]) && attempt < |db.attempts|
    ensures TrailOk(FailTxn(db, c, snap, attempt, category).0)
  {
    hide Tells;
    var after := FailTxn(db, c, snap, attempt, category).0;
    if after != db {
      PushChange(db.log, Statuses(db.cases), c, Escalated);
      assert Statuses(after.cases) == Statuses(db.cases)[c := Escalated];
    }
  }

  lemma ApplyTells(db: Db, w: Session)
    requires TrailOk(db) && w.WebhookOpen? && SessionOk(db, w)
    ensures TrailOk(ApplyTxn(db, w.event, w.request, w.seen, w.snap).0)
  {
    hide Tells;
    var after := ApplyTxn(db, w.event, w.request, w.seen, w.snap).0;
    if after != db {
      var st := Statuses(db.cases);
      var first := PaymentEvent(w.c, w.event, w.seen);
      PushQuiet(db.log, st, first);
      if after.cases == db.cases {
        assert after.log == db.log + [first];
      } else {
        var next := Resolved(w.snap, w.event, w.seen).status;
        PushChange(db.log + [first], st, w.c, next);
        assert after.log == db.log + [first] + [StatusChanged(w.c, Executing, next)];
        assert Statuses(after.cases) == st[w.c := next];
      }
    }
  }

  lemma CreateCaseTells(db: Db, payment: nat, today: int)
    requires TrailOk(db) && payment < |db.payments|
    ensures TrailOk(CreateCase(db, payment, today))
  {
    var after := CreateCase(db, payment, today);
    var st := Statuses(db.cases);
    PushQuiet(db.log, st, CaseCreated(|db.cases|, payment, db.payments[payment].amount));
    assert forall c: nat :: StatusAt(st, c) == StatusAt(Statuses(after.cases), c);
  }

  lemma QuietTells(a: Db, b: Db, e: Event)
    requires TrailOk(a) && b.cases == a.cases && !e.StatusChanged? && b.log == a.log + [e]
    ensures TrailOk(b)
  {
    PushQuiet(a.log, Statuses(a.cases), e);
  }

  lemma IngestTells(db: Db, req: IngestRequest, today: int)
    requires TrailOk(db)
    ensures TrailOk(IngestTxn(db, req, today).0)
  {
    hide Tells;
    if Repeated(db, req) {
      QuietTells(db, IngestTxn(db, req, today).0,
                 PaymentIngestDeduplicated(FindPayment(db.payments, req.providerPaymentId.value).value));
    } else {
      QuietTells(db, RecordPayment(db, req), PaymentIngested(|db.payments|, req.status, req.amount));
      CreateCaseTells(RecordPayment(db, req), |db.payments|, today);
    }
  }

  lemma {:induction false} OpenAllTells(db: Db, payments: seq<nat>, today: int)
    requires TrailOk(db)
    requires forall k :: 0 <= k < |payments| ==> payments[k] < |db.payments|
    ensures TrailOk(OpenAll(db, payments, today))
    decreases |payments|
  {
    if payments != [] {
      CreateCaseTells(db, payments[0], today);
      OpenAllTells(CreateCase(db, payments[0], today), payments[1..], today);
    }
  }

  lemma ReceiveTells(db: Db, e: LinkEvent)
    requires TrailOk(db) && Receive(db, e).Settled?
    ensures TrailOk(Receive(db, e).db)
  {
    if Receive(db, e).db.log != db.log {
      QuietTells(db, Receive(db, e).db, WebhookUnmatchedLink(e.link.value));
    }
  }

  lemma CommitAttemptTells(s: Sys, sid: nat)
    requires TrailOk(s.db)
    ensures TrailOk(DoCommitAttempt(s, sid).db)
  {
    if DoCommitAttempt(s, sid) != s {
      var amount := s.db.payments[s.sessions[sid].snap.paymentId].amount;
      QuietTells(s.db, DoCommitAttempt(s, sid).db, ExecutionStarted(|s.db.attempts|, amount));
    }
  }

  lemma CommitReconciliationTells(s: Sys, sid: nat, found: Option<Link>)
    requires TrailOk(s.db)
    ensures TrailOk(DoCommitReconciliation(s, sid, found).db)
  {
    if DoCommitReconciliation(s, sid, found) != s {
      var attempt := s.sessions[sid].attempt;
      PushQuietPair(s.db.log, Statuses(s.db.cases), ProviderAmbiguousResult(attempt),
                    ProviderStateReconciliation(attempt, found.Some?));
    }
  }

  lemma CommitFinishTells(s: Sys, sid: nat)
    requires Base(s) && TrailOk(s.db)
    ensures TrailOk(DoCommitFinish(s, sid).db)
  {
    hide RecordLinkTxn, FailTxn, TrailOk;
    if DoCommitFinish(s, sid) != s {
      var session := s.sessions[sid];
      match EndingOf(session)
      case Adopt(link) => RecordLinkTells(s.db, session.c, session.snap, session.attempt, link);
      case GiveUp(category) => FailTells(s.db, session.c, session.snap, session.attempt, category);
    }
  }

  lemma SweepTells(db: Db, payments: seq<nat>, today: int)
    requires TrailOk(db)
    ensures TrailOk(SweepTxn(db, payments, today).0)
  {
    hide TrailOk;
    if Openable(db, payments, today) {
      OpenAllTells(db, payments, today);
    }
  }

  lemma BirthTells(s: Sys, a: Action, config: Config)
    requires TrailOk(s.db) && (a.Ingest? || a.OpenCaseFor? || a.CommitSweep?)
    ensures TrailOk(Apply(s, a, config).db)
  {
    hide IngestTxn, SweepTxn, TrailOk;
    match a
    case Ingest(req) => IngestTells(s.db, req, s.today);
    case OpenCaseFor(payment) =>
      if payment < |s.db.payments| {
        CreateCaseTells(s.db, payment, s.today);
      }
    case CommitSweep(sid, day) =>
      if sid in s.sweeps {
        SweepTells(s.db, s.sweeps[sid].payments, day);
      }
  }

  lemma DecisionTells(s: Sys, a: Action, config: Config)
    requires Base(s) && TrailOk(s.db) && (a.CommitDiagnosis? || a.CommitEntry?)
    ensures TrailOk(Apply(s, a, config).db)
  {
    hide Diagnosis.DiagnosisTxn, EnterTxn, TrailOk;
    if Busy(s, a.sid) {
      var session := s.sessions[a.sid];
      assert Linked(s.db) && SessionOk(s.db, session);
      hide Base, Linked;
      match a
      case CommitDiagnosis(_, outcome, day) =>
        if session.DiagnosisOpen? {
          DiagnosisTells(s.db, session.c, session.snap, outcome, day, config);
        }
      case CommitEntry(_, day) =>
        if session.ExecutionOpen? {
          EnterTells(s.db, session.c, session.snap, day, config);
        }
    }
  }

  lemma WebhookTells(s: Sys, a: Action, config: Config)
    requires Base(s) && TrailOk(s.db) && (a.ReceiveWebhook? || a.CommitWebhook?)
    ensures TrailOk(Apply(s, a, config).db)
  {
    hide ApplyTxn, TrailOk, Linked, NoneConflict, CallsAccounted;
    match a
    case ReceiveWebhook(sid, event) =>
      if Receive(s.db, event).Settled? {
        ReceiveTells(s.db, event);
      }
    case CommitWebhook(sid) =>
      if Busy(s, sid) && s.sessions[sid].WebhookOpen? {
        ApplyTells(s.db, s.sessions[sid]);
      }
  }

  /** Every action keeps the log replayable and evidenced. */
  lemma ApplyKeepsTrail(s: Sys, a: Action, config: Config)
    requires Base(s) && TrailOk(s.db)
    ensures TrailOk(Apply(s, a, config).db)
  {
    if a.Ingest? || a.OpenCaseFor? || a.CommitSweep? {
      BirthTells(s, a, config);
    } else if a.CommitDiagnosis? || a.CommitEntry? {
      DecisionTells(s, a, config);
    } else if a.ReceiveWebhook? || a.CommitWebhook? {
      WebhookTells(s, a, config);
    } else {
      hide Base, TrailOk, DoCommitAttempt, DoCommitReconciliation, DoCommitFinish, FirstUncased;
      match a
      case CommitAttempt(sid) => CommitAttemptTells(s, sid);
      case CommitReconciliation(sid, found) => CommitReconciliationTells(s, sid, found);
      case CommitFinish(sid) => CommitFinishTells(s, sid);
      case NoteCycle(diagnosed, executed, failed) =>
        QuietTells(s.db, Apply(s, a, config).db, RecoveryCycleCompleted(diagnosed, executed, failed));
      case _ =>
    }
  }

  lemma {:induction false} RunKeepsTrail(actions: seq<Action>, config: Config)
    ensures TrailOk(Run(INIT, actions, config).db)
  {
    if actions == [] {
      assert Statuses(INIT.db.cases) == [];
    } else {
      var before := Run(INIT, actions[..|actions| - 1], config);
      hide Apply, TrailOk;
      RunKeepsTrail(actions[..|actions| - 1], config);
      InitInv(config);
      RunKeepsInv(INIT, actions[..|actions| - 1], config);
      ApplyKeepsTrail(before, actions[|actions| - 1], config);
    }
  }

  /**
   * The audit trail replays: in every reachable state the status changes of each case, in log order, form a
   * path of the transition table from Discovered to the committed status.
   */
  lemma TrailReplays(actions: seq<Action>, c: nat, config: Config)
    requires c < |Run(INIT, actions, config).db.cases|
    ensures
      var db := Run(INIT, actions, config).db;
      var path := StatusHistory(db.log, c);
      LegalPath(path) && path[0] == Discovered && path[|path| - 1] == db.cases[c].status
  {
    RunKeepsTrail(actions, config);
    ReplayIsLegalPath(Run(INIT, actions, config).db.log, c);
  }

  lemma TrailAudited(db: Db)
    requires TrailOk(db)
    ensures Audited(db.log)
  {
  }

  /**
   * Every entry to APPROVED, EXECUTING and RECOVERED stands directly behind its own evidence: an allowing
   * policy evaluation of a payment link, a policy re-check, a payment confirmation.
   */
  lemma ChangesAreEvidenced(actions: seq<Action>, p: nat, config: Config)
    requires p < |Run(INIT, actions, config).db.log|
    requires Run(INIT, actions, config).db.log[p].StatusChanged?
    ensures
      var log := Run(INIT, actions, config).db.log;
      var e := log[p];
      && (e.to == Approved ==> p > 0 && log[p - 1] == PolicyEvaluated(e.c, Decision(true, []), SendPaymentLink))
      && (e.to == Executing ==> p > 0 && log[p - 1].PolicyRechecked? && log[p - 1].c == e.c)
      && (e.to == Recovered ==> p > 0 && log[p - 1].PaymentConfirmed? && log[p - 1].c == e.c)
  {
    RunKeepsTrail(actions, config);
    hide Run;
    TrailAudited(Run(INIT, actions, config).db);
    hide TrailOk, Audited;
    AuditedEverywhere(Run(INIT, actions, config).db.log, p);
  }
}
