/** One lemma a transaction: each evolves the database and keeps its keys, so every run keeps Base. */
module Steps {
  import opened Domain
  import opened Policy
  import opened AiService
  import opened Records
  import Diagnosis
  import opened Execution
  import opened Webhooks
  import opened Ingestion
  import opened Protocol
  import opened Coherence

  lemma DiagnosisEvolves(db: Db, c: nat, snap: CaseRow, outcome: AiOutcome, today: int, config: Config)
    requires Linked(db) && c < |db.cases| && Fresh(snap, db.cases[c])
    ensures Evolves(db, Diagnosis.DiagnosisTxn(db, c, snap, outcome, today, config).0, -1)
    ensures Linked(Diagnosis.DiagnosisTxn(db, c, snap, outcome, today, config).0)
  {
    hide Evaluate, Diagnosis.Trail;
  }

  lemma EnterEvolves(db: Db, c: nat, snap: CaseRow, today: int, config: Config)
    requires Linked(db) && c < |db.cases| && Fresh(snap, db.cases[c])
    ensures Evolves(db, EnterTxn(db, c, snap, today, config).0, -1)
    ensures Linked(EnterTxn(db, c, snap, today, config).0)
  {
    hide Evaluate, EnterTrail;
  }

  lemma EnteredSessionOk(db: Db, c: nat, snap: CaseRow, today: int, config: Config)
    requires Linked(db) && c < |db.cases| && Fresh(snap, db.cases[c])
    requires EnterTxn(db, c, snap, today, config).1.Entered?
    ensures
      var (after, reply) := EnterTxn(db, c, snap, today, config);
      SessionOk(after, InExecuting(c, reply.row, reply.entry)) && reply.entry >= |db.log|
  {
  }

  lemma StartEvolves(db: Db, c: nat, amount: int)
    requires Linked(db) && c < |db.cases|
    ensures Evolves(db, StartTxn(db, c, amount), -1) && Linked(StartTxn(db, c, amount))
  {
  }

  lemma RecordLinkEvolves(db: Db, c: nat, snap: CaseRow, attempt: nat, link: Link)
    requires Linked(db) && c < |db.cases| && Fresh(snap, db.cases[c])
    requires attempt < |db.attempts| && db.attempts[attempt].caseId == c
    ensures Evolves(db, RecordLinkTxn(db, c, snap, attempt, link).0, attempt)
    ensures Linked(RecordLinkTxn(db, c, snap, attempt, link).0)
  {
    if RecordLinkTxn(db, c, snap, attempt, link).1 == LinkRecorded {
      assert !ReferenceTaken(db, link, attempt);
    }
  }

  lemma FailEvolves(db: Db, c: nat, snap: CaseRow, attempt: nat, category: FailureCategory)
    requires Linked(db) && c < |db.cases| && Fresh(snap, db.cases[c])
    requires attempt < |db.attempts|
    ensures Evolves(db, FailTxn(db, c, snap, attempt, category).0, attempt)
    ensures Linked(FailTxn(db, c, snap, attempt, category).0)
  {
  }

  lemma ReceiveEvolves(db: Db, e: LinkEvent)
    requires Linked(db)
    ensures Receive(db, e).Settled? ==> Evolves(db, Receive(db, e).db, -1) && Linked(Receive(db, e).db)
  {
  }

  lemma ApplyEvolves(db: Db, session: Session)
    requires Linked(db) && session.WebhookOpen? && SessionOk(db, session)
    ensures Evolves(db, ApplyTxn(db, session.event, session.request, session.seen, session.snap).0, -1)
    ensures Linked(ApplyTxn(db, session.event, session.request, session.seen, session.snap).0)
  {
    EventWrites(db.attempts, session.snap, session.event, session.seen);
    hide AttemptsAfter, Resolved, AmountAfter;
  }

  /** What an applied event leaves alone on attempts and case. */
  lemma EventWrites(attempts: seq<Attempt>, row: CaseRow, e: LinkEvent, seen: PaymentRequest)
    ensures |AttemptsAfter(attempts, e, seen)| == |attempts|
    ensures forall i :: 0 <= i < |attempts| ==>
              AttemptsAfter(attempts, e, seen)[i].(failureCode := attempts[i].failureCode) == attempts[i]
    ensures SameCase(row, Resolved(row, e, seen)) && row.version < Resolved(row, e, seen).version
  {
  }

  lemma CreateCaseEvolves(db: Db, payment: nat, today: int)
    requires Linked(db) && payment < |db.payments| && !HasCase(db.cases, payment)
    ensures Evolves(db, CreateCase(db, payment, today), -1) && Linked(CreateCase(db, payment, today))
  {
  }

  lemma EvolvesCompose(a: Db, b: Db, c: Db)
    requires Evolves(a, b, -1) && Evolves(b, c, -1)
    ensures Evolves(a, c, -1)
  {
  }

  lemma RecordPaymentEvolves(db: Db, req: IngestRequest)
    requires Linked(db)
    ensures Evolves(db, RecordPayment(db, req), -1) && Linked(RecordPayment(db, req))
  {
  }

  lemma IngestEvolves(db: Db, req: IngestRequest, today: int)
    requires Linked(db)
    ensures Evolves(db, IngestTxn(db, req, today).0, -1) && Linked(IngestTxn(db, req, today).0)
  {
    if !Repeated(db, req) {
      var recorded := RecordPayment(db, req);
      RecordPaymentEvolves(db, req);
      assert forall i :: 0 <= i < |db.cases| ==> db.cases[i].paymentId < |db.payments|;
      CreateCaseEvolves(recorded, |db.payments|, today);
      EvolvesCompose(db, recorded, CreateCase(recorded, |db.payments|, today));
    }
  }

  lemma OpenCaseEvolves(db: Db, payment: nat, today: int)
    requires Linked(db)
    ensures Evolves(db, OpenCaseTxn(db, payment, today).0, -1) && Linked(OpenCaseTxn(db, payment, today).0)
  {
    if payment < |db.payments| && !HasCase(db.cases, payment) {
      CreateCaseEvolves(db, payment, today);
    }
  }

  lemma {:induction false} OpenAllEvolves(db: Db, payments: seq<nat>, today: int)
    requires Linked(db) && Openable(db, payments, today)
    ensures Evolves(db, OpenAll(db, payments, today), -1) && Linked(OpenAll(db, payments, today))
    decreases |payments|
  {
    if payments == [] {
      SameDbEvolves(db);
    } else {
      hide Evolves, Linked;
      var next := CreateCase(db, payments[0], today);
      CreateCaseEvolves(db, payments[0], today);
      OpenAllEvolves(next, payments[1..], today);
      EvolvesCompose(db, next, OpenAll(next, payments[1..], today));
    }
  }

  lemma SweepEvolves(db: Db, payments: seq<nat>, today: int)
    requires Linked(db)
    ensures Evolves(db, SweepTxn(db, payments, today).0, -1) && Linked(SweepTxn(db, payments, today).0)
  {
    hide Evolves, Linked, OpenAll;
    SameDbEvolves(db);
    if Openable(db, payments, today) {
      OpenAllEvolves(db, payments, today);
    }
  }

  /** A sweep is its first opened case and then a smaller sweep. */
  lemma SweepStep(db: Db, limit: nat, today: int)
    requires limit > 0 && Uncased(db) != []
    ensures DiscoverTxn(db, limit, today) == DiscoverTxn(CreateCase(db, Uncased(db)[0], today), limit - 1, today)
  {
    var all := Uncased(db);
    FirstUncasedLeaves(db, today, 0);
    assert all[..Min(limit, |all|)][1..] == all[1..][..Min(limit - 1, |all| - 1)];
  }

  lemma StaySame(s: Sys, db: Db, today: int)
    requires Base(s) && Evolves(s.db, db, -1) && Linked(db)
    ensures Base(s.(db := db, today := today))
  {
    forall i | i in s.sessions ensures SessionOk(db, s.sessions[i]) {
      SessionSurvives(s.db, db, -1, s.sessions[i]);
    }
    CallsSurvive(s, s.(db := db, today := today));
  }

  // ---- one lemma a session step ----

  lemma BaseGives(s: Sys, sid: nat)
    requires Base(s) && sid in s.sessions
    ensures SessionOk(s.db, s.sessions[sid]) && Linked(s.db) && Coherent(s) && CallsAccounted(s)
    ensures NoneConflict(s.sessions)
  {
  }

  lemma CommitDiagnosisKeepsBase(s: Sys, sid: nat, outcome: AiOutcome, day: int, config: Config)
    requires Base(s)
    ensures Base(DoCommitDiagnosis(s, sid, outcome, day, config))
  {
    hide Diagnosis.DiagnosisTxn, Base, Linked, Evolves, Coherent, CallsAccounted, NoneConflict;
    if Busy(s, sid) && s.sessions[sid].DiagnosisOpen? {
      BaseGives(s, sid);
      var session := s.sessions[sid];
      DiagnosisEvolves(s.db, session.c, session.snap, outcome, day, config);
      CloseKeepsBase(s, sid, Diagnosis.DiagnosisTxn(s.db, session.c, session.snap, outcome, day, config).0, -1);
    }
  }

  lemma CommitEntryKeepsBase(s: Sys, sid: nat, day: int, config: Config)
    requires Base(s)
    ensures Base(DoCommitEntry(s, sid, day, config))
  {
    hide EnterTxn, Base, Linked, Evolves, Coherent, CallsAccounted, NoneConflict;
    if Busy(s, sid) && s.sessions[sid].ExecutionOpen? {
      BaseGives(s, sid);
      var session := s.sessions[sid];
      EnterEvolves(s.db, session.c, session.snap, day, config);
      var (db, reply) := EnterTxn(s.db, session.c, session.snap, day, config);
      if reply.Entered? {
        EnteredSessionOk(s.db, session.c, session.snap, day, config);
        OpenKeepsBase(s, sid, db, InExecuting(session.c, reply.row, reply.entry));
      } else {
        CloseKeepsBase(s, sid, db, -1);
      }
    }
  }

  /** A session that has the attempt carries on with it. */
  lemma CarriesOn(s: Sys, sid: nat, db: Db, next: Session)
    requires Base(s) && sid in s.sessions && HasAttempt(s.sessions[sid]) && HasAttempt(next)
    requires Evolves(s.db, db, -1)
    requires next.c == s.sessions[sid].c && next.snap == s.sessions[sid].snap
    requires next.entry == s.sessions[sid].entry && next.attempt == s.sessions[sid].attempt
    requires BeforeCall(next) ==> BeforeCall(s.sessions[sid])
    ensures SessionOk(db, next) && Distinguished(s, sid, next)
  {
    BaseGives(s, sid);
    SessionSurvives(s.db, db, -1, s.sessions[sid]);
    hide Base, Evolves, Linked, Coherent, CallsAccounted, NoneConflict, AllowedEntry, Fresh;
  }

  lemma StartsAttempt(s: Sys, sid: nat)
    requires Base(s) && sid in s.sessions && s.sessions[sid].InExecuting?
    ensures
      var session := s.sessions[sid];
      && session.c < |s.db.cases| && session.snap.paymentId < |s.db.payments|
      && var db := StartTxn(s.db, session.c, s.db.payments[session.snap.paymentId].amount);
         var next := AttemptOpen(session.c, session.snap, session.entry, |s.db.attempts|);
         SessionOk(db, next) && Distinguished(s, sid, next)
  {
  }

  lemma CommitAttemptKeepsBase(s: Sys, sid: nat)
    requires Base(s)
    ensures Base(DoCommitAttempt(s, sid))
  {
    hide StartTxn, Base, SessionOk, Linked, Evolves, Distinguished;
    if Busy(s, sid) && s.sessions[sid].InExecuting? {
      BaseGives(s, sid);
      StartsAttempt(s, sid);
      var session := s.sessions[sid];
      var amount := s.db.payments[session.snap.paymentId].amount;
      StartEvolves(s.db, session.c, amount);
      OpenKeepsBase(s, sid, StartTxn(s.db, session.c, amount),
                    AttemptOpen(session.c, session.snap, session.entry, |s.db.attempts|));
    }
  }

  lemma SameDbEvolves(db: Db)
    ensures Evolves(db, db, -1)
  {
  }

  lemma AddCallKeepsBase(s: Sys, call: CreateCall)
    requires Base(s)
    requires call.c < |s.db.cases| && call.amount == s.db.cases[call.c].revenueAtRisk
    requires AllowedEntry(s.db.log, call.c, call.entry)
    requires forall i :: 0 <= i < |s.creates| ==> s.creates[i].entry != call.entry
    requires forall sid :: sid in s.sessions && BeforeCall(s.sessions[sid]) ==> s.sessions[sid].entry != call.entry
    ensures Base(s.(creates := s.creates + [call]))
  {
    hide Linked, SessionOk, NoneConflict, AllowedEntry;
  }

  lemma CallProviderKeepsBase(s: Sys, sid: nat, answer: ProviderAnswer)
    requires Base(s)
    ensures Base(DoCallProvider(s, sid, answer))
  {
    hide Base, SessionOk, Linked, Evolves, Distinguished, Coherent, CallsAccounted, NoneConflict;
    if Busy(s, sid) && s.sessions[sid].AttemptOpen? {
      BaseGives(s, sid);
      AttemptFacts(s.db, s.sessions[sid]);
      var session := s.sessions[sid];
      var next := Answered(session.c, session.snap, session.entry, session.attempt, answer);
      SameDbEvolves(s.db);
      CarriesOn(s, sid, s.db, next);
      OpenKeepsBase(s, sid, s.db, next);
      var t := Open(s, sid, next);
      assert t == Open(s.(db := s.db), sid, next);
      CallUnspent(s, sid, t);
      AddCallKeepsBase(t, CreateCall(session.c, session.entry, session.attempt, s.db.attempts[session.attempt].amount));
    }
  }

  lemma AttemptFacts(db: Db, session: Session)
    requires SessionOk(db, session) && HasAttempt(session)
    ensures session.c < |db.cases| && session.attempt < |db.attempts|
    ensures db.attempts[session.attempt].amount == db.cases[session.c].revenueAtRisk
    ensures AllowedEntry(db.log, session.c, session.entry)
  {
  }

  lemma CallUnspent(s: Sys, sid: nat, t: Sys)
    requires CallsAccounted(s) && NoneConflict(s.sessions) && sid in s.sessions && s.sessions[sid].AttemptOpen?
    requires t.creates == s.creates && t.sessions.Keys == s.sessions.Keys
    requires t.sessions[sid].Answered? && forall i :: i in s.sessions && i != sid ==> t.sessions[i] == s.sessions[i]
    ensures forall i :: 0 <= i < |t.creates| ==> t.creates[i].entry != s.sessions[sid].entry
    ensures forall i :: i in t.sessions && BeforeCall(t.sessions[i]) ==> t.sessions[i].entry != s.sessions[sid].entry
  {
    forall i | i in t.sessions && BeforeCall(t.sessions[i]) ensures t.sessions[i].entry != s.sessions[sid].entry {
      assert !Conflicting(s.sessions[i], s.sessions[sid]);
    }
  }

  lemma ReconcileEvolves(db: Db, attempt: nat, found: Option<Link>)
    requires Linked(db)
    ensures Evolves(db, ReconcileTxn(db, attempt, found), -1) && Linked(ReconcileTxn(db, attempt, found))
  {
  }

  lemma CommitReconciliationKeepsBase(s: Sys, sid: nat, found: Option<Link>)
    requires Base(s)
    ensures Base(DoCommitReconciliation(s, sid, found))
  {
    hide ReconcileTxn, Base, SessionOk, Linked, Evolves, Distinguished;
    if Busy(s, sid) && s.sessions[sid].Answered? {
      BaseGives(s, sid);
      var session := s.sessions[sid];
      var next := Reconciled(session.c, session.snap, session.entry, session.attempt, found);
      ReconcileEvolves(s.db, session.attempt, found);
      CarriesOn(s, sid, ReconcileTxn(s.db, session.attempt, found), next);
      OpenKeepsBase(s, sid, ReconcileTxn(s.db, session.attempt, found), next);
    }
  }

  lemma CommitFinishKeepsBase(s: Sys, sid: nat)
    requires Base(s)
    ensures Base(DoCommitFinish(s, sid))
  {
    hide RecordLinkTxn, FailTxn, Base, Linked, Evolves, Coherent, CallsAccounted, NoneConflict;
    if Busy(s, sid) && !EndingOf(s.sessions[sid]).NotYet? {
      BaseGives(s, sid);
      var session := s.sessions[sid];
      match EndingOf(session)
      case Adopt(link) =>
        RecordLinkEvolves(s.db, session.c, session.snap, session.attempt, link);
        CloseKeepsBase(s, sid, RecordLinkTxn(s.db, session.c, session.snap, session.attempt, link).0, session.attempt);
      case GiveUp(category) =>
        FailEvolves(s.db, session.c, session.snap, session.attempt, category);
        CloseKeepsBase(s, sid, FailTxn(s.db, session.c, session.snap, session.attempt, category).0, session.attempt);
    }
  }

  lemma ReceiveWebhookKeepsBase(s: Sys, sid: nat, e: LinkEvent)
    requires Base(s)
    ensures Base(DoReceiveWebhook(s, sid, e))
  {
    if !Busy(s, sid) {
      ReceiveEvolves(s.db, e);
      match Receive(s.db, e)
      case Settled(db, _) => StaySame(s, db, s.today);
      case Matched(r) =>
        var seen := s.db.requests[r];
        SameDbEvolves(s.db);
        OpenKeepsBase(s, sid, s.db, WebhookOpen(seen.caseId, s.db.cases[seen.caseId], e, r, seen));
    }
  }

  lemma CommitWebhookKeepsBase(s: Sys, sid: nat)
    requires Base(s)
    ensures Base(DoCommitWebhook(s, sid))
  {
    hide ApplyTxn, Base, Linked, Evolves, Coherent, CallsAccounted, NoneConflict;
    if Busy(s, sid) && s.sessions[sid].WebhookOpen? {
      BaseGives(s, sid);
      var w := s.sessions[sid];
      ApplyEvolves(s.db, w);
      CloseKeepsBase(s, sid, ApplyTxn(s.db, w.event, w.request, w.seen, w.snap).0, -1);
    }
  }

  /** Listing touches nothing of the base. */
  lemma SweepsApart(s: Sys, t: Sys)
    requires Base(s) && t == s.(sweeps := t.sweeps)
    ensures Base(t)
  {
    hide Linked, SessionOk, NoneConflict, AllowedEntry;
  }

  lemma BeginSweepKeepsBase(s: Sys, a: Action, config: Config)
    requires Base(s) && a.BeginSweep?
    ensures Base(Apply(s, a, config))
  {
    hide Base, Uncased;
    SweepsApart(s, Apply(s, a, config));
  }

  lemma CommitSweepKeepsBase(s: Sys, sid: nat, day: int)
    requires Base(s)
    ensures Base(DoCommitSweep(s, sid, day))
  {
    if DoCommitSweep(s, sid, day) != s {
      assert Linked(s.db);
      hide Base, Linked, Evolves, SweepTxn;
      var db := SweepTxn(s.db, s.sweeps[sid].payments, day).0;
      SweepEvolves(s.db, s.sweeps[sid].payments, day);
      StaySame(s, db, s.today);
      SweepsApart(s.(db := db, today := s.today), DoCommitSweep(s, sid, day));
    }
  }

  lemma BeginKeepsBase(s: Sys, sid: nat, session: Session)
    requires Base(s) && !Busy(s, sid) && session.c < |s.db.cases| && session.snap == s.db.cases[session.c]
    requires || (session.DiagnosisOpen? && Diagnosis.Diagnosable(session.snap.status))
             || (session.ExecutionOpen? && session.snap.status == Approved)
    ensures Base(Open(s, sid, session))
  {
    SameDbEvolves(s.db);
    OpenKeepsBase(s, sid, s.db, session);
    assert s.(db := s.db) == s;
  }

  lemma NoteCycleKeepsBase(s: Sys, a: Action, config: Config)
    requires Base(s) && a.NoteCycle?
    ensures Base(Apply(s, a, config))
  {
    StaySame(s, Apply(s, a, config).db, s.today);
  }

  /** Somebody brings in a payment or a case, or a day goes by. */
  lemma ArrivalKeepsBase(s: Sys, a: Action, config: Config)
    requires Base(s) && (a.Tick? || a.Ingest? || a.OpenCaseFor? || a.NoteCycle?)
    ensures Base(Apply(s, a, config))
  {
    assert Linked(s.db);
    hide Base, Linked, Evolves, IngestTxn, OpenCaseTxn;
    match a
    case Tick =>
      SameDbEvolves(s.db);
      StaySame(s, s.db, s.today + 1);
    case Ingest(req) =>
      IngestEvolves(s.db, req, s.today);
      StaySame(s, IngestTxn(s.db, req, s.today).0, s.today);
    case OpenCaseFor(payment) =>
      OpenCaseEvolves(s.db, payment, s.today);
      StaySame(s, OpenCaseTxn(s.db, payment, s.today).0, s.today);
    case NoteCycle(_, _, _) => NoteCycleKeepsBase(s, a, config);
  }

  /** Somebody loads what to sweep, to diagnose or to execute. */
  lemma LoadKeepsBase(s: Sys, a: Action, config: Config)
    requires Base(s) && (a.BeginSweep? || a.BeginDiagnosis? || a.BeginExecution?)
    ensures Base(Apply(s, a, config))
  {
    hide Base, DoBeginSweep;
    match a
    case BeginSweep(_, _) => BeginSweepKeepsBase(s, a, config);
    case BeginDiagnosis(sid, c) =>
      if DoBeginDiagnosis(s, sid, c) != s {
        BeginKeepsBase(s, sid, DiagnosisOpen(c, s.db.cases[c], s.today));
      }
    case BeginExecution(sid, c) =>
      if DoBeginExecution(s, sid, c) != s {
        BeginKeepsBase(s, sid, ExecutionOpen(c, s.db.cases[c], s.today));
      }
  }

  /** Every action keeps the base invariant. */
  lemma ApplyKeepsBase(s: Sys, a: Action, config: Config)
    requires Base(s)
    ensures Base(Apply(s, a, config))
  {
    hide Base, IngestTxn, OpenCaseTxn, DoBeginSweep, DoCommitSweep, DoBeginDiagnosis, DoCommitDiagnosis,
         DoBeginExecution, DoCommitEntry, DoCommitAttempt, DoCallProvider, DoCommitReconciliation, DoCommitFinish,
         DoReceiveWebhook, DoCommitWebhook;
    match a
    case CommitSweep(sid, day) => CommitSweepKeepsBase(s, sid, day);
    case CommitDiagnosis(sid, outcome, day) => CommitDiagnosisKeepsBase(s, sid, outcome, day, config);
    case CommitEntry(sid, day) => CommitEntryKeepsBase(s, sid, day, config);
    case CommitAttempt(sid) => CommitAttemptKeepsBase(s, sid);
    case CallProvider(sid, answer) => CallProviderKeepsBase(s, sid, answer);
    case CommitReconciliation(sid, found) => CommitReconciliationKeepsBase(s, sid, found);
    case CommitFinish(sid) => CommitFinishKeepsBase(s, sid);
    case ReceiveWebhook(sid, event) => ReceiveWebhookKeepsBase(s, sid, event);
    case CommitWebhook(sid) => CommitWebhookKeepsBase(s, sid);
    case _ =>
      if a.BeginSweep? || a.BeginDiagnosis? || a.BeginExecution? {
        LoadKeepsBase(s, a, config);
      } else {
        ArrivalKeepsBase(s, a, config);
      }
  }
}
