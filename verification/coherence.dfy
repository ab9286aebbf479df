/**
 * What every committed transaction keeps: tables only grow, a case row changes only with a higher version,
 * and so every session's snapshot is either stale or exactly the committed row.
 */
module Coherence {
  import opened Domain
  import opened Policy
  import opened Records
  import Diagnosis
  import opened Webhooks
  import opened Ingestion
  import opened Protocol

  predicate SameCase(a: CaseRow, b: CaseRow) {
    && a.paymentId == b.paymentId
    && a.revenueAtRisk == b.revenueAtRisk
    && a.contactCount == b.contactCount
    && a.createdDay == b.createdDay
  }

  predicate RowEvolves(a: CaseRow, b: CaseRow) {
    a == b || (SameCase(a, b) && a.version < b.version)
  }

  /** b is what committed transactions can make of a; only attempt `touched` may change its status. */
  ghost predicate Evolves(a: Db, b: Db, touched: int) {
    && a.payments <= b.payments
    && |a.cases| <= |b.cases|
    && (forall c :: 0 <= c < |a.cases| ==> RowEvolves(a.cases[c], b.cases[c]))
    && |a.attempts| <= |b.attempts|
    && (forall i :: 0 <= i < |a.attempts| ==>
          && b.attempts[i].caseId == a.attempts[i].caseId
          && b.attempts[i].amount == a.attempts[i].amount
          && (i != touched ==> b.attempts[i].status == a.attempts[i].status))
    && |a.requests| <= |b.requests|
    && (forall r :: 0 <= r < |a.requests| ==>
          && b.requests[r].caseId == a.requests[r].caseId
          && b.requests[r].attemptId == a.requests[r].attemptId
          && b.requests[r].providerReference == a.requests[r].providerReference
          && b.requests[r].amount == a.requests[r].amount)
    && a.ledger <= b.ledger
    && a.log <= b.log
  }

  /** The foreign keys and unique constraints of the schema. */
  ghost predicate Linked(db: Db) {
    && CasesMatchPayments(db)
    && (forall i :: 0 <= i < |db.attempts| ==> db.attempts[i].caseId < |db.cases|)
    && (forall r :: 0 <= r < |db.requests| ==>
          && db.requests[r].caseId < |db.cases|
          && db.requests[r].attemptId < |db.attempts|
          && db.attempts[db.requests[r].attemptId].caseId == db.requests[r].caseId)
    && (forall q, r :: 0 <= q < r < |db.requests| ==>
          && db.requests[q].providerReference != db.requests[r].providerReference
          && db.requests[q].referenceId != db.requests[r].referenceId)
  }

  /** A snapshot that shows the current version shows the current row. */
  predicate Fresh(snap: CaseRow, row: CaseRow) {
    && SameCase(snap, row)
    && snap.version <= row.version
    && (snap.version == row.version ==> snap == row)
  }

  predicate HasEntry(session: Session) {
    session.InExecuting? || session.AttemptOpen? || session.Answered? || session.Reconciled?
  }

  predicate HasAttempt(session: Session) {
    session.AttemptOpen? || session.Answered? || session.Reconciled?
  }

  /** The log position of an entry into Executing that an allowing re-check stands behind. */
  predicate AllowedEntry(log: seq<Event>, c: nat, entry: nat) {
    && 0 < entry < |log|
    && log[entry] == StatusChanged(c, Approved, Executing)
    && log[entry - 1] == PolicyRechecked(c, Decision(true, []))
  }

  ghost predicate SessionOk(db: Db, session: Session) {
    && session.c < |db.cases|
    && Fresh(session.snap, db.cases[session.c])
    && (session.DiagnosisOpen? ==> Diagnosis.Diagnosable(session.snap.status))
    && (session.ExecutionOpen? ==> session.snap.status == Approved)
    && (HasEntry(session) ==>
          && session.snap.status == Executing
          && session.snap.action == Some(SendPaymentLink)
          && AllowedEntry(db.log, session.c, session.entry))
    && (HasAttempt(session) ==>
          && session.attempt < |db.attempts|
          && db.attempts[session.attempt].caseId == session.c
          && db.attempts[session.attempt].status == InProgress
          && db.attempts[session.attempt].amount == session.snap.revenueAtRisk)
    && (session.WebhookOpen? ==>
          && Relevant(session.event)
          && session.request < |db.requests|
          && session.c == session.seen.caseId
          && session.event.link == Some(session.seen.providerReference)
          && db.requests[session.request].caseId == session.c
          && db.requests[session.request].attemptId == session.seen.attemptId
          && db.requests[session.request].providerReference == session.seen.providerReference
          && db.requests[session.request].amount == session.seen.amount)
  }

  ghost predicate AllOk(s: Sys) {
    forall sid :: sid in s.sessions ==> SessionOk(s.db, s.sessions[sid])
  }

  predicate Conflicting(a: Session, b: Session) {
    || (HasEntry(a) && HasEntry(b) && a.entry == b.entry)
    || (HasAttempt(a) && HasAttempt(b) && a.attempt == b.attempt)
  }

  /** No two sessions share an entry into Executing or an attempt. */
  ghost predicate NoneConflict(sessions: map<nat, Session>) {
    forall i, j :: i in sessions && j in sessions && i != j ==> !Conflicting(sessions[i], sessions[j])
  }

  /** Every session is coherent, and they are kept apart. */
  ghost predicate Coherent(s: Sys) {
    AllOk(s) && NoneConflict(s.sessions)
  }

  predicate BeforeCall(session: Session) {
    session.InExecuting? || session.AttemptOpen?
  }

  /** Every create call has its own allowed entry into Executing; a session yet to call has an unspent one. */
  ghost predicate CallsAccounted(s: Sys) {
    && (forall i :: 0 <= i < |s.creates| ==>
          && s.creates[i].c < |s.db.cases|
          && s.creates[i].amount == s.db.cases[s.creates[i].c].revenueAtRisk
          && AllowedEntry(s.db.log, s.creates[i].c, s.creates[i].entry))
    && (forall i, j :: 0 <= i < j < |s.creates| ==> s.creates[i].entry != s.creates[j].entry)
    && (forall sid, i :: sid in s.sessions && BeforeCall(s.sessions[sid]) && 0 <= i < |s.creates| ==>
          s.creates[i].entry != s.sessions[sid].entry)
  }

  ghost predicate Base(s: Sys) {
    Linked(s.db) && Coherent(s) && CallsAccounted(s)
  }

  lemma SessionSurvives(a: Db, b: Db, touched: int, session: Session)
    requires SessionOk(a, session) && Evolves(a, b, touched)
    requires HasAttempt(session) ==> session.attempt != touched
    ensures SessionOk(b, session)
  {
    if HasEntry(session) {
      assert b.log[session.entry] == a.log[session.entry] && b.log[session.entry - 1] == a.log[session.entry - 1];
    }
  }

  lemma OthersOk(s: Sys, sid: nat, db: Db, touched: int)
    requires Coherent(s) && Evolves(s.db, db, touched)
    requires touched != -1 ==> sid in s.sessions && HasAttempt(s.sessions[sid]) && touched == s.sessions[sid].attempt
    ensures forall i :: i in s.sessions && i != sid ==> SessionOk(db, s.sessions[i])
  {
    forall i | i in s.sessions && i != sid ensures SessionOk(db, s.sessions[i]) {
      assert touched != -1 ==> !Conflicting(s.sessions[i], s.sessions[sid]);
      SessionSurvives(s.db, db, touched, s.sessions[i]);
    }
  }

  /** Committing and closing a session keeps every other session coherent. */
  lemma CloseKeepsBase(s: Sys, sid: nat, db: Db, touched: int)
    requires Base(s) && Evolves(s.db, db, touched) && Linked(db)
    requires touched != -1 ==> sid in s.sessions && HasAttempt(s.sessions[sid]) && touched == s.sessions[sid].attempt
    ensures Base(Close(s, sid, db))
  {
    OthersOk(s, sid, db, touched);
    CallsSurvive(s, Close(s, sid, db));
  }

  /** Calls already made keep their entries and amounts as the database evolves. */
  lemma CallsSurvive(s: Sys, t: Sys)
    requires CallsAccounted(s) && s.creates == t.creates
    requires exists touched :: Evolves(s.db, t.db, touched)
    requires forall sid :: sid in t.sessions && BeforeCall(t.sessions[sid]) ==>
                             || (sid in s.sessions && BeforeCall(s.sessions[sid])
                                 && s.sessions[sid].entry == t.sessions[sid].entry)
                             || t.sessions[sid].entry >= |s.db.log|
    ensures CallsAccounted(t)
  {
  }

  /** A session may take over its own entry and attempt, or fresh ones. */
  predicate Distinguished(s: Sys, sid: nat, session: Session) {
    && (HasEntry(session) ==>
          || (sid in s.sessions && HasEntry(s.sessions[sid]) && session.entry == s.sessions[sid].entry
              && (BeforeCall(session) ==> BeforeCall(s.sessions[sid])))
          || session.entry >= |s.db.log|)
    && (HasAttempt(session) ==>
          || (sid in s.sessions && HasAttempt(s.sessions[sid]) && session.attempt == s.sessions[sid].attempt)
          || session.attempt >= |s.db.attempts|)
  }

  lemma OpenKeepsApart(s: Sys, sid: nat, session: Session)
    requires Coherent(s) && Distinguished(s, sid, session)
    ensures NoneConflict(s.sessions[sid := session])
  {
    forall i | i in s.sessions && i != sid ensures !Conflicting(s.sessions[i], session) {
      assert SessionOk(s.db, s.sessions[i]);
      assert sid in s.sessions ==> !Conflicting(s.sessions[i], s.sessions[sid]);
    }
  }

  /** Opening or advancing a session keeps the rest coherent. */
  lemma OpenKeepsBase(s: Sys, sid: nat, db: Db, session: Session)
    requires Base(s) && Evolves(s.db, db, -1) && Linked(db)
    requires SessionOk(db, session) && Distinguished(s, sid, session)
    ensures Base(Open(s.(db := db), sid, session))
  {
    OthersOk(s, sid, db, -1);
    OpenKeepsApart(s, sid, session);
    CallsSurvive(s, Open(s.(db := db), sid, session));
  }
}
