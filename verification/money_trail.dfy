/** The audit log's account of the money: what each recovery on record was paid, and through which link. */
module MoneyTrail {
  import opened Domain
  import opened Policy
  import opened AiService
  import opened Records
  import opened AuditLog
  import Diagnosis
  import opened Execution
  import opened Webhooks
  import opened Ingestion
  import opened Protocol
  import opened Coherence
  import opened Lifecycle
  import opened Trail

  predicate IsRecovery(e: Event) {
    e.StatusChanged? && e.to == Recovered
  }

  predicate NoRecovery(events: seq<Event>) {
    forall i :: 0 <= i < |events| ==> !IsRecovery(events[i])
  }

  /** A payment request of the case is on record under this provider reference. */
  predicate RequestOn(requests: seq<PaymentRequest>, c: nat, reference: string) {
    exists r :: 0 <= r < |requests| && requests[r].caseId == c && requests[r].providerReference == reference
  }

  /** Behind the entry stands the payment of a recorded link of the case, and its amount is the one committed. */
  predicate Backed(db: Db, p: nat)
    requires p < |db.log| && IsRecovery(db.log[p])
  {
    var c := db.log[p].c;
    && p > 0 && c < |db.cases| && db.cases[c].status == Recovered
    && db.log[p - 1].PaymentConfirmed? && db.log[p - 1].c == c
    && db.log[p - 1].amountPaid == db.cases[c].recoveredAmount
    && RequestOn(db.requests, c, db.log[p - 1].providerReference)
  }

  ghost predicate MoneyOk(db: Db) {
    forall p :: 0 <= p < |db.log| && IsRecovery(db.log[p]) ==> Backed(db, p)
  }

  /** A step without a recovery of its own: recovered rows, requests and what has been logged stand. */
  predicate StandsBehind(a: Db, b: Db) {
    && a.log <= b.log && NoRecovery(b.log[|a.log|..])
    && |a.cases| <= |b.cases|
    && (forall c :: 0 <= c < |a.cases| && a.cases[c].status == Recovered ==> b.cases[c] == a.cases[c])
    && |a.requests| <= |b.requests|
    && (forall r :: 0 <= r < |a.requests| ==>
          && b.requests[r].caseId == a.requests[r].caseId
          && b.requests[r].providerReference == a.requests[r].providerReference)
  }

  lemma EntriesStand(a: Db, b: Db)
    requires MoneyOk(a) && StandsBehind(a, b)
    ensures MoneyOk(b)
  {
    forall p | |a.log| <= p < |b.log| ensures !IsRecovery(b.log[p]) {
      assert b.log[|a.log|..][p - |a.log|] == b.log[p];
    }
    forall p | 0 <= p < |b.log| && IsRecovery(b.log[p]) ensures Backed(b, p) {
      assert a.log[p] == b.log[p] && Backed(a, p);
      RequestStands(a, b, b.log[p].c, b.log[p - 1].providerReference);
    }
  }

  lemma RequestStands(a: Db, b: Db, c: nat, reference: string)
    requires StandsBehind(a, b) && RequestOn(a.requests, c, reference)
    ensures RequestOn(b.requests, c, reference)
  {
    var r :| 0 <= r < |a.requests| && a.requests[r].caseId == c && a.requests[r].providerReference == reference;
    assert b.requests[r].caseId == c;
  }

  // ---- what each transaction logs ----

  /** The log grows, and not by a recovery. */
  predicate LogsNone(a: seq<Event>, b: seq<Event>) {
    a <= b && NoRecovery(b[|a|..])
  }

  lemma {:induction false} OpenAllLogsNone(db: Db, payments: seq<nat>, today: int)
    requires forall k :: 0 <= k < |payments| ==> payments[k] < |db.payments|
    ensures LogsNone(db.log, OpenAll(db, payments, today).log)
    decreases |payments|
  {
    if payments != [] {
      var next := CreateCase(db, payments[0], today);
      OpenAllLogsNone(next, payments[1..], today);
      LogsNoneMore(db.log, CaseCreated(|db.cases|, payments[0], db.payments[payments[0]].amount),
                   OpenAll(next, payments[1..], today).log);
    }
  }

  lemma LogsNoneMore(a: seq<Event>, e: Event, b: seq<Event>)
    requires !IsRecovery(e) && LogsNone(a + [e], b)
    ensures LogsNone(a, b)
  {
    var more := b[|a + [e]|..];
    assert b == a + [e] + more;
    assert b[|a|..] == [e] + more;
  }

  lemma BirthLogsNone(s: Sys, a: Action, config: Config)
    requires a.Ingest? || a.OpenCaseFor? || a.CommitSweep?
    ensures LogsNone(s.db.log, Apply(s, a, config).db.log)
  {
    if a.CommitSweep? && a.sid in s.sweeps && Openable(s.db, s.sweeps[a.sid].payments, a.day) {
      OpenAllLogsNone(s.db, s.sweeps[a.sid].payments, a.day);
    }
  }

  lemma DecisionLogsNone(s: Sys, a: Action, config: Config)
    requires a.CommitDiagnosis? || a.CommitEntry?
    ensures LogsNone(s.db.log, Apply(s, a, config).db.log)
  {
    hide Evaluate, Diagnosis.Diagnosed, Diagnosis.Verdict;
    if a.CommitDiagnosis? && a.sid in s.sessions && s.sessions[a.sid].DiagnosisOpen? {
      var session := s.sessions[a.sid];
      if session.snap.paymentId < |s.db.payments| {
        TrailHasNoRecovery(session.c, session.snap, s.db.payments[session.snap.paymentId], a.outcome, a.day, config);
      }
      hide Diagnosis.Trail;
    }
  }

  lemma TrailHasNoRecovery(c: nat, row: CaseRow, payment: Payment, outcome: AiOutcome, day: int, config: Config)
    ensures NoRecovery(Diagnosis.Trail(c, row, payment, outcome, day, config))
  {
    hide Evaluate;
  }

  lemma OtherLogsNone(s: Sys, a: Action, config: Config)
    requires !a.CommitWebhook? && !a.Ingest? && !a.OpenCaseFor? && !a.CommitSweep? && !a.CommitDiagnosis?
    requires !a.CommitEntry?
    ensures LogsNone(s.db.log, Apply(s, a, config).db.log)
  {
    hide FirstUncased;
  }

  /** No action but a webhook's commit logs a recovery. */
  lemma QuietStands(s: Sys, a: Action, config: Config)
    requires Inv(s, config) && !a.CommitWebhook?
    ensures StandsBehind(s.db, Apply(s, a, config).db)
  {
    if a.Ingest? || a.OpenCaseFor? || a.CommitSweep? {
      BirthLogsNone(s, a, config);
    } else if a.CommitDiagnosis? || a.CommitEntry? {
      DecisionLogsNone(s, a, config);
    } else {
      OtherLogsNone(s, a, config);
    }
    RecoveredStands(s, a, config);
    RequestsStand(s, a, config);
  }

  lemma RecoveredStands(s: Sys, a: Action, config: Config)
    requires Inv(s, config)
    ensures
      var t := Apply(s, a, config);
      && |s.db.cases| <= |t.db.cases|
      && forall c :: 0 <= c < |s.db.cases| && s.db.cases[c].status == Recovered ==> t.db.cases[c] == s.db.cases[c]
  {
    ActionRowsStep(s, a, config);
    hide Apply;
    var t := Apply(s, a, config);
    forall c | 0 <= c < |s.db.cases| && s.db.cases[c].status == Recovered ensures t.db.cases[c] == s.db.cases[c] {
      assert RowStep(s.db.cases[c], t.db.cases[c], s.db.payments[s.db.cases[c].paymentId], DayOf(s, a), config);
    }
  }

  lemma RequestsStand(s: Sys, a: Action, config: Config)
    ensures
      var t := Apply(s, a, config);
      && |s.db.requests| <= |t.db.requests|
      && forall r :: 0 <= r < |s.db.requests| ==>
           && t.db.requests[r].caseId == s.db.requests[r].caseId
           && t.db.requests[r].providerReference == s.db.requests[r].providerReference
  {
    hide Diagnosis.DiagnosisTxn, EnterTxn, SweepTxn, FirstUncased;
    match a
    case CommitSweep(sid, day) =>
      if sid in s.sweeps {
        SweepLeavesTheRest(s.db, s.sweeps[sid].payments, day);
      }
    case CommitDiagnosis(sid, outcome, day) =>
      if sid in s.sessions && s.sessions[sid].DiagnosisOpen? {
        Diagnosis.LeavesTheRest(s.db, s.sessions[sid].c, s.sessions[sid].snap, outcome, day, config);
      }
    case CommitEntry(sid, day) =>
      if sid in s.sessions && s.sessions[sid].ExecutionOpen? {
        EntryLeavesTheRest(s.db, s.sessions[sid].c, s.sessions[sid].snap, day, config);
      }
    case _ =>
  }

  // ---- the one that does ----

  lemma WebhookKeepsMoney(s: Sys, sid: nat, config: Config)
    requires Inv(s, config) && MoneyOk(s.db)
    ensures MoneyOk(DoCommitWebhook(s, sid).db)
  {
    if DoCommitWebhook(s, sid) != s {
      var w := s.sessions[sid];
      assert SessionOk(s.db, w) && RowOk(s.db.cases[w.c], s.db.payments[s.db.cases[w.c].paymentId], config);
      hide Inv;
      PaymentIsBacked(s.db, w.event, w.request, w.seen, w.snap);
    }
  }

  lemma PaymentIsBacked(db: Db, e: LinkEvent, r: nat, seen: PaymentRequest, snap: CaseRow)
    requires MoneyOk(db) && r < |db.requests| && seen.caseId < |db.cases| && e.status.Some?
    requires db.requests[r].caseId == seen.caseId && db.requests[r].providerReference == seen.providerReference
    requires Fresh(snap, db.cases[seen.caseId])
    requires db.cases[seen.caseId].status == Executing ==> db.cases[seen.caseId].recoveredAmount == 0
    ensures MoneyOk(ApplyTxn(db, e, r, seen, snap).0)
  {
    var t := ApplyTxn(db, e, r, seen, snap).0;
    var c := seen.caseId;
    assert t.requests[r].caseId == c;
    forall p | 0 <= p < |t.log| && IsRecovery(t.log[p]) ensures Backed(t, p) {
      if p < |db.log| {
        assert Backed(db, p);
        assert t.log[p] == db.log[p] && t.log[p - 1] == db.log[p - 1];
        var d, reference := db.log[p].c, db.log[p - 1].providerReference;
        var q :| 0 <= q < |db.requests| && db.requests[q].caseId == d && db.requests[q].providerReference == reference;
        assert t.requests[q].caseId == d && t.requests[q].providerReference == reference;
      } else {
        assert t.log[p - 1] == PaymentEvent(c, e, seen);
      }
    }
  }

  lemma {:induction false} RunKeepsMoney(actions: seq<Action>, config: Config)
    ensures MoneyOk(Run(INIT, actions, config).db)
  {
    if actions != [] {
      hide Apply, MoneyOk, StandsBehind;
      var earlier, last := actions[..|actions| - 1], actions[|actions| - 1];
      var s := Run(INIT, earlier, config);
      RunKeepsMoney(earlier, config);
      InitInv(config);
      RunKeepsInv(INIT, earlier, config);
      if last.CommitWebhook? {
        WebhookKeepsMoney(s, last.sid, config);
        assert Apply(s, last, config) == DoCommitWebhook(s, last.sid) by {
          WebhookIs(s, last.sid, config);
        }
      } else {
        QuietStands(s, last, config);
        EntriesStand(s.db, Apply(s, last, config).db);
      }
    }
  }

  lemma WebhookIs(s: Sys, sid: nat, config: Config)
    ensures Apply(s, CommitWebhook(sid), config) == DoCommitWebhook(s, sid)
  {
  }

  /** A case whose history ends in RECOVERED has an entry that says so. */
  lemma {:induction false} RecoveryOnRecord(log: seq<Event>, c: nat) returns (p: nat)
    requires StatusHistory(log, c)[|StatusHistory(log, c)| - 1] == Recovered
    ensures p < |log| && IsRecovery(log[p]) && log[p].c == c
  {
    var e := log[|log| - 1];
    if e.StatusChanged? && e.c == c {
      p := |log| - 1;
    } else {
      p := RecoveryOnRecord(log[..|log| - 1], c);
    }
  }

  /**
   * In every reachable state each RECOVERED entry of the log stands directly behind the payment of a recorded link
   * of its case, for the amount the case is committed with; and each recovered case has such an entry.
   */
  lemma MoneyIsEvidenced(actions: seq<Action>, config: Config)
    ensures
      var db := Run(INIT, actions, config).db;
      && (forall p :: 0 <= p < |db.log| && IsRecovery(db.log[p]) ==> Backed(db, p))
      && (forall c :: 0 <= c < |db.cases| && db.cases[c].status == Recovered ==>
            exists p :: 0 <= p < |db.log| && IsRecovery(db.log[p]) && db.log[p].c == c)
  {
    RunKeepsMoney(actions, config);
    hide Run, Backed;
    var db := Run(INIT, actions, config).db;
    forall c | 0 <= c < |db.cases| && db.cases[c].status == Recovered
      ensures exists p :: 0 <= p < |db.log| && IsRecovery(db.log[p]) && db.log[p].c == c
    {
      TrailReplays(actions, c, config);
      var p := RecoveryOnRecord(db.log, c);
    }
  }
}
