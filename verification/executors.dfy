/** Who stands behind a case that is EXECUTING: a recorded link, a live executor, or one lost to a taken reference. */
module Executors {
  import opened Domain
  import opened Policy
  import opened AiService
  import opened Records
  import Diagnosis
  import opened Execution
  import opened Webhooks
  import opened Ingestion
  import opened Protocol
  import opened Coherence
  import opened Steps
  import opened Lifecycle
  import opened Guarantees
  import opened Runs
  import opened References

  predicate IsExecuting(s: Sys, c: nat) {
    c < |s.db.cases| && s.db.cases[c].status == Executing
  }

  /** An open session that entered EXECUTING for the case and has not been overtaken. */
  predicate Executes(session: Session, s: Sys, c: nat) {
    && HasEntry(session) && session.c == c
    && c < |s.db.cases| && session.snap.version == s.db.cases[c].version
  }

  ghost predicate HasExecutor(s: Sys, c: nat) {
    exists sid :: sid in s.sessions && Executes(s.sessions[sid], s, c)
  }

  /** Since it last entered EXECUTING, a link has been recorded for the case. */
  ghost predicate LinkedSinceEntry(actions: seq<Action>, c: nat, config: Config) {
    actions != [] &&
    (var n := |actions| - 1;
     var before, after := Run(INIT, actions[..n], config), Run(INIT, actions, config);
     && IsExecuting(before, c) && IsExecuting(after, c)
     && (after.db.cases[c].attemptNumber > before.db.cases[c].attemptNumber
         || LinkedSinceEntry(actions[..n], c, config)))
  }

  /** This action ends an execution of the case on a reference that is taken. */
  predicate Strands(s: Sys, a: Action, c: nat) {
    a.CommitFinish? && Duplicates(s, a.sid) && s.sessions[a.sid].c == c
  }

  /** Since it last entered EXECUTING, the case has lost its executor to a taken reference. */
  ghost predicate StrandedSinceEntry(actions: seq<Action>, c: nat, config: Config) {
    actions != [] &&
    (var n := |actions| - 1;
     var before, after := Run(INIT, actions[..n], config), Run(INIT, actions, config);
     && IsExecuting(before, c) && IsExecuting(after, c)
     && (Strands(before, actions[n], c) || StrandedSinceEntry(actions[..n], c, config)))
  }

  // ---- entering ----

  lemma EntryGivesExecutor(s: Sys, sid: nat, day: int, c: nat, config: Config)
    requires Base(s) && !IsExecuting(s, c) && IsExecuting(DoCommitEntry(s, sid, day, config), c)
    ensures HasExecutor(DoCommitEntry(s, sid, day, config), c)
  {
    hide EnterTxn;
    var t := DoCommitEntry(s, sid, day, config);
    if sid in s.sessions && s.sessions[sid].ExecutionOpen? {
      BaseGives(s, sid);
      EntryWrites(s.db, s.sessions[sid].c, s.sessions[sid].snap, day, config);
      hide Base, SessionOk;
      assert Executes(t.sessions[sid], t, c);
    }
  }

  lemma EntryWrites(db: Db, c: nat, snap: CaseRow, day: int, config: Config)
    requires c < |db.cases|
    ensures
      var (after, reply) := EnterTxn(db, c, snap, day, config);
      && |after.cases| == |db.cases|
      && (forall d :: 0 <= d < |db.cases| && after.cases[d] != db.cases[d] && after.cases[d].status == Executing ==>
            d == c && reply.Entered? && reply.row == after.cases[c])
  {
    hide Evaluate, EnterTrail;
  }

  lemma DiagnosisNeverEnters(s: Sys, sid: nat, outcome: AiOutcome, day: int, c: nat, config: Config)
    requires Base(s) && IsExecuting(DoCommitDiagnosis(s, sid, outcome, day, config), c)
    ensures IsExecuting(s, c)
  {
    hide Diagnosis.DiagnosisTxn;
    if sid in s.sessions && s.sessions[sid].DiagnosisOpen? {
      BaseGives(s, sid);
      var session := s.sessions[sid];
      NoExecutingVerdict(s.db, session.c, session.snap, outcome, day, config);
      hide Base;
    }
  }

  lemma NoExecutingVerdict(db: Db, c: nat, snap: CaseRow, outcome: AiOutcome, day: int, config: Config)
    requires c < |db.cases|
    ensures
      var after := Diagnosis.DiagnosisTxn(db, c, snap, outcome, day, config).0;
      && |after.cases| == |db.cases|
      && forall d :: 0 <= d < |db.cases| && after.cases[d] != db.cases[d] ==> after.cases[d].status != Executing
  {
    if snap.paymentId < |db.payments| && Diagnosis.Diagnosable(snap.status) {
      ReviewVerdict(Diagnosis.ReviewInput(snap, db.payments[snap.paymentId], outcome, day), config);
    }
    hide Evaluate, Diagnosis.Trail;
  }

  lemma WebhookNeverEnters(s: Sys, sid: nat, c: nat)
    requires Base(s) && IsExecuting(DoCommitWebhook(s, sid), c)
    ensures IsExecuting(s, c)
  {
    if sid in s.sessions {
      BaseGives(s, sid);
      hide Base;
    }
  }

  lemma OthersNeverEnter(s: Sys, a: Action, c: nat, config: Config)
    requires a.Tick? || a.BeginDiagnosis? || a.BeginExecution? || a.CommitAttempt? || a.CallProvider?
             || a.CommitReconciliation? || a.ReceiveWebhook? || a.NoteCycle? || a.BeginSweep?
    requires IsExecuting(Apply(s, a, config), c)
    ensures IsExecuting(s, c)
  {
    hide Receive;
    if a.ReceiveWebhook? {
      ReceiveCases(s, a.sid, a.event);
    }
  }

  lemma ReceiveCases(s: Sys, sid: nat, e: LinkEvent)
    ensures DoReceiveWebhook(s, sid, e).db.cases == s.db.cases
  {
  }

  lemma FinishNeverEnters(s: Sys, sid: nat, c: nat)
    requires Base(s) && IsExecuting(DoCommitFinish(s, sid), c)
    ensures IsExecuting(s, c)
  {
    if sid in s.sessions {
      BaseGives(s, sid);
      hide Base;
    }
  }

  lemma BirthNeverEnters(s: Sys, a: Action, c: nat, config: Config)
    requires Base(s) && RowsOk(s.db, config) && (a.Ingest? || a.OpenCaseFor? || a.CommitSweep?)
    requires IsExecuting(Apply(s, a, config), c)
    ensures IsExecuting(s, c)
  {
    ActionRowsStep(s, a, config);
    BirthKeepsRows(s, a, config);
    hide Apply, Base;
  }

  lemma BirthKeepsRows(s: Sys, a: Action, config: Config)
    requires a.Ingest? || a.OpenCaseFor? || a.CommitSweep?
    ensures s.db.cases <= Apply(s, a, config).db.cases
  {
    hide SweepTxn;
    if a.CommitSweep? && a.sid in s.sweeps {
      SweepLeavesTheRest(s.db, s.sweeps[a.sid].payments, a.day);
    }
  }

  /** Whoever makes a case EXECUTING is its executor. */
  lemma EnteringGivesExecutor(s: Sys, a: Action, c: nat, config: Config)
    requires Inv(s, config) && !IsExecuting(s, c) && IsExecuting(Apply(s, a, config), c)
    ensures HasExecutor(Apply(s, a, config), c)
  {
    InvBase(s, config);
    assert RowsOk(s.db, config);
    hide Inv, Base, RowsOk, HasExecutor, IsExecuting;
    match a
    case CommitEntry(sid, day) => EntryGivesExecutor(s, sid, day, c, config);
    case CommitDiagnosis(sid, outcome, day) => DiagnosisNeverEnters(s, sid, outcome, day, c, config);
    case CommitFinish(sid) => FinishNeverEnters(s, sid, c);
    case CommitWebhook(sid) => WebhookNeverEnters(s, sid, c);
    case _ =>
      hide Apply;
      if a.Ingest? || a.OpenCaseFor? || a.CommitSweep? {
        BirthNeverEnters(s, a, c, config);
      } else {
        OthersNeverEnter(s, a, c, config);
      }
  }

  // ---- staying ----

  /** The executor's own step: it goes on, records its link, fails the case, or is stranded. */
  /** Its own steps before the finish keep it the executor of the row it has loaded. */
  lemma OwnStep(s: Sys, a: Action, sid: nat, c: nat, config: Config)
    requires Base(s) && SidOf(a) == Some(sid) && sid in s.sessions && Executes(s.sessions[sid], s, c)
    requires IsExecuting(s, c)
    ensures
      var t := Apply(s, a, config);
      c < |t.db.cases| && t.db.cases[c] == s.db.cases[c] ==>
        (sid in t.sessions && Executes(t.sessions[sid], t, c)) || Strands(s, a, c)
  {
    if a.CommitFinish? {
      hide Base, DoCommitFinish, Strands;
      OwnFinish(s, sid, c);
    } else {
      hide Base, DoCommitFinish;
      GoesOnExecuting(s, a, sid, config);
    }
  }

  /** Nothing but its finish ends an executor's session, or makes it another case's. */
  lemma GoesOnExecuting(s: Sys, a: Action, sid: nat, config: Config)
    requires SidOf(a) == Some(sid) && sid in s.sessions && HasEntry(s.sessions[sid]) && !a.CommitFinish?
    ensures
      var t := Apply(s, a, config);
      && sid in t.sessions && HasEntry(t.sessions[sid])
      && t.sessions[sid].c == s.sessions[sid].c && t.sessions[sid].snap == s.sessions[sid].snap
  {
    hide Diagnosis.DiagnosisTxn, EnterTxn, StartTxn, ReconcileTxn, Receive, ApplyTxn, SweepTxn, FirstUncased;
  }

  lemma OwnFinish(s: Sys, sid: nat, c: nat)
    requires Base(s) && sid in s.sessions && Executes(s.sessions[sid], s, c) && IsExecuting(s, c)
    ensures
      var t := DoCommitFinish(s, sid);
      c < |t.db.cases| && t.db.cases[c] == s.db.cases[c] ==>
        (sid in t.sessions && Executes(t.sessions[sid], t, c)) || Strands(s, CommitFinish(sid), c)
  {
    BaseGives(s, sid);
    hide Base, Linked, Coherent, CallsAccounted, NoneConflict, ReferenceTaken;
  }

  lemma ForeignExecutor(s: Sys, a: Action, sid: nat, c: nat, config: Config)
    requires SidOf(a) != Some(sid) && sid in s.sessions && Executes(s.sessions[sid], s, c)
    requires c < |Apply(s, a, config).db.cases| && Apply(s, a, config).db.cases[c] == s.db.cases[c]
    ensures HasExecutor(Apply(s, a, config), c)
  {
    hide Apply;
    ForeignStep(s, a, sid, config);
    assert Executes(Apply(s, a, config).sessions[sid], Apply(s, a, config), c);
  }

  /** While it is EXECUTING the row changes by recorded links only. */
  lemma StillExecuting(s: Sys, a: Action, c: nat, config: Config)
    requires Inv(s, config) && IsExecuting(s, c) && IsExecuting(Apply(s, a, config), c)
    ensures
      var t := Apply(s, a, config);
      t.db.cases[c] == s.db.cases[c] || t.db.cases[c].attemptNumber > s.db.cases[c].attemptNumber
  {
    InvBase(s, config);
    assert RowsOk(s.db, config);
    hide Apply, Inv, Base, RowsOk;
    ActionRowsStep(s, a, config);
    var t := Apply(s, a, config);
    ExecutingRow(s.db.cases[c], t.db.cases[c], s.db.payments[s.db.cases[c].paymentId], DayOf(s, a), config);
  }

  lemma ExecutingRow(a: CaseRow, b: CaseRow, payment: Payment, day: int, config: Config)
    requires RowStep(a, b, payment, day, config) && a.status == Executing && b.status == Executing
    ensures b == a || b.attemptNumber > a.attemptNumber
  {
  }

  lemma StayingKeepsExecutor(s: Sys, a: Action, c: nat, config: Config)
    requires Inv(s, config) && HasExecutor(s, c) && IsExecuting(s, c) && IsExecuting(Apply(s, a, config), c)
    ensures
      var t := Apply(s, a, config);
      || HasExecutor(t, c)
      || t.db.cases[c].attemptNumber > s.db.cases[c].attemptNumber
      || Strands(s, a, c)
  {
    InvBase(s, config);
    StillExecuting(s, a, c, config);
    hide Apply, Inv, Base, Strands;
    if Apply(s, a, config).db.cases[c] == s.db.cases[c] {
      var sid :| sid in s.sessions && Executes(s.sessions[sid], s, c);
      if SidOf(a) == Some(sid) {
        OwnStep(s, a, sid, c, config);
      } else {
        ForeignExecutor(s, a, sid, c, config);
      }
    }
  }

  /**
   * In every reachable state an EXECUTING case has a link recorded since it last entered EXECUTING, or an open
   * executor that has not been overtaken, or has lost its executor to a reference that was taken.
   */
  lemma {:induction false} ExecutingIsAccountedFor(actions: seq<Action>, c: nat, config: Config)
    requires IsExecuting(Run(INIT, actions, config), c)
    ensures
      || LinkedSinceEntry(actions, c, config)
      || HasExecutor(Run(INIT, actions, config), c)
      || StrandedSinceEntry(actions, c, config)
  {
    hide Apply, Inv, HasExecutor, Strands;
    if actions != [] {
      var earlier := actions[..|actions| - 1];
      var before := Run(INIT, earlier, config);
      InitInv(config);
      RunKeepsInv(INIT, earlier, config);
      if IsExecuting(before, c) {
        ExecutingIsAccountedFor(earlier, c, config);
        if HasExecutor(before, c) {
          StayingKeepsExecutor(before, actions[|actions| - 1], c, config);
        }
      } else {
        EnteringGivesExecutor(before, actions[|actions| - 1], c, config);
      }
    }
  }

  lemma {:induction false} StrandedNeedsCollision(actions: seq<Action>, c: nat, config: Config)
    requires StrandedSinceEntry(actions, c, config)
    ensures exists k :: 0 <= k < |actions| && Strands(Run(INIT, actions[..k], config), actions[k], c)
  {
    hide Strands;
    var n := |actions| - 1;
    if !Strands(Run(INIT, actions[..n], config), actions[n], c) {
      StrandedNeedsCollision(actions[..n], c, config);
      var k :| 0 <= k < n && Strands(Run(INIT, actions[..n][..k], config), actions[..n][k], c);
      assert actions[..n][..k] == actions[..k];
    }
  }

  /** With a provider that never repeats a reference, an EXECUTING case has its link or its executor. */
  lemma NoneIsStranded(actions: seq<Action>, c: nat, config: Config)
    requires IsExecuting(Run(INIT, actions, config), c) && DistinctAnswers(actions, config)
    ensures LinkedSinceEntry(actions, c, config) || HasExecutor(Run(INIT, actions, config), c)
  {
    hide Run, LinkedSinceEntry;
    ExecutingIsAccountedFor(actions, c, config);
    if StrandedSinceEntry(actions, c, config) {
      StrandedNeedsCollision(actions, c, config);
      var k :| 0 <= k < |actions| && Strands(Run(INIT, actions[..k], config), actions[k], c);
      DistinctSoFar(actions, k, config);
      DistinctAnswersAreFree(actions[..k], actions[k].sid, config);
    }
  }
}
