/** How much a cycle still has to do: a measure every step of this session can only lower. */
module Backlog {
  import opened Domain
  import opened Policy
  import opened AiService
  import opened Records
  import opened Folds
  import Diagnosis
  import opened Execution
  import opened Ingestion
  import opened Protocol
  import opened Coherence
  import opened Steps
  import opened Lifecycle
  import opened Queue
  import opened Runs

  function Weight(): CaseRow -> int {
    (row: CaseRow) => if Diagnosis.Diagnosable(row.status) then 2 else if row.status == Approved then 1 else 0
  }

  /** Three for each failed payment without a case, two for each diagnosable case, one for each approved one. */
  function Remaining(db: Db): int {
    3 * |Uncased(db)| + Sum(db.cases, Weight())
  }

  lemma {:induction false} UncasedDependsOn(a: Db, b: Db, i: nat)
    requires a.payments == b.payments && |a.cases| == |b.cases|
    requires forall c :: 0 <= c < |a.cases| ==> a.cases[c].paymentId == b.cases[c].paymentId
    ensures UncasedFrom(a, i) == UncasedFrom(b, i)
    decreases |a.payments| - i
  {
    if i < |a.payments| {
      UncasedDependsOn(a, b, i + 1);
      SameHasCase(a, b, i);
      SameHasCase(b, a, i);
    }
  }

  lemma SameHasCase(a: Db, b: Db, p: nat)
    requires |a.cases| == |b.cases|
    requires forall c :: 0 <= c < |a.cases| ==> a.cases[c].paymentId == b.cases[c].paymentId
    ensures HasCase(a.cases, p) ==> HasCase(b.cases, p)
  {
  }

  /** Rewriting one row changes what remains by the difference of the weights. */
  lemma RowWrite(a: Db, b: Db, c: nat, row: CaseRow)
    requires c < |a.cases| && b.payments == a.payments && b.cases == a.cases[c := row]
    requires row.paymentId == a.cases[c].paymentId
    ensures Remaining(b) == Remaining(a) - Weight()(a.cases[c]) + Weight()(row)
  {
    UncasedDependsOn(a, b, 0);
    SumUpdate(a.cases, c, row, Weight());
  }

  lemma SameRowsRemain(a: Db, b: Db)
    requires b.payments == a.payments && b.cases == a.cases
    ensures Remaining(b) == Remaining(a)
  {
    UncasedDependsOn(a, b, 0);
  }

  lemma DiagnosisDrains(db: Db, c: nat, outcome: AiOutcome, today: int, config: Config)
    requires Linked(db) && c < |db.cases| && Diagnosis.Diagnosable(db.cases[c].status)
    ensures Remaining(Diagnosis.DiagnosisTxn(db, c, db.cases[c], outcome, today, config).0) < Remaining(db)
    ensures Diagnosis.DiagnosisTxn(db, c, db.cases[c], outcome, today, config).1.Diagnosis?
  {
    hide Evaluate, Diagnosis.Trail, Remaining;
    var row := db.cases[c];
    var payment := db.payments[row.paymentId];
    ReviewVerdict(Diagnosis.ReviewInput(row, payment, outcome, today), config);
    RowWrite(db, Diagnosis.DiagnosisTxn(db, c, row, outcome, today, config).0, c,
             Diagnosis.Diagnosed(row, payment, outcome, today, config));
  }

  lemma EntryDrains(db: Db, c: nat, today: int, config: Config)
    requires Linked(db) && c < |db.cases| && db.cases[c].status == Approved && db.cases[c].action.Some?
    ensures Remaining(EnterTxn(db, c, db.cases[c], today, config).0) < Remaining(db)
  {
    hide Evaluate, EnterTrail, Remaining;
    var after := EnterTxn(db, c, db.cases[c], today, config).0;
    RowWrite(db, after, c, after.cases[c]);
  }

  lemma {:induction false} SweepDrains(db: Db, limit: nat, today: int)
    ensures Remaining(DiscoverTxn(db, limit, today)) == Remaining(db) - Min(limit, |Uncased(db)|)
    decreases limit
  {
    var all := Uncased(db);
    if limit > 0 && all != [] {
      var next := CreateCase(db, all[0], today);
      FirstUncasedLeaves(db, today, 0);
      SumPush(db.cases, next.cases[|db.cases|], Weight());
      SweepStep(db, limit, today);
      SweepDrains(next, limit - 1, today);
    }
  }

  /** Never negative, and zero exactly when there is nothing to open, to diagnose or to execute. */
  lemma NothingRemainsIff(db: Db)
    ensures Remaining(db) >= 0
    ensures Remaining(db) == 0 <==>
            && Uncased(db) == []
            && forall c :: 0 <= c < |db.cases| ==>
                 !Diagnosis.Diagnosable(db.cases[c].status) && db.cases[c].status != Approved
  {
    SumMonotone(db.cases, db.cases, (row: CaseRow) => 0, Weight());
    SumZero(db.cases, (row: CaseRow) => 0);
    if forall c :: 0 <= c < |db.cases| ==>
         !Diagnosis.Diagnosable(db.cases[c].status) && db.cases[c].status != Approved {
      SumZero(db.cases, Weight());
    } else {
      var c :| 0 <= c < |db.cases| && (Diagnosis.Diagnosable(db.cases[c].status) || db.cases[c].status == Approved);
      SumAtLeast(db.cases, c, Weight());
    }
  }

  // ---- what anybody's work does to what remains ----

  /** Every action but a new payment or a webhook's commit: the ones that can make work. */
  predicate CalmAction(a: Action) {
    !a.Ingest? && !a.CommitWebhook?
  }

  /**
   * What remains does not rise, and falls as soon as a case that counts is touched or a failed payment is given
   * one.
   */
  predicate Progress(a: Db, b: Db) {
    && |a.cases| <= |b.cases| && a.payments == b.payments
    && Remaining(b) <= Remaining(a)
    && (Uncased(a) == [] ==> Uncased(b) == [])
    && (Remaining(b) == Remaining(a) ==>
          && (forall c :: 0 <= c < |a.cases| && Weight()(a.cases[c]) > 0 ==> b.cases[c] == a.cases[c])
          && (forall p :: 0 <= p < |a.payments| && HasCase(b.cases, p) && a.payments[p].status == PaymentFailed ==>
                HasCase(a.cases, p)))
  }

  lemma ProgressJoins(a: Db, b: Db, c: Db)
    requires Progress(a, b) && Progress(b, c)
    ensures Progress(a, c)
  {
    hide Remaining, Uncased;
  }

  lemma SameRowsProgress(a: Db, b: Db)
    requires b.payments == a.payments && b.cases == a.cases
    ensures Progress(a, b)
  {
    UncasedDependsOn(a, b, 0);
    hide Remaining;
    SameRowsRemain(a, b);
  }

  /** One row rewritten to a lighter one, or to one of no weight that had none. */
  lemma RowWriteProgress(a: Db, b: Db, c: nat, row: CaseRow)
    requires c < |a.cases| && b.payments == a.payments && b.cases == a.cases[c := row]
    requires row.paymentId == a.cases[c].paymentId
    requires Weight()(row) < Weight()(a.cases[c]) || Weight()(row) == Weight()(a.cases[c]) == 0
    ensures Progress(a, b)
  {
    UncasedDependsOn(a, b, 0);
    hide Remaining;
    RowWrite(a, b, c, row);
  }

  lemma DiagnosisProgress(db: Db, c: nat, snap: CaseRow, outcome: AiOutcome, day: int, config: Config)
    requires Linked(db) && c < |db.cases| && Fresh(snap, db.cases[c]) && Diagnosis.Diagnosable(snap.status)
    ensures Progress(db, Diagnosis.DiagnosisTxn(db, c, snap, outcome, day, config).0)
  {
    hide Evaluate, Diagnosis.Trail, Progress;
    var after := Diagnosis.DiagnosisTxn(db, c, snap, outcome, day, config).0;
    if db.cases[c].version == snap.version {
      var payment := db.payments[snap.paymentId];
      ReviewVerdict(Diagnosis.ReviewInput(snap, payment, outcome, day), config);
      RowWriteProgress(db, after, c, Diagnosis.Diagnosed(snap, payment, outcome, day, config));
    } else {
      SameRowsProgress(db, after);
    }
  }

  lemma EntryProgress(db: Db, c: nat, snap: CaseRow, day: int, config: Config)
    requires Linked(db) && c < |db.cases| && Fresh(snap, db.cases[c]) && snap.status == Approved
    ensures Progress(db, EnterTxn(db, c, snap, day, config).0)
  {
    hide Evaluate, EnterTrail, Progress;
    var after := EnterTxn(db, c, snap, day, config).0;
    if after == db {
      SameRowsProgress(db, after);
    } else {
      RowWriteProgress(db, after, c, after.cases[c]);
    }
  }

  lemma RecordLinkProgress(db: Db, c: nat, snap: CaseRow, attempt: nat, link: Link)
    requires c < |db.cases| && attempt < |db.attempts| && Fresh(snap, db.cases[c]) && snap.status == Executing
    ensures Progress(db, RecordLinkTxn(db, c, snap, attempt, link).0)
  {
    hide Progress;
    var after := RecordLinkTxn(db, c, snap, attempt, link).0;
    if after == db {
      SameRowsProgress(db, after);
    } else {
      RowWriteProgress(db, after, c, after.cases[c]);
    }
  }

  lemma FailProgress(db: Db, c: nat, snap: CaseRow, attempt: nat, category: FailureCategory)
    requires c < |db.cases| && attempt < |db.attempts| && Fresh(snap, db.cases[c]) && snap.status == Executing
    ensures Progress(db, FailTxn(db, c, snap, attempt, category).0)
  {
    hide Progress;
    var after := FailTxn(db, c, snap, attempt, category).0;
    if after == db {
      SameRowsProgress(db, after);
    } else {
      RowWriteProgress(db, after, c, after.cases[c]);
    }
  }

  /** Opening the case of any un-cased payment, not only the oldest, takes it off the list. */
  lemma {:induction false} UncasedLosesOne(db: Db, payment: nat, today: int, i: nat)
    requires i <= payment < |db.payments| && NeedsCase(db, payment)
    ensures |UncasedFrom(CreateCase(db, payment, today), i)| == |UncasedFrom(db, i)| - 1
    decreases |db.payments| - i
  {
    CasedAfter(db, payment, today, i);
    if i == payment {
      UncasedLater(db, payment, today, i + 1);
    } else {
      UncasedLosesOne(db, payment, today, i + 1);
    }
  }

  lemma OpenCaseProgress(db: Db, payment: nat, today: int)
    ensures Progress(db, OpenCaseTxn(db, payment, today).0)
    ensures OpenCaseTxn(db, payment, today).1.Opened? ==>
              Remaining(OpenCaseTxn(db, payment, today).0) == Remaining(db) - 1
  {
    hide UncasedFrom;
    var after := OpenCaseTxn(db, payment, today).0;
    if after == db {
      SameRowsProgress(db, after);
    } else {
      UncasedLosesOne(db, payment, today, 0);
      SumPush(db.cases, after.cases[|db.cases|], Weight());
    }
  }

  lemma {:induction false} OpenAllProgress(db: Db, payments: seq<nat>, today: int)
    requires Openable(db, payments, today) && Listed(db, payments)
    ensures Progress(db, OpenAll(db, payments, today))
    ensures Remaining(OpenAll(db, payments, today)) == Remaining(db) - |payments|
    decreases |payments|
  {
    if payments == [] {
      SameRowsProgress(db, db);
    } else {
      var next := CreateCase(db, payments[0], today);
      assert NeedsCase(db, payments[0]);
      assert OpenCaseTxn(db, payments[0], today).0 == next;
      OpenCaseProgress(db, payments[0], today);
      assert forall k :: 0 <= k < |payments[1..]| ==> payments[1..][k] == payments[k + 1];
      hide Progress, UncasedFrom, Remaining;
      OpenAllProgress(next, payments[1..], today);
      ProgressJoins(db, next, OpenAll(next, payments[1..], today));
    }
  }

  /** The commit of a sweep: one less for each case, or nothing if one of its payments has a case already. */
  lemma SweepProgress(db: Db, payments: seq<nat>, today: int)
    requires Listed(db, payments)
    ensures Progress(db, SweepTxn(db, payments, today).0)
    ensures Remaining(SweepTxn(db, payments, today).0) ==
            Remaining(db) - if SweepTxn(db, payments, today).1.Swept? then |payments| else 0
  {
    hide Progress, UncasedFrom, Remaining, Listed;
    if Openable(db, payments, today) {
      OpenAllProgress(db, payments, today);
    } else {
      SameRowsProgress(db, db);
    }
  }

  lemma FinishProgress(s: Sys, sid: nat)
    requires Base(s)
    ensures Progress(s.db, DoCommitFinish(s, sid).db)
  {
    hide Progress, RecordLinkTxn, FailTxn;
    if DoCommitFinish(s, sid) == s {
      SameRowsProgress(s.db, s.db);
    } else {
      BaseGives(s, sid);
      hide Base;
      var session := s.sessions[sid];
      match EndingOf(session)
      case Adopt(link) => RecordLinkProgress(s.db, session.c, session.snap, session.attempt, link);
      case GiveUp(category) => FailProgress(s.db, session.c, session.snap, session.attempt, category);
    }
  }

  lemma QuietStepProgress(s: Sys, a: Action, config: Config)
    requires a.Tick? || a.BeginSweep? || a.BeginDiagnosis? || a.BeginExecution? || a.CommitAttempt? || a.CallProvider?
             || a.CommitReconciliation? || a.ReceiveWebhook? || a.NoteCycle?
    ensures Progress(s.db, Apply(s, a, config).db)
  {
    hide Progress;
    SameRowsProgress(s.db, Apply(s, a, config).db);
  }

  /** Whoever acts: diagnosing, executing, opening and sweeping only ever lower what remains. */
  lemma ActionProgress(s: Sys, a: Action, config: Config)
    requires Base(s) && Fit(s) && CalmAction(a)
    ensures Progress(s.db, Apply(s, a, config).db)
  {
    hide Progress, Base, Listed, Diagnosis.DiagnosisTxn, EnterTxn, OpenCaseTxn, SweepTxn, DoCommitFinish;
    SameRowsProgress(s.db, s.db);
    match a
    case OpenCaseFor(payment) => OpenCaseProgress(s.db, payment, s.today);
    case CommitSweep(sid, day) =>
      if sid in s.sweeps {
        SweepProgress(s.db, s.sweeps[sid].payments, day);
      }
    case CommitDiagnosis(sid, outcome, day) =>
      if sid in s.sessions && s.sessions[sid].DiagnosisOpen? {
        BaseGives(s, sid);
        DiagnosisProgress(s.db, s.sessions[sid].c, s.sessions[sid].snap, outcome, day, config);
      }
    case CommitEntry(sid, day) =>
      if sid in s.sessions && s.sessions[sid].ExecutionOpen? {
        BaseGives(s, sid);
        EntryProgress(s.db, s.sessions[sid].c, s.sessions[sid].snap, day, config);
      }
    case CommitFinish(sid) => FinishProgress(s, sid);
    case _ => QuietStepProgress(s, a, config);
  }

  lemma {:induction false} RunProgress(s: Sys, actions: seq<Action>, config: Config)
    requires Inv(s, config) && forall i :: 0 <= i < |actions| ==> CalmAction(actions[i])
    ensures Progress(s.db, Run(s, actions, config).db)
  {
    if actions == [] {
      SameRowsProgress(s.db, s.db);
    } else {
      hide Apply, Progress;
      var earlier := actions[..|actions| - 1];
      RunProgress(s, earlier, config);
      RunKeepsInv(s, earlier, config);
      ActionProgress(Run(s, earlier, config), actions[|actions| - 1], config);
      ProgressJoins(s.db, Run(s, earlier, config).db, Run(s, actions, config).db);
    }
  }

  /** A stretch of calm history makes progress, whoever made it. */
  lemma HistoryProgress(earlier: seq<Action>, later: seq<Action>, config: Config)
    requires earlier <= later && forall i :: |earlier| <= i < |later| ==> CalmAction(later[i])
    ensures Progress(Run(INIT, earlier, config).db, Run(INIT, later, config).db)
  {
    hide Run, Progress, Inv;
    InitInv(config);
    RunKeepsInv(INIT, earlier, config);
    RunConcat(INIT, earlier, later[|earlier|..], config);
    assert later == earlier + later[|earlier|..];
    RunProgress(Run(INIT, earlier, config), later[|earlier|..], config);
  }

  /** An approved case that has not been touched is on the backlog. */
  lemma BacklogHas(cases: seq<CaseRow>, c: nat, limit: nat)
    requires c < |cases| && cases[c].status == Approved && limit > 0
    ensures
      var ids := Take(Without(Newest(cases, Approved), {}), limit);
      ids != [] && ids[0] < |cases| && cases[ids[0]].status == Approved
  {
    NewestComplete(cases, Approved, |cases|, c);
    var newest := Newest(cases, Approved);
    assert Without(newest, {})[0] == newest[0];
  }

  /** With nothing to open and nothing to diagnose, what remains is approved. */
  lemma RestIsApproved(db: Db)
    requires Remaining(db) > 0 && Uncased(db) == [] && ReadyList(db.cases) == []
    ensures exists c :: 0 <= c < |db.cases| && db.cases[c].status == Approved
  {
    if forall c :: 0 <= c < |db.cases| ==> db.cases[c].status != Approved {
      forall c | 0 <= c < |db.cases| ensures Weight()(db.cases[c]) == 0 {
        NoneInStatus(db.cases, Discovered, c);
        NoneInStatus(db.cases, Eligible, c);
        NoneInStatus(db.cases, Failed, c);
      }
      SumZero(db.cases, Weight());
    }
  }

  lemma NoneInStatus(cases: seq<CaseRow>, status: Status, c: nat)
    requires c < |cases| && Newest(cases, status) == []
    ensures cases[c].status != status
  {
    if cases[c].status == status {
      NewestComplete(cases, status, |cases|, c);
    }
  }
}
