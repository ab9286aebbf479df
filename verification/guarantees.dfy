/** The protocol's promises over whole runs: money counted once, approvals spent once, the window as a bound. */
module Guarantees {
  import opened Domain
  import opened Policy
  import opened AiService
  import opened Records
  import opened Folds
  import opened AuditLog
  import Diagnosis
  import opened Execution
  import opened Webhooks
  import opened Ingestion
  import opened Protocol
  import opened Coherence
  import opened Steps
  import opened Lifecycle
  import opened Trail

  lemma RunStep(s: Sys, actions: seq<Action>, config: Config)
    requires Inv(s, config) && actions != []
    ensures
      var before := Run(s, actions[..|actions| - 1], config);
      && Inv(before, config)
      && RowsStep(before.db, Run(s, actions, config).db, DayOf(before, actions[|actions| - 1]), config)
  {
    hide Apply;
    RunKeepsInv(s, actions[..|actions| - 1], config);
    ActionRowsStep(Run(s, actions[..|actions| - 1], config), actions[|actions| - 1], config);
  }

  /** Cases are never deleted. */
  lemma {:induction false} CasesPersist(s: Sys, actions: seq<Action>, config: Config)
    requires Inv(s, config)
    ensures |s.db.cases| <= |Run(s, actions, config).db.cases|
  {
    if actions != [] {
      CasesPersist(s, actions[..|actions| - 1], config);
      RunStep(s, actions, config);
    }
  }

  /** Only a failed payment is given a case, whichever way the case comes in. */
  lemma OnlyFailuresAreCased(s: Sys, a: Action, c: nat, config: Config)
    requires Fit(s) && (a.Ingest? || a.OpenCaseFor? || a.CommitSweep?)
    requires |s.db.cases| <= c < |Apply(s, a, config).db.cases|
    ensures
      var t := Apply(s, a, config).db;
      t.cases[c].paymentId < |t.payments| && t.payments[t.cases[c].paymentId].status == PaymentFailed
  {
    hide Evaluate, HasCase, FindPayment, CaseOf, CustomerFor;
    if a.CommitSweep? {
      var payments := s.sweeps[a.sid].payments;
      OpenedAreListed(s.db, payments, a.day, c);
      SweepLeavesTheRest(s.db, payments, a.day);
    }
  }

  /**
   * All cases are born alike, whether a report, a request for one case or a sweep brings them in: DISCOVERED, at
   * risk for the amount of a failed payment that has no other case, with nothing tried and nothing known yet.
   */
  lemma BornAlike(s: Sys, a: Action, c: nat, config: Config)
    requires Inv(s, config) && |s.db.cases| <= c < |Apply(s, a, config).db.cases|
    ensures
      var t := Apply(s, a, config).db;
      var p := t.cases[c].paymentId;
      && p < |t.payments| && t.payments[p].status == PaymentFailed
      && (forall d :: 0 <= d < |t.cases| && d != c ==> t.cases[d].paymentId != p)
      && t.cases[c].status == Discovered && t.cases[c].revenueAtRisk == t.payments[p].amount
      && t.cases[c].createdDay == DayOf(s, a) && t.cases[c].version == 1
      && t.cases[c].recoveredAmount == 0 && t.cases[c].attemptNumber == 0 && t.cases[c].contactCount == 0
      && !t.cases[c].eligible && t.cases[c].action == None && t.cases[c].confidence == None
      && t.cases[c].policyVersion == None
  {
    hide Apply;
    ActionRowsStep(s, a, config);
    ApplyKeepsInv(s, a, config);
    if a.Ingest? || a.OpenCaseFor? || a.CommitSweep? {
      OnlyFailuresAreCased(s, a, c, config);
    } else {
      CasesStand(s, a, config);
    }
  }

  /** Nothing that happens later touches the row of a terminal case. */
  lemma {:induction false} TerminalIsFinal(s: Sys, actions: seq<Action>, c: nat, config: Config)
    requires Inv(s, config) && c < |s.db.cases| && IsTerminal(s.db.cases[c].status)
    ensures c < |Run(s, actions, config).db.cases|
    ensures Run(s, actions, config).db.cases[c] == s.db.cases[c]
  {
    if actions != [] {
      TerminalIsFinal(s, actions[..|actions| - 1], c, config);
      RunStep(s, actions, config);
    }
  }

  /** How often the recovered amount of case c changes along a run. */
  function AmountChanges(s: Sys, actions: seq<Action>, c: nat, config: Config): nat {
    if actions == [] then 0
    else
      var before := Run(s, actions[..|actions| - 1], config).db.cases;
      var after := Run(s, actions, config).db.cases;
      AmountChanges(s, actions[..|actions| - 1], c, config) +
      if c < |before| && c < |after| && before[c].recoveredAmount != after[c].recoveredAmount then 1 else 0
  }

  /**
   * Money is counted once: over any run the recovered amount of a case changes at most once, only together
   * with the step to RECOVERED, and never again after it.
   */
  lemma {:induction false} MoneyCountedOnce(s: Sys, actions: seq<Action>, c: nat, config: Config)
    requires Inv(s, config)
    ensures
      var end := Run(s, actions, config).db.cases;
      && AmountChanges(s, actions, c, config) <= 1
      && (c < |s.db.cases| && IsTerminal(s.db.cases[c].status) ==> AmountChanges(s, actions, c, config) == 0)
      && (AmountChanges(s, actions, c, config) == 1 ==> c < |end| && end[c].status == Recovered)
  {
    if actions != [] {
      var earlier := actions[..|actions| - 1];
      MoneyCountedOnce(s, earlier, c, config);
      RunStep(s, actions, config);
      if c < |s.db.cases| && IsTerminal(s.db.cases[c].status) {
        TerminalIsFinal(s, actions, c, config);
        TerminalIsFinal(s, earlier, c, config);
      }
    }
  }

  // ---- one key, one effect ----

  /** A webhook step for this key: its arrival, or the commit of its session. */
  predicate WebhookStep(s: Sys, a: Action, key: string) {
    || (a.ReceiveWebhook? && a.event.key == key)
    || (a.CommitWebhook? && a.sid in s.sessions && s.sessions[a.sid].WebhookOpen?
        && s.sessions[a.sid].event.key == key)
  }

  /** How often along a run a webhook step for this key changes the database. */
  function KeyEffects(s: Sys, actions: seq<Action>, key: string, config: Config): nat {
    if actions == [] then 0
    else
      var before := Run(s, actions[..|actions| - 1], config);
      KeyEffects(s, actions[..|actions| - 1], key, config) +
      if WebhookStep(before, actions[|actions| - 1], key) && Run(s, actions, config).db != before.db then 1 else 0
  }

  lemma WebhookClaims(s: Sys, a: Action, key: string, config: Config)
    requires WebhookStep(s, a, key) && Apply(s, a, config).db != s.db
    ensures key !in s.db.ledger && key in Apply(s, a, config).db.ledger
  {
  }

  lemma LedgerGrows(s: Sys, a: Action, config: Config)
    ensures s.db.ledger <= Apply(s, a, config).db.ledger
  {
    hide Evaluate, Diagnosis.Trail, Diagnosis.Diagnosed, EnterTrail, SweepTxn, FirstUncased;
    if a.CommitSweep? && a.sid in s.sweeps {
      SweepLeavesTheRest(s.db, s.sweeps[a.sid].payments, a.day);
    }
  }

  /**
   * Deliveries of one key, however they race, change the database at most once: the one that does has the key
   * in the ledger from then on, and every other one finds it there.
   */
  lemma {:induction false} KeyTakesEffectOnce(s: Sys, actions: seq<Action>, key: string, config: Config)
    ensures KeyEffects(s, actions, key, config) <= 1
    ensures key in s.db.ledger ==> KeyEffects(s, actions, key, config) == 0
    ensures KeyEffects(s, actions, key, config) == 1 || key in s.db.ledger ==>
              key in Run(s, actions, config).db.ledger
  {
    if actions != [] {
      hide Apply, WebhookStep;
      var earlier, a := actions[..|actions| - 1], actions[|actions| - 1];
      KeyTakesEffectOnce(s, earlier, key, config);
      LedgerGrows(Run(s, earlier, config), a, config);
      if WebhookStep(Run(s, earlier, config), a, key) && Run(s, actions, config).db != Run(s, earlier, config).db {
        WebhookClaims(Run(s, earlier, config), a, key, config);
      }
    }
  }

  // ---- the recovery window ----

  /** Committed status changes a case can still make once its recovery window has closed. */
  function Rank(status: Status): nat {
    match status
    case Executing => 2
    case Discovered => 1
    case Failed => 1
    case Approved => 1
    case _ => 0
  }

  function StatusChanges(s: Sys, actions: seq<Action>, c: nat, config: Config): nat {
    if actions == [] then 0
    else
      var before := Run(s, actions[..|actions| - 1], config).db.cases;
      var after := Run(s, actions, config).db.cases;
      StatusChanges(s, actions[..|actions| - 1], c, config) +
      if c < |before| && c < |after| && before[c].status != after[c].status then 1 else 0
  }

  lemma TodayStays(s: Sys, a: Action, config: Config)
    ensures s.today <= Apply(s, a, config).today
  {
    hide Diagnosis.DiagnosisTxn, EnterTxn, StartTxn, ReconcileTxn, RecordLinkTxn, FailTxn, Receive, ApplyTxn,
         IngestTxn, OpenCaseTxn, SweepTxn, FirstUncased;
  }

  lemma {:induction false} DaysPass(s: Sys, actions: seq<Action>, config: Config)
    ensures Run(s, actions, config).today >= s.today
  {
    if actions != [] {
      hide Apply;
      DaysPass(s, actions[..|actions| - 1], config);
      TodayStays(Run(s, actions[..|actions| - 1], config), actions[|actions| - 1], config);
    }
  }

  /** A session that can still commit to case c, and that loaded it before the window closed. */
  predicate EarlyFor(session: Session, row: CaseRow, c: nat, config: Config) {
    && (session.DiagnosisOpen? || session.ExecutionOpen?)
    && session.c == c && session.snap.version == row.version
    && WindowOpen(row, session.loaded, config)
  }

  ghost predicate Early(s: Sys, c: nat, config: Config)
    requires c < |s.db.cases|
  {
    exists sid :: sid in s.sessions && EarlyFor(s.sessions[sid], s.db.cases[c], c, config)
  }

  /** The same with a session in flight that may have read the date before the close: it can go one step further. */
  function LateRank(status: Status, early: bool): nat {
    if early && status in {Discovered, Failed, Approved} then Rank(status) + (if status == Approved then 2 else 1)
    else Rank(status)
  }

  lemma DiagnosisTouches(db: Db, c: nat, snap: CaseRow, outcome: AiOutcome, day: int, config: Config)
    requires c < |db.cases|
    ensures
      var after := Diagnosis.DiagnosisTxn(db, c, snap, outcome, day, config).0.cases;
      |after| == |db.cases| && forall d :: 0 <= d < |after| && after[d] != db.cases[d] ==>
                                 d == c && db.cases[c].version == snap.version
  {
    hide Evaluate, Diagnosis.Trail, Diagnosis.Diagnosed;
  }

  lemma EntryTouches(db: Db, c: nat, snap: CaseRow, day: int, config: Config)
    requires c < |db.cases|
    ensures
      var after := EnterTxn(db, c, snap, day, config).0.cases;
      |after| == |db.cases| && forall d :: 0 <= d < |after| && after[d] != db.cases[d] ==>
                                 d == c && db.cases[c].version == snap.version
  {
    hide Evaluate, EnterTrail;
  }

  lemma OpenDayDiagnosis(s: Sys, sid: nat, outcome: AiOutcome, day: int, c: nat, config: Config)
    requires Base(s) && c < |s.db.cases| && WindowOpen(s.db.cases[c], day, config)
    ensures
      var t := DoCommitDiagnosis(s, sid, outcome, day, config);
      c < |t.db.cases| && (t.db.cases[c] != s.db.cases[c] ==> Early(s, c, config))
  {
    hide Diagnosis.DiagnosisTxn;
    if DoCommitDiagnosis(s, sid, outcome, day, config) != s {
      BaseGives(s, sid);
      hide Base;
      var session := s.sessions[sid];
      DiagnosisTouches(s.db, session.c, session.snap, outcome, day, config);
      hide SessionOk;
      assert session.c == c && session.snap.version == s.db.cases[c].version ==>
          EarlyFor(session, s.db.cases[c], c, config);
    }
  }

  lemma OpenDayEntry(s: Sys, sid: nat, day: int, c: nat, config: Config)
    requires Base(s) && c < |s.db.cases| && WindowOpen(s.db.cases[c], day, config)
    ensures
      var t := DoCommitEntry(s, sid, day, config);
      c < |t.db.cases| && (t.db.cases[c] != s.db.cases[c] ==> Early(s, c, config))
  {
    hide EnterTxn;
    if DoCommitEntry(s, sid, day, config) != s {
      BaseGives(s, sid);
      hide Base;
      var session := s.sessions[sid];
      EntryTouches(s.db, session.c, session.snap, day, config);
      hide SessionOk;
      assert session.c == c && session.snap.version == s.db.cases[c].version ==>
          EarlyFor(session, s.db.cases[c], c, config);
    }
  }

  /** Only a session that could have read an open day moves an expired case forward. */
  lemma OpenDayMeansEarly(s: Sys, a: Action, c: nat, config: Config)
    requires Base(s) && c < |s.db.cases| && !WindowOpen(s.db.cases[c], s.today, config)
    requires WindowOpen(s.db.cases[c], DayOf(s, a), config)
    ensures c < |Apply(s, a, config).db.cases|
    ensures Apply(s, a, config).db.cases[c] != s.db.cases[c] ==> Early(s, c, config)
  {
    hide Base, Early, DoCommitDiagnosis, DoCommitEntry, SweepTxn;
    if a.CommitDiagnosis? {
      OpenDayDiagnosis(s, a.sid, a.outcome, a.day, c, config);
    } else if a.CommitEntry? {
      OpenDayEntry(s, a.sid, a.day, c, config);
    } else if a.sid in s.sweeps {
      SweepLeavesTheRest(s.db, s.sweeps[a.sid].payments, a.day);
    }
  }

  /** No new session is early once the window has closed. */
  lemma EarlyIsOld(s: Sys, a: Action, c: nat, sid: nat, config: Config)
    requires c < |s.db.cases| && !WindowOpen(s.db.cases[c], s.today, config)
    requires
      var t := Apply(s, a, config);
      c < |t.db.cases| && t.db.cases[c].createdDay == s.db.cases[c].createdDay
      && sid in t.sessions && EarlyFor(t.sessions[sid], t.db.cases[c], c, config)
    ensures sid in s.sessions && s.sessions[sid] == Apply(s, a, config).sessions[sid]
  {
    hide Diagnosis.DiagnosisTxn, EnterTxn, StartTxn, ReconcileTxn, RecordLinkTxn, FailTxn, Receive, ApplyTxn,
         IngestTxn, OpenCaseTxn, SweepTxn, FirstUncased;
  }

  /** One step of an expired case: a change of status lowers the rank, and nothing raises it. */
  lemma ExpiredStep(s: Sys, a: Action, c: nat, config: Config)
    requires Inv(s, config) && c < |s.db.cases| && !WindowOpen(s.db.cases[c], s.today, config)
    ensures
      var t := Apply(s, a, config);
      && c < |t.db.cases| && t.db.cases[c].createdDay == s.db.cases[c].createdDay
      && LateRank(t.db.cases[c].status, Early(t, c, config))
         + (if t.db.cases[c].status != s.db.cases[c].status then 1 else 0)
         <= LateRank(s.db.cases[c].status, Early(s, c, config))
  {
    ActionRowsStep(s, a, config);
    EarlyStep(s, a, c, config);
    if WindowOpen(s.db.cases[c], DayOf(s, a), config) {
      OpenDayMeansEarly(s, a, c, config);
    }
    hide Apply, Early, Base, RowsOk, RowStep, RowOk, LateRank;
    var t := Apply(s, a, config);
    var payment := s.db.payments[s.db.cases[c].paymentId];
    assert RowOk(s.db.cases[c], payment, config);
    RankStep(s.db.cases[c], t.db.cases[c], payment, DayOf(s, a), Early(s, c, config), Early(t, c, config), config);
  }

  /** A case that is still early after a step was not touched by it. */
  lemma EarlyStep(s: Sys, a: Action, c: nat, config: Config)
    requires Inv(s, config) && c < |s.db.cases| && !WindowOpen(s.db.cases[c], s.today, config)
    requires RowsStep(s.db, Apply(s, a, config).db, DayOf(s, a), config)
    ensures Early(Apply(s, a, config), c, config) ==>
              Early(s, c, config) && Apply(s, a, config).db.cases[c] == s.db.cases[c]
  {
    hide Apply;
    var t := Apply(s, a, config);
    assert RowStep(s.db.cases[c], t.db.cases[c], s.db.payments[s.db.cases[c].paymentId], DayOf(s, a), config);
    if sid :| sid in t.sessions && EarlyFor(t.sessions[sid], t.db.cases[c], c, config) {
      EarlyIsOld(s, a, c, sid, config);
      BaseGives(s, sid);
      hide Base, RowsStep, RowsOk;
      assert EarlyFor(s.sessions[sid], s.db.cases[c], c, config);
    }
  }

  lemma RankStep(x: CaseRow, y: CaseRow, payment: Payment, day: int, before: bool, after: bool, config: Config)
    requires RowOk(x, payment, config) && RowStep(x, y, payment, day, config)
    requires after ==> before && x == y
    requires x != y && WindowOpen(x, day, config) ==> before
    ensures y.createdDay == x.createdDay
    ensures LateRank(y.status, after) + (if y.status != x.status then 1 else 0) <= LateRank(x.status, before)
  {
  }

  /**
   * The window bounds the loop: once it has closed, a case changes status at most twice more, whatever the
   * AI, the provider and the webhooks do, and at most three times if a session in flight loaded it before the
   * close and may go by an open day.
   */
  lemma {:induction false} WindowBoundsTheLoop(s: Sys, actions: seq<Action>, c: nat, config: Config)
    requires Inv(s, config) && c < |s.db.cases| && !WindowOpen(s.db.cases[c], s.today, config)
    ensures c < |Run(s, actions, config).db.cases|
    ensures Run(s, actions, config).db.cases[c].createdDay == s.db.cases[c].createdDay
    ensures StatusChanges(s, actions, c, config)
            + LateRank(Run(s, actions, config).db.cases[c].status, Early(Run(s, actions, config), c, config))
            <= LateRank(s.db.cases[c].status, Early(s, c, config))
            <= if Early(s, c, config) then 3 else 2
    ensures Rank(Run(s, actions, config).db.cases[c].status) == 0 <==>
            IsTerminal(Run(s, actions, config).db.cases[c].status)
  {
    hide Apply, Early;
    RunKeepsInv(s, actions, config);
    if actions != [] {
      WindowBoundsTheLoop(s, actions[..|actions| - 1], c, config);
      DaysPass(s, actions[..|actions| - 1], config);
      RunStep(s, actions, config);
      ExpiredStep(Run(s, actions[..|actions| - 1], config), actions[|actions| - 1], c, config);
    }
  }

  // ---- committed statuses ----

  /**
   * The services refine the twelve-status machine to eight: the intermediate statuses are never visible at
   * a commit, and every committed change is a legal path of the transition table.
   */
  lemma CommittedStatusesOnly(actions: seq<Action>, a: Action, c: nat, config: Config)
    requires c < |Run(INIT, actions, config).db.cases|
    ensures
      var s := Run(INIT, actions, config);
      var t := Apply(s, a, config);
      && c < |t.db.cases|
      && CommittedStatus(s.db.cases[c].status)
      && var (from, to) := (s.db.cases[c].status, t.db.cases[c].status);
         from != to ==> CommittedChange(from, to) && LegalPath([from] + Through(from, to) + [to])
  {
    hide Apply;
    InitInv(config);
    RunKeepsInv(INIT, actions, config);
    ActionRowsStep(Run(INIT, actions, config), a, config);
    var from := Run(INIT, actions, config).db.cases[c].status;
    var to := Apply(Run(INIT, actions, config), a, config).db.cases[c].status;
    if from != to {
      CommittedChangeIsLegalPath(from, to);
    }
  }

  // ---- approvals ----

  function CallFor(c: nat): CreateCall -> int {
    (call: CreateCall) => if call.c == c then 1 else 0
  }

  /** Create calls made to the provider for case c. */
  function Calls(creates: seq<CreateCall>, c: nat): int {
    Sum(creates, CallFor(c))
  }

  /** Distinct entries bound the calls. */
  lemma CallsWithinEntries(creates: seq<CreateCall>, log: seq<Event>, c: nat)
    requires forall i :: 0 <= i < |creates| && creates[i].c == c ==> AllowedEntry(log, c, creates[i].entry)
    requires forall i, j :: 0 <= i < j < |creates| ==> creates[i].entry != creates[j].entry
    ensures Calls(creates, c) <= Entries(log, c, Executing)
  {
    var calls := set i: nat | i < |creates| && CallFor(c)(creates[i]) == 1;
    var entries := set p: nat | p < |log| && EntryInto(c, Executing)(log[p]) == 1;
    SumCountsPositions(creates, CallFor(c), calls);
    SumCountsPositions(log, EntryInto(c, Executing), entries);
    var entryOf := (i: nat) => if i < |creates| then creates[i].entry else 0;
    InjectionBounds(calls, entries, entryOf);
  }

  /**
   * Each approval is spent at most once: in every history, with any number of racing executors, the create
   * calls for a case are at most its committed entries into EXECUTING, and these at most its approvals.
   */
  lemma ApprovalSpentOnce(actions: seq<Action>, c: nat, config: Config)
    requires c < |Run(INIT, actions, config).db.cases|
    ensures
      var s := Run(INIT, actions, config);
      && Calls(s.creates, c) <= Entries(s.db.log, c, Executing)
      && Entries(s.db.log, c, Executing) <= Entries(s.db.log, c, Approved)
      && Entries(s.db.log, c, Approved) - Entries(s.db.log, c, Executing)
         == if s.db.cases[c].status == Approved then 1 else 0
  {
    var s := Run(INIT, actions, config);
    InitInv(config);
    RunKeepsInv(INIT, actions, config);
    RunKeepsTrail(actions, config);
    CallsWithinEntries(s.creates, s.db.log, c);
    ApprovalsSpent(s.db.log, c);
  }

  /**
   * Every create call rests on its own entry into EXECUTING, directly behind a re-check that allowed it, and
   * asks for exactly the canonical amount of the payment.
   */
  lemma CallsAreAuthorized(actions: seq<Action>, i: nat, config: Config)
    requires i < |Run(INIT, actions, config).creates|
    ensures
      var s := Run(INIT, actions, config);
      var call := s.creates[i];
      && AllowedEntry(s.db.log, call.c, call.entry)
      && (forall j :: 0 <= j < |s.creates| && j != i ==> s.creates[j].entry != call.entry)
      && call.c < |s.db.cases|
      && s.db.cases[call.c].paymentId < |s.db.payments|
      && call.amount == s.db.payments[s.db.cases[call.c].paymentId].amount
  {
    InitInv(config);
    RunKeepsInv(INIT, actions, config);
  }

  /**
   * In every reachable state a standing approval is withheld at execution exactly when its window has
   * closed, and then for that reason alone.
   */
  lemma ApprovedCaseIsBlockedIffExpired(actions: seq<Action>, c: nat, today: int, config: Config)
    requires c < |Run(INIT, actions, config).db.cases|
    requires Run(INIT, actions, config).db.cases[c].status == Approved
    ensures
      var db := Run(INIT, actions, config).db;
      var row := db.cases[c];
      && (EnterTxn(db, c, row, today, config).1.Entered? <==> WindowOpen(row, today, config))
      && (!WindowOpen(row, today, config) ==>
            EnterTxn(db, c, row, today, config).1 == Withheld(Decision(false, [RecoveryWindowExpired])))
  {
    InitInv(config);
    RunKeepsInv(INIT, actions, config);
    var db := Run(INIT, actions, config).db;
    hide Run;
    var row := db.cases[c];
    assert RowOk(row, db.payments[row.paymentId], config);
    StandingApprovalRecheck(RecheckInput(row, db.payments[row.paymentId].amount, today), config);
    DecisionShape(RecheckInput(row, db.payments[row.paymentId].amount, today), config);
    hide Evaluate;
  }

  lemma DecisionShape(input: PolicyInput, config: Config)
    ensures Evaluate(input, config).allow <==> Evaluate(input, config).codes == []
  {
  }

  // ---- outages ----

  /** No approval, and nothing that could follow from one. */
  ghost predicate Unapproved(s: Sys) {
    && s.creates == []
    && (forall c :: 0 <= c < |s.db.cases| ==> s.db.cases[c].status !in {Approved, Executing})
    && (forall sid :: sid in s.sessions ==> !s.sessions[sid].ExecutionOpen? && !HasEntry(s.sessions[sid]))
  }

  predicate OutageAction(a: Action) {
    a.CommitDiagnosis? ==> a.outcome.Fallback?
  }

  /** A step that touches no case row and leaves every session where it cannot execute. */
  lemma QuietIsUnapproved(s: Sys, t: Sys)
    requires Unapproved(s) && t.db.cases == s.db.cases && t.creates == s.creates
    requires forall sid :: sid in t.sessions ==>
               (sid in s.sessions && t.sessions[sid] == s.sessions[sid])
               || t.sessions[sid].DiagnosisOpen? || t.sessions[sid].WebhookOpen?
    ensures Unapproved(t)
  {
  }

  lemma DiagnosisIsUnapproved(s: Sys, sid: nat, outcome: AiOutcome, day: int, config: Config)
    requires Base(s) && Unapproved(s) && outcome.Fallback?
    ensures Unapproved(DoCommitDiagnosis(s, sid, outcome, day, config))
  {
    hide Evaluate, Diagnosis.Trail;
    if Busy(s, sid) && s.sessions[sid].DiagnosisOpen? {
      BaseGives(s, sid);
      hide Base;
      var session := s.sessions[sid];
      Diagnosis.VerdictExact(session.snap, s.db.payments[session.snap.paymentId], outcome, day, config);
    }
  }

  /** With no approval there is no execution session to advance. */
  lemma ExecutionIsIdle(s: Sys, a: Action, config: Config)
    requires Unapproved(s)
    requires a.BeginExecution? || a.CommitEntry? || a.CommitAttempt? || a.CallProvider?
             || a.CommitReconciliation? || a.CommitFinish?
    ensures Apply(s, a, config) == s
  {
    hide EnterTxn, StartTxn, ReconcileTxn, RecordLinkTxn, FailTxn;
    if a.CommitFinish? && Busy(s, a.sid) {
      assert EndingOf(s.sessions[a.sid]).NotYet?;
    }
  }

  lemma ReceiveIsUnapproved(s: Sys, sid: nat, e: LinkEvent)
    requires Unapproved(s)
    ensures Unapproved(DoReceiveWebhook(s, sid, e))
  {
    hide Unapproved;
    QuietIsUnapproved(s, DoReceiveWebhook(s, sid, e));
  }

  /** Only a diagnosis can end the absence of approvals. */
  lemma UnapprovedStep(s: Sys, a: Action, config: Config)
    requires Inv(s, config) && Unapproved(s)
    requires a.CommitDiagnosis? ==> Unapproved(DoCommitDiagnosis(s, a.sid, a.outcome, a.day, config))
    ensures Unapproved(Apply(s, a, config))
  {
    hide Unapproved, Inv, DoCommitDiagnosis, DoReceiveWebhook, DoCommitWebhook;
    match a
    case CommitDiagnosis(_, _, _) =>
    case Ingest(_) => BirthIsUnapproved(s, a, config);
    case OpenCaseFor(_) => BirthIsUnapproved(s, a, config);
    case CommitSweep(_, _) => BirthIsUnapproved(s, a, config);
    case ReceiveWebhook(sid, e) => ReceiveIsUnapproved(s, sid, e);
    case CommitWebhook(sid) => WebhookIsUnapproved(s, sid);
    case _ =>
      if a.Tick? || a.BeginSweep? || a.BeginDiagnosis? || a.NoteCycle? {
        LoadIsUnapproved(s, a, config);
      } else {
        hide Apply;
        ExecutionIsIdle(s, a, config);
      }
  }

  lemma LoadIsUnapproved(s: Sys, a: Action, config: Config)
    requires Unapproved(s) && (a.Tick? || a.BeginSweep? || a.BeginDiagnosis? || a.NoteCycle?)
    ensures Unapproved(Apply(s, a, config))
  {
    hide Unapproved, FirstUncased;
    QuietIsUnapproved(s, Apply(s, a, config));
  }

  lemma OutageStep(s: Sys, a: Action, config: Config)
    requires Inv(s, config) && Unapproved(s) && OutageAction(a)
    ensures Unapproved(Apply(s, a, config))
  {
    hide Unapproved, Inv, Apply;
    if a.CommitDiagnosis? {
      assert Base(s) by {
        InvBase(s, config);
      }
      DiagnosisIsUnapproved(s, a.sid, a.outcome, a.day, config);
    }
    UnapprovedStep(s, a, config);
  }

  lemma InvBase(s: Sys, config: Config)
    requires Inv(s, config)
    ensures Base(s)
  {
  }

  lemma BirthIsUnapproved(s: Sys, a: Action, config: Config)
    requires Inv(s, config) && Unapproved(s) && (a.Ingest? || a.OpenCaseFor? || a.CommitSweep?)
    ensures Unapproved(Apply(s, a, config))
  {
    ActionRowsStep(s, a, config);
    var t := Apply(s, a, config);
    assert s.db.cases <= t.db.cases;
  }

  lemma WebhookIsUnapproved(s: Sys, sid: nat)
    requires Unapproved(s)
    ensures Unapproved(DoCommitWebhook(s, sid))
  {
  }

  /** A permanent AI outage never leads to a create call. */
  lemma {:induction false} OutageNeverCalls(actions: seq<Action>, config: Config)
    requires forall i :: 0 <= i < |actions| ==> OutageAction(actions[i])
    ensures Unapproved(Run(INIT, actions, config))
  {
    if actions != [] {
      hide Apply;
      var earlier := actions[..|actions| - 1];
      OutageNeverCalls(earlier, config);
      InitInv(config);
      RunKeepsInv(INIT, earlier, config);
      OutageStep(Run(INIT, earlier, config), actions[|actions| - 1], config);
    }
  }
}
