/**
 * How often one case can go round the payment-link loop. Neither the retry cap nor the contact cap ends it: a
 * case can have any number of links as soon as the configuration lets one approval through.
 */
module Endless {
  import opened Domain
  import opened Policy
  import opened AiService
  import opened Records
  import opened Folds
  import Diagnosis
  import opened Execution
  import opened Webhooks
  import opened Ingestion
  import opened Protocol
  import opened Coherence
  import opened Steps
  import opened Lifecycle
  import opened Guarantees
  import opened Accounts
  import opened Scenarios

  /** Case c has had n links: by its own count, and by the payment requests on record. */
  ghost predicate HasLinks(db: Db, c: nat, n: nat) {
    c < |db.cases| && db.cases[c].attemptNumber == n && Sum(db.requests, RequestOf(c)) == n
  }

  // ---- any number, if one approval is possible ----

  /** A name of each length, so names of different lengths differ. */
  function Name(n: nat): (name: string)
    ensures |name| == n
  {
    seq(n, i => 'x')
  }

  /** The case has come back n times: n links, each settled under its own key. */
  predicate ComeBack(s: Sys, n: nat, amount: int) {
    && s.today == 0
    && (Resting(s, Discovered, amount) || Resting(s, Failed, amount))
    && s.db.cases[0].attemptNumber == n && |s.db.requests| == n
    && (forall r :: 0 <= r < n ==> s.db.requests[r].providerReference == Name(r))
    && (forall key :: key in s.db.ledger ==> |key| < n)
  }

  lemma OnceMore(j: Journey, s: Sys, changes: nat, n: nat, amount: int) returns (t: Sys)
    requires Reached(j, s, changes) && ComeBack(s, n, amount) && Admits(j.config, amount)
    ensures Reached(j, t, changes + 3) && ComeBack(t, n + 1, amount)
  {
    hide Run, Reached;
    var s1 := Diagnoses(j, s, changes, amount);
    forall r | 0 <= r < n ensures s1.db.requests[r].providerReference != Name(n) {
      assert |s1.db.requests[r].providerReference| == r;
    }
    assert FreeName(s1.db, Name(n));
    var s2 := Launches(j, s1, changes + 1, Name(n), amount);
    hide Admits;
    forall r | 0 <= r < n + 1 ensures s2.db.requests[r].providerReference == Name(r) {
    }
    var found := FindRequest(s2.db.requests, Name(n));
    assert s2.db.requests[n].providerReference == Name(n);
    assert found.Some? && |s2.db.requests[found.value].providerReference| == n;
    t := Concludes(j, s2, changes + 2, n, Expired, Name(n), amount);
    forall r | 0 <= r < n + 1 ensures t.db.requests[r].providerReference == Name(r) {
      assert t.db.requests[r].providerReference == s2.db.requests[r].providerReference;
    }
  }

  lemma NotYet(config: Config, amount: int) returns (s: Sys)
    requires Admits(config, amount)
    ensures Reached(Journey(INIT, config), s, 0) && ComeBack(s, 0, amount)
  {
    hide Reached;
    s := Arrives(config, amount);
  }

  lemma {:induction false} AnyNumber(config: Config, amount: int, n: nat) returns (s: Sys, changes: nat)
    requires Admits(config, amount)
    ensures Reached(Journey(INIT, config), s, changes) && ComeBack(s, n, amount)
    decreases n
  {
    hide Run, Reached, Admits, ComeBack;
    if n == 0 {
      s := NotYet(config, amount);
      changes := 0;
    } else {
      var before, k := AnyNumber(config, amount, n - 1);
      s := OnceMore(Journey(INIT, config), before, k, n - 1, amount);
      changes := k + 3;
    }
  }

  // ---- none at all, if none is ----

  /** No approval yet, no link yet, and no case or session older than its own beginning. */
  ghost predicate Linkless(s: Sys) {
    && Unapproved(s)
    && (forall c :: 0 <= c < |s.db.cases| ==>
          s.db.cases[c].attemptNumber == 0 && s.db.cases[c].contactCount == 0 && s.db.cases[c].createdDay <= s.today)
    && (forall sid :: sid in s.sessions && s.sessions[sid].DiagnosisOpen? ==>
          s.sessions[sid].snap.contactCount == 0
          && s.sessions[sid].snap.createdDay <= s.sessions[sid].loaded <= s.today)
  }

  lemma NoVerdict(row: CaseRow, payment: Payment, outcome: AiOutcome, day: int, config: Config)
    requires forall amount :: !Admits(config, amount)
    requires Diagnosis.Diagnosable(row.status) && row.contactCount == 0 && row.createdDay <= day
    ensures Diagnosis.Verdict(row, payment, outcome, day, config) !in {Approved, Executing}
  {
    ReviewVerdict(Diagnosis.ReviewInput(row, payment, outcome, day), config);
    Diagnosis.VerdictExact(row, payment, outcome, day, config);
    assert !Admits(config, payment.amount);
  }

  lemma LinklessDiagnosis(s: Sys, sid: nat, outcome: AiOutcome, day: int, config: Config)
    requires Base(s) && Linkless(s) && forall amount :: !Admits(config, amount)
    ensures Unapproved(DoCommitDiagnosis(s, sid, outcome, day, config))
  {
    hide Evaluate, Diagnosis.Trail, Diagnosis.Verdict, Admits;
    if Busy(s, sid) && s.sessions[sid].DiagnosisOpen? && CouldRead(s, s.sessions[sid], day) {
      BaseGives(s, sid);
      hide Base;
      var session := s.sessions[sid];
      NoVerdict(session.snap, s.db.payments[session.snap.paymentId], outcome, day, config);
    }
  }

  lemma LinklessRows(s: Sys, a: Action, config: Config)
    requires Inv(s, config) && Linkless(s)
    ensures forall c :: 0 <= c < |Apply(s, a, config).db.cases| ==>
              var row := Apply(s, a, config).db.cases[c];
              row.attemptNumber == 0 && row.contactCount == 0 && row.createdDay <= Apply(s, a, config).today
  {
    ActionRowsStep(s, a, config);
    TodayStays(s, a, config);
    if a.CommitDiagnosis? || a.CommitEntry? {
      DecisionsBearNone(s, a, config);
    } else {
      BirthsAreDated(s, a, config);
    }
    hide Apply;
    var t := Apply(s, a, config);
    forall c | 0 <= c < |t.db.cases|
      ensures t.db.cases[c].attemptNumber == 0 && t.db.cases[c].contactCount == 0 && t.db.cases[c].createdDay <= t.today
    {
      if c < |s.db.cases| {
        assert RowStep(s.db.cases[c], t.db.cases[c], s.db.payments[s.db.cases[c].paymentId], DayOf(s, a), config);
      }
    }
  }

  /** A case is born on a day that has come. */
  lemma BirthsAreDated(s: Sys, a: Action, config: Config)
    requires !a.CommitDiagnosis? && !a.CommitEntry?
    ensures |Apply(s, a, config).db.cases| > |s.db.cases| ==> DayOf(s, a) <= s.today
  {
    hide IngestTxn, OpenCaseTxn, SweepTxn, FirstUncased;
  }

  lemma DecisionsBearNone(s: Sys, a: Action, config: Config)
    requires a.CommitDiagnosis? || a.CommitEntry?
    ensures |Apply(s, a, config).db.cases| == |s.db.cases|
  {
    hide Evaluate, Diagnosis.Trail, Diagnosis.Diagnosed, EnterTrail;
  }

  lemma LinklessSessions(s: Sys, a: Action, config: Config)
    requires Linkless(s)
    ensures
      var t := Apply(s, a, config);
      forall sid :: sid in t.sessions && t.sessions[sid].DiagnosisOpen? ==>
        t.sessions[sid].snap.contactCount == 0 && t.sessions[sid].snap.createdDay <= t.sessions[sid].loaded <= t.today
  {
    hide Diagnosis.DiagnosisTxn, EnterTxn, StartTxn, ReconcileTxn, RecordLinkTxn, FailTxn, Receive, ApplyTxn,
         IngestTxn, OpenCaseTxn, SweepTxn, FirstUncased;
  }

  lemma LinklessStep(s: Sys, a: Action, config: Config)
    requires Inv(s, config) && Linkless(s) && forall amount :: !Admits(config, amount)
    ensures Linkless(Apply(s, a, config))
  {
    LinklessRows(s, a, config);
    LinklessSessions(s, a, config);
    InvBase(s, config);
    hide Inv, Base, Apply, Admits, Unapproved;
    if a.CommitDiagnosis? {
      LinklessDiagnosis(s, a.sid, a.outcome, a.day, config);
    }
    UnapprovedStep(s, a, config);
  }

  lemma {:induction false} LinklessRun(actions: seq<Action>, config: Config)
    requires forall amount :: !Admits(config, amount)
    ensures Linkless(Run(INIT, actions, config))
  {
    if actions != [] {
      hide Apply, Linkless, Admits;
      var earlier := actions[..|actions| - 1];
      LinklessRun(earlier, config);
      InitInv(config);
      RunKeepsInv(INIT, earlier, config);
      LinklessStep(Run(INIT, earlier, config), actions[|actions| - 1], config);
    }
  }

  /**
   * For every configuration and every n > 0: some case can get n links if and only if the configuration lets a
   * single approval through. The retry cap plays no part, and nothing but the recovery window ever ends the loop.
   */
  lemma LinksAreUnboundedIff(config: Config, n: nat)
    requires n > 0
    ensures (exists actions, c :: HasLinks(Run(INIT, actions, config).db, c, n)) <==>
            (exists amount :: Admits(config, amount))
  {
    hide Run, Admits, ComeBack;
    if amount :| Admits(config, amount) {
      var s, changes := AnyNumber(config, amount, n);
      Actions(Journey(INIT, config), s, changes);
      var actions :| Run(INIT, actions, config) == s;
      Counts(s, n, amount);
      LinkAccountingAgrees(actions, 0, config);
      assert HasLinks(Run(INIT, actions, config).db, 0, n);
    }
    if actions, c :| HasLinks(Run(INIT, actions, config).db, c, n) {
      if forall amount :: !Admits(config, amount) {
        LinklessRun(actions, config);
        assert false;
      }
    }
  }

  lemma Counts(s: Sys, n: nat, amount: int)
    requires ComeBack(s, n, amount)
    ensures |s.db.cases| == 1 && s.db.cases[0].attemptNumber == n
  {
  }

  /** What lets one approval through, in the configuration's own terms: no retry cap among them. */
  lemma AdmitsMeans(config: Config)
    ensures (exists amount :: Admits(config, amount)) <==>
            && config.maxCustomerContacts > 0 && config.maxRecoveryWindowDays >= 0
            && exists amount: int :: 0 < amount <= config.maxRecoveryAmount && Threshold(amount, config) <= 1.0
  {
    if amount: int :| 0 < amount <= config.maxRecoveryAmount && Threshold(amount, config) <= 1.0 {
      if config.maxCustomerContacts > 0 && config.maxRecoveryWindowDays >= 0 {
        assert Admits(config, amount);
      }
    }
    if amount :| Admits(config, amount) {
      assert Threshold(amount, config) <= 1.0;
    }
  }
}
