/**
 * A pass in which the provider refuses every link: its calls fail, and spend nothing of the budget. So a pass can
 * make more create calls than its budget, and the most it can make is attained.
 */
module Spending {
  import opened Domain
  import opened Policy
  import opened AiService
  import opened Records
  import Diagnosis
  import opened Execution
  import opened Ingestion
  import opened Protocol
  import opened Runs
  import opened Queue
  import opened Backlog
  import opened Worlds
  import opened Outcomes
  import opened CaseWork
  import opened Discovery
  import opened Orchestrator
  import opened Scenarios
  import opened Endless

  function Certain(): nat -> (nat -> AiResponse) {
    (k: nat) => ((i: nat) => Answer(Recommendation(SendPaymentLink, 1.0)))
  }

  const REFUSING_ORACLE := Oracle(Certain(), 0, (k: nat) => Raised(AuthError), (k: nat) => None, (k: nat) => [])

  // ---- a day on which a pass finds enough to do ----

  /** The first k of n cases are approved and the others are waiting to be diagnosed, all of them for good reasons. */
  ghost predicate Prepared(s: Sys, n: nat, k: nat, config: Config) {
    && k <= n == |s.db.cases| == |s.db.payments| && s.today == 0 && s.sessions == map[] && s.sweeps == map[]
    && (forall c :: 0 <= c < k ==> Primed(s, c, config))
    && (forall c :: k <= c < n ==> Ripe(s, c, config) && s.db.cases[c].status == Discovered)
    && (forall p :: 0 <= p < n ==> HasCase(s.db.cases, p))
  }

  function Report(amount: int): Action {
    Ingest(IngestRequest(None, amount, PaymentFailed, None, true))
  }

  lemma OneMoreReported(s: Sys, n: nat, amount: int, config: Config)
    requires Prepared(s, n, 0, config) && Admits(config, amount)
    ensures Prepared(Apply(s, Report(amount), config), n + 1, 0, config)
  {
    var t := Apply(s, Report(amount), config);
    NewlyReported(s, amount, config);
    hide Apply, HasCase, Admits;
    forall c | 0 <= c < n ensures Ripe(t, c, config) && t.db.cases[c].status == Discovered {
      assert Ripe(s, c, config);
    }
  }

  lemma NewlyReported(s: Sys, amount: int, config: Config)
    requires Admits(config, amount) && s.today == 0
    ensures
      var t, n := Apply(s, Report(amount), config), |s.db.payments|;
      && t.today == 0 && t.sessions == s.sessions && t.sweeps == s.sweeps
      && |t.db.payments| == n + 1 && s.db.payments <= t.db.payments
      && t.db.cases == s.db.cases + [NewCase(n, amount, 0)]
      && Ripe(t, |s.db.cases|, config) && HasCase(t.db.cases, n)
      && forall p :: HasCase(s.db.cases, p) ==> HasCase(t.db.cases, p)
  {
    var t := Apply(s, Report(amount), config);
    assert t.db.cases[|s.db.cases|].paymentId == |s.db.payments|;
    forall p | HasCase(s.db.cases, p) ensures HasCase(t.db.cases, p) {
      var c :| 0 <= c < |s.db.cases| && s.db.cases[c].paymentId == p;
      assert t.db.cases[c].paymentId == p;
    }
  }

  function Diagnose(c: nat): seq<Action> {
    [BeginDiagnosis(1, c), CommitDiagnosis(1, Recommend(REFUSING_ORACLE.ai(0), 0), 0)]
  }

  lemma Elsewhere(s: Sys, t: Sys, c: nat, d: nat, config: Config)
    requires OnlyCase(s, t, c) && d != c && d < |s.db.cases|
    ensures Ripe(s, d, config) ==> Ripe(t, d, config)
    ensures Primed(s, d, config) ==> Primed(t, d, config)
    ensures t.db.cases[d] == s.db.cases[d]
  {
  }

  /** Case k is diagnosed by somebody else, and approved. */
  lemma OneMoreApproved(s: Sys, n: nat, k: nat, config: Config)
    requires Prepared(s, n, k, config) && k < n
    ensures Prepared(Run(s, Diagnose(k), config), n, k + 1, config)
  {
    hide Run;
    var outcome := Recommend(REFUSING_ORACLE.ai(0), 0);
    RunTwo(s, BeginDiagnosis(1, k), CommitDiagnosis(1, outcome, 0), config);
    var t := Run(s, Diagnose(k), config);
    assert Ripe(s, k, config);
    Approval(s, k, config);
    RipeIsApproved(s, t, k, REFUSING_ORACLE.ai(0), 0, config);
    forall c | 0 <= c < n && c != k
      ensures c < k ==> Primed(t, c, config)
      ensures c > k ==> Ripe(t, c, config) && t.db.cases[c].status == Discovered
    {
      Elsewhere(s, t, k, c, config);
    }
    SamePaymentsCased(s, t, k, outcome, config);
  }

  lemma Approval(s: Sys, k: nat, config: Config)
    requires Ripe(s, k, config) && s.sessions == map[] && s.today == 0 && s.sweeps == map[]
    ensures
      var outcome := Recommend(REFUSING_ORACLE.ai(0), 0);
      var t := Apply(Apply(s, BeginDiagnosis(1, k), config), CommitDiagnosis(1, outcome, 0), config);
      && t.db == Diagnosis.DiagnosisTxn(s.db, k, s.db.cases[k], outcome, 0, config).0
      && t.today == 0 && t.sessions == map[] && t.sweeps == map[]
  {
    hide Diagnosis.DiagnosisTxn;
    var outcome := Recommend(REFUSING_ORACLE.ai(0), 0);
    var loaded := Apply(s, BeginDiagnosis(1, k), config);
    assert loaded.sessions - {1} == map[];
  }

  lemma SamePaymentsCased(s: Sys, t: Sys, k: nat, outcome: AiOutcome, config: Config)
    requires k < |s.db.cases| && t.db == Diagnosis.DiagnosisTxn(s.db, k, s.db.cases[k], outcome, 0, config).0
    ensures forall p :: HasCase(s.db.cases, p) ==> HasCase(t.db.cases, p)
  {
    hide Policy.Evaluate, Diagnosis.Trail;
    forall p | HasCase(s.db.cases, p) ensures HasCase(t.db.cases, p) {
      var c :| 0 <= c < |s.db.cases| && s.db.cases[c].paymentId == p;
      assert t.db.cases[c].paymentId == p;
    }
  }

  function Reports(n: nat, amount: int): seq<Action> {
    if n == 0 then [] else Reports(n - 1, amount) + [Report(amount)]
  }

  function Approvals(k: nat): seq<Action> {
    if k == 0 then [] else Approvals(k - 1) + Diagnose(k - 1)
  }

  lemma {:induction false} ReportsPrepare(n: nat, amount: int, config: Config)
    requires Admits(config, amount)
    ensures Prepared(Run(INIT, Reports(n, amount), config), n, 0, config)
  {
    hide Apply, Ripe, Primed;
    if n > 0 {
      hide Prepared;
      ReportsPrepare(n - 1, amount, config);
      RunPush(INIT, Reports(n - 1, amount), Report(amount), config);
      OneMoreReported(Run(INIT, Reports(n - 1, amount), config), n - 1, amount, config);
    }
  }

  lemma {:induction false} ApprovalsPrepare(n: nat, k: nat, amount: int, config: Config)
    requires Admits(config, amount) && k <= n
    ensures Prepared(Run(INIT, Reports(n, amount) + Approvals(k), config), n, k, config)
  {
    hide Run, Prepared;
    var reports := Reports(n, amount);
    if k == 0 {
      ReportsPrepare(n, amount, config);
      assert reports + [] == reports;
    } else {
      ApprovalsPrepare(n, k - 1, amount, config);
      var earlier := reports + Approvals(k - 1);
      RunConcat(INIT, earlier, Diagnose(k - 1), config);
      assert earlier + Diagnose(k - 1) == reports + Approvals(k);
      OneMoreApproved(Run(INIT, earlier, config), n, k - 1, config);
    }
  }

  // ---- and how many calls that makes ----

  lemma {:induction false} AtLeast(cases: seq<CaseRow>, status: Status, lo: nat, hi: nat, n: nat)
    requires lo <= hi <= n <= |cases| && forall c :: lo <= c < hi ==> cases[c].status == status
    ensures |NewestBelow(cases, status, n)| >= hi - lo
    decreases n
  {
    if n > hi {
      AtLeast(cases, status, lo, hi, n - 1);
    } else if n > lo {
      AtLeast(cases, status, lo, n - 1, n - 1);
    }
  }

  lemma PreparedCalls(s: Sys, ready: nat, approved: nat, config: Config)
    requires Prepared(s, approved + ready, approved, config)
    ensures AllReadyRipe(s, config) && AllApprovedPrimed(s, config)
    ensures |RefusedCalls(s.db.cases, ready, approved)| == ready + approved
  {
    hide Ripe;
    forall c | 0 <= c < approved ensures s.db.cases[c].status == Approved {
      assert Primed(s, c, config);
    }
    AtLeast(s.db.cases, Approved, 0, approved, |s.db.cases|);
    AtLeast(s.db.cases, Discovered, approved, approved + ready, |s.db.cases|);
  }

  lemma {:induction false} NoneUncasedFrom(db: Db, i: nat)
    requires forall p :: i <= p < |db.payments| ==> HasCase(db.cases, p)
    ensures UncasedFrom(db, i) == []
    decreases |db.payments| - i
  {
    if i < |db.payments| {
      NoneUncasedFrom(db, i + 1);
    }
  }

  lemma NothingUncased(db: Db)
    requires forall p :: 0 <= p < |db.payments| ==> HasCase(db.cases, p)
    ensures Uncased(db) == []
  {
    NoneUncasedFrom(db, 0);
  }

  /** Everything that happened before the pass was somebody else's work. */
  lemma {:induction false} OthersDidIt(n: nat, k: nat, amount: int)
    ensures forall i :: 0 <= i < |Reports(n, amount)| ==> SidOf(Reports(n, amount)[i]) != Some(0)
    ensures forall i :: 0 <= i < |Approvals(k)| ==> SidOf(Approvals(k)[i]) != Some(0)
  {
    if n > 0 {
      OthersDidIt(n - 1, k, amount);
    } else if k > 0 {
      OthersDidIt(n, k - 1, amount);
      var earlier := Approvals(k - 1);
      forall i | 0 <= i < |Approvals(k)| ensures SidOf(Approvals(k)[i]) != Some(0) {
        if i >= |earlier| {
          assert Approvals(k)[i] == Diagnose(k - 1)[i - |earlier|];
        }
      }
    }
  }

  function Preparing(prepared: seq<Action>): Oracle {
    REFUSING_ORACLE.(peers := (k: nat) => prepared)
  }

  lemma Strangers(prepared: seq<Action>)
    requires forall i :: 0 <= i < |prepared| ==> SidOf(prepared[i]) != Some(0)
    ensures PeersForeign(Preparing(prepared), 0)
  {
  }

  lemma AllPrepared(prepared: seq<Action>, k: nat)
    ensures Preparing(prepared).peers(k) == prepared
  {
  }

  /** In a new world others report and approve that much. */
  method MakeBusy(w: World, config: Config, amount: int, ready: nat, approved: nat)
    requires Admits(config, amount) && w.Sound(config) && w.history == [] && w.calls == []
    modifies w, w.store
    ensures w.Sound(config) && w.calls == []
    ensures Prepared(w.State(), approved + ready, approved, config)
  {
    var prepared := Reports(approved + ready, amount) + Approvals(approved);
    OthersDidIt(approved + ready, approved, amount);
    ApprovalsPrepare(approved + ready, approved, amount, config);
    hide Run, Apply, Calm, CalmSince, OpensNone, OpensNoneSince, SameSession, Reports, Approvals,
         Prepared, Admits, PeersForeign, Preparing, SidOf;
    var o := Preparing(prepared);
    Strangers(prepared);
    AllPrepared(prepared, w.clock);
    w.Yield(o, 0, config);
    assert w.history == prepared;
  }

  /**
   * The bound is met: for every configuration that lets an approval through and all limits, some pass makes
   * maxDiagnose + maxExecute create calls, all refused, and has spent nothing of its budget of maxExecute.
   */
  method FailedCallsAreFree(config: Config, amount: int, maxDiagnose: nat, maxExecute: nat)
    returns (w: World, report: CycleReport)
    requires Admits(config, amount) && maxExecute > 0
    ensures fresh(w) && w.Sound(config)
    ensures |w.calls| == maxDiagnose + maxExecute == CallBound(true, maxDiagnose, maxExecute)
    ensures report.executed == 0
  {
    hide Run, Apply, ReadyList, Uncased, Remaining, AllReadyRipe, AllApprovedPrimed, Calm, CompletePass, Explained,
         SpentBefore, ExecutedAreCalled, Take, Distinct, Ids, RefusedCalls, RunsIntoUnique, Lists, Ripe, Primed, Admits,
         OpensNone, HasCase;
    w := new World();
    RunNothing(INIT, config);
    MakeBusy(w, config, amount, maxDiagnose, maxExecute);
    NothingUncased(w.State().db);
    PreparedCalls(w.State(), maxDiagnose, maxExecute, config);
    var crashed;
    ghost var marks;
    report, crashed, marks := RunRecoveryCycle(w, REFUSING_ORACLE, 0, true, 1, maxDiagnose, maxExecute, config);
  }

  /** And where no approval can pass, nobody is ever called. */
  lemma NothingAdmittedNobodyCalled(w: World, config: Config)
    requires w.Sound(config) && forall amount :: !Admits(config, amount)
    ensures w.calls == [] && w.creates == []
  {
    hide Run, Admits;
    LinklessRun(w.history, config);
  }
}
