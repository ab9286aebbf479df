/** The recovery summary: aggregates over the committed tables, and the books they must balance. */
module Summary {
  import opened Domain
  import opened Policy
  import opened Records
  import opened Folds
  import opened Ingestion
  import opened Protocol
  import opened Coherence
  import opened Lifecycle
  import opened Books
  import opened Accounts

  datatype Summary = Summary(
    casesTotal: nat,
    casesEligible: int,
    totalRevenueAtRisk: int,
    eligibleRevenue: int,
    confirmedRecovered: int,
    outstanding: int,
    recoveryRate: real,
    recoveryAttempts: nat,
    successfulLinks: int,
    averageRecovery: real,
    escalationRate: real,
    stopRate: real,
    providerFailureRate: real)

  function InStatus(status: Status): CaseRow -> int {
    (row: CaseRow) => if row.status == status then 1 else 0
  }

  function IsEligible(): CaseRow -> int {
    (row: CaseRow) => if row.eligible then 1 else 0
  }

  function AtRisk(): CaseRow -> int {
    (row: CaseRow) => row.revenueAtRisk
  }

  function EligibleAtRisk(): CaseRow -> int {
    (row: CaseRow) => if row.eligible then row.revenueAtRisk else 0
  }

  function RecoveredSoFar(): CaseRow -> int {
    (row: CaseRow) => row.recoveredAmount
  }

  function HasRecovered(): CaseRow -> int {
    (row: CaseRow) => if row.recoveredAmount > 0 then 1 else 0
  }

  function HasFailed(): Attempt -> int {
    (a: Attempt) => if a.status == AttemptFailed then 1 else 0
  }

  function HasSucceeded(): Attempt -> int {
    (a: Attempt) => if a.status == Succeeded then 1 else 0
  }

  function CasesIn(cases: seq<CaseRow>, status: Status): int {
    Sum(cases, InStatus(status))
  }

  function Ratio(part: int, whole: int): real {
    if whole == 0 then 0.0 else part as real / whole as real
  }

  function ComputeRecoverySummary(db: Db): Summary {
    var eligibleRevenue := Sum(db.cases, EligibleAtRisk());
    var confirmed := Sum(db.cases, RecoveredSoFar());
    Summary(|db.cases|,
            Sum(db.cases, IsEligible()),
            Sum(db.cases, AtRisk()),
            eligibleRevenue,
            confirmed,
            if eligibleRevenue - confirmed > 0 then eligibleRevenue - confirmed else 0,
            Ratio(confirmed, eligibleRevenue),
            |db.attempts|,
            Sum(db.attempts, HasSucceeded()),
            Ratio(confirmed, Sum(db.cases, HasRecovered())),
            Ratio(CasesIn(db.cases, Escalated), |db.cases|),
            Ratio(CasesIn(db.cases, Stopped), |db.cases|),
            Ratio(Sum(db.attempts, HasFailed()), |db.attempts|))
  }

  /** The rate is a share of the whole: between none and all of it, and times the whole it is the part. */
  predicate IsRate(rate: real, part: int, whole: int) {
    0.0 <= rate <= 1.0 && rate * whole as real == part as real
  }

  lemma RatioIsRate(part: int, whole: int)
    requires 0 <= part <= whole
    ensures IsRate(Ratio(part, whole), part, whole)
  {
  }

  /** The twelve status counts add up to the number of cases. */
  lemma {:induction false} StatusCountsAddUp(cases: seq<CaseRow>)
    ensures CasesIn(cases, Discovered) + CasesIn(cases, Eligible) + CasesIn(cases, Ineligible)
            + CasesIn(cases, Diagnosing) + CasesIn(cases, Recommended) + CasesIn(cases, PolicyReview)
            + CasesIn(cases, Approved) + CasesIn(cases, Executing) + CasesIn(cases, Recovered)
            + CasesIn(cases, Stopped) + CasesIn(cases, Escalated) + CasesIn(cases, Failed) == |cases|
  {
    if cases != [] {
      StatusCountsAddUp(cases[..|cases| - 1]);
    }
  }

  lemma {:induction false} SumOnes<T>(xs: seq<T>, f: T -> int)
    requires forall i :: 0 <= i < |xs| ==> 0 <= f(xs[i]) <= 1
    ensures 0 <= Sum(xs, f) <= |xs|
  {
    if xs != [] {
      SumOnes(xs[..|xs| - 1], f);
    }
  }

  /** Only positive amounts are ingested: the request schema demands it. */
  predicate SchemaOk(a: Action) {
    a.Ingest? ==> a.req.amount > 0
  }

  predicate PaymentsPositive(db: Db) {
    forall p :: 0 <= p < |db.payments| ==> db.payments[p].amount > 0
  }

  lemma PaymentsUnchanged(s: Sys, a: Action, config: Config)
    requires !a.Ingest?
    ensures Apply(s, a, config).db.payments == s.db.payments
  {
    hide Evaluate, UncasedFrom, ResolveNextStatus;
  }

  lemma {:induction false} RunKeepsPaymentsPositive(actions: seq<Action>, config: Config)
    requires forall i :: 0 <= i < |actions| ==> SchemaOk(actions[i])
    ensures PaymentsPositive(Run(INIT, actions, config).db)
  {
    if actions != [] {
      var last := actions[|actions| - 1];
      var before := Run(INIT, actions[..|actions| - 1], config);
      RunKeepsPaymentsPositive(actions[..|actions| - 1], config);
      if last.Ingest? {
        assert Run(INIT, actions, config) == Apply(before, last, config);
      } else {
        hide Apply;
        PaymentsUnchanged(before, last, config);
      }
    }
  }

  /** What the summary of a store says when the books balance. */
  predicate Balanced(db: Db) {
    var sum := ComputeRecoverySummary(db);
    && 0 <= sum.confirmedRecovered <= sum.eligibleRevenue <= sum.totalRevenueAtRisk
    && sum.outstanding == sum.eligibleRevenue - sum.confirmedRecovered
    && IsRate(sum.recoveryRate, sum.confirmedRecovered, sum.eligibleRevenue)
    && IsRate(sum.escalationRate, CasesIn(db.cases, Escalated), sum.casesTotal)
    && IsRate(sum.stopRate, CasesIn(db.cases, Stopped), sum.casesTotal)
    && IsRate(sum.providerFailureRate, Sum(db.attempts, HasFailed()), sum.recoveryAttempts)
    && sum.confirmedRecovered == Sum(db.cases, RecoveredAtRisk())
    && sum.casesEligible == |db.cases| - CasesIn(db.cases, Discovered) - CasesIn(db.cases, Ineligible)
    && Sum(db.cases, HasRecovered()) == CasesIn(db.cases, Recovered)
    && sum.averageRecovery * CasesIn(db.cases, Recovered) as real == sum.confirmedRecovered as real
    && (sum.averageRecovery > 0.0 <==> CasesIn(db.cases, Recovered) > 0)
  }

  /**
   * The books balance in every reachable state of an honest environment: confirmed <= eligible <= total,
   * the clamp on the outstanding amount never bites, every rate lies between 0 and 1, and the average is the
   * confirmed amount shared out among the recovered cases.
   */
  lemma BooksBalance(actions: seq<Action>, config: Config)
    requires GoodRun(Exact, INIT, actions, config)
    requires forall i :: 0 <= i < |actions| ==> SchemaOk(actions[i])
    ensures Balanced(Run(INIT, actions, config).db)
  {
    RunKeepsBooks(Exact, actions, config);
    RunKeepsPaymentsPositive(actions, config);
    hide Run, Balanced;
    RowsBalance(Run(INIT, actions, config), config);
    StateBalances(Run(INIT, actions, config).db);
  }

  function RecoveredAtRisk(): CaseRow -> int {
    (row: CaseRow) => if row.status == Recovered then row.revenueAtRisk else 0
  }

  predicate HonestRow(row: CaseRow) {
    && row.revenueAtRisk > 0
    && row.recoveredAmount == (if row.status == Recovered then row.revenueAtRisk else 0)
    && (row.eligible <==> row.status !in {Discovered, Ineligible})
  }

  predicate HonestRows(cases: seq<CaseRow>) {
    forall i :: 0 <= i < |cases| ==> HonestRow(cases[i])
  }

  lemma AmountsBalance(cases: seq<CaseRow>)
    requires HonestRows(cases)
    ensures 0 <= Sum(cases, RecoveredSoFar()) <= Sum(cases, EligibleAtRisk()) <= Sum(cases, AtRisk())
    ensures Sum(cases, RecoveredSoFar()) == Sum(cases, RecoveredAtRisk())
  {
    SumZero(cases, (row: CaseRow) => 0);
    SumMonotone(cases, cases, (row: CaseRow) => 0, RecoveredSoFar());
    SumMonotone(cases, cases, RecoveredSoFar(), EligibleAtRisk());
    SumMonotone(cases, cases, EligibleAtRisk(), AtRisk());
    SumMonotone(cases, cases, RecoveredSoFar(), RecoveredAtRisk());
    SumMonotone(cases, cases, RecoveredAtRisk(), RecoveredSoFar());
  }

  lemma CountsBalance(cases: seq<CaseRow>)
    requires HonestRows(cases)
    ensures Sum(cases, HasRecovered()) == CasesIn(cases, Recovered)
    ensures Sum(cases, IsEligible()) == |cases| - CasesIn(cases, Discovered) - CasesIn(cases, Ineligible)
  {
    SumMonotone(cases, cases, HasRecovered(), InStatus(Recovered));
    SumMonotone(cases, cases, InStatus(Recovered), HasRecovered());
    EligibleCount(cases);
  }

  /** Each counted figure is the number of the rows it is about. */
  lemma CountsAreRows(db: Db, status: Status)
    ensures CasesIn(db.cases, status) == |set c: nat | c < |db.cases| && db.cases[c].status == status|
    ensures ComputeRecoverySummary(db).casesEligible == |set c: nat | c < |db.cases| && db.cases[c].eligible|
    ensures ComputeRecoverySummary(db).successfulLinks
            == |set a: nat | a < |db.attempts| && db.attempts[a].status == Succeeded|
    ensures Sum(db.attempts, HasFailed()) == |set a: nat | a < |db.attempts| && db.attempts[a].status == AttemptFailed|
    ensures Sum(db.cases, HasRecovered()) == |set c: nat | c < |db.cases| && db.cases[c].recoveredAmount > 0|
  {
    SumCountsPositions(db.cases, InStatus(status), set c: nat | c < |db.cases| && db.cases[c].status == status);
    SumCountsPositions(db.cases, IsEligible(), set c: nat | c < |db.cases| && db.cases[c].eligible);
    var attempts := db.attempts;
    SumCountsPositions(attempts, HasSucceeded(), set a: nat | a < |attempts| && attempts[a].status == Succeeded);
    SumCountsPositions(attempts, HasFailed(), set a: nat | a < |attempts| && attempts[a].status == AttemptFailed);
    SumCountsPositions(db.cases, HasRecovered(), set c: nat | c < |db.cases| && db.cases[c].recoveredAmount > 0);
  }

  /** Payment p has a case, and not one that stands in an excepted status. */
  predicate Weighs(cases: seq<CaseRow>, p: nat, except: set<Status>) {
    exists c :: 0 <= c < |cases| && cases[c].paymentId == p && cases[c].status !in except
  }

  /** The amounts of the payments that weigh, each payment once. */
  function AmountsOf(payments: seq<Payment>, cases: seq<CaseRow>, except: set<Status>): int {
    if payments == [] then 0
    else
      var p := |payments| - 1;
      AmountsOf(payments[..p], cases, except) + if Weighs(cases, p, except) then payments[p].amount else 0
  }

  lemma {:induction false} NobodyWeighs(payments: seq<Payment>, except: set<Status>)
    ensures AmountsOf(payments, [], except) == 0
  {
    if payments != [] {
      NobodyWeighs(payments[..|payments| - 1], except);
    }
  }

  lemma WeighsNext(cases: seq<CaseRow>, row: CaseRow, p: nat, except: set<Status>)
    ensures Weighs(cases + [row], p, except) <==>
            Weighs(cases, p, except) || (row.paymentId == p && row.status !in except)
  {
    var all := cases + [row];
    assert all[|cases|] == row;
    if Weighs(cases, p, except) {
      var c :| 0 <= c < |cases| && cases[c].paymentId == p && cases[c].status !in except;
      assert all[c] == cases[c];
    }
  }

  /** One more case adds its own payment's amount, and no other. */
  lemma {:induction false} AmountsNext(payments: seq<Payment>, cases: seq<CaseRow>, row: CaseRow, except: set<Status>)
    requires forall c :: 0 <= c < |cases| ==> cases[c].paymentId != row.paymentId
    ensures AmountsOf(payments, cases + [row], except) == AmountsOf(payments, cases, except) +
            if row.status !in except && row.paymentId < |payments| then payments[row.paymentId].amount else 0
  {
    if payments != [] {
      var p := |payments| - 1;
      AmountsNext(payments[..p], cases, row, except);
      WeighsNext(cases, row, p, except);
    }
  }

  lemma {:induction false} AmountsAreAtRisk(db: Db, n: nat, except: set<Status>, f: CaseRow -> int)
    requires CasesMatchPayments(db) && n <= |db.cases|
    requires forall c :: 0 <= c < n ==>
               f(db.cases[c]) == if db.cases[c].status in except then 0 else db.cases[c].revenueAtRisk
    ensures Sum(db.cases[..n], f) == AmountsOf(db.payments, db.cases[..n], except)
  {
    if n == 0 {
      NobodyWeighs(db.payments, except);
    } else {
      AmountsAreAtRisk(db, n - 1, except, f);
      assert db.cases[..n] == db.cases[..n - 1] + [db.cases[n - 1]];
      SumPush(db.cases[..n - 1], db.cases[n - 1], f);
      AmountsNext(db.payments, db.cases[..n - 1], db.cases[n - 1], except);
    }
  }

  lemma EligibleByStatus(db: Db, config: Config)
    requires RowsOk(db, config)
    ensures forall c :: 0 <= c < |db.cases| ==>
              (db.cases[c].eligible <==> db.cases[c].status !in {Discovered, Ineligible})
  {
  }

  lemma StateRevenue(db: Db, config: Config)
    requires CasesMatchPayments(db) && RowsOk(db, config)
    ensures ComputeRecoverySummary(db).totalRevenueAtRisk == AmountsOf(db.payments, db.cases, {})
    ensures ComputeRecoverySummary(db).eligibleRevenue == AmountsOf(db.payments, db.cases, {Discovered, Ineligible})
  {
    EligibleByStatus(db, config);
    hide AmountsOf, Sum, CasesMatchPayments, RowsOk, Ratio;
    assert db.cases[..|db.cases|] == db.cases;
    AmountsAreAtRisk(db, |db.cases|, {}, AtRisk());
    AmountsAreAtRisk(db, |db.cases|, {Discovered, Ineligible}, EligibleAtRisk());
  }

  /**
   * The revenue at risk is payments' own money, in every reachable state: in all, the amounts of the payments that
   * have a case, each once; and eligible, those whose case has been found eligible.
   */
  lemma RevenueIsPayments(actions: seq<Action>, config: Config)
    ensures
      var db := Run(INIT, actions, config).db;
      var sum := ComputeRecoverySummary(db);
      && sum.totalRevenueAtRisk == AmountsOf(db.payments, db.cases, {})
      && sum.eligibleRevenue == AmountsOf(db.payments, db.cases, {Discovered, Ineligible})
  {
    InitInv(config);
    RunKeepsInv(INIT, actions, config);
    hide Run, Coherent, CallsAccounted, RowsOk, Fit, ComputeRecoverySummary;
    StateRevenue(Run(INIT, actions, config).db, config);
  }

  lemma RatesInUnit(db: Db)
    requires 0 <= Sum(db.cases, RecoveredSoFar()) <= Sum(db.cases, EligibleAtRisk())
    ensures
      var sum := ComputeRecoverySummary(db);
      && IsRate(sum.recoveryRate, sum.confirmedRecovered, sum.eligibleRevenue)
      && IsRate(sum.escalationRate, CasesIn(db.cases, Escalated), sum.casesTotal)
      && IsRate(sum.stopRate, CasesIn(db.cases, Stopped), sum.casesTotal)
      && IsRate(sum.providerFailureRate, Sum(db.attempts, HasFailed()), sum.recoveryAttempts)
  {
    SumOnes(db.cases, InStatus(Escalated));
    SumOnes(db.cases, InStatus(Stopped));
    SumOnes(db.attempts, HasFailed());
    hide Sum, Ratio, IsRate;
    RatioIsRate(Sum(db.cases, RecoveredSoFar()), Sum(db.cases, EligibleAtRisk()));
    RatioIsRate(CasesIn(db.cases, Escalated), |db.cases|);
    RatioIsRate(CasesIn(db.cases, Stopped), |db.cases|);
    RatioIsRate(Sum(db.attempts, HasFailed()), |db.attempts|);
  }

  lemma StateBalances(db: Db)
    requires HonestRows(db.cases)
    ensures Balanced(db)
  {
    hide Ratio, Sum;
    AmountsBalance(db.cases);
    CountsBalance(db.cases);
    AverageTimesCount(db.cases);
    hide HonestRows;
    RatesInUnit(db);
  }

  /** Each recovered case has recovered something, so the average is the whole shared out among them. */
  lemma AverageTimesCount(cases: seq<CaseRow>)
    requires HonestRows(cases)
    ensures
      var (confirmed, n) := (Sum(cases, RecoveredSoFar()), Sum(cases, HasRecovered()));
      && Ratio(confirmed, n) * n as real == confirmed as real
      && (Ratio(confirmed, n) > 0.0 <==> n > 0)
  {
    SumMonotone(cases, cases, HasRecovered(), RecoveredSoFar());
    SumOnes(cases, HasRecovered());
    var (confirmed, n) := (Sum(cases, RecoveredSoFar()), Sum(cases, HasRecovered()));
    if n == 0 {
      NoneRecovered(cases);
    } else {
      Shares(confirmed, n);
    }
  }

  lemma Shares(part: int, whole: int)
    requires 0 < whole <= part
    ensures Ratio(part, whole) * whole as real == part as real && Ratio(part, whole) > 0.0
  {
  }

  lemma {:induction false} NoneRecovered(cases: seq<CaseRow>)
    requires Sum(cases, HasRecovered()) == 0 && forall i :: 0 <= i < |cases| ==> cases[i].recoveredAmount >= 0
    ensures Sum(cases, RecoveredSoFar()) == 0
  {
    if cases != [] {
      SumOnes(cases[..|cases| - 1], HasRecovered());
      NoneRecovered(cases[..|cases| - 1]);
    }
  }

  function AttemptNumbers(): CaseRow -> int {
    (row: CaseRow) => row.attemptNumber
  }

  function One(): PaymentRequest -> int {
    (r: PaymentRequest) => 1
  }

  lemma {:induction false} CountOnes(requests: seq<PaymentRequest>)
    ensures Sum(requests, One()) == |requests|
  {
    if requests != [] {
      CountOnes(requests[..|requests| - 1]);
    }
  }

  lemma {:induction false} NumbersSpread(cases: seq<CaseRow>, n: nat)
    requires n <= |cases|
    ensures Sum(cases[..n], AttemptNumbers()) == Spread(n, (c: nat) => LinksOf(cases, c))
  {
    if n > 0 {
      NumbersSpread(cases, n - 1);
      assert cases[..n][..n - 1] == cases[..n - 1];
    }
  }

  /** An attempt that succeeded has not failed. */
  lemma {:induction false} OutcomesExclude(attempts: seq<Attempt>)
    ensures 0 <= Sum(attempts, HasSucceeded()) && 0 <= Sum(attempts, HasFailed())
    ensures Sum(attempts, HasSucceeded()) + Sum(attempts, HasFailed()) <= |attempts|
  {
    if attempts != [] {
      OutcomesExclude(attempts[..|attempts| - 1]);
    }
  }

  lemma LinksSpread(db: Db)
    requires Linked(db) && CountsAgree(db)
    ensures Sum(db.attempts, HasSucceeded()) == |db.requests| == Sum(db.cases, AttemptNumbers())
  {
    var n := |db.cases|;
    var attempts := (c: nat) => Sum(db.attempts, SucceededOf(c));
    var requests := (c: nat) => Sum(db.requests, RequestOf(c));
    var numbers := (c: nat) => LinksOf(db.cases, c);
    SumByOwner(db.attempts, n, HasSucceeded(), (a: Attempt) => a.caseId, (c: nat) => SucceededOf(c));
    SumByOwner(db.requests, n, One(), (r: PaymentRequest) => r.caseId, (c: nat) => RequestOf(c));
    CountOnes(db.requests);
    NumbersSpread(db.cases, n);
    assert db.cases[..n] == db.cases;
    SpreadSame(n, attempts, numbers);
    SpreadSame(n, requests, numbers);
    SpreadSame(n, attempts, (c: nat) => Sum(db.attempts, ((c: nat) => SucceededOf(c))(c)));
    SpreadSame(n, requests, (c: nat) => Sum(db.requests, ((c: nat) => RequestOf(c))(c)));
  }

  /**
   * The counts of links agree over the whole store: links created successfully are the payment requests on
   * record and the attempt numbers of all cases together, and no attempt counts both as success and failure.
   */
  lemma LinksBalance(actions: seq<Action>, config: Config)
    ensures
      var db := Run(INIT, actions, config).db;
      var sum := ComputeRecoverySummary(db);
      && sum.successfulLinks == |db.requests| == Sum(db.cases, AttemptNumbers())
      && 0 <= sum.successfulLinks <= sum.successfulLinks + Sum(db.attempts, HasFailed()) <= sum.recoveryAttempts
  {
    InitInv(config);
    RunKeepsInv(INIT, actions, config);
    RunKeepsAccounts(actions, config);
    var db := Run(INIT, actions, config).db;
    assert Linked(db);
    hide Run, CountsAgree, Linked;
    LinksSpread(db);
    OutcomesExclude(db.attempts);
  }

  lemma RowsBalance(s: Sys, config: Config)
    requires Inv(s, config) && BooksOk(Exact, s) && PaymentsPositive(s.db)
    ensures HonestRows(s.db.cases)
  {
  }

  lemma {:induction false} EligibleCount(cases: seq<CaseRow>)
    requires forall i :: 0 <= i < |cases| ==> (cases[i].eligible <==> cases[i].status !in {Discovered, Ineligible})
    ensures Sum(cases, IsEligible()) == |cases| - CasesIn(cases, Discovered) - CasesIn(cases, Ineligible)
  {
    if cases != [] {
      EligibleCount(cases[..|cases| - 1]);
    }
  }
}
