/**
 * Concrete runs, composed stage by stage for any configuration and amount that admit an approval at all. One
 * failed payment with one case; the provider links and reports exactly what was asked for.
 */
module Scenarios {
  import opened Domain
  import opened Policy
  import opened AiService
  import opened Records
  import Diagnosis
  import opened Execution
  import opened Webhooks
  import opened Ingestion
  import opened Protocol
  import opened Coherence
  import opened Guarantees
  import opened Books
  import opened Summary

  const DEFAULTS := Config("v1", 3, 14, 2, 0.55, 500000, 0.75, 10000000)

  const PROPOSAL := Recommendation(SendPaymentLink, 1.0)

  /** Where a journey starts, and under which configuration. */
  datatype Journey = Journey(origin: Sys, config: Config)

  /** An honest run from the origin leads to s, with this many status changes of the case on the way. */
  ghost predicate Reached(j: Journey, s: Sys, changes: nat) {
    exists actions :: Travels(j, actions, s, changes)
  }

  ghost predicate Travels(j: Journey, actions: seq<Action>, s: Sys, changes: nat) {
    && Run(j.origin, actions, j.config) == s
    && StatusChanges(j.origin, actions, 0, j.config) == changes
    && GoodRun(Exact, j.origin, actions, j.config)
    && forall i :: 0 <= i < |actions| ==> SchemaOk(actions[i])
  }

  lemma SetsOut(j: Journey)
    ensures Reached(j, j.origin, 0)
  {
    assert Travels(j, [], j.origin, 0);
  }

  predicate Changed(s: Sys, t: Sys) {
    |s.db.cases| > 0 && |t.db.cases| > 0 && s.db.cases[0].status != t.db.cases[0].status
  }

  lemma Steps(j: Journey, s: Sys, changes: nat, a: Action)
    requires Reached(j, s, changes) && Environment(Exact, s, a) && SchemaOk(a)
    ensures
      var t := Apply(s, a, j.config);
      Reached(j, t, changes + if Changed(s, t) then 1 else 0)
  {
    hide Apply;
    var actions :| Travels(j, actions, s, changes);
    var more := actions + [a];
    assert more[..|actions|] == actions;
    assert Travels(j, more, Apply(s, a, j.config), changes + if Changed(s, Apply(s, a, j.config)) then 1 else 0);
  }

  /** One failed payment with its one case. */
  predicate OneCase(s: Sys, status: Status, amount: int) {
    && s.db.payments == [Payment(0, amount, PaymentFailed, None)]
    && |s.db.cases| == 1
    && s.db.cases[0].paymentId == 0 && s.db.cases[0].status == status
    && s.db.cases[0].contactCount == 0 && s.db.cases[0].createdDay == 0 && s.db.cases[0].revenueAtRisk == amount
    && (status != Recovered ==> s.db.cases[0].recoveredAmount == 0)
    && (forall r :: 0 <= r < |s.db.requests| ==>
          s.db.requests[r].referenceId.KeyOf? && s.db.requests[r].referenceId.attempt < |s.db.attempts|)
  }

  /** And nobody at work. */
  predicate Resting(s: Sys, status: Status, amount: int) {
    s.sessions == map[] && s.sweeps == map[] && OneCase(s, status, amount)
  }

  /** The configuration lets a certain proposal of a link for this amount pass on the first day. */
  predicate Admits(config: Config, amount: int) {
    StandingFacts(SendPaymentLink, 0, 1.0, amount, config) && config.maxRecoveryWindowDays >= 0
  }

  /** The case carries an approval that rests on standing facts. */
  predicate CarriesApproval(s: Sys)
    requires |s.db.cases| > 0
  {
    s.db.cases[0].action == Some(SendPaymentLink) && s.db.cases[0].confidence == Some(1.0)
  }

  lemma Arrives(config: Config, amount: int) returns (s: Sys)
    requires amount > 0
    ensures Reached(Journey(INIT, config), s, 0) && Resting(s, Discovered, amount) && s.today == 0
    ensures s.db.requests == [] && s.db.ledger == {} && s.db.cases[0].attemptNumber == 0
  {
    hide Reached;
    var j := Journey(INIT, config);
    var req := IngestRequest(None, amount, PaymentFailed, None, true);
    SetsOut(j);
    Steps(j, INIT, 0, Ingest(req));
    s := Apply(INIT, Ingest(req), config);
  }

  lemma DayPasses(j: Journey, s: Sys, changes: nat) returns (t: Sys)
    requires Reached(j, s, changes)
    ensures t == s.(today := s.today + 1) && Reached(j, t, changes)
  {
    hide Reached;
    Steps(j, s, changes, Tick);
    t := Apply(s, Tick, j.config);
  }

  lemma {:induction false} DaysPassBy(j: Journey, s: Sys, changes: nat, days: nat) returns (t: Sys)
    requires Reached(j, s, changes)
    ensures t == s.(today := s.today + days) && Reached(j, t, changes)
  {
    hide Reached;
    t := s;
    for i := 0 to days
      invariant t == s.(today := s.today + i) && Reached(j, t, changes)
    {
      t := DayPasses(j, t, changes);
    }
  }

  /** Nothing but the case and the log is written. */
  predicate SameBooks(s: Sys, t: Sys) {
    t.today == s.today && t.db.requests == s.db.requests && t.db.ledger == s.db.ledger && t.db.attempts == s.db.attempts
  }

  /** Diagnosed with a certain proposal: approved in time, stopped once the window has closed. */
  lemma Diagnoses(j: Journey, s: Sys, changes: nat, amount: int) returns (t: Sys)
    requires Reached(j, s, changes) && Admits(j.config, amount)
    requires Resting(s, Discovered, amount) || Resting(s, Failed, amount)
    ensures Reached(j, t, changes + 1) && SameBooks(s, t)
    ensures Resting(t, if s.today <= j.config.maxRecoveryWindowDays then Approved else Stopped, amount)
    ensures CarriesApproval(t) && t.db.cases[0].attemptNumber == s.db.cases[0].attemptNumber
  {
    hide Run, Reached, Diagnosis.Trail, Evaluate, Diagnosis.Verdict, Admits;
    var row := s.db.cases[0];
    Verdicts(row, s.db.payments[0], s.today, j.config);
    Steps(j, s, changes, BeginDiagnosis(0, 0));
    var loaded := Open(s, 0, DiagnosisOpen(0, row, s.today));
    var a := CommitDiagnosis(0, FromAi(PROPOSAL, 0), s.today);
    Steps(j, loaded, changes, a);
    t := Apply(loaded, a, j.config);
    assert t.sessions == map[];
  }

  lemma Verdicts(row: CaseRow, payment: Payment, day: int, config: Config)
    requires row.status in {Discovered, Failed} && row.contactCount == 0 && row.createdDay == 0
    requires payment.status == PaymentFailed && Admits(config, payment.amount)
    ensures Diagnosis.Verdict(row, payment, FromAi(PROPOSAL, 0), day, config)
            == if day <= config.maxRecoveryWindowDays then Approved else Stopped
  {
    Diagnosis.VerdictExact(row, payment, FromAi(PROPOSAL, 0), day, config);
    var input := Diagnosis.ReviewInput(row, payment, FromAi(PROPOSAL, 0), day);
    if day > config.maxRecoveryWindowDays {
      EvaluateExact(input, config);
      assert Violates(RecoveryWindowExpired, input, config);
      assert RecoveryWindowExpired in Evaluate(input, config).codes;
    }
  }

  /** The session has loaded an approved case on an open day. */
  predicate AboutToEnter(s: Sys, amount: int, config: Config) {
    && OneCase(s, Approved, amount) && CarriesApproval(s)
    && s.sessions.Keys == {0} && s.sweeps == map[]
    && s.sessions[0].ExecutionOpen? && s.sessions[0].c == 0 && s.sessions[0].snap == s.db.cases[0]
    && s.sessions[0].loaded <= s.today && s.sessions[0].loaded <= config.maxRecoveryWindowDays
  }

  lemma Loads(j: Journey, s: Sys, changes: nat, amount: int) returns (t: Sys)
    requires Reached(j, s, changes) && Resting(s, Approved, amount) && CarriesApproval(s)
    requires s.today <= j.config.maxRecoveryWindowDays
    ensures Reached(j, t, changes) && AboutToEnter(t, amount, j.config) && t.db == s.db && t.today == s.today
    ensures t.sessions[0].loaded == s.today
  {
    hide Reached;
    Steps(j, s, changes, BeginExecution(0, 0));
    t := Apply(s, BeginExecution(0, 0), j.config);
  }

  predicate HasEntered(s: Sys, amount: int) {
    && OneCase(s, Executing, amount)
    && s.sessions.Keys == {0} && s.sweeps == map[] && s.sessions[0].InExecuting?
    && s.sessions[0].c == 0 && s.sessions[0].snap == s.db.cases[0]
  }

  /** Re-checked by the day it loaded on, however many days ago that was. */
  lemma Enters(j: Journey, s: Sys, changes: nat, amount: int) returns (t: Sys)
    requires Reached(j, s, changes) && AboutToEnter(s, amount, j.config) && Admits(j.config, amount)
    ensures Reached(j, t, changes + 1) && HasEntered(t, amount) && SameBooks(s, t)
    ensures t.db.cases[0].attemptNumber == s.db.cases[0].attemptNumber
  {
    hide Run, Reached;
    var day := s.sessions[0].loaded;
    StandingApprovalRecheck(RecheckInput(s.db.cases[0], amount, day), j.config);
    hide Evaluate, EnterTrail;
    Steps(j, s, changes, CommitEntry(0, day));
    t := Apply(s, CommitEntry(0, day), j.config);
  }

  /** The provider does not report our reference id back, so the link is recorded under the attempt's own key. */
  function NewLink(reference: string, amount: int): Link {
    Link(reference, None, amount, 0, LinkCreated)
  }

  /** The session is about to record this link for its case. */
  predicate HasLink(s: Sys, reference: string, amount: int) {
    && OneCase(s, Executing, amount)
    && s.sessions.Keys == {0} && EndingOf(s.sessions[0]) == Adopt(NewLink(reference, amount))
    && s.sessions[0].c == 0 && s.sessions[0].snap == s.db.cases[0]
    && s.sweeps == map[] && StartedAttempt(s)
  }

  /** The session's attempt is on record, and its key is not in use yet. */
  predicate StartedAttempt(s: Sys)
    requires 0 in s.sessions && HasAttempt(s.sessions[0])
  {
    && s.sessions[0].attempt < |s.db.attempts| && s.db.attempts[s.sessions[0].attempt].status == InProgress
    && forall r :: 0 <= r < |s.db.requests| ==> s.db.requests[r].referenceId != KeyOf(s.sessions[0].attempt)
  }

  /** No recorded link has this provider reference. */
  predicate FreeName(db: Db, reference: string) {
    forall r :: 0 <= r < |db.requests| ==> db.requests[r].providerReference != reference
  }

  predicate SameLinks(s: Sys, t: Sys) {
    && t.today == s.today && t.db.requests == s.db.requests && t.db.ledger == s.db.ledger && t.db.cases == s.db.cases
    && t.db.payments == s.db.payments
  }

  lemma Starts(j: Journey, s: Sys, changes: nat, amount: int) returns (t: Sys)
    requires Reached(j, s, changes) && HasEntered(s, amount)
    ensures Reached(j, t, changes) && SameLinks(s, t)
    ensures t.sessions.Keys == {0} && t.sessions[0].AttemptOpen?
    ensures t.sessions[0].c == 0 && t.sessions[0].snap == t.db.cases[0]
    ensures StartedAttempt(t) && OneCase(t, Executing, amount) && t.sweeps == map[]
  {
    hide Reached;
    Steps(j, s, changes, CommitAttempt(0));
    t := Apply(s, CommitAttempt(0), j.config);
  }

  /** The provider makes the link at once. */
  lemma Makes(j: Journey, s: Sys, changes: nat, reference: string, amount: int) returns (t: Sys)
    requires Reached(j, s, changes) && HasEntered(s, amount) && amount > 0
    ensures Reached(j, t, changes) && HasLink(t, reference, amount) && SameLinks(s, t)
  {
    hide Reached;
    var started := Starts(j, s, changes, amount);
    var a := CallProvider(0, Made(NewLink(reference, amount)));
    Steps(j, started, changes, a);
    t := Apply(started, a, j.config);
  }

  /** The provider's answer is ambiguous, and the lookup by reference finds this link. */
  lemma Reconciles(j: Journey, s: Sys, changes: nat, reference: string, amount: int) returns (t: Sys)
    requires Reached(j, s, changes) && HasEntered(s, amount) && amount > 0
    ensures Reached(j, t, changes) && HasLink(t, reference, amount) && SameLinks(s, t)
  {
    hide Reached;
    var started := Starts(j, s, changes, amount);
    var a := CallProvider(0, Raised(AmbiguousError));
    Steps(j, started, changes, a);
    var answered := Apply(started, a, j.config);
    var b := CommitReconciliation(0, Some(NewLink(reference, amount)));
    Steps(j, answered, changes, b);
    t := Apply(answered, b, j.config);
  }

  lemma NotTaken(s: Sys, reference: string, amount: int)
    requires HasLink(s, reference, amount) && FreeName(s.db, reference)
    ensures !ReferenceTaken(s.db, NewLink(reference, amount), s.sessions[0].attempt)
  {
  }

  lemma RecordsLink(j: Journey, s: Sys, changes: nat, reference: string, amount: int) returns (t: Sys)
    requires Reached(j, s, changes) && HasLink(s, reference, amount) && FreeName(s.db, reference)
    ensures Reached(j, t, changes) && Resting(t, Executing, amount)
    ensures t.today == s.today && t.db.ledger == s.db.ledger
    ensures t.db.cases[0].attemptNumber == s.db.cases[0].attemptNumber + 1
    ensures |t.db.requests| == |s.db.requests| + 1 && s.db.requests <= t.db.requests
    ensures
      var last := t.db.requests[|s.db.requests|];
      && last.caseId == 0 && last.providerReference == reference && last.status == LinkCreated
      && last.amount == amount
  {
    hide Reached, ReferenceTaken;
    NotTaken(s, reference, amount);
    Steps(j, s, changes, CommitFinish(0));
    t := Apply(s, CommitFinish(0), j.config);
    assert t.sessions == map[];
  }

  /** From an approval to a recorded link, in one go. */
  lemma Launches(j: Journey, s: Sys, changes: nat, reference: string, amount: int) returns (t: Sys)
    requires Reached(j, s, changes) && Resting(s, Approved, amount) && CarriesApproval(s)
    requires s.today <= j.config.maxRecoveryWindowDays && Admits(j.config, amount)
    requires FreeName(s.db, reference)
    ensures Reached(j, t, changes + 1) && Resting(t, Executing, amount)
    ensures t.today == s.today && t.db.ledger == s.db.ledger
    ensures t.db.cases[0].attemptNumber == s.db.cases[0].attemptNumber + 1
    ensures |t.db.requests| == |s.db.requests| + 1 && s.db.requests <= t.db.requests
    ensures
      var last := t.db.requests[|s.db.requests|];
      && last.caseId == 0 && last.providerReference == reference && last.status == LinkCreated
      && last.amount == amount
  {
    hide Reached, OneCase;
    var loaded := Loads(j, s, changes, amount);
    var entered := Enters(j, loaded, changes, amount);
    var made := Makes(j, entered, changes + 1, reference, amount);
    t := RecordsLink(j, made, changes + 1, reference, amount);
  }

  function Notice(s: Sys, r: nat, status: LinkStatus, key: string, amount: int): LinkEvent
    requires r < |s.db.requests|
  {
    LinkEvent(Some(s.db.requests[r].providerReference), Some(status), if status == Paid then Some(amount) else None,
              key)
  }

  /** Request r is the one its link is known by, and its key is new. */
  predicate Deliverable(s: Sys, r: nat, status: LinkStatus, key: string, amount: int) {
    && s.sessions == map[] && s.sweeps == map[] && r < |s.db.requests| && s.db.requests[r].caseId == 0
    && s.db.requests[r].amount == amount > 0
    && FindRequest(s.db.requests, s.db.requests[r].providerReference) == Some(r)
    && status in RELEVANT_LINK_STATUSES && key !in s.db.ledger
  }

  /** Request r shows the status, everything else about the requests is as it was. */
  predicate OnlyRequest(s: Sys, t: Sys, r: nat, status: LinkStatus, key: string) {
    && t.sessions == map[] && t.sweeps == map[] && t.today == s.today && t.db.ledger == s.db.ledger + {key}
    && |t.db.requests| == |s.db.requests| && r < |s.db.requests|
    && t.db.requests[r] == s.db.requests[r].(status := status, amountPaid := t.db.requests[r].amountPaid)
    && forall i :: 0 <= i < |s.db.requests| && i != r ==> t.db.requests[i] == s.db.requests[i]
  }

  lemma Arriving(j: Journey, s: Sys, changes: nat, r: nat, status: LinkStatus, key: string, amount: int)
    returns (t: Sys)
    requires Reached(j, s, changes) && |s.db.cases| == 1 && Deliverable(s, r, status, key, amount)
    ensures Reached(j, t, changes)
    ensures t == Open(s, 0, WebhookOpen(0, s.db.cases[0], Notice(s, r, status, key, amount), r, s.db.requests[r]))
  {
    hide Run, Reached;
    var a := ReceiveWebhook(0, Notice(s, r, status, key, amount));
    Steps(j, s, changes, a);
    t := Apply(s, a, j.config);
  }

  /** A delivery for an executing case: recovered when paid, failed otherwise. */
  lemma Concludes(j: Journey, s: Sys, changes: nat, r: nat, status: LinkStatus, key: string, amount: int)
    returns (t: Sys)
    requires Reached(j, s, changes) && OneCase(s, Executing, amount) && Deliverable(s, r, status, key, amount)
    ensures Reached(j, t, changes + 1) && OnlyRequest(s, t, r, status, key)
    ensures Resting(t, if status == Paid then Recovered else Failed, amount)
    ensures t.db.cases[0].attemptNumber == s.db.cases[0].attemptNumber
    ensures status == Paid ==> t.db.cases[0].recoveredAmount == amount
  {
    hide Run, Reached, FindRequest;
    var loaded := Arriving(j, s, changes, r, status, key, amount);
    Steps(j, loaded, changes, CommitWebhook(0));
    t := Apply(loaded, CommitWebhook(0), j.config);
    assert t.sessions == map[];
  }

  /** A delivery for a case that is no longer executing: the request is rewritten all the same. */
  lemma Overwrites(j: Journey, s: Sys, changes: nat, r: nat, status: LinkStatus, key: string, amount: int)
    returns (t: Sys)
    requires Reached(j, s, changes) && OneCase(s, Recovered, amount) && Deliverable(s, r, status, key, amount)
    ensures Reached(j, t, changes) && OnlyRequest(s, t, r, status, key) && t.db.cases == s.db.cases
  {
    hide Run, Reached, FindRequest;
    var loaded := Arriving(j, s, changes, r, status, key, amount);
    Steps(j, loaded, changes, CommitWebhook(0));
    t := Apply(loaded, CommitWebhook(0), j.config);
    assert t.sessions == map[];
  }

  lemma Actions(j: Journey, s: Sys, changes: nat)
    requires Reached(j, s, changes) && j.origin == INIT
    ensures exists actions :: Run(INIT, actions, j.config) == s
                              && GoodRun(Exact, INIT, actions, j.config)
                              && forall i :: 0 <= i < |actions| ==> SchemaOk(actions[i])
  {
    var actions :| Travels(j, actions, s, changes);
  }
}
