/** Diagnosis: one transaction that walks a case from Discovered or Failed to a policy verdict. */
module Diagnosis {
  import opened Domain
  import opened Policy
  import opened AiService
  import opened Records

  predicate Diagnosable(s: Status) {
    s in {Discovered, Eligible, Failed}
  }

  predicate PaymentEligible(payment: Payment) {
    payment.status == PaymentFailed && payment.amount > 0
  }

  function ReviewInput(row: CaseRow, payment: Payment, outcome: AiOutcome, today: int): PolicyInput {
    PolicyInput(PolicyReview, outcome.Proposal().action, row.attemptNumber, today - row.createdDay,
                row.contactCount, outcome.Proposal().confidence, payment.amount)
  }

  /** The status a diagnosis leaves a diagnosable case in. */
  function Verdict(row: CaseRow, payment: Payment, outcome: AiOutcome, today: int, config: Config): Status {
    if row.status == Discovered && !PaymentEligible(payment) then Ineligible
    else ResolveNextStatus(outcome.Proposal().action, Evaluate(ReviewInput(row, payment, outcome, today), config))
  }

  /** The audit rows of one diagnosis, in order. */
  function Trail(c: nat, row: CaseRow, payment: Payment, outcome: AiOutcome, today: int, config: Config): seq<Event> {
    var verdict := Verdict(row, payment, outcome, today, config);
    if row.status == Discovered && !PaymentEligible(payment) then
      [DiagnosisRequested(c, Discovered), StatusChanged(c, Discovered, Ineligible)]
    else
      Opening(c, row.status) + Review(c, row, payment, outcome, today, config)
  }

  function Opening(c: nat, status: Status): seq<Event> {
    if status == Discovered then
      [DiagnosisRequested(c, status), StatusChanged(c, Discovered, Eligible), StatusChanged(c, Eligible, Diagnosing)]
    else
      [DiagnosisRequested(c, status), StatusChanged(c, status, Diagnosing)]
  }

  function Review(c: nat, row: CaseRow, payment: Payment, outcome: AiOutcome, today: int, config: Config): seq<Event> {
    var proposal := outcome.Proposal();
    var decision := Evaluate(ReviewInput(row, payment, outcome, today), config);
    [AiDiagnosisCreated(c, outcome.Source(), outcome.retryCount),
     RecommendationCreated(c, proposal),
     StatusChanged(c, Diagnosing, Recommended),
     StatusChanged(c, Recommended, PolicyReview),
     PolicyEvaluated(c, decision, proposal.action),
     StatusChanged(c, PolicyReview, ResolveNextStatus(proposal.action, decision))]
  }

  /** The row a diagnosis writes. The version counts the flushes: one a transition, one for a new policy version. */
  function Diagnosed(row: CaseRow, payment: Payment, outcome: AiOutcome, today: int, config: Config): CaseRow {
    var verdict := Verdict(row, payment, outcome, today, config);
    if verdict == Ineligible then row.(status := Ineligible, eligible := false, version := row.version + 1)
    else
      row.(status := verdict,
           eligible := row.status == Discovered || row.eligible,
           confidence := Some(outcome.Proposal().confidence),
           action := Some(outcome.Proposal().action),
           policyVersion := Some(config.policyVersion),
           version := row.version + (if row.status == Discovered then 5 else 4)
                      + if row.policyVersion == Some(config.policyVersion) then 0 else 1)
  }

  datatype DiagnosisReply = NotFound | IllegalTransition | Conflict | Diagnosis(status: Status)

  /** What the committed database is after a diagnosis that loaded `snap`, and what the caller is told. */
  function DiagnosisTxn(db: Db, c: nat, snap: CaseRow, outcome: AiOutcome, today: int, config: Config)
    : (Db, DiagnosisReply)
  {
    if c >= |db.cases| || snap.paymentId >= |db.payments| then (db, NotFound)
    else if !Diagnosable(snap.status) then (db, IllegalTransition)
    else if db.cases[c].version != snap.version then (db, Conflict)
    else
      var payment := db.payments[snap.paymentId];
      (db.(cases := db.cases[c := Diagnosed(snap, payment, outcome, today, config)],
           log := db.log + Trail(c, snap, payment, outcome, today, config)),
       Diagnosis(Verdict(snap, payment, outcome, today, config)))
  }

  /** A diagnosis writes case rows and audit rows, and nothing else. */
  lemma LeavesTheRest(db: Db, c: nat, snap: CaseRow, outcome: AiOutcome, today: int, config: Config)
    ensures
      var after := DiagnosisTxn(db, c, snap, outcome, today, config).0;
      |after.cases| == |db.cases| && after == db.(cases := after.cases, log := after.log)
  {
    hide Evaluate, Trail, Diagnosed;
  }

  /** Diagnosis is refused in exactly the statuses the transition table gives no way to Diagnosing. */
  lemma RefusedIffNotDiagnosable(s: Status)
    ensures !Diagnosable(s) <==> s != Discovered && !CanTransition(s, Diagnosing)
  {
  }

  /**
   * Where a diagnosis ends, for every diagnosable case, AI answer, day and configuration. A discovered case whose
   * payment has not failed, or is not of a positive amount, is INELIGIBLE. Otherwise a payment link within window,
   * contact, amount and confidence bounds is APPROVED, a proposal that can never pass is STOPPED, and everything
   * else is ESCALATED. A fallback never approves.
   */
  lemma VerdictExact(row: CaseRow, payment: Payment, outcome: AiOutcome, today: int, config: Config)
    requires Diagnosable(row.status)
    ensures
      var verdict := Verdict(row, payment, outcome, today, config);
      var (proposal, days) := (outcome.Proposal(), today - row.createdDay);
      var reviewed := row.status == Discovered ==> payment.status == PaymentFailed && payment.amount > 0;
      && (verdict == Ineligible <==> !reviewed)
      && (verdict == Approved <==> reviewed && Passes(proposal.action, days, row.contactCount, proposal.confidence,
                                                      payment.amount, config))
      && (verdict == Stopped <==> reviewed && NeverPasses(proposal.action, row.attemptNumber, days, row.contactCount,
                                                          payment.amount, config))
      && verdict in {Ineligible, Approved, Stopped, Escalated}
    ensures Verdict(row, payment, outcome, today, config) == Approved <==>
            && (row.status == Discovered ==> PaymentEligible(payment))
            && StandingFacts(outcome.Proposal().action, row.contactCount, outcome.Proposal().confidence,
                             payment.amount, config)
            && today - row.createdDay <= config.maxRecoveryWindowDays
    ensures outcome.Fallback? ==> Verdict(row, payment, outcome, today, config) in {Ineligible, Stopped, Escalated}
    ensures row.status != Eligible ==>
            CommittedChange(row.status, Verdict(row, payment, outcome, today, config))
  {
    var input := ReviewInput(row, payment, outcome, today);
    ReviewDecides(input, config);
    ReviewVerdict(input, config);
    hide Evaluate, ResolveNextStatus;
  }

  /** Case c has been diagnosed with this proposal: its row, and the last of its audit rows. */
  ghost predicate Recorded(db: Db, after: Db, c: nat, source: DecisionSource, retries: nat, proposal: Recommendation,
                           days: int, amount: int, config: Config)
    requires c < |db.cases|
  {
    var (before, n) := (db.cases[c], |after.log|);
    && c < |after.cases| && db.log <= after.log && n >= |db.log| + 6
    && (var row := after.cases[c];
        && row == before.(status := row.status, version := row.version,
                          eligible := before.status == Discovered || before.eligible,
                          action := Some(proposal.action), confidence := Some(proposal.confidence),
                          policyVersion := Some(config.policyVersion))
        && after.log[n - 6] == AiDiagnosisCreated(c, source, retries)
        && after.log[n - 5] == RecommendationCreated(c, proposal)
        && after.log[n - 2].PolicyEvaluated? && after.log[n - 2].c == c && after.log[n - 2].action == proposal.action
        && Reasons(after.log[n - 2].decision.codes, proposal.action, before.attemptNumber, days, before.contactCount,
                   proposal.confidence, amount, config)
        && (after.log[n - 2].decision.allow <==> after.log[n - 2].decision.codes == [])
        && after.log[n - 1] == StatusChanged(c, PolicyReview, row.status))
  }

  /**
   * What a committed diagnosis leaves behind, by the AI's outcome: its answer, or a proposal to escalate with no
   * confidence, is on the row and in the audit log, with its source and the retries it took; the log then holds the
   * policy's reasons, and last the change to the status the row shows and the caller is told.
   */
  lemma DiagnosisTells(db: Db, c: nat, outcome: AiOutcome, today: int, config: Config)
    requires c < |db.cases| && db.cases[c].paymentId < |db.payments| && Diagnosable(db.cases[c].status)
    requires db.cases[c].status == Discovered ==> PaymentEligible(db.payments[db.cases[c].paymentId])
    ensures
      var (after, reply) := DiagnosisTxn(db, c, db.cases[c], outcome, today, config);
      var (days, amount) := (today - db.cases[c].createdDay, db.payments[db.cases[c].paymentId].amount);
      && c < |after.cases| && reply == Diagnosis(after.cases[c].status)
      && match outcome
         case FromAi(answer, k) => Recorded(db, after, c, AiSource, k, answer, days, amount, config)
         case Fallback(_, k) =>
           Recorded(db, after, c, FallbackSource, k, Recommendation(Escalate, 0.0), days, amount, config)
  {
    var (row, payment) := (db.cases[c], db.payments[db.cases[c].paymentId]);
    CodesMean(ReviewInput(row, payment, outcome, today), config);
    ReviewDecides(ReviewInput(row, payment, outcome, today), config);
    hide Evaluate, ResolveNextStatus;
    var opening, review := Opening(c, row.status), Review(c, row, payment, outcome, today, config);
    assert db.log + (opening + review) == (db.log + opening) + review;
  }

  /**
   * The diagnosis of one case, run inside one transaction on a session that has loaded `snap` (possibly
   * stale by the time of the commit). Each step is validated against the transition table.
   */
  method DiagnoseRecoveryCase(store: Store, c: nat, snap: CaseRow, provider: nat -> AiResponse, maxRetries: int,
                              today: int, config: Config)
    returns (reply: DiagnosisReply)
    requires c < |store.cases| ==> snap.paymentId < |store.payments|
    modifies store`cases, store`log
    ensures (store.View(), reply)
         == DiagnosisTxn(old(store.View()), c, snap, Recommend(provider, maxRetries), today, config)
  {
    hide Evaluate, ResolveNextStatus, Recommend;
    if c >= |store.cases| {
      return NotFound;
    }
    var payment := store.payments[snap.paymentId];
    var session := new CaseSession.Load(c, snap);
    if session.status !in {Discovered, Eligible, Failed} {
      // validate_transition(status, Diagnosing) refuses every other status.
      RefusedIffNotDiagnosable(session.status);
      return IllegalTransition;
    }
    session.Record(DiagnosisRequested(c, session.status));
    if session.status == Discovered {
      EvaluateEligibility(session, payment);
      if session.status == Ineligible {
        assert session.trail == [DiagnosisRequested(c, Discovered), StatusChanged(c, Discovered, Ineligible)];
        var committed := session.Commit(store);
        return if committed then Diagnosis(Ineligible) else Conflict;
      }
    }
    var started := session.Transition(Diagnosing);
    assert session.trail == Opening(c, snap.status);
    var outcome, calls := GetRecommendation(provider, maxRetries);
    AdoptRecommendation(session, outcome);
    var verdict := ReviewPolicy(session, payment, outcome, today, config);
    assert session.trail == Trail(c, snap, payment, outcome, today, config);
    var committed := session.Commit(store);
    reply := if committed then Diagnosis(verdict) else Conflict;
  }

  /** A discovered case of a failed payment with a positive amount is eligible; any other is not. */
  method EvaluateEligibility(session: CaseSession, payment: Payment)
    requires session.status == Discovered
    modifies session
    ensures session.Row() == old(session.Row()).(
              status := if PaymentEligible(payment) then Eligible else Ineligible,
              eligible := PaymentEligible(payment), version := old(session.version) + 1)
    ensures session.trail == old(session.trail) + [StatusChanged(session.id, Discovered, session.status)]
  {
    session.eligible := payment.status == PaymentFailed && payment.amount > 0;
    var target := if session.eligible then Eligible else Ineligible;
    var moved := session.Transition(target);
  }

  /** Records the AI's proposal, copies it onto the case and takes the case to policy review. */
  method AdoptRecommendation(session: CaseSession, outcome: AiOutcome)
    requires session.status == Diagnosing
    modifies session
    ensures session.Row() == old(session.Row()).(
              status := PolicyReview, confidence := Some(outcome.Proposal().confidence),
              action := Some(outcome.Proposal().action), version := old(session.version) + 2)
    ensures session.trail == old(session.trail) +
            [AiDiagnosisCreated(session.id, outcome.Source(), outcome.retryCount),
             RecommendationCreated(session.id, outcome.Proposal()),
             StatusChanged(session.id, Diagnosing, Recommended),
             StatusChanged(session.id, Recommended, PolicyReview)]
  {
    var proposal := outcome.Proposal();
    session.Record(AiDiagnosisCreated(session.id, outcome.Source(), outcome.retryCount));
    session.Record(RecommendationCreated(session.id, proposal));
    session.confidence := Some(proposal.confidence);
    session.action := Some(proposal.action);
    var recommended := session.Transition(Recommended);
    var reviewing := session.Transition(PolicyReview);
  }

  /** The row of a case in policy review, just before the verdict. */
  function UnderReview(row: CaseRow, outcome: AiOutcome): CaseRow {
    row.(status := PolicyReview,
         eligible := row.status == Discovered || row.eligible,
         confidence := Some(outcome.Proposal().confidence),
         action := Some(outcome.Proposal().action),
         version := row.version + if row.status == Discovered then 4 else 3)
  }

  /** Evaluates the policy and moves the case to the verdict. */
  method ReviewPolicy(session: CaseSession, payment: Payment, outcome: AiOutcome, today: int, config: Config)
    returns (verdict: Status)
    requires Diagnosable(session.loaded.status)
    requires session.loaded.status == Discovered ==> PaymentEligible(payment)
    requires session.Row() == UnderReview(session.loaded, outcome)
    modifies session
    ensures verdict == Verdict(session.loaded, payment, outcome, today, config)
    ensures session.Row() == Diagnosed(session.loaded, payment, outcome, today, config)
    ensures session.trail == old(session.trail) +
              [PolicyEvaluated(session.id, Evaluate(ReviewInput(session.loaded, payment, outcome, today), config),
                               outcome.Proposal().action),
               StatusChanged(session.id, PolicyReview, verdict)]
  {
    hide Evaluate;
    var proposal := outcome.Proposal();
    var decision := EvaluatePolicy(
      PolicyInput(session.status, proposal.action, session.attemptNumber, today - session.loaded.createdDay,
                  session.loaded.contactCount, proposal.confidence, payment.amount),
      config);
    if session.policyVersion != Some(config.policyVersion) {
      session.policyVersion := Some(config.policyVersion);
      session.version := session.version + 1;
    }
    session.Record(PolicyEvaluated(session.id, decision, proposal.action));
    verdict := ResolveNextStatus(proposal.action, decision);
    ReviewVerdict(ReviewInput(session.loaded, payment, outcome, today), config);
    var concluded := session.Transition(verdict);
  }
}
