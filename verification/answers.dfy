/** What each answer of the payment provider leads to, from the call to the last commit. */
module Answers {
  import opened Domain
  import opened Policy
  import opened Records
  import opened Execution
  import opened Protocol
  import opened Coherence
  import opened Steps

  /** A session has its answer, and nobody has written its case since. */
  predicate Waiting(s: Sys, sid: nat, c: nat, attempt: nat, answer: ProviderAnswer) {
    && sid in s.sessions && s.sessions[sid].Answered? && s.sessions[sid].c == c
    && s.sessions[sid].attempt == attempt && s.sessions[sid].answer == answer
    && c < |s.db.cases| && s.db.cases[c].version == s.sessions[sid].snap.version
  }

  /** The id a link goes on record under: the provider's unless it is missing or empty, then the attempt's own key. */
  function RecordedId(link: Link, attempt: nat): ReferenceId {
    match link.referenceId
    case None => KeyOf(attempt)
    case Some(id) => if id == Foreign("") then KeyOf(attempt) else id
  }

  /** Neither unique value of this link is on record. */
  predicate IsFree(db: Db, link: Link, attempt: nat) {
    forall i :: 0 <= i < |db.requests| ==>
      && db.requests[i].providerReference != link.providerReference
      && db.requests[i].referenceId != RecordedId(link, attempt)
  }

  /** The link is on record for the case, which stays EXECUTING, and the attempt has succeeded. */
  predicate Adopted(before: Db, after: Db, c: nat, attempt: nat, link: Link) {
    && c < |before.cases| && c < |after.cases| && attempt < |before.attempts| == |after.attempts|
    && |after.requests| == |before.requests| + 1 && before.requests <= after.requests
    && (var req := after.requests[|before.requests|];
        && req.caseId == c && req.attemptId == attempt && req.providerReference == link.providerReference
        && req.referenceId == RecordedId(link, attempt) && req.amount == link.amount
        && req.amountPaid == link.amountPaid && req.status == link.status)
    && (var row := before.cases[c];
        after.cases[c] == row.(status := Executing, attemptNumber := row.attemptNumber + 1, version := row.version + 1))
    && after.attempts[attempt] == before.attempts[attempt].(status := Succeeded,
                                                            providerReference := Some(link.providerReference))
    && OnlyTheirs(before, after, c, attempt)
    && after.log != [] && after.log[|after.log| - 1] == PaymentLinkCreated(c, link.providerReference, link.amount)
  }

  /** Nothing else has been written than the case, the attempt, new requests and new audit rows. */
  predicate OnlyTheirs(before: Db, after: Db, c: nat, attempt: nat)
    requires c < |after.cases| && attempt < |after.attempts|
  {
    && c < |before.cases| && attempt < |before.attempts|
    && after == before.(cases := before.cases[c := after.cases[c]], requests := after.requests, log := after.log,
                        attempts := before.attempts[attempt := after.attempts[attempt]])
  }

  /** The attempt has failed with this code, the case is ESCALATED, and no request is added. */
  predicate GivenUp(before: Db, after: Db, c: nat, attempt: nat, code: FailureCategory) {
    && c < |before.cases| && attempt < |before.attempts|
    && c < |after.cases| && attempt < |after.attempts| && after.requests == before.requests
    && after.cases[c] == before.cases[c].(status := Escalated, version := before.cases[c].version + 1)
    && after.attempts[attempt] == before.attempts[attempt].(status := AttemptFailed, failureCode := Some(code))
    && OnlyTheirs(before, after, c, attempt)
    && after.log != [] && after.log[|after.log| - 1] == StatusChanged(c, Executing, Escalated)
  }

  lemma AdoptionOf(db: Db, c: nat, attempt: nat, link: Link)
    requires c < |db.cases| && attempt < |db.attempts| && db.cases[c].status == Executing
    ensures
      var after := RecordLinkTxn(db, c, db.cases[c], attempt, link).0;
      if IsFree(db, link, attempt) then Adopted(db, after, c, attempt, link) else after == db
  {
  }

  lemma FailureOf(db: Db, c: nat, attempt: nat, category: FailureCategory)
    requires c < |db.cases| && attempt < |db.attempts| && db.cases[c].status == Executing
    ensures GivenUp(db, FailTxn(db, c, db.cases[c], attempt, category).0, c, attempt, category)
  {
  }

  lemma SameButLog(a: Db, b: Db, after: Db, c: nat, attempt: nat, link: Link)
    requires b == a.(log := b.log)
    ensures IsFree(b, link, attempt) == IsFree(a, link, attempt)
    ensures Adopted(b, after, c, attempt, link) == Adopted(a, after, c, attempt, link)
  {
  }

  lemma StillGivenUp(a: Db, b: Db, after: Db, c: nat, attempt: nat)
    requires b == a.(log := b.log) && GivenUp(b, after, c, attempt, AmbiguousResult)
    ensures GivenUp(a, after, c, attempt, AmbiguousResult)
  {
  }

  lemma Prepared(s: Sys, sid: nat, c: nat, attempt: nat, answer: ProviderAnswer)
    requires Base(s) && Waiting(s, sid, c, attempt, answer)
    ensures attempt < |s.db.attempts| && s.sessions[sid].snap == s.db.cases[c] && s.db.cases[c].status == Executing
  {
    BaseGives(s, sid);
  }

  lemma FinishIs(s: Sys, sid: nat, config: Config)
    ensures Apply(s, CommitFinish(sid), config) == DoCommitFinish(s, sid)
  {
  }

  lemma LookupIs(s: Sys, sid: nat, found: Option<Link>, config: Config)
    ensures Apply(s, CommitReconciliation(sid, found), config) == DoCommitReconciliation(s, sid, found)
  {
  }

  /** A session that knows its link records it. */
  lemma RecordsIt(s: Sys, sid: nat, c: nat, attempt: nat, link: Link)
    requires sid in s.sessions && HasAttempt(s.sessions[sid]) && EndingOf(s.sessions[sid]) == Adopt(link)
    requires s.sessions[sid].c == c < |s.db.cases| && s.sessions[sid].attempt == attempt < |s.db.attempts|
    requires s.sessions[sid].snap == s.db.cases[c] && s.db.cases[c].status == Executing
    ensures
      var t := DoCommitFinish(s, sid);
      sid !in t.sessions && if IsFree(s.db, link, attempt) then Adopted(s.db, t.db, c, attempt, link) else t.db == s.db
  {
    AdoptionOf(s.db, c, attempt, link);
    hide RecordLinkTxn, FailTxn, IsFree, Adopted;
  }

  /** A session that has nothing left to try gives up. */
  lemma GivesUp(s: Sys, sid: nat, c: nat, attempt: nat, code: FailureCategory)
    requires sid in s.sessions && HasAttempt(s.sessions[sid]) && EndingOf(s.sessions[sid]) == GiveUp(code)
    requires s.sessions[sid].c == c < |s.db.cases| && s.sessions[sid].attempt == attempt < |s.db.attempts|
    requires s.sessions[sid].snap == s.db.cases[c] && s.db.cases[c].status == Executing
    ensures
      var t := DoCommitFinish(s, sid);
      sid !in t.sessions && GivenUp(s.db, t.db, c, attempt, code)
  {
    FailureOf(s.db, c, attempt, code);
    hide RecordLinkTxn, FailTxn, GivenUp, CanTransition;
  }

  /**
   * Before anything is asked of the provider, the attempt is on record with its audit row; and attempt, audit row and
   * call all go by the amount of the payment.
   */
  lemma AskedForThePayment(s: Sys, sid: nat, answer: ProviderAnswer, config: Config)
    requires sid in s.sessions && s.sessions[sid].InExecuting? && s.sessions[sid].snap.paymentId < |s.db.payments|
    ensures Apply(s, CallProvider(sid, answer), config) == s
    ensures
      var (c, n) := (s.sessions[sid].c, |s.db.attempts|);
      var amount := s.db.payments[s.sessions[sid].snap.paymentId].amount;
      var started := Apply(s, CommitAttempt(sid), config);
      var called := Apply(started, CallProvider(sid, answer), config);
      && started.creates == s.creates
      && started.db == s.db.(attempts := s.db.attempts + [Attempt(c, InProgress, amount, None, None)],
                             log := s.db.log + [ExecutionStarted(n, amount)])
      && called.db == started.db
      && called.creates == s.creates + [CreateCall(c, s.sessions[sid].entry, n, amount)]
      && sid in called.sessions
      && called.sessions[sid] == Answered(c, s.sessions[sid].snap, s.sessions[sid].entry, n, answer)
  {
  }

  /** A link made at once is recorded by the next commit; there is nothing to look up. */
  lemma MadeIsAdopted(s: Sys, sid: nat, c: nat, attempt: nat, link: Link, found: Option<Link>, config: Config)
    requires Base(s) && Waiting(s, sid, c, attempt, Made(link))
    ensures Apply(s, CommitReconciliation(sid, found), config) == s
    ensures
      var t := Apply(s, CommitFinish(sid), config);
      sid !in t.sessions && if IsFree(s.db, link, attempt) then Adopted(s.db, t.db, c, attempt, link) else t.db == s.db
  {
    hide Base, DoCommitFinish;
    Prepared(s, sid, c, attempt, Made(link));
    FinishIs(s, sid, config);
    LookupIs(s, sid, found, config);
    hide Apply, IsFree, Adopted;
    RecordsIt(s, sid, c, attempt, link);
  }

  /**
   * An ambiguous answer is never taken for a failure: nothing can be concluded before the lookup by reference, and a
   * link it finds is adopted. Only when it finds none has the attempt failed, and the case goes to a human.
   */
  lemma AmbiguousIsLookedUp(s: Sys, sid: nat, c: nat, attempt: nat, found: Option<Link>, config: Config)
    requires Base(s) && Waiting(s, sid, c, attempt, Raised(AmbiguousError))
    ensures Apply(s, CommitFinish(sid), config) == s
    ensures
      var looked := Apply(s, CommitReconciliation(sid, found), config);
      var t := Apply(looked, CommitFinish(sid), config);
      && looked.db == s.db.(log := s.db.log + [ProviderAmbiguousResult(attempt),
                                               ProviderStateReconciliation(attempt, found.Some?)])
      && sid !in t.sessions
      && match found
         case Some(link) => if IsFree(s.db, link, attempt) then Adopted(s.db, t.db, c, attempt, link)
                            else t.db == looked.db
         case None => GivenUp(s.db, t.db, c, attempt, AmbiguousResult)
  {
    hide Base;
    Prepared(s, sid, c, attempt, Raised(AmbiguousError));
    FinishIs(s, sid, config);
    LookupIs(s, sid, found, config);
    NothingToFinish(s, sid);
    hide DoCommitFinish, Apply, IsFree, Adopted, GivenUp;
    var looked := DoCommitReconciliation(s, sid, found);
    FinishIs(looked, sid, config);
    match found {
      case Some(link) =>
        RecordsIt(looked, sid, c, attempt, link);
        SameButLog(s.db, looked.db, DoCommitFinish(looked, sid).db, c, attempt, link);
      case None =>
        GivesUp(looked, sid, c, attempt, AmbiguousResult);
        StillGivenUp(s.db, looked.db, DoCommitFinish(looked, sid).db, c, attempt);
    }
  }

  lemma NothingToFinish(s: Sys, sid: nat)
    requires sid in s.sessions && EndingOf(s.sessions[sid]).NotYet?
    ensures DoCommitFinish(s, sid) == s
  {
  }

  /** Any other error ends the attempt for good, each with its own code; there is nothing to look up. */
  lemma ErrorIsFinal(s: Sys, sid: nat, c: nat, attempt: nat, error: ProviderError, found: Option<Link>, config: Config)
    requires Base(s) && Waiting(s, sid, c, attempt, Raised(error)) && error != AmbiguousError
    ensures Apply(s, CommitReconciliation(sid, found), config) == s
    ensures
      var t := Apply(s, CommitFinish(sid), config);
      sid !in t.sessions && GivenUp(s.db, t.db, c, attempt,
                                    match error
                                    case AuthError => ProviderAuthError
                                    case RateLimitError => ProviderRateLimit
                                    case ValidationError => ProviderValidationError
                                    case TimeoutError => ProviderTimeout
                                    case _ => UnknownProviderError)
  {
    hide Base, DoCommitFinish;
    Prepared(s, sid, c, attempt, Raised(error));
    FinishIs(s, sid, config);
    LookupIs(s, sid, found, config);
    hide Apply, GivenUp;
    GivesUp(s, sid, c, attempt, CategoryOf(error));
  }
}
