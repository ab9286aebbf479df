/**
 * Execution: the transactions that take an approved case to a payment link. Local commits surround the
 * external call, so every function here is one transaction and the caller interleaves them.
 */
module Execution {
  import opened Domain
  import opened Policy
  import opened Records

  datatype ProviderError =
    | AuthError | RateLimitError | ValidationError | TimeoutError
    | AmbiguousError | UnavailableError | OtherProviderError

  datatype ProviderAnswer = Made(link: Link) | Raised(error: ProviderError)

  function CategoryOf(e: ProviderError): FailureCategory {
    match e
    case AuthError => ProviderAuthError
    case RateLimitError => ProviderRateLimit
    case ValidationError => ProviderValidationError
    case TimeoutError => ProviderTimeout
    case AmbiguousError => AmbiguousResult
    case UnavailableError => UnknownProviderError
    case OtherProviderError => UnknownProviderError
  }

  datatype EnterReply =
    | CaseNotFound | NotApproved | NoAction | EnterConflict
    | Withheld(blocked: Decision)
    | Entered(row: CaseRow, entry: nat)

  datatype FinishReply = LinkRecorded | FailureEscalated | FinishConflict | DuplicateReference

  /** The facts the pre-execution re-check reads: the case as it stands, today's date, the canonical amount. */
  function RecheckInput(row: CaseRow, amount: int, today: int): PolicyInput
    requires row.action.Some?
  {
    PolicyInput(row.status, row.action.value, row.attemptNumber, today - row.createdDay, row.contactCount,
                if row.confidence.Some? then row.confidence.value else 0.0, amount)
  }

  function EnterTrail(c: nat, snap: CaseRow, decision: Decision): seq<Event> {
    [ExecutionRequested(c, snap.status), PolicyRechecked(c, decision), StatusChanged(c, snap.status, Executing)]
  }

  /** First transaction: re-check, enter Executing, and either commit there or escalate at once. */
  function EnterTxn(db: Db, c: nat, snap: CaseRow, today: int, config: Config): (Db, EnterReply) {
    if c >= |db.cases| || snap.paymentId >= |db.payments| then (db, CaseNotFound)
    else if snap.status != Approved then (db, NotApproved)
    else if snap.action == None then (db, NoAction)
    else if db.cases[c].version != snap.version then (db, EnterConflict)
    else
      var decision := Evaluate(RecheckInput(snap, db.payments[snap.paymentId].amount, today), config);
      if decision.allow && snap.action.value in EXECUTABLE_ACTIONS then
        var row := snap.(status := Executing, version := snap.version + 1);
        (db.(cases := db.cases[c := row], log := db.log + EnterTrail(c, snap, decision)),
         Entered(row, |db.log| + 2))
      else
        (db.(cases := db.cases[c := snap.(status := Escalated, version := snap.version + 2)],
             log := db.log + (EnterTrail(c, snap, decision) + [StatusChanged(c, Executing, Escalated)])),
         Withheld(decision))
  }

  /** An entry writes case rows and audit rows, and nothing else. */
  lemma EntryLeavesTheRest(db: Db, c: nat, snap: CaseRow, today: int, config: Config)
    ensures
      var after := EnterTxn(db, c, snap, today, config).0;
      |after.cases| == |db.cases| && after == db.(cases := after.cases, log := after.log)
  {
    hide Evaluate, EnterTrail;
  }

  /** The reasons a re-check gives against an approved row, in the row's own facts. */
  ghost predicate ReasonsOf(codes: seq<ReasonCode>, row: CaseRow, days: int, confidence: real, amount: int,
                            config: Config)
    requires row.action.Some?
  {
    && Reasons(codes, row.action.value, row.attemptNumber, days, row.contactCount, confidence, amount, config)
    && (ActionNotEligibleForStatus in codes <==> row.action.value in {Escalate, Stop})
  }

  /** The re-check of an approved row: its reasons in the row's own terms, and when it lets a link through. */
  lemma RecheckDecides(row: CaseRow, amount: int, today: int, config: Config)
    requires row.status == Approved && row.action.Some?
    ensures
      var decision := Evaluate(RecheckInput(row, amount, today), config);
      var days := today - row.createdDay;
      var confidence := if row.confidence == None then 0.0 else row.confidence.value;
      && ReasonsOf(decision.codes, row, days, confidence, amount, config)
      && (decision.allow <==> decision.codes == [])
      && (decision.allow && row.action.value in EXECUTABLE_ACTIONS <==>
            Passes(row.action.value, days, row.contactCount, confidence, amount, config))
  {
    CodesMean(RecheckInput(row, amount, today), config);
    hide Evaluate;
    var codes := Evaluate(RecheckInput(row, amount, today), config).codes;
    assert codes != [] ==> codes[0] in codes;
  }

  /**
   * Every end of an entry in the terms of the row itself. A current row on an approved link goes to EXECUTING exactly
   * when the link still passes with the facts recorded in the row, and otherwise its case is escalated for the reasons
   * those facts give; an action nothing carries out is escalated even where there is no reason. Anything else, a stale
   * row among it, leaves the database alone.
   */
  lemma EntryDecides(db: Db, c: nat, snap: CaseRow, today: int, config: Config)
    ensures
      var (after, reply) := EnterTxn(db, c, snap, today, config);
      var there := c < |db.cases| && snap.paymentId < |db.payments|;
      var ready := there && snap.status == Approved && snap.action.Some?;
      && (reply == CaseNotFound <==> !there)
      && (reply == NotApproved <==> there && snap.status != Approved)
      && (reply == NoAction <==> there && snap.status == Approved && snap.action == None)
      && (reply == EnterConflict <==> ready && db.cases[c].version != snap.version)
      && (!(ready && db.cases[c].version == snap.version) ==> after == db)
      && (ready && db.cases[c].version == snap.version ==>
            var days := today - snap.createdDay;
            var confidence := if snap.confidence == None then 0.0 else snap.confidence.value;
            var amount := db.payments[snap.paymentId].amount;
            if Passes(snap.action.value, days, snap.contactCount, confidence, amount, config) then
              var row := snap.(status := Executing, version := snap.version + 1);
              reply == Entered(row, |db.log| + 2) && after.cases == db.cases[c := row]
            else
              && reply.Withheld? && ReasonsOf(reply.blocked.codes, snap, days, confidence, amount, config)
              && (reply.blocked.allow <==> reply.blocked.codes == [])
              && after.cases == db.cases[c := snap.(status := Escalated, version := snap.version + 2)])
  {
    if c < |db.cases| && snap.paymentId < |db.payments| && snap.status == Approved && snap.action.Some? {
      RecheckDecides(snap, db.payments[snap.paymentId].amount, today, config);
    }
    hide Evaluate, EnterTrail, ReasonsOf, Passes, RecheckInput;
  }

  /** Second transaction: the attempt is on record before the provider is called. */
  function StartTxn(db: Db, c: nat, amount: int): Db {
    db.(attempts := db.attempts + [Attempt(c, InProgress, amount, None, None)],
        log := db.log + [ExecutionStarted(|db.attempts|, amount)])
  }

  /** After an ambiguous answer: what the lookup by reference said goes on record before anything else. */
  function ReconcileTxn(db: Db, attempt: nat, found: Option<Link>): Db {
    db.(log := db.log + [ProviderAmbiguousResult(attempt), ProviderStateReconciliation(attempt, found.Some?)])
  }

  /** The reference id a request is recorded under: the provider's if it reports one, or the attempt's own key. */
  function ReferenceIdOf(link: Link, attempt: nat): ReferenceId {
    if link.referenceId.Some? && link.referenceId.value != Foreign("") then link.referenceId.value else KeyOf(attempt)
  }

  /** One of the two unique columns of a payment request already has this link's value. */
  predicate ReferenceTaken(db: Db, link: Link, attempt: nat) {
    exists i :: 0 <= i < |db.requests|
                && (db.requests[i].providerReference == link.providerReference
                    || db.requests[i].referenceId == ReferenceIdOf(link, attempt))
  }

  /** Last transaction on success: payment request, attempt and case move together or not at all. */
  function RecordLinkTxn(db: Db, c: nat, snap: CaseRow, attempt: nat, link: Link): (Db, FinishReply)
    requires c < |db.cases| && attempt < |db.attempts|
  {
    if db.cases[c].version != snap.version then (db, FinishConflict)
    else if ReferenceTaken(db, link, attempt) then (db, DuplicateReference)
    else
      (db.(cases := db.cases[c := snap.(attemptNumber := snap.attemptNumber + 1, version := snap.version + 1)],
           attempts := db.attempts[attempt := db.attempts[attempt].(
             status := Succeeded, providerReference := Some(link.providerReference))],
           requests := db.requests + [PaymentRequest(
             c, attempt, link.providerReference, ReferenceIdOf(link, attempt), link.amount, link.amountPaid,
             link.status)],
           log := db.log + [PaymentLinkCreated(c, link.providerReference, link.amount)]),
       LinkRecorded)
  }

  /** Last transaction on failure: the attempt fails and the case is escalated. */
  function FailTxn(db: Db, c: nat, snap: CaseRow, attempt: nat, category: FailureCategory): (Db, FinishReply)
    requires c < |db.cases| && attempt < |db.attempts|
  {
    if !CanTransition(snap.status, Escalated) || db.cases[c].version != snap.version then (db, FinishConflict)
    else
      (db.(cases := db.cases[c := snap.(status := Escalated, version := snap.version + 1)],
           attempts := db.attempts[attempt := db.attempts[attempt].(
             status := AttemptFailed, failureCode := Some(category))],
           log := db.log + [StatusChanged(c, snap.status, Escalated)]),
       FailureEscalated)
  }

  method EnterExecuting(store: Store, c: nat, snap: CaseRow, today: int, config: Config) returns (reply: EnterReply)
    requires c < |store.cases| ==> snap.paymentId < |store.payments|
    modifies store`cases, store`log
    ensures (store.View(), reply) == EnterTxn(old(store.View()), c, snap, today, config)
  {
    hide Evaluate;
    if c >= |store.cases| {
      return CaseNotFound;
    }
    var session := new CaseSession.Load(c, snap);
    if !CanTransition(session.status, Executing) {
      return NotApproved;
    }
    session.Record(ExecutionRequested(c, session.status));
    if session.action == None {
      return NoAction;
    }
    var decision := EvaluatePolicy(RecheckInput(session.Row(), store.payments[snap.paymentId].amount, today), config);
    session.Record(PolicyRechecked(c, decision));
    var entered := session.Transition(Executing);
    assert session.trail == EnterTrail(c, snap, decision);
    if !decision.allow || session.action.value !in EXECUTABLE_ACTIONS {
      var escalated := session.Transition(Escalated);
      var committed := session.Commit(store);
      return if committed then Withheld(decision) else EnterConflict;
    }
    var position := |store.log| + |session.trail| - 1;
    var committed := session.Commit(store);
    return if committed then Entered(session.Row(), position) else EnterConflict;
  }

  /** The amount is the payment's own, never the caller's. */
  method StartAttempt(store: Store, c: nat, payment: nat) returns (attempt: nat)
    requires payment < |store.payments|
    modifies store`attempts, store`log
    ensures store.View() == StartTxn(old(store.View()), c, store.payments[payment].amount)
    ensures attempt == |old(store.attempts)|
    ensures store.attempts[attempt] == Attempt(c, InProgress, store.payments[payment].amount, None, None)
  {
    var amount := store.payments[payment].amount;
    attempt := |store.attempts|;
    store.attempts := store.attempts + [Attempt(c, InProgress, amount, None, None)];
    store.RecordEvent(ExecutionStarted(attempt, amount));
  }

  method RecordReconciliation(store: Store, attempt: nat, found: Option<Link>)
    modifies store`log
    ensures store.View() == ReconcileTxn(old(store.View()), attempt, found)
  {
    store.RecordEvent(ProviderAmbiguousResult(attempt));
    store.RecordEvent(ProviderStateReconciliation(attempt, found.Some?));
    assert store.log == old(store.log) +
                        [ProviderAmbiguousResult(attempt), ProviderStateReconciliation(attempt, found.Some?)];
  }

  method RecordPaymentLinkCreated(store: Store, c: nat, snap: CaseRow, attempt: nat, link: Link)
    returns (reply: FinishReply)
    requires c < |store.cases| && attempt < |store.attempts|
    modifies store`cases, store`attempts, store`requests, store`log
    ensures (store.View(), reply) == RecordLinkTxn(old(store.View()), c, snap, attempt, link)
  {
    var session := new CaseSession.Load(c, snap);
    session.attemptNumber := session.attemptNumber + 1;
    session.version := session.version + 1;
    session.Record(PaymentLinkCreated(c, link.providerReference, link.amount));
    if store.cases[c].version != snap.version {
      return FinishConflict;
    }
    var referenceId := if link.referenceId.Some? && link.referenceId.value != Foreign("") then link.referenceId.value
                       else KeyOf(attempt);
    if exists i :: 0 <= i < |store.requests|
                   && (store.requests[i].providerReference == link.providerReference
                       || store.requests[i].referenceId == referenceId) {
      return DuplicateReference;
    }
    assert session.trail == [PaymentLinkCreated(c, link.providerReference, link.amount)];
    var committed := session.Commit(store);
    store.requests := store.requests + [PaymentRequest(
      c, attempt, link.providerReference, referenceId, link.amount, link.amountPaid, link.status)];
    store.attempts := store.attempts[attempt := store.attempts[attempt].(
      status := Succeeded, providerReference := Some(link.providerReference))];
    return LinkRecorded;
  }

  method HandleDefiniteFailure(store: Store, c: nat, snap: CaseRow, attempt: nat, category: FailureCategory)
    returns (reply: FinishReply)
    requires c < |store.cases| && attempt < |store.attempts|
    modifies store`cases, store`attempts, store`log
    ensures (store.View(), reply) == FailTxn(old(store.View()), c, snap, attempt, category)
  {
    var session := new CaseSession.Load(c, snap);
    var escalated := session.Transition(Escalated);
    if !escalated {
      return FinishConflict;
    }
    assert session.trail == [StatusChanged(c, snap.status, Escalated)];
    var committed := session.Commit(store);
    if !committed {
      return FinishConflict;
    }
    store.attempts := store.attempts[attempt := store.attempts[attempt].(
      status := AttemptFailed, failureCode := Some(category))];
    return FailureEscalated;
  }
}
