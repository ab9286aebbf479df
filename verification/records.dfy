/** The shared tables, the audit events, and the two mutable objects every service works through. */
module Records {
  import opened Domain
  import opened Policy
  import opened AiService

  datatype Customer = Customer(externalReference: Option<string>, totalPayments: int, totalFailed: int)

  datatype Payment = Payment(
    customerId: nat, amount: int, status: PaymentStatus, providerPaymentId: Option<string>)

  datatype CaseRow = CaseRow(
    paymentId: nat,
    status: Status,
    version: nat,
    revenueAtRisk: int,
    recoveredAmount: int,
    eligible: bool,
    confidence: Option<Confidence>,
    action: Option<RecoveryAction>,
    attemptNumber: int,
    contactCount: int,
    policyVersion: Option<string>,
    createdDay: int)

  datatype Attempt = Attempt(
    caseId: nat, status: AttemptStatus, amount: int,
    providerReference: Option<string>, failureCode: Option<FailureCategory>)

  /** Our own correlator at the provider: the fresh key of an attempt, or any other text a provider may report. */
  datatype ReferenceId = KeyOf(attempt: nat) | Foreign(text: string)

  datatype PaymentRequest = PaymentRequest(
    caseId: nat, attemptId: nat, providerReference: string, referenceId: ReferenceId,
    amount: int, amountPaid: int, status: LinkStatus)

  /** What the payment provider reports about one payment link. An empty reference id counts as none. */
  datatype Link = Link(
    providerReference: string, referenceId: Option<ReferenceId>,
    amount: int, amountPaid: int, status: LinkStatus)

  datatype Event =
    | CaseCreated(c: nat, payment: nat, revenueAtRisk: int)
    | DiagnosisRequested(c: nat, status: Status)
    | AiDiagnosisCreated(c: nat, source: DecisionSource, retryCount: nat)
    | RecommendationCreated(c: nat, recommendation: Recommendation)
    | PolicyEvaluated(c: nat, decision: Decision, action: RecoveryAction)
    | StatusChanged(c: nat, from: Status, to: Status)
    | ExecutionRequested(c: nat, status: Status)
    | PolicyRechecked(c: nat, decision: Decision)
    | PaymentLinkCreated(c: nat, providerReference: string, amount: int)
    | PaymentConfirmed(c: nat, providerReference: string, amountPaid: int)
    | PaymentNotRecovered(c: nat, providerReference: string, linkStatus: LinkStatus)
    | ExecutionStarted(attempt: nat, amount: int)
    | ProviderAmbiguousResult(attempt: nat)
    | ProviderStateReconciliation(attempt: nat, found: bool)
    | WebhookUnmatchedLink(providerReference: string)
    | PaymentIngested(payment: nat, paymentStatus: PaymentStatus, amount: int)
    | PaymentIngestDeduplicated(payment: nat)
    | RecoveryCycleCompleted(diagnosed: nat, executed: nat, failed: nat)

  /** The committed database. Row ids are positions, so creation order is position order. */
  datatype Db = Db(
    customers: seq<Customer>,
    payments: seq<Payment>,
    cases: seq<CaseRow>,
    attempts: seq<Attempt>,
    requests: seq<PaymentRequest>,
    ledger: set<string>,
    log: seq<Event>)

  const EMPTY_DB := Db([], [], [], [], [], {}, [])

  /** A freshly discovered case of one payment. */
  function NewCase(payment: nat, amount: int, today: int): CaseRow {
    CaseRow(payment, Discovered, 1, amount, 0, false, None, None, 0, 0, None, today)
  }

  /** The shared store behind every service: each commit reassigns the tables it touches. */
  class Store {
    var customers: seq<Customer>
    var payments: seq<Payment>
    var cases: seq<CaseRow>
    var attempts: seq<Attempt>
    var requests: seq<PaymentRequest>
    var ledger: set<string>
    var log: seq<Event>

    constructor ()
      ensures View() == EMPTY_DB
    {
      customers, payments, cases, attempts, requests, ledger, log := [], [], [], [], [], {}, [];
    }

    function View(): Db
      reads this
    {
      Db(customers, payments, cases, attempts, requests, ledger, log)
    }

    /** The audit service: the only writer of the log, and it only appends. */
    method RecordEvent(e: Event)
      modifies this`log
      ensures log == old(log) + [e]
    {
      log := log + [e];
    }
  }

  /**
   * One database session's copy of a case: the row as loaded, the fields the service assigns, and the
   * audit rows waiting for the commit. Every flush of a changed row raises the version by one.
   */
  class CaseSession {
    const id: nat
    const loaded: CaseRow
    var status: Status
    var version: nat
    var recoveredAmount: int
    var eligible: bool
    var confidence: Option<Confidence>
    var action: Option<RecoveryAction>
    var attemptNumber: int
    var policyVersion: Option<string>
    var trail: seq<Event>

    constructor Load(id: nat, row: CaseRow)
      ensures this.id == id && loaded == row
      ensures Row() == row && trail == []
    {
      this.id := id;
      loaded := row;
      status := row.status;
      version := row.version;
      recoveredAmount := row.recoveredAmount;
      eligible := row.eligible;
      confidence := row.confidence;
      action := row.action;
      attemptNumber := row.attemptNumber;
      policyVersion := row.policyVersion;
      trail := [];
    }

    function Row(): CaseRow
      reads this
    {
      loaded.(status := status, version := version, recoveredAmount := recoveredAmount, eligible := eligible,
              confidence := confidence, action := action, attemptNumber := attemptNumber,
              policyVersion := policyVersion)
    }

    method Record(e: Event)
      modifies this`trail
      ensures trail == old(trail) + [e]
    {
      trail := trail + [e];
    }

    /** Validates the step, assigns the status, flushes and records the change. */
    method Transition(target: Status) returns (ok: bool)
      modifies this`status, this`version, this`trail
      ensures ok == CanTransition(old(status), target)
      ensures ok ==> Row() == old(Row()).(status := target, version := old(version) + 1)
      ensures ok ==> trail == old(trail) + [StatusChanged(id, old(status), target)]
      ensures !ok ==> Row() == old(Row()) && trail == old(trail)
    {
      var from := status;
      if !CanTransition(from, target) {
        return false;
      }
      status := target;
      version := version + 1;
      Record(StatusChanged(id, from, target));
      return true;
    }

    /**
     * The guarded commit: the UPDATE carries the loaded version, so a row changed meanwhile rolls the
     * whole unit of work back.
     */
    method Commit(store: Store) returns (committed: bool)
      requires id < |store.cases|
      modifies store`cases, store`log
      ensures committed == (old(store.cases)[id].version == loaded.version)
      ensures store.View() == if committed
                              then old(store.View()).(cases := old(store.cases)[id := Row()],
                                                      log := old(store.log) + trail)
                              else old(store.View())
    {
      if store.cases[id].version != loaded.version {
        return false;
      }
      store.cases := store.cases[id := Row()];
      store.log := store.log + trail;
      return true;
    }
  }
}
