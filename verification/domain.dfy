/** The vocabulary shared by every service, and the recovery-case status graph. */
module Domain {

  datatype Option<+T> = None | Some(value: T)

  datatype Status =
    | Discovered | Eligible | Ineligible | Diagnosing | Recommended | PolicyReview
    | Approved | Executing | Recovered | Stopped | Escalated | Failed

  datatype PaymentStatus = PaymentCreated | PaymentAuthorized | PaymentCaptured | PaymentFailed | PaymentRefunded

  datatype RecoveryAction = RetryPayment | SendPaymentLink | SendReminder | Escalate | Stop

  datatype AttemptStatus = InProgress | Succeeded | AttemptFailed

  datatype LinkStatus = LinkCreated | PartiallyPaid | Paid | Expired | Cancelled

  datatype FailureCategory =
    | ProviderTimeout | ProviderAuthError | ProviderRateLimit | ProviderValidationError
    | LinkPaymentFailed | LinkPaymentExpired | AmbiguousResult | UnknownProviderError

  datatype DecisionSource = AiSource | FallbackSource

  type Confidence = r: real | 0.0 <= r <= 1.0 witness 0.0

  const EXECUTABLE_ACTIONS: set<RecoveryAction> := {SendPaymentLink}

  // A link in one of these statuses can still be paid by the customer.
  const ACTIVE_STATUSES: set<LinkStatus> := {LinkCreated, PartiallyPaid}

  const RELEVANT_LINK_STATUSES: set<LinkStatus> := {Paid, Expired, Cancelled}

  function Successors(s: Status): set<Status> {
    match s
    case Discovered => {Eligible, Ineligible}
    case Eligible => {Diagnosing, Stopped}
    case Ineligible => {}
    case Diagnosing => {Recommended, Escalated}
    case Recommended => {PolicyReview}
    case PolicyReview => {Approved, Stopped, Escalated}
    case Approved => {Executing}
    case Executing => {Recovered, Failed, Escalated}
    case Failed => {Diagnosing, Stopped, Escalated}
    case Recovered => {}
    case Stopped => {}
    case Escalated => {}
  }

  predicate CanTransition(current: Status, target: Status) {
    target in Successors(current)
  }

  predicate IsTerminal(s: Status) {
    s in {Ineligible, Recovered, Stopped, Escalated}
  }

  /** A sequence of statuses in which every step is a row of the transition table. */
  predicate LegalPath(path: seq<Status>) {
    forall i :: 0 <= i < |path| - 1 ==> CanTransition(path[i], path[i + 1])
  }

  /** The statuses a committed case can show, for cases born Discovered. */
  predicate CommittedStatus(s: Status) {
    s !in {Eligible, Diagnosing, Recommended, PolicyReview}
  }

  /** The status changes one committed transaction can make. */
  predicate CommittedChange(a: Status, b: Status) {
    match a
    case Discovered => b in {Approved, Stopped, Escalated, Ineligible}
    case Failed => b in {Approved, Stopped, Escalated}
    case Approved => b in {Executing, Escalated}
    case Executing => b in {Recovered, Failed, Escalated}
    case _ => false
  }

  /** The one way to money: every legal path that recovers a case ends by review, approval and execution. */
  lemma RecoveryEndsTheLongWay(path: seq<Status>)
    requires LegalPath(path) && |path| > 0 && path[0] == Discovered && path[|path| - 1] == Recovered
    ensures |path| >= 8
    ensures path[|path| - 6..] == [Diagnosing, Recommended, PolicyReview, Approved, Executing, Recovered]
    ensures path[|path| - 7] in {Eligible, Failed}
  {
    var n := |path|;
    assert CanTransition(path[n - 2], path[n - 1]);
    assert CanTransition(path[n - 3], path[n - 2]);
    assert CanTransition(path[n - 4], path[n - 3]);
    assert CanTransition(path[n - 5], path[n - 4]);
    assert CanTransition(path[n - 6], path[n - 5]);
    assert CanTransition(path[n - 7], path[n - 6]);
  }

  /** The table read backwards: where each status can have come from. */
  lemma WaysInto(s: Status, t: Status)
    ensures CanTransition(s, t) <==>
            match t
            case Discovered => false
            case Eligible => s == Discovered
            case Ineligible => s == Discovered
            case Diagnosing => s == Eligible || s == Failed
            case Recommended => s == Diagnosing
            case PolicyReview => s == Recommended
            case Approved => s == PolicyReview
            case Executing => s == Approved
            case Recovered => s == Executing
            case Failed => s == Executing
            case Stopped => s in {Eligible, PolicyReview, Failed}
            case Escalated => s in {Diagnosing, PolicyReview, Executing, Failed}
  {
  }

  /** The declared terminal statuses are exactly the dead ends of the table. */
  lemma TerminalIffDeadEnd(s: Status)
    ensures IsTerminal(s) <==> forall t :: !CanTransition(s, t)
  {
    if !IsTerminal(s) {
      var t :| t in Successors(s);
      assert CanTransition(s, t);
    }
  }

  /** The intermediate statuses a transaction writes on its way through one committed change. */
  function Through(a: Status, b: Status): seq<Status> {
    match (a, b)
    case (Discovered, Ineligible) => []
    case (Discovered, _) => [Eligible, Diagnosing, Recommended, PolicyReview]
    case (Failed, _) => [Diagnosing, Recommended, PolicyReview]
    case (Approved, Escalated) => [Executing]
    case _ => []
  }

  /** Every committed change is a legal path of the twelve-status table. */
  lemma CommittedChangeIsLegalPath(a: Status, b: Status)
    requires CommittedChange(a, b)
    ensures LegalPath([a] + Through(a, b) + [b])
  {
  }
}
