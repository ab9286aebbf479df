/** The deterministic policy engine: which proposed actions are allowed, and why not. */
module Policy {
  import opened Domain

  datatype ReasonCode =
    | TerminalStateProtected
    | ActionNotEligibleForStatus
    | MaxRetriesReached
    | RecoveryWindowExpired
    | MaxContactsReached
    | AmountOutOfBounds
    | ConfidenceBelowThreshold

  datatype Config = Config(
    policyVersion: string,
    maxRetryCount: int,
    maxRecoveryWindowDays: int,
    maxCustomerContacts: int,
    minConfidence: real,
    highValueAmount: int,
    highValueMinConfidence: real,
    maxRecoveryAmount: int)

  datatype PolicyInput = PolicyInput(
    status: Status,
    action: RecoveryAction,
    attemptNumber: int,
    daysSinceDiscovery: int,
    contactCount: int,
    confidence: real,
    amount: int)

  datatype Decision = Decision(allow: bool, codes: seq<ReasonCode>)

  const CONTACT_ACTIONS: set<RecoveryAction> := {SendPaymentLink, SendReminder}
  const ACTIVE_RECOVERY_ACTIONS: set<RecoveryAction> := {RetryPayment, SendPaymentLink, SendReminder}

  // Reasons that mean "this will never work" rather than "unclear".
  const HARD_STOP_CODES: set<ReasonCode> :=
    {MaxRetriesReached, RecoveryWindowExpired, MaxContactsReached, AmountOutOfBounds, TerminalStateProtected}

  /** The order in which the engine tries its rules. */
  function RuleRank(code: ReasonCode): nat {
    match code
    case TerminalStateProtected => 0
    case ActionNotEligibleForStatus => 1
    case MaxRetriesReached => 2
    case RecoveryWindowExpired => 3
    case MaxContactsReached => 4
    case AmountOutOfBounds => 5
    case ConfidenceBelowThreshold => 6
  }

  predicate InRuleOrder(codes: seq<ReasonCode>) {
    forall i, j :: 0 <= i < j < |codes| ==> RuleRank(codes[i]) < RuleRank(codes[j])
  }

  function ActionEligibleStatuses(a: RecoveryAction): set<Status> {
    match a
    case RetryPayment => {Recommended, PolicyReview, Approved}
    case SendPaymentLink => {Recommended, PolicyReview, Approved}
    case SendReminder => {Recommended, PolicyReview, Approved}
    case Escalate => {Diagnosing, Recommended, PolicyReview, Executing, Failed}
    case Stop => {Eligible, Recommended, PolicyReview, Failed}
  }

  function Threshold(amount: int, config: Config): real {
    if amount >= config.highValueAmount then config.highValueMinConfidence else config.minConfidence
  }

  /** What it means for an input to break one rule. */
  predicate Violates(code: ReasonCode, input: PolicyInput, config: Config) {
    match code
    case TerminalStateProtected => IsTerminal(input.status)
    case ActionNotEligibleForStatus => input.status !in ActionEligibleStatuses(input.action)
    case MaxRetriesReached => input.action == RetryPayment && input.attemptNumber >= config.maxRetryCount
    case RecoveryWindowExpired =>
      input.action in ACTIVE_RECOVERY_ACTIONS && input.daysSinceDiscovery > config.maxRecoveryWindowDays
    case MaxContactsReached => input.action in CONTACT_ACTIONS && input.contactCount >= config.maxCustomerContacts
    case AmountOutOfBounds => input.amount <= 0 || input.amount > config.maxRecoveryAmount
    case ConfidenceBelowThreshold =>
      input.action in ACTIVE_RECOVERY_ACTIONS && input.confidence < Threshold(input.amount, config)
  }

  function Extend(codes: seq<ReasonCode>, code: ReasonCode, input: PolicyInput, config: Config): seq<ReasonCode> {
    if Violates(code, input, config) then codes + [code] else codes
  }

  function Evaluate(input: PolicyInput, config: Config): Decision {
    var a := Extend([], TerminalStateProtected, input, config);
    var b := Extend(a, ActionNotEligibleForStatus, input, config);
    var c := Extend(b, MaxRetriesReached, input, config);
    var d := Extend(c, RecoveryWindowExpired, input, config);
    var e := Extend(d, MaxContactsReached, input, config);
    var f := Extend(e, AmountOutOfBounds, input, config);
    var codes := Extend(f, ConfidenceBelowThreshold, input, config);
    Decision(codes == [], codes)
  }

  /** The rules ranked below k that the input breaks, and nothing else, each once and in rule order. */
  ghost predicate Collected(codes: seq<ReasonCode>, k: nat, input: PolicyInput, config: Config) {
    && (forall c :: c in codes <==> RuleRank(c) < k && Violates(c, input, config))
    && InRuleOrder(codes)
  }

  lemma CollectNext(codes: seq<ReasonCode>, code: ReasonCode, input: PolicyInput, config: Config)
    requires Collected(codes, RuleRank(code), input, config)
    ensures Collected(Extend(codes, code, input, config), RuleRank(code) + 1, input, config)
  {
    var next := Extend(codes, code, input, config);
    forall c ensures c in next <==> RuleRank(c) < RuleRank(code) + 1 && Violates(c, input, config) {
      assert RuleRank(c) == RuleRank(code) ==> c == code;
    }
    forall i, j | 0 <= i < j < |next| ensures RuleRank(next[i]) < RuleRank(next[j]) {
      if j == |codes| {
        assert codes[i] in codes;
      }
    }
  }

  /** The decision is exact: its codes are the broken rules in rule order, and only a clean input is allowed. */
  lemma EvaluateExact(input: PolicyInput, config: Config)
    ensures forall c :: c in Evaluate(input, config).codes <==> Violates(c, input, config)
    ensures InRuleOrder(Evaluate(input, config).codes)
    ensures Evaluate(input, config).allow <==> forall c :: !Violates(c, input, config)
  {
    var a := Extend([], TerminalStateProtected, input, config);
    var b := Extend(a, ActionNotEligibleForStatus, input, config);
    var c := Extend(b, MaxRetriesReached, input, config);
    var d := Extend(c, RecoveryWindowExpired, input, config);
    var e := Extend(d, MaxContactsReached, input, config);
    var f := Extend(e, AmountOutOfBounds, input, config);
    CollectNext([], TerminalStateProtected, input, config);
    CollectNext(a, ActionNotEligibleForStatus, input, config);
    CollectNext(b, MaxRetriesReached, input, config);
    CollectNext(c, RecoveryWindowExpired, input, config);
    CollectNext(d, MaxContactsReached, input, config);
    CollectNext(e, AmountOutOfBounds, input, config);
    CollectNext(f, ConfidenceBelowThreshold, input, config);
    var codes := Evaluate(input, config).codes;
    if codes != [] {
      assert codes[0] in codes;
    }
  }

  /** Every rule in the words of the policy: which actions, statuses and bounds each code is about. */
  lemma CodesMean(input: PolicyInput, config: Config)
    ensures
      var codes := Evaluate(input, config).codes;
      var (status, action) := (input.status, input.action);
      && (TerminalStateProtected in codes <==> status in {Ineligible, Recovered, Stopped, Escalated})
      && (ActionNotEligibleForStatus !in codes <==>
            || status in {Recommended, PolicyReview}
            || (status == Approved && action in {RetryPayment, SendPaymentLink, SendReminder})
            || (status in {Diagnosing, Executing, Failed} && action == Escalate)
            || (status in {Eligible, Failed} && action == Stop))
      && (MaxRetriesReached in codes <==> action == RetryPayment && input.attemptNumber >= config.maxRetryCount)
      && (RecoveryWindowExpired in codes <==>
            action in {RetryPayment, SendPaymentLink, SendReminder}
            && input.daysSinceDiscovery > config.maxRecoveryWindowDays)
      && (MaxContactsReached in codes <==>
            action in {SendPaymentLink, SendReminder} && input.contactCount >= config.maxCustomerContacts)
      && (AmountOutOfBounds in codes <==> !(0 < input.amount <= config.maxRecoveryAmount))
      && (ConfidenceBelowThreshold in codes <==>
            action in {RetryPayment, SendPaymentLink, SendReminder}
            && if input.amount >= config.highValueAmount then input.confidence < config.highValueMinConfidence
               else input.confidence < config.minConfidence)
      && (Evaluate(input, config).allow <==> codes == [])
  {
    EvaluateExact(input, config);
    hide Extend;
  }

  /** The reasons against a proposal that do not depend on where its case stands, and the facts each one stands for. */
  ghost predicate Reasons(codes: seq<ReasonCode>, action: RecoveryAction, attemptNumber: int, days: int,
                          contactCount: int, confidence: real, amount: int, config: Config)
  {
    var active := action in {RetryPayment, SendPaymentLink, SendReminder};
    && TerminalStateProtected !in codes
    && (MaxRetriesReached in codes <==> action == RetryPayment && attemptNumber >= config.maxRetryCount)
    && (RecoveryWindowExpired in codes <==> active && days > config.maxRecoveryWindowDays)
    && (MaxContactsReached in codes <==>
          action in {SendPaymentLink, SendReminder} && contactCount >= config.maxCustomerContacts)
    && (AmountOutOfBounds in codes <==> amount <= 0 || amount > config.maxRecoveryAmount)
    && (ConfidenceBelowThreshold in codes <==>
          active && if amount >= config.highValueAmount then confidence < config.highValueMinConfidence
                    else confidence < config.minConfidence)
  }

  lemma AllowIsClean(input: PolicyInput, config: Config)
    ensures Evaluate(input, config).allow ==> Evaluate(input, config) == Decision(true, [])
  {
  }

  method StatusReasons(input: PolicyInput, config: Config) returns (codes: seq<ReasonCode>)
    ensures codes ==
            var a := Extend([], TerminalStateProtected, input, config);
            var b := Extend(a, ActionNotEligibleForStatus, input, config);
            Extend(b, MaxRetriesReached, input, config)
  {
    codes := [];
    if input.status in {Ineligible, Recovered, Stopped, Escalated} {
      codes := codes + [TerminalStateProtected];
    }
    var eligibleStatuses := ActionEligibleStatuses(input.action);
    if input.status !in eligibleStatuses {
      codes := codes + [ActionNotEligibleForStatus];
    }
    if input.action == RetryPayment && input.attemptNumber >= config.maxRetryCount {
      codes := codes + [MaxRetriesReached];
    }
  }

  /** The engine as the service runs it: a chain of conditionals appending to one list. */
  method EvaluatePolicy(input: PolicyInput, config: Config) returns (decision: Decision)
    ensures decision == Evaluate(input, config)
  {
    var codes := StatusReasons(input, config);
    if input.action in ACTIVE_RECOVERY_ACTIONS && input.daysSinceDiscovery > config.maxRecoveryWindowDays {
      codes := codes + [RecoveryWindowExpired];
    }
    if input.action in CONTACT_ACTIONS && input.contactCount >= config.maxCustomerContacts {
      codes := codes + [MaxContactsReached];
    }
    if input.amount <= 0 || input.amount > config.maxRecoveryAmount {
      codes := codes + [AmountOutOfBounds];
    }
    if input.action in ACTIVE_RECOVERY_ACTIONS {
      var threshold :=
        if input.amount >= config.highValueAmount then config.highValueMinConfidence else config.minConfidence;
      if input.confidence < threshold {
        codes := codes + [ConfidenceBelowThreshold];
      }
    }
    decision := Decision(|codes| == 0, codes);
  }

  /** STOP and ESCALATE may be proposed where the status table can carry them out, and before the review besides. */
  lemma ProposalsFollowTheTable(s: Status)
    ensures s in ActionEligibleStatuses(Stop) <==> CanTransition(s, Stopped) || s == Recommended
    ensures s in ActionEligibleStatuses(Escalate) <==> CanTransition(s, Escalated) || s == Recommended
    ensures s == Approved ==> ActionEligibleStatuses(SendPaymentLink) >= {s} && CanTransition(s, Executing)
  {
  }

  /** How diagnosis turns a policy decision into the case's next status. */
  function ResolveNextStatus(action: RecoveryAction, decision: Decision): Status {
    if decision.allow then
      if action == Stop then Stopped
      else if action == Escalate then Escalated
      else if action !in EXECUTABLE_ACTIONS then Escalated
      else Approved
    else if exists c :: c in decision.codes && c in HARD_STOP_CODES then Stopped
    else Escalated
  }

  /** The facts a standing approval rests on, apart from the calendar. */
  predicate StandingFacts(action: RecoveryAction, contactCount: int, confidence: real, amount: int, config: Config) {
    && action == SendPaymentLink
    && contactCount < config.maxCustomerContacts
    && 0 < amount <= config.maxRecoveryAmount
    && confidence >= Threshold(amount, config)
  }

  /** Where the policy review of a diagnosis ends, for every input. */
  lemma ReviewVerdict(input: PolicyInput, config: Config)
    requires input.status == PolicyReview
    ensures ResolveNextStatus(input.action, Evaluate(input, config)) in {Approved, Stopped, Escalated}
    ensures ResolveNextStatus(input.action, Evaluate(input, config)) == Approved <==>
            && StandingFacts(input.action, input.contactCount, input.confidence, input.amount, config)
            && input.daysSinceDiscovery <= config.maxRecoveryWindowDays
    ensures input.action == Stop ==> ResolveNextStatus(input.action, Evaluate(input, config)) == Stopped
    ensures input.action == Escalate && 0 < input.amount <= config.maxRecoveryAmount
            ==> ResolveNextStatus(input.action, Evaluate(input, config)) == Escalated
  {
  }

  /** What ends a case for good in review: nothing that could be done about it would ever pass. */
  predicate NeverPasses(action: RecoveryAction, attemptNumber: int, days: int, contactCount: int, amount: int,
                        config: Config)
  {
    || amount <= 0 || amount > config.maxRecoveryAmount
    || action == Stop
    || (action in {RetryPayment, SendPaymentLink, SendReminder} && days > config.maxRecoveryWindowDays)
    || (action in {SendPaymentLink, SendReminder} && contactCount >= config.maxCustomerContacts)
    || (action == RetryPayment && attemptNumber >= config.maxRetryCount)
  }

  /** A payment link within every bound, for a proposal that is confident enough for its amount. */
  predicate Passes(action: RecoveryAction, days: int, contactCount: int, confidence: real, amount: int,
                   config: Config)
  {
    && action == SendPaymentLink && days <= config.maxRecoveryWindowDays && contactCount < config.maxCustomerContacts
    && 0 < amount <= config.maxRecoveryAmount
    && (amount >= config.highValueAmount ==> confidence >= config.highValueMinConfidence)
    && (amount < config.highValueAmount ==> confidence >= config.minConfidence)
  }

  /**
   * All three ends of a review: a link that passes is approved, what can never pass is stopped, and the rest goes to
   * a human: low confidence alone, a proposal to escalate, and the allowed actions nothing can carry out.
   */
  lemma ReviewDecides(input: PolicyInput, config: Config)
    requires input.status == PolicyReview
    ensures
      var next := ResolveNextStatus(input.action, Evaluate(input, config));
      && (next == Approved <==>
            Passes(input.action, input.daysSinceDiscovery, input.contactCount, input.confidence, input.amount, config))
      && (next == Stopped <==>
            NeverPasses(input.action, input.attemptNumber, input.daysSinceDiscovery, input.contactCount, input.amount,
                        config))
      && next in {Approved, Stopped, Escalated}
  {
    CodesMean(input, config);
    hide Evaluate;
    var codes := Evaluate(input, config).codes;
    var hard := exists c :: c in codes && c in HARD_STOP_CODES;
    assert codes != [] ==> codes[0] in codes;
    assert hard <==> MaxRetriesReached in codes || RecoveryWindowExpired in codes || MaxContactsReached in codes
                     || AmountOutOfBounds in codes;
    assert codes == [] || hard || ConfidenceBelowThreshold in codes by {
      if codes != [] {
        match codes[0]
        case TerminalStateProtected =>
        case ActionNotEligibleForStatus =>
        case ConfidenceBelowThreshold =>
        case _ => assert hard;
      }
    }
  }

  /**
   * A standing approval does not outlive its inputs: re-checked with the same facts, it is blocked
   * exactly when the window has since expired, and then for that one reason.
   */
  lemma StandingApprovalRecheck(input: PolicyInput, config: Config)
    requires input.status == Approved
    requires StandingFacts(input.action, input.contactCount, input.confidence, input.amount, config)
    ensures Evaluate(input, config).allow <==> input.daysSinceDiscovery <= config.maxRecoveryWindowDays
    ensures !Evaluate(input, config).allow ==> Evaluate(input, config).codes == [RecoveryWindowExpired]
  {
  }

  /** Once the window has closed, nothing an approved case proposes is allowed any more. */
  lemma ExpiredApprovalIsBlocked(input: PolicyInput, config: Config)
    requires input.status == Approved
    requires input.daysSinceDiscovery > config.maxRecoveryWindowDays
    ensures !Evaluate(input, config).allow
  {
  }
}
