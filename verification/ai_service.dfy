/** The AI recommendation service: a bounded retry loop with a safe fallback. */
module AiService {
  import opened Domain

  datatype AiError = Timeout | Auth | RateLimit | Unavailable | InvalidResponse | OtherError

  datatype Recommendation = Recommendation(action: RecoveryAction, confidence: Confidence)

  datatype AiResponse = Answer(recommendation: Recommendation) | Error(error: AiError)

  datatype AiOutcome =
    | FromAi(answer: Recommendation, retryCount: nat)
    | Fallback(failure: AiError, retryCount: nat)
  {
    function Source(): DecisionSource {
      if FromAi? then AiSource else FallbackSource
    }

    /** A fallback always proposes escalation with no confidence at all. */
    function Proposal(): Recommendation {
      if FromAi? then answer else Recommendation(Escalate, 0.0)
    }
  }

  predicate Retryable(response: AiResponse) {
    response.Error? && response.error in {Timeout, RateLimit, Unavailable}
  }

  /** The first call, from `k` on, whose response ends the loop: not retryable, or the budget is spent. */
  function DecidedAt(provider: nat -> AiResponse, k: nat, budget: nat): (d: nat)
    requires k <= budget
    ensures k <= d <= budget
    ensures forall j :: k <= j < d ==> Retryable(provider(j))
    ensures d < budget ==> !Retryable(provider(d))
    decreases budget - k
  {
    if k < budget && Retryable(provider(k)) then DecidedAt(provider, k + 1, budget) else k
  }

  function OutcomeOf(response: AiResponse, retryCount: nat): AiOutcome {
    match response
    case Answer(recommendation) => FromAi(recommendation, retryCount)
    case Error(error) => Fallback(error, retryCount)
  }

  function Recommend(provider: nat -> AiResponse, maxRetries: int): AiOutcome {
    var budget: nat := if maxRetries < 0 then 0 else maxRetries;
    var decided := DecidedAt(provider, 0, budget);
    OutcomeOf(provider(decided), decided)
  }

  /** The errors that may pass: an outage, a limit, a delay. A bad key or an unusable answer will not get better. */
  const PASSING: set<AiResponse> := {Error(Timeout), Error(RateLimit), Error(Unavailable)}

  /**
   * The retry loop. The response that decides is the first one that is not a retryable error within
   * the budget of maxRetries + 1 calls, or the last one the budget allows.
   */
  method GetRecommendation(provider: nat -> AiResponse, maxRetries: int) returns (outcome: AiOutcome, calls: nat)
    ensures 1 <= calls && calls <= 1 + (if maxRetries < 0 then 0 else maxRetries)
    ensures forall j :: 0 <= j < calls - 1 ==> Retryable(provider(j))
    ensures Retryable(provider(calls - 1)) ==> calls == 1 + if maxRetries < 0 then 0 else maxRetries
    ensures forall j :: 0 <= j < calls - 1 ==> provider(j) in PASSING
    ensures provider(calls - 1) in PASSING ==> calls == 1 + if maxRetries < 0 then 0 else maxRetries
    ensures match provider(calls - 1)
            case Answer(recommendation) => outcome == FromAi(recommendation, calls - 1)
            case Error(error) => outcome == Fallback(error, calls - 1)
    ensures outcome == Recommend(provider, maxRetries)
  {
    var budget: nat := if maxRetries < 0 then 0 else maxRetries;
    var attempts: nat := 0;
    var lastError: Option<AiError> := None;
    while attempts <= budget
      invariant attempts <= budget
      invariant forall j :: 0 <= j < attempts ==> Retryable(provider(j))
      invariant DecidedAt(provider, attempts, budget) == DecidedAt(provider, 0, budget)
    {
      attempts := attempts + 1;
      match provider(attempts - 1) {
        case Answer(recommendation) =>
          return FromAi(recommendation, attempts - 1), attempts;
        case Error(error) =>
          lastError := Some(error);
          if error in {Timeout, RateLimit, Unavailable} && attempts <= budget {
            continue;
          }
          break;
      }
    }
    return Fallback(lastError.value, attempts - 1), attempts;
  }

  /**
   * The service never raises: it reports the AI's own answer, as the AI's, exactly when some call within the
   * budget answered with only retryable errors before it; otherwise the fallback proposes ESCALATE with no confidence.
   */
  lemma AiSourcedIff(provider: nat -> AiResponse, maxRetries: nat)
    ensures Recommend(provider, maxRetries).FromAi? <==>
            exists k: nat :: k <= maxRetries && provider(k).Answer? && forall j: nat :: j < k ==> provider(j) in PASSING
    ensures match Recommend(provider, maxRetries)
            case FromAi(answer, k) => provider(k) == Answer(answer)
                                      && Recommend(provider, maxRetries).Source() == AiSource
                                      && Recommend(provider, maxRetries).Proposal() == answer
            case Fallback(failure, k) => provider(k) == Error(failure)
                                         && Recommend(provider, maxRetries).Source() == FallbackSource
                                         && Recommend(provider, maxRetries).Proposal() == Recommendation(Escalate, 0.0)
  {
  }

  /** A permanent outage always yields the fallback. */
  lemma OutageFallsBack(provider: nat -> AiResponse, maxRetries: int)
    requires forall k :: provider(k).Error?
    ensures Recommend(provider, maxRetries).Fallback?
  {
  }
}
