/** What a pass reports, held against what it has done: every flag of every outcome, and every count. */
module Reports {
  import opened Domain
  import opened Records
  import opened Execution
  import opened Deeds
  import opened Outcomes

  // ---- one case ----

  /** The outcome of one execution. */
  predicate ReportsResult(c: nat, result: ExecutionResult, diagnosed: bool, outcome: CycleOutcome, crashed: bool) {
    match result
    case Launched(status) => !crashed && outcome == CycleOutcome(c, status, diagnosed, true, false, false)
    case HeldBack(status) => !crashed && outcome == CycleOutcome(c, status, diagnosed, false, true, false)
    case Refused => !crashed && outcome == CycleOutcome(c, outcome.finalStatus, diagnosed, false, false, true)
    case Crashed => crashed && outcome == CycleOutcome(c, outcome.finalStatus, diagnosed, false, false, true)
  }

  /** The outcome says how the execution in this story ended. */
  ghost predicate ReportsExecution(c: nat, story: seq<Deed>, diagnosed: bool, outcome: CycleOutcome, crashed: bool) {
    exists result :: ExecutionStory(c, story, result) && ReportsResult(c, result, diagnosed, outcome, crashed)
  }

  /** One candidate: no verdict, a verdict that is not acted on, or an approval and the execution behind it. */
  ghost predicate ProcessStory(c: nat, story: seq<Deed>, mayExecute: bool, outcome: CycleOutcome, crashed: bool) {
    if story == [] then !crashed && outcome == CycleOutcome(c, outcome.finalStatus, false, false, false, true)
    else
      && story[0].Decided? && story[0].c == c
      && var verdict := story[0].verdict;
         if verdict != Approved || !mayExecute then
           && verdict in {Approved, Stopped, Escalated, Ineligible}
           && !crashed && |story| == 1 && outcome == CycleOutcome(c, verdict, true, false, verdict == Approved, false)
         else
           ReportsExecution(c, story[1..], true, outcome, crashed)
  }

  /**
   * The outcome by the deeds about its case alone. Executed is exactly a link put on record; withheld is an approval
   * left standing or a case escalated by the execution; an error is anything left in the middle.
   */
  predicate Told(outcome: CycleOutcome, own: seq<Deed>) {
    && (outcome.diagnosed <==> own != [] && own[0].Decided?)
    && if own == [] then IsError(outcome)
       else
         match own[|own| - 1]
         case Decided(_, verdict) =>
           || (verdict != Approved && outcome.finalStatus == verdict && IsPlain(outcome))
           || (verdict == Approved && outcome.finalStatus == Approved && IsWithheld(outcome))
           || (verdict == Approved && IsError(outcome))
         case Wrote(_, to, links) =>
           if links != [] then outcome.finalStatus == Executing == to && IsExecuted(outcome)
           else outcome.finalStatus == Escalated == to && IsWithheld(outcome)
         case _ => IsError(outcome)
  }

  predicate IsPlain(outcome: CycleOutcome) {
    !outcome.executed && !outcome.withheld && !outcome.error
  }

  predicate IsExecuted(outcome: CycleOutcome) {
    outcome.executed && !outcome.withheld && !outcome.error
  }

  predicate IsWithheld(outcome: CycleOutcome) {
    !outcome.executed && outcome.withheld && !outcome.error
  }

  predicate IsError(outcome: CycleOutcome) {
    !outcome.executed && !outcome.withheld && outcome.error
  }

  /** The links of these deeds are the flag of this outcome, and so are its verdicts unless it is cut short. */
  predicate Counted(c: nat, story: seq<Deed>, outcome: CycleOutcome, crashed: bool) {
    && OnlyOn(story, [c])
    && LinkedCases(story) == (if outcome.executed then [c] else [])
    && DecidedCases(story) == (if outcome.diagnosed then [c] else [])
    && (if crashed then IsError(outcome) else Told(outcome, story))
    && (outcome.executed <==> !outcome.error && outcome.finalStatus == Executing)
  }

  lemma LinkedOne(d: Deed)
    ensures LinkedCases([d]) == (if d.Wrote? && d.links != [] then [d.c] else [])
    ensures DecidedCases([d]) == (if d.Decided? then [d.c] else [])
  {
    assert [d][..0] == [];
  }

  /** The deeds of an execution, or of its end: no verdict, a link exactly if launched, and the last deed says how. */
  predicate Executed(c: nat, story: seq<Deed>, result: ExecutionResult) {
    && OnlyOn(story, [c]) && DecidedCases(story) == []
    && LinkedCases(story) == (if result.Launched? then [c] else [])
    && match result
       case Launched(status) => status == Executing && story != [] && story[|story| - 1].Wrote?
                                && story[|story| - 1].links != [] && story[|story| - 1].to == Executing
       case HeldBack(status) => status == Escalated && story != [] && story[|story| - 1] == Wrote(c, Escalated, [])
       case _ => story != [] ==> story[|story| - 1].Called? || story[|story| - 1].LookedUp?
  }

  lemma FrontToo(c: nat, d: Deed, rest: seq<Deed>)
    requires d.c == c && OnlyOn(rest, [c])
    ensures OnlyOn([d] + rest, [c])
  {
  }

  /** A deed in front that neither decides nor links; it is the last one only if nothing follows. */
  lemma PutInFront(c: nat, d: Deed, rest: seq<Deed>, result: ExecutionResult)
    requires d.c == c && !d.Decided? && (d.Wrote? ==> d.links == [])
    requires Executed(c, rest, result)
    requires rest == [] ==> d.Called? || d.LookedUp?
    ensures Executed(c, [d] + rest, result)
  {
    LinkedOne(d);
    LinkedConcat([d], rest);
    DecidedConcat([d], rest);
    FrontToo(c, d, rest);
    hide LinkedCases, DecidedCases, OnlyOn;
  }

  lemma EndCounts(c: nat, link: Link, deeds: seq<Deed>, result: ExecutionResult)
    requires Adoption(c, link, deeds, result) || Failure(c, deeds, result)
    ensures Executed(c, deeds, result)
  {
    if deeds != [] {
      LinkedOne(deeds[0]);
      assert deeds == [deeds[0]];
    }
  }

  lemma AnswerCounts(c: nat, answer: ProviderAnswer, deeds: seq<Deed>, result: ExecutionResult)
    requires AnswerStory(c, answer, deeds, result)
    ensures Executed(c, deeds, result)
  {
    hide Executed, Adoption, Failure;
    if answer.Raised? && answer.error == AmbiguousError {
      EndCounts(c, if deeds[0].found.Some? then deeds[0].found.value else NOTHING, deeds[1..], result);
      PutInFront(c, deeds[0], deeds[1..], result);
      assert deeds == [deeds[0]] + deeds[1..];
    } else {
      EndCounts(c, if answer.Made? then answer.link else NOTHING, deeds, result);
    }
  }

  /** Entered, called for, and concluded. */
  lemma CallCounts(c: nat, answer: ProviderAnswer, rest: seq<Deed>, result: ExecutionResult)
    requires AnswerStory(c, answer, rest, result)
    ensures Executed(c, [Wrote(c, Executing, [])] + ([Called(c, answer)] + rest), result)
  {
    hide Executed, AnswerStory;
    AnswerCounts(c, answer, rest, result);
    PutInFront(c, Called(c, answer), rest, result);
    PutInFront(c, Wrote(c, Executing, []), [Called(c, answer)] + rest, result);
  }

  lemma ExecutionCounts(c: nat, story: seq<Deed>, result: ExecutionResult)
    requires ExecutionStory(c, story, result)
    ensures Executed(c, story, result) && (story != [] ==> !story[0].Decided?)
  {
    if story == [] {
    } else if |story| == 1 {
      LinkedOne(story[0]);
      assert story == [story[0]];
    } else {
      hide Executed, AnswerStory;
      assert story[1..][1..] == story[2..];
      CallCounts(c, story[1].answer, story[2..], result);
      assert story == [story[0]] + ([story[1]] + story[2..]);
    }
  }

  const NOTHING := Link("", None, 0, 0, LinkCreated)

  lemma BacklogCounts(c: nat, story: seq<Deed>, outcome: CycleOutcome, crashed: bool)
    requires ReportsExecution(c, story, false, outcome, crashed)
    ensures Counted(c, story, outcome, crashed) && !outcome.diagnosed
  {
    var result :| ExecutionStory(c, story, result) && ReportsResult(c, result, false, outcome, crashed);
    ExecutionCounts(c, story, result);
    hide ExecutionStory, LinkedCases, DecidedCases;
  }

  /** A verdict in front of the rest. */
  lemma VerdictInFront(c: nat, story: seq<Deed>)
    requires story != [] && story[0].Decided? && story[0].c == c && OnlyOn(story[1..], [c])
    requires DecidedCases(story[1..]) == []
    ensures OnlyOn(story, [c]) && LinkedCases(story) == LinkedCases(story[1..]) && DecidedCases(story) == [c]
  {
    var rest := story[1..];
    LinkedOne(story[0]);
    LinkedConcat([story[0]], rest);
    DecidedConcat([story[0]], rest);
    assert story == [story[0]] + rest;
    FrontToo(c, story[0], rest);
  }

  lemma VerdictAlone(c: nat, story: seq<Deed>, outcome: CycleOutcome)
    requires |story| == 1 && story[0].Decided? && story[0].c == c && story[0].verdict != Executing
    requires outcome == CycleOutcome(c, story[0].verdict, true, false, story[0].verdict == Approved, false)
    ensures Counted(c, story, outcome, false)
  {
    VerdictInFront(c, story);
  }

  /** An approval that has been acted on, told by the last deed of the execution. */
  lemma VerdictTold(c: nat, story: seq<Deed>, result: ExecutionResult, outcome: CycleOutcome)
    requires story != [] && story[0].Decided? && story[0].verdict == Approved
    requires Executed(c, story[1..], result) && ReportsResult(c, result, true, outcome, false)
    ensures Told(outcome, story)
  {
    hide LinkedCases, DecidedCases, OnlyOn;
    if |story| > 1 {
      assert story[|story| - 1] == story[1..][|story| - 2];
    }
  }

  lemma VerdictExecuted(c: nat, story: seq<Deed>, result: ExecutionResult, outcome: CycleOutcome, crashed: bool)
    requires story != [] && story[0].Decided? && story[0].c == c && story[0].verdict == Approved
    requires Executed(c, story[1..], result) && ReportsResult(c, result, true, outcome, crashed)
    ensures Counted(c, story, outcome, crashed)
  {
    VerdictInFront(c, story);
    if !crashed {
      VerdictTold(c, story, result, outcome);
    }
    hide LinkedCases, DecidedCases, OnlyOn, Told;
  }

  lemma ProcessCounts(c: nat, story: seq<Deed>, mayExecute: bool, outcome: CycleOutcome, crashed: bool)
    requires ProcessStory(c, story, mayExecute, outcome, crashed)
    ensures Counted(c, story, outcome, crashed)
  {
    if story != [] {
      if story[0].verdict != Approved || !mayExecute {
        VerdictAlone(c, story, outcome);
      } else {
        hide Counted, Executed, ReportsResult;
        var result :| ExecutionStory(c, story[1..], result) && ReportsResult(c, result, true, outcome, crashed);
        ExecutionCounts(c, story[1..], result);
        VerdictExecuted(c, story, result, outcome, crashed);
      }
    }
  }

  // ---- a whole pass ----

  function ExecutedIds(outcomes: seq<CycleOutcome>): (ids: seq<nat>)
    ensures |ids| == CountExecuted(outcomes)
  {
    if outcomes == [] then []
    else
      var last := outcomes[|outcomes| - 1];
      ExecutedIds(outcomes[..|outcomes| - 1]) + if last.executed then [last.caseId] else []
  }

  function DiagnosedIds(outcomes: seq<CycleOutcome>): (ids: seq<nat>)
    ensures |ids| == CountDiagnosed(outcomes)
  {
    if outcomes == [] then []
    else
      var last := outcomes[|outcomes| - 1];
      DiagnosedIds(outcomes[..|outcomes| - 1]) + if last.diagnosed then [last.caseId] else []
  }

  /** Each outcome says what has been done about its case, and the executed ones are the links put on record. */
  predicate Accounted(outcomes: seq<CycleOutcome>, story: seq<Deed>, ids: seq<nat>) {
    OnlyOn(story, ids) && LinkedCases(story) == ExecutedIds(outcomes) && AllTold(outcomes, story)
  }

  predicate AllTold(outcomes: seq<CycleOutcome>, story: seq<Deed>) {
    forall i :: 0 <= i < |outcomes| ==> Told(outcomes[i], On(story, outcomes[i].caseId))
  }

  lemma AllToldPush(outcomes: seq<CycleOutcome>, story: seq<Deed>, outcome: CycleOutcome)
    requires AllTold(outcomes, story) && Told(outcome, On(story, outcome.caseId))
    ensures AllTold(outcomes + [outcome], story)
  {
    hide Told, On;
  }

  lemma AllToldJoin(first: seq<CycleOutcome>, second: seq<CycleOutcome>, story: seq<Deed>)
    requires AllTold(first, story) && AllTold(second, story)
    ensures AllTold(first + second, story)
  {
    hide Told, On;
  }

  lemma NothingAccounted()
    ensures Accounted([], [], []) && DecidedCases([]) == DiagnosedIds([])
  {
  }

  lemma OnlyOnJoin(a: seq<Deed>, ids: seq<nat>, b: seq<Deed>, more: seq<nat>)
    requires OnlyOn(a, ids) && OnlyOn(b, more)
    ensures OnlyOn(a + b, ids + more)
  {
    forall i | 0 <= i < |a + b| ensures (a + b)[i].c in ids + more {
      if i >= |a| {
        assert b[i - |a|].c in more;
      }
    }
  }

  /** Deeds about other cases change nothing about these. */
  lemma StillTold(outcomes: seq<CycleOutcome>, story: seq<Deed>, next: seq<Deed>, more: seq<nat>)
    requires AllTold(outcomes, story)
    requires OnlyOn(next, more) && forall i :: 0 <= i < |outcomes| ==> outcomes[i].caseId !in more
    ensures AllTold(outcomes, story + next)
  {
    hide Told, On, OnlyOn;
    forall i | 0 <= i < |outcomes| ensures On(story + next, outcomes[i].caseId) == On(story, outcomes[i].caseId) {
      OnConcat(story, next, outcomes[i].caseId);
      OnOthers(next, more, outcomes[i].caseId);
    }
  }

  lemma NewlyTold(story: seq<Deed>, ids: seq<nat>, c: nat, next: seq<Deed>)
    requires OnlyOn(story, ids) && c !in ids && OnlyOn(next, [c])
    ensures On(story + next, c) == next
  {
    OnConcat(story, next, c);
    OnOthers(story, ids, c);
    OnItself(next, c);
  }

  lemma IdsGrow(outcomes: seq<CycleOutcome>, outcome: CycleOutcome)
    ensures ExecutedIds(outcomes + [outcome])
         == ExecutedIds(outcomes) + if outcome.executed then [outcome.caseId] else []
    ensures DiagnosedIds(outcomes + [outcome])
         == DiagnosedIds(outcomes) + if outcome.diagnosed then [outcome.caseId] else []
  {
    assert (outcomes + [outcome])[..|outcomes|] == outcomes;
  }

  lemma ApartFrom(outcomes: seq<CycleOutcome>, ids: seq<nat>, c: nat)
    requires Ids(outcomes) == ids && c !in ids
    ensures forall i :: 0 <= i < |outcomes| ==> outcomes[i].caseId !in [c]
  {
    assert forall i :: 0 <= i < |outcomes| ==> ids[i] == outcomes[i].caseId;
  }

  /** One more case taken up, with its outcome. */
  lemma OneMoreAccounted(outcomes: seq<CycleOutcome>, story: seq<Deed>, ids: seq<nat>, c: nat, next: seq<Deed>,
                         outcome: CycleOutcome)
    requires Accounted(outcomes, story, ids) && Ids(outcomes) == ids && c !in ids
    requires Counted(c, next, outcome, false) && outcome.caseId == c
    ensures Accounted(outcomes + [outcome], story + next, ids + [c])
    ensures DecidedCases(story) == DiagnosedIds(outcomes) ==>
              DecidedCases(story + next) == DiagnosedIds(outcomes + [outcome])
  {
    ApartFrom(outcomes, ids, c);
    hide LinkedCases, DecidedCases, Told, AllTold, OnlyOn, ExecutedIds, DiagnosedIds, On, Ids, CountExecuted,
         CountDiagnosed;
    LinkedConcat(story, next);
    DecidedConcat(story, next);
    IdsGrow(outcomes, outcome);
    OnlyOnJoin(story, ids, next, [c]);
    StillTold(outcomes, story, next, [c]);
    NewlyTold(story, ids, c, next);
    AllToldPush(outcomes, story + next, outcome);
  }

  /** One more case taken up and cut short: nothing of it has been put on record. */
  lemma CutShort(outcomes: seq<CycleOutcome>, story: seq<Deed>, ids: seq<nat>, c: nat, next: seq<Deed>,
                 outcome: CycleOutcome)
    requires Accounted(outcomes, story, ids) && Ids(outcomes) == ids && c !in ids
    requires Counted(c, next, outcome, true)
    ensures Accounted(outcomes, story + next, ids + [c])
  {
    ApartFrom(outcomes, ids, c);
    hide LinkedCases, DecidedCases, Told, OnlyOn, ExecutedIds, DiagnosedIds, On, Ids, CountExecuted;
    LinkedConcat(story, next);
    OnlyOnJoin(story, ids, next, [c]);
    StillTold(outcomes, story, next, [c]);
  }

  lemma ExecutedIdsJoin(a: seq<CycleOutcome>, b: seq<CycleOutcome>)
    ensures ExecutedIds(a + b) == ExecutedIds(a) + ExecutedIds(b)
    ensures DiagnosedIds(a + b) == DiagnosedIds(a) + DiagnosedIds(b)
  {
    if b == [] {
      assert a + b == a;
    } else {
      hide CountExecuted, CountDiagnosed;
      ExecutedIdsJoin(a, b[..|b| - 1]);
      assert (a + b)[..|a + b| - 1] == a + b[..|b| - 1];
    }
  }

  /** Two phases over different cases. */
  lemma PhasesAccounted(first: seq<CycleOutcome>, story: seq<Deed>, ids: seq<nat>, second: seq<CycleOutcome>,
                        next: seq<Deed>, more: seq<nat>)
    requires Accounted(first, story, ids) && Accounted(second, next, more)
    requires forall i :: 0 <= i < |first| ==> first[i].caseId !in more
    requires forall i :: 0 <= i < |second| ==> second[i].caseId !in ids
    ensures Accounted(first + second, story + next, ids + more)
  {
    LinkedConcat(story, next);
    ExecutedIdsJoin(first, second);
    OnlyOnJoin(story, ids, next, more);
    hide LinkedCases, Told, OnlyOn, ExecutedIds, On;
    StillTold(first, story, next, more);
    forall i | 0 <= i < |second| ensures On(story + next, second[i].caseId) == On(next, second[i].caseId) {
      OnConcat(story, next, second[i].caseId);
      OnOthers(story, ids, second[i].caseId);
    }
    AllToldJoin(first, second, story + next);
  }
}
