/** What a pass reports, what its lists of cases and create calls have to satisfy, and how lists of both combine. */
module Outcomes {
  import opened Domain
  import opened Records
  import opened Runs
  import opened Queue

  datatype CycleOutcome = CycleOutcome(
    caseId: nat, finalStatus: Status, diagnosed: bool, executed: bool, withheld: bool, error: bool)

  datatype CycleReport = CycleReport(
    discovered: nat, diagnosed: nat, executed: nat, failed: nat, outcomes: seq<CycleOutcome>)

  function Ids(outcomes: seq<CycleOutcome>): (ids: seq<nat>)
    ensures |ids| == |outcomes| && forall i :: 0 <= i < |ids| ==> ids[i] == outcomes[i].caseId
  {
    seq(|outcomes|, i requires 0 <= i < |outcomes| => outcomes[i].caseId)
  }

  function CountExecuted(outcomes: seq<CycleOutcome>): nat {
    if outcomes == [] then 0
    else CountExecuted(outcomes[..|outcomes| - 1]) + if outcomes[|outcomes| - 1].executed then 1 else 0
  }

  function CountDiagnosed(outcomes: seq<CycleOutcome>): nat {
    if outcomes == [] then 0
    else CountDiagnosed(outcomes[..|outcomes| - 1]) + if outcomes[|outcomes| - 1].diagnosed then 1 else 0
  }

  function CountFailed(outcomes: seq<CycleOutcome>): nat {
    if outcomes == [] then 0
    else CountFailed(outcomes[..|outcomes| - 1]) + if outcomes[|outcomes| - 1].error then 1 else 0
  }

  function ExecutedSet(outcomes: seq<CycleOutcome>): set<nat> {
    set i: nat | i < |outcomes| && outcomes[i].executed
  }

  function DiagnosedSet(outcomes: seq<CycleOutcome>): set<nat> {
    set i: nat | i < |outcomes| && outcomes[i].diagnosed
  }

  function FailedSet(outcomes: seq<CycleOutcome>): set<nat> {
    set i: nat | i < |outcomes| && outcomes[i].error
  }

  /** The counts of a report are the numbers of outcomes that carry the flag. */
  lemma {:induction false} CountsAreFlags(outcomes: seq<CycleOutcome>)
    ensures CountExecuted(outcomes) == |ExecutedSet(outcomes)|
    ensures CountDiagnosed(outcomes) == |DiagnosedSet(outcomes)|
    ensures CountFailed(outcomes) == |FailedSet(outcomes)|
  {
    if outcomes != [] {
      var n: nat := |outcomes| - 1;
      CountsAreFlags(outcomes[..n]);
      OneMoreFlag(ExecutedSet(outcomes[..n]), ExecutedSet(outcomes), n);
      OneMoreFlag(DiagnosedSet(outcomes[..n]), DiagnosedSet(outcomes), n);
      OneMoreFlag(FailedSet(outcomes[..n]), FailedSet(outcomes), n);
    }
  }

  lemma OneMoreFlag(before: set<nat>, after: set<nat>, n: nat)
    requires n !in before && forall i: nat :: i in after <==> i in before || (i == n && n in after)
    ensures |after| == |before| + if n in after then 1 else 0
  {
    assert after == if n in after then before + {n} else before;
  }

  lemma CountNone()
    ensures CountExecuted([]) == 0
  {
  }

  lemma CountPush(outcomes: seq<CycleOutcome>, last: CycleOutcome)
    ensures CountExecuted(outcomes + [last]) == CountExecuted(outcomes) + if last.executed then 1 else 0
  {
  }

  /** An approved case is never left lying without saying why. */
  predicate Explained(outcome: CycleOutcome) {
    outcome.finalStatus == Approved ==> outcome.withheld || outcome.error
  }

  /** Left approved with nothing having gone wrong: only because the whole budget was spent before. */
  predicate SpentBefore(outcomes: seq<CycleOutcome>, budget: nat) {
    forall i :: 0 <= i < |outcomes| && outcomes[i].finalStatus == Approved && !outcomes[i].error ==>
      CountExecuted(outcomes[..i]) == budget
  }

  lemma SpentPush(outcomes: seq<CycleOutcome>, last: CycleOutcome, budget: nat)
    requires SpentBefore(outcomes, budget)
    requires last.finalStatus == Approved && !last.error ==> CountExecuted(outcomes) == budget
    ensures SpentBefore(outcomes + [last], budget)
  {
    hide CountExecuted;
    var all := outcomes + [last];
    forall i | 0 <= i < |all| && all[i].finalStatus == Approved && !all[i].error
      ensures CountExecuted(all[..i]) == budget
    {
      if i < |outcomes| {
        assert all[..i] == outcomes[..i];
      } else {
        assert all[..i] == outcomes;
      }
    }
  }

  /** The outcomes so far, for these cases: each explained, and the budget spent on the executed ones only. */
  predicate Tallied(outcomes: seq<CycleOutcome>, ids: seq<nat>, left: nat, budget: nat) {
    && Ids(outcomes) == ids && (forall i :: 0 <= i < |outcomes| ==> Explained(outcomes[i]))
    && CountExecuted(outcomes) + left == budget && SpentBefore(outcomes, budget)
  }

  lemma TallyNothing(budget: nat)
    ensures Tallied([], [], budget, budget)
  {
  }

  lemma TallyGives(outcomes: seq<CycleOutcome>, ids: seq<nat>, left: nat, budget: nat)
    requires Tallied(outcomes, ids, left, budget)
    ensures Ids(outcomes) == ids && CountExecuted(outcomes) + left == budget && SpentBefore(outcomes, budget)
    ensures forall i :: 0 <= i < |outcomes| ==> Explained(outcomes[i])
  {
  }

  lemma TallyPush(outcomes: seq<CycleOutcome>, ids: seq<nat>, left: nat, budget: nat, outcome: CycleOutcome)
    requires Tallied(outcomes, ids, left, budget) && Explained(outcome) && (outcome.executed ==> left > 0)
    requires outcome.finalStatus == Approved && !outcome.error ==> left == 0
    ensures Tallied(outcomes + [outcome], ids + [outcome.caseId], left - if outcome.executed then 1 else 0, budget)
  {
    CountPush(outcomes, outcome);
    IdsPush(outcomes, outcome);
    hide CountExecuted, SpentBefore, Ids, Explained;
    SpentPush(outcomes, outcome, budget);
  }

  predicate NoneApproved(outcomes: seq<CycleOutcome>) {
    forall i :: 0 <= i < |outcomes| ==> outcomes[i].finalStatus != Approved || outcomes[i].error
  }

  lemma NobodyApproved()
    ensures NoneApproved([])
  {
  }

  lemma NoneApprovedPush(outcomes: seq<CycleOutcome>, last: CycleOutcome)
    requires NoneApproved(outcomes) && (last.finalStatus != Approved || last.error)
    ensures NoneApproved(outcomes + [last])
  {
  }

  lemma SpentJoin(a: seq<CycleOutcome>, b: seq<CycleOutcome>, budget: nat)
    requires SpentBefore(a, budget) && NoneApproved(b)
    ensures SpentBefore(a + b, budget)
  {
    hide CountExecuted;
    var all := a + b;
    forall i | 0 <= i < |all| && all[i].finalStatus == Approved && !all[i].error
      ensures CountExecuted(all[..i]) == budget
    {
      assert all[..i] == a[..i];
    }
  }

  /** The create calls of this session since `before`: none twice, and only for these cases. */
  predicate CalledOnce(before: seq<nat>, after: seq<nat>, ids: seq<nat>) {
    && before <= after
    && Distinct(after[|before|..])
    && forall i :: |before| <= i < |after| ==> after[i] in ids
  }

  lemma CalledOncePush(before: seq<nat>, after: seq<nat>, next: seq<nat>, ids: seq<nat>, c: nat)
    requires CalledOnce(before, after, ids) && c !in ids
    requires next == after || next == after + [c]
    ensures CalledOnce(before, next, ids + [c])
  {
  }

  lemma CalledOnceWiden(before: seq<nat>, after: seq<nat>, ids: seq<nat>, all: seq<nat>)
    requires CalledOnce(before, after, ids) && ids <= all
    ensures CalledOnce(before, after, all)
  {
  }

  /** A create call for each executed outcome is among the calls made since `before`. */
  predicate ExecutedAreCalled(before: seq<nat>, after: seq<nat>, outcomes: seq<CycleOutcome>) {
    && before <= after
    && forall j :: 0 <= j < |outcomes| && outcomes[j].executed ==> outcomes[j].caseId in after[|before|..]
  }

  lemma ExecutedPush(before: seq<nat>, after: seq<nat>, next: seq<nat>, outcomes: seq<CycleOutcome>, last: CycleOutcome)
    requires ExecutedAreCalled(before, after, outcomes)
    requires next == after || next == after + [last.caseId]
    requires last.executed ==> next == after + [last.caseId]
    ensures ExecutedAreCalled(before, next, outcomes)
    ensures ExecutedAreCalled(before, next, outcomes + [last])
  {
    assert next != after ==> next[|before|..] == after[|before|..] + [last.caseId];
  }

  lemma ExecutedStart(calls: seq<nat>)
    ensures ExecutedAreCalled(calls, calls, [])
  {
  }

  lemma ExecutedJoin(a: seq<nat>, b: seq<nat>, c: seq<nat>, first: seq<CycleOutcome>, second: seq<CycleOutcome>)
    requires ExecutedAreCalled(a, b, first) && ExecutedAreCalled(b, c, second)
    ensures ExecutedAreCalled(a, c, first + second)
  {
  }

  lemma CalledOnceStart(calls: seq<nat>)
    ensures CalledOnce(calls, calls, [])
  {
  }

  /** The row of case c, if it was there, has been written since. */
  predicate Advanced(before: seq<CaseRow>, after: seq<CaseRow>, c: nat) {
    c < |before| ==> c < |after| && before[c].version < after[c].version
  }

  /** Each of these cases that stood in one of the statuses has been written since. */
  predicate MovedOn(before: seq<CaseRow>, after: seq<CaseRow>, ids: seq<nat>, statuses: set<Status>) {
    forall j :: 0 <= j < |ids| && ids[j] < |before| && before[ids[j]].status in statuses ==>
      ids[j] < |after| && before[ids[j]].version < after[ids[j]].version
  }

  lemma MovedPush(before: seq<CaseRow>, middle: seq<CaseRow>, after: seq<CaseRow>, ids: seq<nat>, c: nat,
                  statuses: set<Status>)
    requires MovedOn(before, middle, ids, statuses) && Grown(before, middle) && Grown(middle, after)
    requires (c < |middle| && middle[c].status in statuses) ==> Advanced(middle, after, c)
    ensures MovedOn(before, after, ids + [c], statuses)
  {
  }

  lemma MovedNone(before: seq<CaseRow>, statuses: set<Status>)
    ensures MovedOn(before, before, [], statuses)
  {
  }

  const DIAGNOSABLES := {Discovered, Eligible, Failed}

  /** The cases a phase has taken up: those with an outcome, and the one that stopped it. */
  function TakenUp(ids: seq<nat>, outcomes: seq<CycleOutcome>, crashed: bool): seq<nat>
    requires |outcomes| + (if crashed then 1 else 0) <= |ids|
  {
    ids[..|outcomes| + (if crashed then 1 else 0)]
  }

  lemma {:induction false} CountJoin(a: seq<CycleOutcome>, b: seq<CycleOutcome>)
    ensures CountExecuted(a + b) == CountExecuted(a) + CountExecuted(b)
  {
    if b == [] {
      assert a + b == a;
    } else {
      CountJoin(a, b[..|b| - 1]);
      assert (a + b)[..|a + b| - 1] == a + b[..|b| - 1];
    }
  }

  lemma DistinctJoin(xs: seq<nat>, ys: seq<nat>)
    requires Distinct(xs) && Distinct(ys) && forall i :: 0 <= i < |ys| ==> ys[i] !in xs
    ensures Distinct(xs + ys)
  {
  }

  lemma CallsJoin(a: seq<nat>, b: seq<nat>, c: seq<nat>, first: seq<nat>, second: seq<nat>)
    requires CalledOnce(a, b, first) && CalledOnce(b, c, second)
    requires forall i :: 0 <= i < |second| ==> second[i] !in first
    ensures CalledOnce(a, c, first + second)
  {
  }

  lemma CalledOnceMeans(before: seq<nat>, after: seq<nat>, ids: seq<nat>)
    requires CalledOnce(before, after, ids)
    ensures before <= after && Distinct(after[|before|..])
  {
  }

  lemma IdsPush(outcomes: seq<CycleOutcome>, last: CycleOutcome)
    ensures Ids(outcomes + [last]) == Ids(outcomes) + [last.caseId]
  {
  }

  lemma IdsJoin(a: seq<CycleOutcome>, b: seq<CycleOutcome>)
    ensures Ids(a + b) == Ids(a) + Ids(b)
  {
  }

  lemma NotBefore(ids: seq<nat>, i: nat)
    requires Distinct(ids) && i < |ids|
    ensures ids[i] !in ids[..i]
  {
  }

  /** A prefix of distinct ids is distinct. */
  lemma DistinctPrefix(ids: seq<nat>, n: nat)
    requires Distinct(ids) && n <= |ids|
    ensures Distinct(ids[..n])
  {
  }
}
