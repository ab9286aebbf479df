/** The autonomous cycle: discover, diagnose, execute and drain, within budgets, isolating each case. */
module Orchestrator {
  import opened Domain
  import opened Policy
  import opened Records
  import opened Ingestion
  import opened Protocol
  import opened Lifecycle
  import opened References
  import opened Deeds
  import opened Queue
  import opened Backlog
  import opened Worlds
  import opened Outcomes
  import opened Reports
  import opened CaseWork
  import opened Discovery
  import opened Phases

  /** The budget a cycle starts with. */
  function StartingBudget(autoExecute: bool, maxExecute: nat): nat {
    if autoExecute then maxExecute else 0
  }

  /** The first candidate of a pass with something to diagnose is diagnosable. */
  lemma CandidatesHead(cases: seq<CaseRow>, limit: nat)
    requires Take(ReadyList(cases), limit) != []
    ensures
      var ids := Take(ReadyList(cases), limit);
      ids[0] < |cases| && cases[ids[0]].status in DIAGNOSABLES
  {
    ReadyListDistinct(cases);
  }

  /** The approved backlog a pass works through once it has handled some cases. */
  function BacklogAfter(cases: seq<CaseRow>, handled: seq<nat>, budget: nat): seq<nat> {
    Take(Without(Newest(cases, Approved), set k | k in handled), budget)
  }

  /**
   * A pass that ran to its end: the outcomes are the first ready cases as listed, and then the backlog as
   * listed later, all of it or as far as the budget went.
   */
  predicate CompletePass(outcomes: seq<CycleOutcome>, listed: seq<CaseRow>, drained: seq<CaseRow>, maxDiagnose: nat,
                         budget: nat)
  {
    var first := Take(ReadyList(listed), maxDiagnose);
    && |first| <= |outcomes| && Ids(outcomes[..|first|]) == first
    && CountExecuted(outcomes[..|first|]) <= budget
    && var left := budget - CountExecuted(outcomes[..|first|]);
       var rest := outcomes[|first|..];
       if left == 0 then rest == []
       else
         var backlog := BacklogAfter(drained, first, left);
         && |rest| <= |backlog| && Ids(rest) == backlog[..|rest|]
         && (|rest| == |backlog| || CountExecuted(rest) == left)
  }

  lemma PassJoins(first: seq<CycleOutcome>, rest: seq<CycleOutcome>, listed: seq<CaseRow>, drained: seq<CaseRow>,
                  maxDiagnose: nat, budget: nat)
    requires Ids(first) == Take(ReadyList(listed), maxDiagnose) && CountExecuted(first) <= budget
    requires
      var left := budget - CountExecuted(first);
      if left == 0 then rest == []
      else
        var backlog := BacklogAfter(drained, Ids(first), left);
        && |rest| <= |backlog| && Ids(rest) == backlog[..|rest|]
        && (|rest| == |backlog| || CountExecuted(rest) == left)
    ensures CompletePass(first + rest, listed, drained, maxDiagnose, budget)
  {
    hide CountExecuted, ReadyList, BacklogAfter;
    assert (first + rest)[..|first|] == first && (first + rest)[|first|..] == rest;
  }

  /** A calm stretch in which a case that counts was written: less remains. */
  lemma TouchedDrains(earlier: seq<Action>, later: seq<Action>, c: nat, config: Config)
    requires earlier <= later && CalmSince(later, |earlier|)
    requires
      var a, b := Run(INIT, earlier, config).db.cases, Run(INIT, later, config).db.cases;
      && c < |a| && c < |b| && a[c].version < b[c].version
      && (a[c].status in DIAGNOSABLES || a[c].status == Approved)
    ensures Remaining(Run(INIT, later, config).db) < Remaining(Run(INIT, earlier, config).db)
  {
    hide Run, Remaining, Uncased;
    HistoryProgress(earlier, later, config);
  }

  /** The first of a list taken up and written: less remains. */
  lemma HeadMoved(earlier: seq<Action>, later: seq<Action>, ids: seq<nat>, statuses: set<Status>, config: Config)
    requires earlier <= later && CalmSince(later, |earlier|) && ids != []
    requires statuses <= DIAGNOSABLES + {Approved}
    requires
      var a, b := Run(INIT, earlier, config).db.cases, Run(INIT, later, config).db.cases;
      MovedOn(a, b, ids, statuses) && ids[0] < |a| && a[ids[0]].status in statuses
    ensures Remaining(Run(INIT, later, config).db) < Remaining(Run(INIT, earlier, config).db)
  {
    hide Run, Remaining;
    TouchedDrains(earlier, later, ids[0], config);
  }

  ghost predicate SomeApproved(cases: seq<CaseRow>) {
    exists c :: 0 <= c < |cases| && cases[c].status == Approved
  }

  lemma ApprovedStands(a: Db, b: Db, c: nat)
    requires Progress(a, b) && c < |a.cases| && a.cases[c].status == Approved
    ensures Remaining(b) < Remaining(a) || (c < |b.cases| && b.cases[c] == a.cases[c])
  {
    hide Remaining, Uncased;
  }

  lemma BacklogOfNone(cases: seq<CaseRow>, budget: nat)
    ensures BacklogAfter(cases, [], budget) == Take(Without(Newest(cases, Approved), {}), budget)
  {
    var handled: seq<nat> := [];
    var exclude := set k | k in handled;
    assert exclude == {};
    assert BacklogAfter(cases, handled, budget) == Take(Without(Newest(cases, Approved), exclude), budget);
  }

  /** An approval that stood before others acted still heads the backlog, or less remains already. */
  lemma BacklogStands(earlier: seq<Action>, later: seq<Action>, budget: nat, config: Config)
    requires earlier <= later && CalmSince(later, |earlier|) && budget > 0
    requires SomeApproved(Run(INIT, earlier, config).db.cases)
    ensures
      var a, b := Run(INIT, earlier, config).db, Run(INIT, later, config).db;
      var ids := BacklogAfter(b.cases, [], budget);
      Remaining(b) < Remaining(a)
      || (ids != [] && ids[0] < |b.cases| && b.cases[ids[0]].status == Approved)
  {
    hide Run, Remaining, Uncased, BacklogAfter, Progress, Take, Without, Newest;
    HistoryProgress(earlier, later, config);
    var a, b := Run(INIT, earlier, config).db, Run(INIT, later, config).db;
    var c :| 0 <= c < |a.cases| && a.cases[c].status == Approved;
    ApprovedStands(a, b, c);
    BacklogOfNone(b.cases, budget);
    if Remaining(b) >= Remaining(a) {
      BacklogHas(b.cases, c, budget);
    }
  }

  /** The cases taken up from this backlog are its first ones, and each that was approved has been written. */
  predicate Drained(before: seq<CaseRow>, after: seq<CaseRow>, backlog: seq<nat>, taken: seq<nat>) {
    taken <= backlog && (backlog != [] ==> taken != []) && MovedOn(before, after, taken, {Approved})
  }

  /** An approval that stood when the backlog was about to be listed: by the end of phase three less remains. */
  lemma ApprovalsDrain(start: seq<Action>, listed: seq<Action>, end: seq<Action>, taken: seq<nat>, budget: nat,
                       config: Config)
    requires start <= listed <= end && CalmSince(listed, |start|) && CalmSince(end, |listed|) && budget > 0
    requires SomeApproved(Run(INIT, start, config).db.cases)
    requires
      var a, b := Run(INIT, listed, config).db.cases, Run(INIT, end, config).db.cases;
      Drained(a, b, BacklogAfter(a, [], budget), taken)
    ensures Remaining(Run(INIT, end, config).db) < Remaining(Run(INIT, start, config).db)
  {
    hide Run, Remaining, Uncased, BacklogAfter, SomeApproved, MovedOn, Progress;
    BacklogStands(start, listed, budget, config);
    CalmDrains(start, listed, config);
    CalmDrains(listed, end, config);
    var a, b := Run(INIT, start, config).db, Run(INIT, listed, config).db;
    if BacklogAfter(b.cases, [], budget) != [] && Remaining(b) >= Remaining(a) {
      HeadMoved(listed, end, taken, {Approved}, config);
    }
  }

  /** The listing of the approved cases this pass has not handled, and phase three over them. */
  method DrainListed(w: World, o: Oracle, me: nat, handled: seq<nat>, budget: nat, config: Config)
    returns (outcomes: seq<CycleOutcome>, crashed: bool, ghost taken: seq<nat>)
    requires Ready(w, o, me, config) && Distinct(handled) && budget > 0
    modifies w, w.store
    ensures Ready(w, o, me, config) && GoesOn(old(w.history), w.history, o)
    ensures crashed <==> DuplicateHit(w.history, |old(w.history)|, me, config)
    ensures
      var backlog := BacklogAfter(old(w.store.cases), handled, budget);
      && |outcomes| <= |backlog| && Ids(outcomes) == backlog[..|outcomes|]
      && (!crashed ==> |outcomes| == |backlog| || CountExecuted(outcomes) == budget)
      && Drained(old(w.store.cases), w.store.cases, backlog, taken)
    ensures |outcomes| <= budget && Distinct(handled + Ids(outcomes))
    ensures forall i :: 0 <= i < |outcomes| ==> Explained(outcomes[i])
    ensures CountExecuted(outcomes) <= budget && NoneApproved(outcomes)
    ensures ExecutedAreCalled(old(w.calls), w.calls, outcomes)
    ensures old(w.calls) <= w.calls && |w.calls| <= |old(w.calls)| + budget
    ensures forall calls :: CalledOnce(calls, old(w.calls), handled) ==>
              calls <= w.calls && Distinct(w.calls[|calls|..])
    ensures Refusing(o) && old(AllApprovedPrimed(w.State(), config)) ==>
              && old(w.calls) + BacklogAfter(old(w.store.cases), handled, budget) == w.calls
              && CountExecuted(outcomes) == 0 && !crashed
    ensures AccountedSince(old(w.history), w.history, outcomes, taken, crashed, me, config) && Apart(taken, handled)
  {
    hide CalledOnce, Run, Inv, Newest, ReadyList, Uncased, ExecutedAreCalled, CountExecuted, Calm, CalmSince,
         DuplicateHit, MovedOn, Explained, Take, Without, NoneApproved, AllApprovedPrimed, AllPrimed, HeldAll,
         BacklogAfter, Distinct, Ids, GoesOn, AccountedSince, Story;
    ghost var before := w.calls;
    BacklogIs(w.store.cases, handled, budget);
    var exclude := set k | k in handled;
    var backlog := ApprovedBacklog(w.store, budget, exclude);
    if AllApprovedPrimed(w.State(), config) {
      BacklogPrimed(w.State(), backlog, config);
    }
    var left;
    outcomes, left, crashed := DrainPhase(w, o, me, backlog, budget, config);
    taken := TakenUp(backlog, outcomes, crashed);
    CalledOnceMeans(before, w.calls, backlog);
    DistinctPrefix(backlog, |outcomes|);
    DistinctJoin(handled, Ids(outcomes));
    forall calls | CalledOnce(calls, before, handled) ensures calls <= w.calls && Distinct(w.calls[|calls|..]) {
      CallsJoin(calls, before, w.calls, handled, backlog);
      CalledOnceMeans(calls, w.calls, handled + backlog);
    }
  }

  lemma BacklogIs(cases: seq<CaseRow>, handled: seq<nat>, budget: nat)
    ensures
      var exclude := set k | k in handled;
      Take(Without(Newest(cases, Approved), exclude), budget) == BacklogAfter(cases, handled, budget)
  {
  }

  /** Phase three, and whatever the others do before its list is read. */
  method DrainBacklog(w: World, o: Oracle, me: nat, handled: seq<nat>, budget: nat, config: Config)
    returns (outcomes: seq<CycleOutcome>, crashed: bool, ghost drainedAt: nat)
    requires Ready(w, o, me, config) && Distinct(handled) && budget > 0
    modifies w, w.store
    ensures Ready(w, o, me, config) && GoesOn(old(w.history), w.history, o)
    ensures crashed <==> DuplicateHit(w.history, |old(w.history)|, me, config)
    ensures |old(w.history)| <= drainedAt <= |w.history|
    ensures
      var backlog := BacklogAfter(StateAt(w.history, drainedAt, config).db.cases, handled, budget);
      && |outcomes| <= |backlog| && Ids(outcomes) == backlog[..|outcomes|]
      && (!crashed ==> |outcomes| == |backlog| || CountExecuted(outcomes) == budget)
    ensures |outcomes| <= budget && Distinct(handled + Ids(outcomes))
    ensures forall i :: 0 <= i < |outcomes| ==> Explained(outcomes[i])
    ensures CountExecuted(outcomes) <= budget && NoneApproved(outcomes)
    ensures ExecutedAreCalled(old(w.calls), w.calls, outcomes)
    ensures old(w.calls) <= w.calls && |w.calls| <= |old(w.calls)| + budget
    ensures forall calls :: CalledOnce(calls, old(w.calls), handled) ==>
              calls <= w.calls && Distinct(w.calls[|calls|..])
    ensures (Calm(o) && handled == [] && old(SomeApproved(w.store.cases))) ==>
              Remaining(w.State().db) < old(Remaining(w.State().db))
    ensures Refusing(o) && old(AllApprovedPrimed(w.State(), config)) ==>
              && old(w.calls) + BacklogAfter(old(w.store.cases), handled, budget) == w.calls
              && CountExecuted(outcomes) == 0 && !crashed
    ensures DrainTold(old(w.history), w.history, handled, outcomes, crashed, me, config)
  {
    hide Remaining, CalledOnce, Run, Inv, ReadyList, Uncased, ExecutedAreCalled, CountExecuted, Calm, CalmSince,
         DuplicateHit, SomeApproved, Explained, StateAt, NoneApproved, AllApprovedPrimed, BacklogAfter, NeverFinishes,
         Distinct, Ids, MovedOn, Story, Accounted;
    w.Yield(o, me, config);
    ghost var listed := w.history;
    drainedAt := |listed|;
    StateAtNow(listed, config);
    NoFinishNoHit(listed, |old(w.history)|, me, config);
    ghost var taken;
    outcomes, crashed, taken := DrainListed(w, o, me, handled, budget, config);
    HitJoin(listed, w.history, |old(w.history)|, me, config);
    GoesOnJoins(old(w.history), listed, w.history, o);
    StoryBegins(listed, w.history, |old(w.history)|, me, config);
    assert AccountedSince(old(w.history), w.history, outcomes, taken, crashed, me, config);
    StateAtLater(listed, w.history, drainedAt, config);
    if Calm(o) && handled == [] && old(SomeApproved(w.store.cases)) {
      ApprovalsDrain(old(w.history), listed, w.history, taken, budget, config);
    }
  }

  /** The listing of the candidates, and phase two over them. */
  method DiagnoseReady(w: World, o: Oracle, me: nat, autoExecute: bool, maxDiagnose: nat, budget: nat, config: Config)
    returns (outcomes: seq<CycleOutcome>, left: nat, crashed: bool)
    requires Ready(w, o, me, config) && (!autoExecute ==> budget == 0)
    modifies w, w.store
    ensures Ready(w, o, me, config) && GoesOn(old(w.history), w.history, o)
    ensures crashed <==> DuplicateHit(w.history, |old(w.history)|, me, config)
    ensures |outcomes| <= maxDiagnose && Distinct(Ids(outcomes))
    ensures !crashed ==> Ids(outcomes) == Take(ReadyList(old(w.store.cases)), maxDiagnose)
    ensures forall i :: 0 <= i < |outcomes| ==> Explained(outcomes[i])
    ensures CountExecuted(outcomes) + left == budget && SpentBefore(outcomes, budget)
    ensures old(w.calls) <= w.calls && Distinct(w.calls[|old(w.calls)|..])
    ensures !crashed ==> CalledOnce(old(w.calls), w.calls, Ids(outcomes))
    ensures |w.calls| <= |old(w.calls)| + if budget == 0 then 0 else maxDiagnose
    ensures ExecutedAreCalled(old(w.calls), w.calls, outcomes)
    ensures Calm(o) && maxDiagnose > 0 && old(Uncased(w.State().db)) == [] && old(Remaining(w.State().db)) > 0 ==>
              || Remaining(w.State().db) < old(Remaining(w.State().db))
              || (outcomes == [] && !crashed && left == budget && w.State() == old(w.State())
                  && SomeApproved(w.store.cases))
    ensures Refusing(o) && budget > 0 && old(AllReadyRipe(w.State(), config)) ==>
              && AllRefused(old(w.State()), w.State(), old(w.calls), w.calls,
                            Take(ReadyList(old(w.store.cases)), maxDiagnose))
              && left == budget && !crashed
    ensures PassTold(old(w.history), w.history, outcomes, crashed, me, config)
    ensures !crashed ==> AccountedSince(old(w.history), w.history, outcomes, Ids(outcomes), false, me, config)
  {
    hide Remaining, CalledOnce, Run, Inv, Newest, ReadyList, Uncased, ExecutedAreCalled, CountExecuted, Explained, Calm,
         DuplicateHit, MovedOn, AllRipe, AllReadyRipe, SomeApproved, SpentBefore, Apply, HeldAll, CalmSince,
         AccountedSince, PassTold;
    var candidates := CasesReadyForDiagnosis(w.store, maxDiagnose);
    ReadyListDistinct(w.store.cases);
    if AllReadyRipe(w.State(), config) {
      CandidatesRipe(w.State(), maxDiagnose, config);
    }
    ghost var listed, start, before := w.State().db, w.history, w.calls;
    outcomes, left, crashed := DiagnosePhase(w, o, me, candidates, autoExecute, budget, config);
    CalledOnceMeans(before, w.calls, candidates);
    DistinctPrefix(candidates, |outcomes|);
    CountNone();
    AccountedIsTold(start, w.history, outcomes, TakenUp(candidates, outcomes, crashed), crashed, me, config);
    if Calm(o) && maxDiagnose > 0 && Uncased(listed) == [] && Remaining(listed) > 0 {
      if candidates == [] {
        NothingReady(listed, maxDiagnose);
      } else {
        CandidatesHead(listed.cases, maxDiagnose);
        HeadMoved(start, w.history, TakenUp(candidates, outcomes, crashed), DIAGNOSABLES, config);
      }
    }
  }

  /** Phases two and three, from the listing of the candidates on. */
  method DiagnoseAndDrain(w: World, o: Oracle, me: nat, autoExecute: bool, maxDiagnose: nat, maxExecute: nat,
                          config: Config)
    returns (outcomes: seq<CycleOutcome>, crashed: bool, ghost drainedAt: nat)
    requires Ready(w, o, me, config)
    modifies w, w.store
    ensures Ready(w, o, me, config) && GoesOn(old(w.history), w.history, o)
    ensures crashed <==> DuplicateHit(w.history, |old(w.history)|, me, config)
    ensures |old(w.history)| <= drainedAt <= |w.history|
    ensures !crashed ==>
              CompletePass(outcomes, old(w.store.cases), StateAt(w.history, drainedAt, config).db.cases, maxDiagnose,
                           StartingBudget(autoExecute, maxExecute))
    ensures CountExecuted(outcomes) <= StartingBudget(autoExecute, maxExecute)
    ensures |outcomes| <= maxDiagnose + StartingBudget(autoExecute, maxExecute)
    ensures Distinct(Ids(outcomes)) && SpentBefore(outcomes, StartingBudget(autoExecute, maxExecute))
    ensures forall i :: 0 <= i < |outcomes| ==> Explained(outcomes[i])
    ensures old(w.calls) <= w.calls && Distinct(w.calls[|old(w.calls)|..])
    ensures |w.calls| <= |old(w.calls)| + CallBound(autoExecute, maxDiagnose, maxExecute)
    ensures ExecutedAreCalled(old(w.calls), w.calls, outcomes)
    ensures (Calm(o) && autoExecute && maxDiagnose > 0 && maxExecute > 0
             && old(Uncased(w.State().db)) == [] && old(Remaining(w.State().db)) > 0) ==>
              Remaining(w.State().db) < old(Remaining(w.State().db))
    ensures (Refusing(o) && autoExecute && maxExecute > 0
             && old(AllReadyRipe(w.State(), config) && AllApprovedPrimed(w.State(), config))) ==>
              && w.calls == old(w.calls) + RefusedCalls(old(w.store.cases), maxDiagnose, maxExecute)
              && CountExecuted(outcomes) == 0 && !crashed
    ensures PassTold(old(w.history), w.history, outcomes, crashed, me, config)
  {
    hide Remaining, CalledOnce, Run, Inv, Newest, ReadyList, Uncased, ExecutedAreCalled, CountExecuted, Explained, Calm,
         DuplicateHit, CompletePass, AllReadyRipe, SomeApproved, BacklogAfter, SpentBefore, Apply, Distinct, StateAt,
         NoneApproved, Take, AllApprovedPrimed, AllRefused, RefusedCalls, CalmSince, AccountedSince, PassTold,
         DrainTold, Ids;
    var budget := StartingBudget(autoExecute, maxExecute);
    ghost var listed, start, before, opening := w.store.cases, w.history, w.calls, w.State();
    var left;
    outcomes, left, crashed := DiagnoseReady(w, o, me, autoExecute, maxDiagnose, budget, config);
    ghost var middle, called := w.history, w.calls;
    drainedAt := |middle|;
    var first := Take(ReadyList(listed), maxDiagnose);
    if AllApprovedPrimed(opening, config) && AllRefused(opening, w.State(), before, called, first) {
      ApprovalsStand(opening, w.State(), before, called, maxDiagnose, maxExecute, config);
    }
    if crashed {
      return;
    }
    if left == 0 {
      PassJoins(outcomes, [], listed, StateAt(middle, drainedAt, config).db.cases, maxDiagnose, budget);
      assert outcomes + [] == outcomes;
      return;
    }
    var more, stopped, at := DrainBacklog(w, o, me, Ids(outcomes), left, config);
    crashed, drainedAt := stopped, at;
    HitJoin(middle, w.history, |start|, me, config);
    GoesOnJoins(start, middle, w.history, o);
    if Calm(o) {
      CalmDrains(middle, w.history, config);
    }
    CountJoin(outcomes, more);
    IdsJoin(outcomes, more);
    ExecutedJoin(before, called, w.calls, outcomes, more);
    SpentJoin(outcomes, more, budget);
    StillApart(Ids(outcomes), Ids(more));
    TogetherTold(start, middle, w.history, outcomes, more, crashed, me, config);
    if !crashed {
      PassJoins(outcomes, more, listed, StateAt(w.history, drainedAt, config).db.cases, maxDiagnose, budget);
    }
    outcomes := outcomes + more;
  }

  lemma StillApart(ids: seq<nat>, more: seq<nat>)
    requires Distinct(ids + more)
    ensures Apart(more, ids)
  {
    forall i | 0 <= i < |more| ensures more[i] !in ids {
      assert (ids + more)[|ids| + i] == more[i];
      assert forall j :: 0 <= j < |ids| ==> (ids + more)[j] == ids[j];
    }
  }

  /** The most create calls one pass can make. */
  function CallBound(autoExecute: bool, maxDiagnose: nat, maxExecute: nat): nat {
    if StartingBudget(autoExecute, maxExecute) == 0 then 0 else maxDiagnose + maxExecute
  }

  ghost predicate AllReadyRipe(s: Sys, config: Config) {
    forall c :: 0 <= c < |s.db.cases| && s.db.cases[c].status in DIAGNOSABLES ==> Ripe(s, c, config)
  }

  ghost predicate AllApprovedPrimed(s: Sys, config: Config) {
    forall c :: 0 <= c < |s.db.cases| && s.db.cases[c].status == Approved ==> Primed(s, c, config)
  }

  /** The calls of a pass whose every call is refused: the ready cases, and then the approved backlog. */
  function RefusedCalls(cases: seq<CaseRow>, maxDiagnose: nat, maxExecute: nat): seq<nat> {
    Take(ReadyList(cases), maxDiagnose) + Take(Newest(cases, Approved), maxExecute)
  }

  lemma BacklogPrimed(s: Sys, backlog: seq<nat>, config: Config)
    requires AllApprovedPrimed(s, config)
    requires forall i :: 0 <= i < |backlog| ==> backlog[i] < |s.db.cases| && s.db.cases[backlog[i]].status == Approved
    ensures AllPrimed(s, backlog, config)
  {
    hide Primed;
  }

  lemma {:induction false} SameNewest(a: seq<CaseRow>, b: seq<CaseRow>, status: Status, n: nat)
    requires n <= |a| == |b| && forall c :: 0 <= c < n ==> (a[c].status == status <==> b[c].status == status)
    ensures NewestBelow(a, status, n) == NewestBelow(b, status, n)
  {
    if n > 0 {
      SameNewest(a, b, status, n - 1);
    }
  }

  lemma {:induction false} WithoutStrangers(ids: seq<nat>, exclude: set<nat>)
    requires forall i :: 0 <= i < |ids| ==> ids[i] !in exclude
    ensures Without(ids, exclude) == ids
  {
    if ids != [] {
      assert forall i :: 0 <= i < |ids[1..]| ==> ids[1..][i] == ids[i + 1];
      WithoutStrangers(ids[1..], exclude);
    }
  }

  /** Holding back cases that are not approved leaves the approved ones as they were. */
  lemma ApprovedAlike(s: Sys, t: Sys, ids: seq<nat>, config: Config)
    requires AllApprovedPrimed(s, config) && HeldAll(s, t, ids)
    requires forall j :: 0 <= j < |ids| ==> ids[j] < |s.db.cases| && s.db.cases[ids[j]].status != Approved
    ensures AllApprovedPrimed(t, config)
    ensures Newest(t.db.cases, Approved) == Newest(s.db.cases, Approved)
  {
    forall c | 0 <= c < |s.db.cases|
      ensures s.db.cases[c].status == Approved <==> t.db.cases[c].status == Approved
      ensures t.db.cases[c].status == Approved ==> Primed(t, c, config)
    {
      if c in ids {
        var j :| 0 <= j < |ids| && ids[j] == c;
      } else if t.db.cases[c].status == Approved {
        assert Primed(s, c, config);
      }
    }
    SameNewest(s.db.cases, t.db.cases, Approved, |s.db.cases|);
  }

  lemma ReadyAreNotApproved(cases: seq<CaseRow>, limit: nat)
    ensures
      var ids := Take(ReadyList(cases), limit);
      forall j :: 0 <= j < |ids| ==> ids[j] < |cases| && cases[ids[j]].status != Approved
  {
    ReadyListDistinct(cases);
    hide ReadyList;
  }

  /** Excluding cases that are not approved excludes nobody. */
  lemma BacklogOfStrangers(cases: seq<CaseRow>, handled: seq<nat>, budget: nat)
    requires forall j :: 0 <= j < |handled| ==> handled[j] < |cases| && cases[handled[j]].status != Approved
    ensures BacklogAfter(cases, handled, budget) == Take(Newest(cases, Approved), budget)
  {
    var exclude := set k | k in handled;
    WithoutStrangers(Newest(cases, Approved), exclude);
  }

  /** What is left for phase three when phase two has held back every ready case. */
  lemma ApprovalsStand(s: Sys, t: Sys, before: seq<nat>, calls: seq<nat>, maxDiagnose: nat, maxExecute: nat,
                       config: Config)
    requires AllApprovedPrimed(s, config)
    requires AllRefused(s, t, before, calls, Take(ReadyList(s.db.cases), maxDiagnose))
    ensures AllApprovedPrimed(t, config)
    ensures calls + BacklogAfter(t.db.cases, Take(ReadyList(s.db.cases), maxDiagnose), maxExecute)
            == before + RefusedCalls(s.db.cases, maxDiagnose, maxExecute)
  {
    var first := Take(ReadyList(s.db.cases), maxDiagnose);
    ReadyAreNotApproved(s.db.cases, maxDiagnose);
    ApprovedAlike(s, t, first, config);
    EscalatedAreNotApproved(s, t, first);
    BacklogOfStrangers(t.db.cases, first, maxExecute);
    hide ReadyList, HeldAll, AllApprovedPrimed, BacklogAfter, Take, Newest;
  }

  lemma EscalatedAreNotApproved(s: Sys, t: Sys, ids: seq<nat>)
    requires HeldAll(s, t, ids)
    ensures forall j :: 0 <= j < |ids| ==> ids[j] < |t.db.cases| && t.db.cases[ids[j]].status != Approved
  {
  }

  lemma CandidatesRipe(s: Sys, limit: nat, config: Config)
    requires AllReadyRipe(s, config)
    ensures AllRipe(s, Take(ReadyList(s.db.cases), limit), config)
  {
    hide Ripe;
    ReadyListDistinct(s.db.cases);
  }

  /** With nothing to open and no candidate, what remains is an approval. */
  lemma NothingReady(db: Db, limit: nat)
    requires limit > 0 && Take(ReadyList(db.cases), limit) == [] && Uncased(db) == [] && Remaining(db) > 0
    ensures SomeApproved(db.cases)
  {
    RestIsApproved(db);
  }

  /** Where a pass stands in its history: when it committed its sweep, listed its candidates, listed the backlog. */
  datatype Marks = Marks(sweptAt: nat, listedAt: nat, drainedAt: nat)

  /** The pass violates a unique constraint: its sweep has been overtaken, or an execution meets a taken reference. */
  ghost predicate RunsIntoUnique(history: seq<Action>, from: nat, sweptAt: nat, me: nat, config: Config)
    requires sweptAt <= |history|
  {
    Overtaken(StateAt(history, sweptAt, config), me) || DuplicateHit(history, from, me, config)
  }

  /**
   * One full pass, with everyone else at work between any two of its transactions.
   * It is stopped exactly when a payment its sweep has listed has been given a case by somebody else, or when an
   * execution of its own meets a recorded provider reference or reference id. Otherwise it handles exactly the
   * first ready cases and then the backlog as far as the budget goes. Executions keep within the budget and create
   * calls within their bound, no case is handled or called for twice, an approved case is left only when the
   * budget was spent, and unless others bring new payments or commit webhooks the work that remains strictly
   * decreases, stopped or not.
   */
  method RunRecoveryCycle(w: World, o: Oracle, me: nat, autoExecute: bool, maxDiscover: nat, maxDiagnose: nat,
                          maxExecute: nat, config: Config)
    returns (report: CycleReport, crashed: bool, ghost marks: Marks)
    requires Ready(w, o, me, config)
    modifies w, w.store
    ensures Ready(w, o, me, config) && GoesOn(old(w.history), w.history, o)
    ensures |old(w.history)| < marks.sweptAt < marks.listedAt <= marks.drainedAt <= |w.history|
    ensures IsSweepOf(w.history[marks.sweptAt], me)
    ensures Lists(StateAt(w.history, marks.sweptAt, config), me, old(w.store.View()), maxDiscover)
    ensures crashed <==> RunsIntoUnique(w.history, |old(w.history)|, marks.sweptAt, me, config)
    ensures DistinctAnswers(w.history, config) && OpensNone(o) ==> !crashed
    ensures Overtaken(StateAt(w.history, marks.sweptAt, config), me) ==>
              report.outcomes == [] && report.discovered == 0 && w.calls == old(w.calls)
    ensures !crashed ==>
              CompletePass(report.outcomes, StateAt(w.history, marks.listedAt, config).db.cases,
                           StateAt(w.history, marks.drainedAt, config).db.cases, maxDiagnose,
                           StartingBudget(autoExecute, maxExecute))
    ensures CountExecuted(report.outcomes) <= StartingBudget(autoExecute, maxExecute)
    ensures |report.outcomes| <= maxDiagnose + StartingBudget(autoExecute, maxExecute)
    ensures Distinct(Ids(report.outcomes))
    ensures SpentBefore(report.outcomes, StartingBudget(autoExecute, maxExecute))
    ensures forall i :: 0 <= i < |report.outcomes| ==> Explained(report.outcomes[i])
    ensures old(w.calls) <= w.calls && Distinct(w.calls[|old(w.calls)|..])
    ensures |w.calls| <= |old(w.calls)| + CallBound(autoExecute, maxDiagnose, maxExecute)
    ensures ExecutedAreCalled(old(w.calls), w.calls, report.outcomes)
    ensures !Overtaken(StateAt(w.history, marks.sweptAt, config), me) ==>
              report.discovered == Min(maxDiscover, |old(Uncased(w.State().db))|)
    ensures report.diagnosed == CountDiagnosed(report.outcomes)
    ensures report.executed == CountExecuted(report.outcomes)
    ensures report.failed == CountFailed(report.outcomes)
    ensures !crashed ==> w.store.log != [] && w.store.log[|w.store.log| - 1] ==
                           RecoveryCycleCompleted(report.diagnosed, report.executed, report.failed)
    ensures (Calm(o) && autoExecute && maxDiscover > 0 && maxDiagnose > 0 && maxExecute > 0
             && old(Remaining(w.State().db)) > 0) ==>
              Remaining(w.State().db) < old(Remaining(w.State().db))
    ensures (Refusing(o) && autoExecute && maxExecute > 0 && old(Uncased(w.State().db)) == []
             && old(AllReadyRipe(w.State(), config) && AllApprovedPrimed(w.State(), config))) ==>
              && w.calls == old(w.calls) + RefusedCalls(old(w.store.cases), maxDiagnose, maxExecute)
              && report.executed == 0
    ensures PassTold(old(w.history), w.history, report.outcomes, crashed, me, config)
    ensures |LinkedCases(Story(w.history, |old(w.history)|, me, config))| == report.executed
            <= StartingBudget(autoExecute, maxExecute)
  {
    hide Remaining, Run, Inv, ReadyList, Uncased, ExecutedAreCalled, CountExecuted, CountDiagnosed, CountFailed,
         Explained, Distinct, Ids, Calm, DuplicateHit, CompletePass, SpentBefore, AllReadyRipe, AllApprovedPrimed,
         CallBound, RefusedCalls, Apply, Take, StateAt, CalmSince, DistinctAnswers, NeverFinishes, OpensNone, Lists,
         Overtaken, RunsIntoUnique, PassTold, Story, LinkedCases, ExecutedIds;
    ghost var start := w.history;
    var discovered, overtaken;
    ghost var sweptAt;
    discovered, overtaken, sweptAt := SweepFirst(w, o, me, maxDiscover, config);
    ghost var listed := w.history;
    NoFinishNoHit(listed, |start|, me, config);
    var outcomes;
    ghost var drainedAt := |listed|;
    if overtaken {
      outcomes, crashed := [], true;
      NothingDone(w.calls, StartingBudget(autoExecute, maxExecute));
      GoesOnStart(listed, o);
      NothingTold(listed, me, config);
    } else {
      outcomes, crashed, drainedAt := RestOfPass(w, o, me, autoExecute, maxDiagnose, maxExecute, config);
    }
    report := CycleReport(
      discovered, CountDiagnosed(outcomes), CountExecuted(outcomes), CountFailed(outcomes), outcomes);
    marks := Marks(sweptAt, |listed|, drainedAt);
    StopDecided(start, listed, w.history, sweptAt, me, config);
    GoesOnJoins(start, listed, w.history, o);
    StoryStart(w.history, me, config);
    ToldFurther(start, listed, w.history, w.history, outcomes, crashed, me, config);
    ToldCounts(start, w.history, outcomes, crashed, me, config);
    StateAtLater(listed, w.history, |listed|, config);
    StateAtLater(listed, w.history, sweptAt, config);
    StateAtNow(listed, config);
    if Calm(o) {
      CalmSteps(listed, w.history, o, config);
    }
    if DistinctAnswers(w.history, config) {
      DistinctAnswersNeverCollide(w.history, |start|, me, config);
    }
  }

  lemma NothingTold(history: seq<Action>, me: nat, config: Config)
    ensures PassTold(history, history, [], true, me, config)
  {
  }

  lemma ToldCounts(first: seq<Action>, now: seq<Action>, outcomes: seq<CycleOutcome>, crashed: bool, me: nat,
                   config: Config)
    requires PassTold(first, now, outcomes, crashed, me, config)
    ensures |LinkedCases(Story(now, |first|, me, config))| == CountExecuted(outcomes)
  {
    hide Story, LinkedCases, AllTold;
  }

  /** An overtaken sweep, or a hit behind it. */
  lemma StopDecided(start: seq<Action>, listed: seq<Action>, end: seq<Action>, sweptAt: nat, me: nat, config: Config)
    requires start <= listed <= end && sweptAt <= |listed| && !DuplicateHit(listed, |start|, me, config)
    ensures RunsIntoUnique(end, |start|, sweptAt, me, config) <==>
            Overtaken(StateAt(listed, sweptAt, config), me) || DuplicateHit(end, |listed|, me, config)
    ensures DuplicateHit(end, |start|, me, config) <==> DuplicateHit(end, |listed|, me, config)
  {
    hide DuplicateHit, StateAt, Overtaken;
    HitJoin(listed, end, |start|, me, config);
    StateAtLater(listed, end, sweptAt, config);
  }

  /** A pass stopped in its sweep has handled nobody and called for nobody. */
  lemma NothingDone(calls: seq<nat>, budget: nat)
    ensures CountExecuted([]) == 0 && SpentBefore([], budget) && Distinct(Ids([]))
    ensures ExecutedAreCalled(calls, calls, []) && Distinct(calls[|calls|..])
  {
  }

  /** Everything behind the sweep. */
  method RestOfPass(w: World, o: Oracle, me: nat, autoExecute: bool, maxDiagnose: nat, maxExecute: nat, config: Config)
    returns (outcomes: seq<CycleOutcome>, crashed: bool, ghost drainedAt: nat)
    requires Ready(w, o, me, config)
    modifies w, w.store
    ensures Ready(w, o, me, config) && GoesOn(old(w.history), w.history, o)
    ensures crashed <==> DuplicateHit(w.history, |old(w.history)|, me, config)
    ensures |old(w.history)| <= drainedAt <= |w.history|
    ensures !crashed ==>
              CompletePass(outcomes, old(w.store.cases), StateAt(w.history, drainedAt, config).db.cases, maxDiagnose,
                           StartingBudget(autoExecute, maxExecute))
    ensures CountExecuted(outcomes) <= StartingBudget(autoExecute, maxExecute)
    ensures |outcomes| <= maxDiagnose + StartingBudget(autoExecute, maxExecute)
    ensures Distinct(Ids(outcomes)) && SpentBefore(outcomes, StartingBudget(autoExecute, maxExecute))
    ensures forall i :: 0 <= i < |outcomes| ==> Explained(outcomes[i])
    ensures old(w.calls) <= w.calls && Distinct(w.calls[|old(w.calls)|..])
    ensures |w.calls| <= |old(w.calls)| + CallBound(autoExecute, maxDiagnose, maxExecute)
    ensures ExecutedAreCalled(old(w.calls), w.calls, outcomes)
    ensures !crashed ==> w.store.log != [] && w.store.log[|w.store.log| - 1] ==
                           RecoveryCycleCompleted(CountDiagnosed(outcomes), CountExecuted(outcomes),
                                                  CountFailed(outcomes))
    ensures (Calm(o) && autoExecute && maxDiagnose > 0 && maxExecute > 0
             && old(Uncased(w.State().db)) == [] && old(Remaining(w.State().db)) > 0) ==>
              Remaining(w.State().db) < old(Remaining(w.State().db))
    ensures (Refusing(o) && autoExecute && maxExecute > 0
             && old(AllReadyRipe(w.State(), config) && AllApprovedPrimed(w.State(), config))) ==>
              && w.calls == old(w.calls) + RefusedCalls(old(w.store.cases), maxDiagnose, maxExecute)
              && CountExecuted(outcomes) == 0 && !crashed
    ensures PassTold(old(w.history), w.history, outcomes, crashed, me, config)
  {
    hide Remaining, Run, Inv, ReadyList, Uncased, ExecutedAreCalled, CountExecuted, CountDiagnosed, CountFailed,
         Explained, Distinct, Ids, Calm, DuplicateHit, CompletePass, SpentBefore, AllReadyRipe, AllApprovedPrimed,
         CallBound, RefusedCalls, Apply, Take, StateAt, CalmSince, PassTold, Story;
    ghost var start := w.history;
    outcomes, crashed, drainedAt := DiagnoseAndDrain(w, o, me, autoExecute, maxDiagnose, maxExecute, config);
    if crashed {
      return;
    }
    ghost var drained := w.history;
    ConcludePass(w, o, me, CountDiagnosed(outcomes), CountExecuted(outcomes), CountFailed(outcomes), config);
    HitJoin(drained, w.history, |start|, me, config);
    StoryStart(start, me, config);
    ToldFurther(start, start, drained, w.history, outcomes, false, me, config);
    StateAtLater(drained, w.history, drainedAt, config);
    GoesOnJoins(start, drained, w.history, o);
    if Calm(o) {
      CalmSteps(drained, w.history, o, config);
    }
  }

  lemma CalmSteps(earlier: seq<Action>, later: seq<Action>, o: Oracle, config: Config)
    requires GoesOn(earlier, later, o) && Calm(o)
    ensures Remaining(Run(INIT, later, config).db) <= Remaining(Run(INIT, earlier, config).db)
  {
    hide Run, Remaining;
    CalmDrains(earlier, later, config);
  }

  /** The pass notes that it is done, as an actor of its own. */
  method ConcludePass(w: World, o: Oracle, me: nat, diagnosed: nat, executed: nat, failed: nat, config: Config)
    requires Ready(w, o, me, config)
    modifies w, w.store
    ensures Ready(w, o, me, config) && GoesOn(old(w.history), w.history, o) && w.calls == old(w.calls)
    ensures !DuplicateHit(w.history, |old(w.history)|, me, config)
    ensures w.store.log != []
            && w.store.log[|w.store.log| - 1] == RecoveryCycleCompleted(diagnosed, executed, failed)
    ensures Story(w.history, |old(w.history)|, me, config) == []
  {
    hide Run, Inv, Calm, DuplicateHit, Story;
    ghost var start := w.history;
    w.Yield(o, me, config);
    ghost var yielded := w.history;
    w.NoteCycleDone(diagnosed, executed, failed, config);
    StoryQuiet(yielded, NoteCycle(diagnosed, executed, failed), me, config);
    StoryEnds(yielded, w.history, |start|, me, config);
    NoFinishNoHit(w.history, |old(w.history)|, me, config);
  }

  /**
   * The background runner for n passes, each with the configured limits; a pass that is stopped is simply
   * followed by the next. Unless others bring new payments or commit webhooks, as many passes as there is work
   * leave nothing to do, whatever the AI and the payment provider answer, whoever else diagnoses and executes,
   * and however many days go by.
   */
  method RunPasses(w: World, o: Oracle, me: nat, passes: nat, autoExecute: bool, maxDiscover: nat, maxDiagnose: nat,
                   maxExecute: nat, config: Config)
    requires Ready(w, o, me, config)
    modifies w, w.store
    ensures Ready(w, o, me, config) && GoesOn(old(w.history), w.history, o)
    ensures (Calm(o) && autoExecute && maxDiscover > 0 && maxDiagnose > 0 && maxExecute > 0
             && passes >= old(Remaining(w.State().db))) ==>
              Remaining(w.State().db) == 0
  {
    hide Remaining, Run, Apply, Inv, Distinct, Ids, CountExecuted, ExecutedAreCalled, Explained, Calm, CalmSince,
         PassTold, Story, LinkedCases,
         CompletePass, SpentBefore, AllReadyRipe, CallBound, ReadyList, Uncased, RunsIntoUnique, Lists, OpensNone;
    NothingRemainsIff(w.State().db);
    GoesOnStart(w.history, o);
    for i := 0 to passes
      invariant Ready(w, o, me, config) && GoesOn(old(w.history), w.history, o)
      invariant Remaining(w.State().db) >= 0
      invariant (Calm(o) && autoExecute && maxDiscover > 0 && maxDiagnose > 0 && maxExecute > 0) ==>
                  Remaining(w.State().db) == 0 || Remaining(w.State().db) <= old(Remaining(w.State().db)) - i
    {
      ghost var before := w.history;
      w.Yield(o, me, config);
      if Calm(o) {
        CalmDrains(before, w.history, config);
      }
      ghost var started := w.history;
      GoesOnJoins(old(w.history), before, started, o);
      NothingRemainsIff(w.State().db);
      var report, crashed, marks :=
        RunRecoveryCycle(w, o, me, autoExecute, maxDiscover, maxDiagnose, maxExecute, config);
      GoesOnJoins(old(w.history), started, w.history, o);
      if Calm(o) {
        CalmDrains(started, w.history, config);
      }
      NothingRemainsIff(w.State().db);
    }
  }
}
