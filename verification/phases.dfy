/** Phases two and three of a pass: the candidates one by one, and the approved backlog one by one. */
module Phases {
  import opened Domain
  import opened Policy
  import opened Ingestion
  import opened Protocol
  import opened Lifecycle
  import opened Runs
  import opened References
  import opened Deeds
  import opened Queue
  import opened Worlds
  import opened Outcomes
  import opened Reports
  import opened CaseWork

  // ---- what refused calls leave behind ----

  ghost predicate AllRipe(s: Sys, ids: seq<nat>, config: Config) {
    forall j :: 0 <= j < |ids| ==> Ripe(s, ids[j], config)
  }

  ghost predicate AllPrimed(s: Sys, ids: seq<nat>, config: Config) {
    forall j :: 0 <= j < |ids| ==> Primed(s, ids[j], config)
  }

  /** These cases were written and are ESCALATED now, and no other case was written. */
  predicate HeldAll(s: Sys, t: Sys, ids: seq<nat>) {
    && t.today == s.today && t.db.payments == s.db.payments && |t.db.cases| == |s.db.cases|
    && (forall d :: 0 <= d < |s.db.cases| && d !in ids ==> t.db.cases[d] == s.db.cases[d])
    && (forall j :: 0 <= j < |ids| ==> ids[j] < |t.db.cases| && t.db.cases[ids[j]].status == Escalated)
  }

  lemma HeldNone(s: Sys)
    ensures HeldAll(s, s, [])
  {
  }

  lemma HeldPush(s: Sys, t: Sys, u: Sys, ids: seq<nat>, c: nat)
    requires HeldAll(s, t, ids) && Held(t, u, c)
    ensures HeldAll(s, u, ids + [c])
  {
    var all := ids + [c];
    forall d | 0 <= d < |s.db.cases| && d !in all ensures u.db.cases[d] == s.db.cases[d] {
      assert all[|ids|] == c;
      assert forall j :: 0 <= j < |ids| ==> all[j] == ids[j];
    }
  }

  /** Each of these cases was called for in turn, refused and held back. */
  predicate AllRefused(s: Sys, t: Sys, before: seq<nat>, calls: seq<nat>, ids: seq<nat>) {
    calls == before + ids && HeldAll(s, t, ids)
  }

  lemma NoneRefused(s: Sys, calls: seq<nat>)
    ensures AllRefused(s, s, calls, calls, [])
  {
    HeldNone(s);
  }

  lemma OneMoreRefused(s: Sys, t: Sys, u: Sys, before: seq<nat>, calls: seq<nat>, next: seq<nat>, ids: seq<nat>, i: nat)
    requires i < |ids| && AllRefused(s, t, before, calls, ids[..i])
    requires next == calls + [ids[i]] && Held(t, u, ids[i])
    ensures AllRefused(s, u, before, next, ids[..i + 1])
  {
    hide HeldAll, Held;
    assert ids[..i + 1] == ids[..i] + [ids[i]];
    HeldPush(s, t, u, ids[..i], ids[i]);
  }

  /** The next of distinct cases is as it was. */
  lemma NextStands(s: Sys, t: Sys, before: seq<nat>, calls: seq<nat>, ids: seq<nat>, i: nat,
                   config: Config)
    requires Distinct(ids) && i < |ids| && AllRefused(s, t, before, calls, ids[..i])
    ensures AllRipe(s, ids, config) ==> Ripe(t, ids[i], config)
    ensures AllPrimed(s, ids, config) ==> Primed(t, ids[i], config)
  {
    NotBefore(ids, i);
    if AllRipe(s, ids, config) {
      assert Ripe(s, ids[i], config);
    }
    if AllPrimed(s, ids, config) {
      assert Primed(s, ids[i], config);
    }
  }

  /**
   * Phase two: every candidate is diagnosed, and executed while the budget lasts. It stops early exactly when
   * an execution of its own meets a recorded reference.
   */
  method DiagnosePhase(w: World, o: Oracle, me: nat, candidates: seq<nat>, autoExecute: bool, budget: nat,
                       config: Config)
    returns (outcomes: seq<CycleOutcome>, left: nat, crashed: bool)
    requires Ready(w, o, me, config) && Distinct(candidates)
    requires !autoExecute ==> budget == 0
    modifies w, w.store
    ensures Ready(w, o, me, config) && GoesOn(old(w.history), w.history, o)
    ensures crashed <==> DuplicateHit(w.history, |old(w.history)|, me, config)
    ensures |outcomes| + (if crashed then 1 else 0) <= |candidates| && Ids(outcomes) == candidates[..|outcomes|]
    ensures !crashed ==> |outcomes| == |candidates|
    ensures candidates == [] ==> w.State() == old(w.State()) && w.history == old(w.history)
    ensures forall i :: 0 <= i < |outcomes| ==> Explained(outcomes[i])
    ensures CountExecuted(outcomes) + left == budget && SpentBefore(outcomes, budget)
    ensures CalledOnce(old(w.calls), w.calls, candidates)
    ensures |w.calls| <= |old(w.calls)| + if budget == 0 then 0 else |candidates|
    ensures ExecutedAreCalled(old(w.calls), w.calls, outcomes)
    ensures MovedOn(old(w.store.cases), w.store.cases, TakenUp(candidates, outcomes, crashed), DIAGNOSABLES)
    ensures Refusing(o) && old(AllRipe(w.State(), candidates, config)) && budget > 0 ==>
              && AllRefused(old(w.State()), w.State(), old(w.calls), w.calls, candidates)
              && CountExecuted(outcomes) == 0 && !crashed
    ensures AccountedSince(old(w.history), w.history, outcomes, TakenUp(candidates, outcomes, crashed), crashed, me,
                           config)
  {
    hide Run, Inv, Apply, CalledOnce, ExecutedAreCalled, Explained, CountExecuted, Ripe, AllRipe, AllPrimed, MovedOn,
         Grown, DuplicateHit, Calm, Held, AllRefused, Story, Accounted, AccountedSince,
         Counted, ProcessStory, ReportsExecution, SpentBefore, Uncased, ReadyList, GoesOn, CalmSince, Distinct,
         Refusing, Primed, Take, Ids, Tallied;
    NoneRefused(w.State(), w.calls);
    AccountNothing(w.history, me, config);
    GoesOnStart(w.history, o);
    outcomes, left, crashed := [], budget, false;
    CalledOnceStart(w.calls);
    ExecutedStart(w.calls);
    CountNone();
    TallyNothing(budget);
    MovedNone(w.store.cases, DIAGNOSABLES);
    NoFinishNoHit(w.history, |w.history|, me, config);
    for i := 0 to |candidates|
      invariant Ready(w, o, me, config) && GoesOn(old(w.history), w.history, o)
      invariant !crashed && !DuplicateHit(w.history, |old(w.history)|, me, config)
      invariant |outcomes| == i && Tallied(outcomes, candidates[..i], left, budget)
      invariant AccountedSince(old(w.history), w.history, outcomes, candidates[..i], false, me, config)
      invariant i == 0 ==> w.State() == old(w.State()) && w.history == old(w.history)
      invariant CalledOnce(old(w.calls), w.calls, candidates[..i])
      invariant |w.calls| <= |old(w.calls)| + if budget == 0 then 0 else i
      invariant ExecutedAreCalled(old(w.calls), w.calls, outcomes)
      invariant MovedOn(old(w.store.cases), w.store.cases, candidates[..i], DIAGNOSABLES)
      invariant Refusing(o) && old(AllRipe(w.State(), candidates, config)) && budget > 0 ==>
                  && AllRefused(old(w.State()), w.State(), old(w.calls), w.calls, candidates[..i])
                  && left == budget
    {
      ghost var calls, history, before := w.calls, w.history, w.State();
      if AllRefused(old(w.State()), before, old(w.calls), calls, candidates[..i]) {
        NextStands(old(w.State()), before, old(w.calls), calls, candidates, i, config);
      }
      var outcome, stop := ProcessCase(w, o, me, candidates[i], autoExecute, left, config);
      TallyGives(outcomes, candidates[..i], left, budget);
      CallsOn(old(w.calls), calls, w.calls, candidates, i, outcomes, outcome);
      AccountOn(old(w.history), history, w.history, outcomes, candidates, i, outcome, stop, o, me, config);
      HistoryOn(old(w.history), history, w.history, candidates, i, DIAGNOSABLES, o, me, config);
      assert candidates[..i + 1] == candidates[..i] + [candidates[i]];
      if stop {
        crashed := true;
        return;
      }
      TallyPush(outcomes, candidates[..i], left, budget, outcome);
      if && AllRefused(old(w.State()), before, old(w.calls), calls, candidates[..i])
         && w.calls == calls + [candidates[i]] && Held(before, w.State(), candidates[i]) {
        OneMoreRefused(old(w.State()), before, w.State(), old(w.calls), calls, w.calls, candidates, i);
      }
      if outcome.executed {
        left := left - 1;
      }
      outcomes := outcomes + [outcome];
    }
    TallyGives(outcomes, candidates[..|candidates|], left, budget);
    assert candidates[..|candidates|] == candidates;
  }

  /** One more case: the calls so far stay single, and each executed outcome has its call. */
  lemma CallsOn(before: seq<nat>, calls: seq<nat>, next: seq<nat>, ids: seq<nat>, i: nat,
                outcomes: seq<CycleOutcome>, outcome: CycleOutcome)
    requires Distinct(ids) && i < |ids| && outcome.caseId == ids[i]
    requires CalledOnce(before, calls, ids[..i]) && ExecutedAreCalled(before, calls, outcomes)
    requires next == calls || next == calls + [ids[i]]
    requires outcome.executed ==> next == calls + [ids[i]]
    ensures CalledOnce(before, next, ids[..i + 1]) && CalledOnce(before, next, ids)
    ensures ExecutedAreCalled(before, next, outcomes) && ExecutedAreCalled(before, next, outcomes + [outcome])
  {
    NotBefore(ids, i);
    CalledOncePush(before, calls, next, ids[..i], ids[i]);
    assert ids[..i + 1] == ids[..i] + [ids[i]];
    CalledOnceWiden(before, next, ids[..i + 1], ids);
    ExecutedPush(before, calls, next, outcomes, outcome);
  }

  /** What has been done since is what these outcomes say, and unless it was cut short the verdicts are theirs. */
  ghost predicate AccountedSince(first: seq<Action>, now: seq<Action>, outcomes: seq<CycleOutcome>, ids: seq<nat>,
                                 crashed: bool, me: nat, config: Config)
  {
    var story := Story(now, |first|, me, config);
    Accounted(outcomes, story, ids) && (!crashed ==> DecidedCases(story) == DiagnosedIds(outcomes))
  }

  /**
   * The report of a pass is what the pass has done: each outcome by the deeds about its case, the executed ones by
   * the links put on record, in order, and unless it was cut short the diagnosed ones by the verdicts.
   */
  ghost predicate PassTold(first: seq<Action>, now: seq<Action>, outcomes: seq<CycleOutcome>, crashed: bool, me: nat,
                           config: Config)
  {
    var story := Story(now, |first|, me, config);
    && AllTold(outcomes, story) && LinkedCases(story) == ExecutedIds(outcomes)
    && (!crashed ==> DecidedCases(story) == DiagnosedIds(outcomes))
  }

  lemma AccountedIsTold(first: seq<Action>, now: seq<Action>, outcomes: seq<CycleOutcome>, ids: seq<nat>, crashed: bool,
                        me: nat, config: Config)
    requires AccountedSince(first, now, outcomes, ids, crashed, me, config)
    ensures PassTold(first, now, outcomes, crashed, me, config)
  {
    hide Story, AllTold, LinkedCases, DecidedCases, OnlyOn;
  }

  /** Nothing of its own before, or since: the same is told. */
  lemma ToldFurther(first: seq<Action>, from: seq<Action>, now: seq<Action>, later: seq<Action>,
                    outcomes: seq<CycleOutcome>, crashed: bool, me: nat, config: Config)
    requires first <= from <= now <= later && PassTold(from, now, outcomes, crashed, me, config)
    requires Story(from, |first|, me, config) == [] && Story(later, |now|, me, config) == []
    ensures PassTold(first, later, outcomes, crashed, me, config)
  {
    hide Story;
    StoryBegins(from, now, |first|, me, config);
    StoryEnds(now, later, |first|, me, config);
  }

  /** The backlog's part of the account, on cases not handled before. */
  ghost predicate DrainTold(first: seq<Action>, now: seq<Action>, handled: seq<nat>, outcomes: seq<CycleOutcome>,
                            crashed: bool, me: nat, config: Config)
  {
    exists taken :: AccountedSince(first, now, outcomes, taken, crashed, me, config) && Apart(taken, handled)
  }

  predicate Apart(ids: seq<nat>, handled: seq<nat>) {
    forall i :: 0 <= i < |ids| ==> ids[i] !in handled
  }

  /** Phase two in full, and then phase three. */
  lemma TogetherTold(first: seq<Action>, middle: seq<Action>, now: seq<Action>, outcomes: seq<CycleOutcome>,
                     more: seq<CycleOutcome>, crashed: bool, me: nat, config: Config)
    requires first <= middle <= now
    requires AccountedSince(first, middle, outcomes, Ids(outcomes), false, me, config)
    requires DrainTold(middle, now, Ids(outcomes), more, crashed, me, config) && Apart(Ids(more), Ids(outcomes))
    ensures PassTold(first, now, outcomes + more, crashed, me, config)
  {
    var taken :| AccountedSince(middle, now, more, taken, crashed, me, config) && Apart(taken, Ids(outcomes));
    StoryJoin(middle, now, |first|, me, config);
    hide Story;
    var (story, next) := (Story(middle, |first|, me, config), Story(now, |middle|, me, config));
    forall i | 0 <= i < |outcomes| ensures outcomes[i].caseId !in taken {
      assert Ids(outcomes)[i] == outcomes[i].caseId;
    }
    forall i | 0 <= i < |more| ensures more[i].caseId !in Ids(outcomes) {
      assert Ids(more)[i] == more[i].caseId;
    }
    hide Accounted, LinkedCases, DecidedCases, ExecutedIds, DiagnosedIds, Ids, AllTold;
    PhasesAccounted(outcomes, story, Ids(outcomes), more, next, taken);
    DecidedConcat(story, next);
    ExecutedIdsJoin(outcomes, more);
    AccountGives(outcomes + more, story + next, Ids(outcomes) + taken);
  }

  lemma AccountGives(outcomes: seq<CycleOutcome>, story: seq<Deed>, ids: seq<nat>)
    requires Accounted(outcomes, story, ids)
    ensures AllTold(outcomes, story) && LinkedCases(story) == ExecutedIds(outcomes)
  {
    hide AllTold, LinkedCases, ExecutedIds, OnlyOn;
  }

  lemma AccountNothing(history: seq<Action>, me: nat, config: Config)
    ensures AccountedSince(history, history, [], [], false, me, config)
  {
    StoryStart(history, me, config);
    NothingAccounted();
  }

  /** One more case, or the one that cuts the phase short. */
  lemma AccountOn(first: seq<Action>, history: seq<Action>, next: seq<Action>, outcomes: seq<CycleOutcome>,
                  ids: seq<nat>, i: nat, outcome: CycleOutcome, stop: bool, o: Oracle, me: nat, config: Config)
    requires GoesOn(first, history, o) && GoesOn(history, next, o)
    requires i < |ids| && Distinct(ids) && Ids(outcomes) == ids[..i]
    requires AccountedSince(first, history, outcomes, ids[..i], false, me, config)
    requires Counted(ids[i], Story(next, |history|, me, config), outcome, stop) && outcome.caseId == ids[i]
    ensures AccountedSince(first, next, if stop then outcomes else outcomes + [outcome], ids[..i + 1], stop, me, config)
  {
    hide Story, Accounted, Counted, Ids, DecidedCases, DiagnosedIds, CalmSince;
    NotBefore(ids, i);
    assert ids[..i + 1] == ids[..i] + [ids[i]];
    StoryJoin(history, next, |first|, me, config);
    var (story, more) := (Story(history, |first|, me, config), Story(next, |history|, me, config));
    if stop {
      CutShort(outcomes, story, ids[..i], ids[i], more, outcome);
    } else {
      OneMoreAccounted(outcomes, story, ids[..i], ids[i], more, outcome);
    }
  }

  /** One more stretch of history: it goes on, the cases taken up have moved, and a hit is a hit in either part. */
  lemma HistoryOn(first: seq<Action>, history: seq<Action>, next: seq<Action>, ids: seq<nat>, i: nat,
                  statuses: set<Status>, o: Oracle, me: nat, config: Config)
    requires GoesOn(first, history, o) && GoesOn(history, next, o) && i < |ids|
    requires
      var a, b, c := Run(INIT, first, config).db.cases, Run(INIT, history, config).db.cases,
                     Run(INIT, next, config).db.cases;
      && MovedOn(a, b, ids[..i], statuses)
      && ((ids[i] < |b| && b[ids[i]].status in statuses) ==> Advanced(b, c, ids[i]))
    ensures GoesOn(first, next, o)
    ensures MovedOn(Run(INIT, first, config).db.cases, Run(INIT, next, config).db.cases, ids[..i + 1], statuses)
    ensures DuplicateHit(next, |first|, me, config) <==>
            DuplicateHit(history, |first|, me, config) || DuplicateHit(next, |history|, me, config)
  {
    hide Run, MovedOn, Grown, Calm, DuplicateHit;
    LongerHistoryGrows(first, history, config);
    LongerHistoryGrows(history, next, config);
    MovedPush(Run(INIT, first, config).db.cases, Run(INIT, history, config).db.cases, Run(INIT, next, config).db.cases,
              ids[..i], ids[i], statuses);
    assert ids[..i + 1] == ids[..i] + [ids[i]];
    HitJoin(history, next, |first|, me, config);
  }

  /** Phase three: approved cases left by earlier cycles, while the budget lasts. */
  method DrainPhase(w: World, o: Oracle, me: nat, backlog: seq<nat>, budget: nat, config: Config)
    returns (outcomes: seq<CycleOutcome>, left: nat, crashed: bool)
    requires Ready(w, o, me, config) && Distinct(backlog) && budget > 0
    modifies w, w.store
    ensures Ready(w, o, me, config) && GoesOn(old(w.history), w.history, o)
    ensures crashed <==> DuplicateHit(w.history, |old(w.history)|, me, config)
    ensures |outcomes| + (if crashed then 1 else 0) <= |backlog| && Ids(outcomes) == backlog[..|outcomes|]
    ensures !crashed ==> |outcomes| == |backlog| || left == 0
    ensures backlog != [] ==> |outcomes| > 0 || crashed
    ensures forall i :: 0 <= i < |outcomes| ==> Explained(outcomes[i])
    ensures CountExecuted(outcomes) + left == budget && NoneApproved(outcomes)
    ensures CalledOnce(old(w.calls), w.calls, backlog) && |w.calls| <= |old(w.calls)| + |backlog|
    ensures ExecutedAreCalled(old(w.calls), w.calls, outcomes)
    ensures MovedOn(old(w.store.cases), w.store.cases, TakenUp(backlog, outcomes, crashed), {Approved})
    ensures Refusing(o) && old(AllPrimed(w.State(), backlog, config)) ==>
              && AllRefused(old(w.State()), w.State(), old(w.calls), w.calls, backlog)
              && CountExecuted(outcomes) == 0 && !crashed
    ensures AccountedSince(old(w.history), w.history, outcomes, TakenUp(backlog, outcomes, crashed), crashed, me,
                           config)
  {
    hide Run, Inv, Apply, CalledOnce, ExecutedAreCalled, Explained, CountExecuted, MovedOn, Grown, DuplicateHit, Calm,
         AllPrimed, Primed, Held, AllRefused, Story, Accounted, AccountedSince,
         Counted, ProcessStory, ReportsExecution, Refusing, Uncased, ReadyList, GoesOn, CalmSince, Distinct,
         Ids, Take, NoneApproved;
    NoneRefused(w.State(), w.calls);
    AccountNothing(w.history, me, config);
    GoesOnStart(w.history, o);
    outcomes, left, crashed := [], budget, false;
    CalledOnceStart(w.calls);
    ExecutedStart(w.calls);
    CountNone();
    MovedNone(w.store.cases, {Approved});
    NobodyApproved();
    assert Ids([]) == [];
    NoFinishNoHit(w.history, |w.history|, me, config);
    for i := 0 to |backlog|
      invariant Ready(w, o, me, config) && GoesOn(old(w.history), w.history, o)
      invariant !crashed && !DuplicateHit(w.history, |old(w.history)|, me, config)
      invariant |outcomes| == i && Ids(outcomes) == backlog[..i]
      invariant AccountedSince(old(w.history), w.history, outcomes, backlog[..i], false, me, config)
      invariant forall j :: 0 <= j < i ==> Explained(outcomes[j])
      invariant CountExecuted(outcomes) + left == budget && NoneApproved(outcomes)
      invariant CalledOnce(old(w.calls), w.calls, backlog[..i]) && |w.calls| <= |old(w.calls)| + i
      invariant ExecutedAreCalled(old(w.calls), w.calls, outcomes)
      invariant MovedOn(old(w.store.cases), w.store.cases, backlog[..i], {Approved})
      invariant i == 0 ==> left > 0
      invariant Refusing(o) && old(AllPrimed(w.State(), backlog, config)) ==>
                  && AllRefused(old(w.State()), w.State(), old(w.calls), w.calls, backlog[..i])
                  && CountExecuted(outcomes) == 0
    {
      if left == 0 {
        CalledOnceWiden(old(w.calls), w.calls, backlog[..i], backlog);
        return;
      }
      ghost var calls, history, before := w.calls, w.history, w.State();
      if AllRefused(old(w.State()), before, old(w.calls), calls, backlog[..i]) {
        NextStands(old(w.State()), before, old(w.calls), calls, backlog, i, config);
      }
      var outcome, stop := ExecuteApprovedCase(w, o, me, backlog[i], config);
      CallsOn(old(w.calls), calls, w.calls, backlog, i, outcomes, outcome);
      AccountOn(old(w.history), history, w.history, outcomes, backlog, i, outcome, stop, o, me, config);
      HistoryOn(old(w.history), history, w.history, backlog, i, {Approved}, o, me, config);
      assert backlog[..i + 1] == backlog[..i] + [backlog[i]];
      if stop {
        crashed := true;
        return;
      }
      CountPush(outcomes, outcome);
      IdsPush(outcomes, outcome);
      NoneApprovedPush(outcomes, outcome);
      if && AllRefused(old(w.State()), before, old(w.calls), calls, backlog[..i])
         && w.calls == calls + [backlog[i]] && Held(before, w.State(), backlog[i]) {
        OneMoreRefused(old(w.State()), before, w.State(), old(w.calls), calls, w.calls, backlog, i);
      }
      if outcome.executed {
        left := left - 1;
      }
      outcomes := outcomes + [outcome];
    }
    assert backlog[..|backlog|] == backlog;
  }
}
