/** Phase one of a pass: the sweep, listed and committed with everyone else at work in between. */
module Discovery {
  import opened Policy
  import opened Records
  import opened Ingestion
  import opened Protocol
  import opened Coherence
  import opened Lifecycle
  import opened Runs
  import opened References
  import opened Deeds
  import opened Backlog
  import opened Worlds
  import opened CaseWork

  // ---- positions in a history ----

  /** The state after the first k actions of a history. */
  function StateAt(history: seq<Action>, k: nat, config: Config): Sys
    requires k <= |history|
  {
    Run(INIT, history[..k], config)
  }

  lemma StateAtLater(earlier: seq<Action>, later: seq<Action>, k: nat, config: Config)
    requires earlier <= later && k <= |earlier|
    ensures StateAt(later, k, config) == StateAt(earlier, k, config)
  {
    assert later[..k] == earlier[..k];
  }

  lemma StateAtNow(history: seq<Action>, config: Config)
    ensures StateAt(history, |history|, config) == Run(INIT, history, config)
  {
    assert history[..|history|] == history;
  }

  /** A calm stretch never makes work. */
  lemma CalmDrains(earlier: seq<Action>, later: seq<Action>, config: Config)
    requires earlier <= later && CalmSince(later, |earlier|)
    ensures Remaining(Run(INIT, later, config).db) <= Remaining(Run(INIT, earlier, config).db)
    ensures Uncased(Run(INIT, earlier, config).db) == [] ==> Uncased(Run(INIT, later, config).db) == []
  {
    hide Run, Remaining, Uncased;
    HistoryProgress(earlier, later, config);
  }

  // ---- who can give a payment its case ----

  /** Ingestion opens cases of new payments only. */
  lemma IngestOpensNew(db: Db, req: IngestRequest, today: int, p: nat)
    requires p < |db.payments|
    ensures HasCase(IngestTxn(db, req, today).0.cases, p) ==> HasCase(db.cases, p)
  {
  }

  lemma SamePayments(a: Db, b: Db, p: nat, day: int, config: Config)
    requires RowsStep(a, b, day, config) && |b.cases| == |a.cases| && HasCase(b.cases, p)
    ensures HasCase(a.cases, p)
  {
    var c :| 0 <= c < |b.cases| && b.cases[c].paymentId == p;
    assert RowStep(a.cases[c], b.cases[c], a.payments[a.cases[c].paymentId], day, config);
    assert a.cases[c].paymentId == p;
  }

  lemma StaysUncased(s: Sys, a: Action, p: nat, config: Config)
    requires Inv(s, config) && !a.OpenCaseFor? && !a.CommitSweep? && p < |s.db.payments|
    ensures p < |Apply(s, a, config).db.payments|
    ensures HasCase(Apply(s, a, config).db.cases, p) ==> HasCase(s.db.cases, p)
  {
    ActionRowsStep(s, a, config);
    if a.Ingest? {
      IngestOpensNew(s.db, a.req, s.today, p);
    } else {
      CasesStand(s, a, config);
      hide Apply, Inv, RowsStep, HasCase;
      if HasCase(Apply(s, a, config).db.cases, p) {
        SamePayments(s.db, Apply(s, a, config).db, p, DayOf(s, a), config);
      }
    }
  }

  lemma {:induction false} RunLeavesUncased(s: Sys, actions: seq<Action>, p: nat, config: Config)
    requires Inv(s, config) && p < |s.db.payments| && !HasCase(s.db.cases, p)
    requires OpensNoneSince(actions, 0)
    ensures p < |Run(s, actions, config).db.payments| && !HasCase(Run(s, actions, config).db.cases, p)
  {
    if actions != [] {
      hide Apply, Inv, HasCase;
      var earlier := actions[..|actions| - 1];
      RunLeavesUncased(s, earlier, p, config);
      RunKeepsInv(s, earlier, config);
      StaysUncased(Run(s, earlier, config), actions[|actions| - 1], p, config);
    }
  }

  /** While nobody else opens cases, a sweep's list stays good. */
  lemma ListStaysGood(earlier: seq<Action>, later: seq<Action>, limit: nat, config: Config)
    requires earlier <= later && OpensNoneSince(later, |earlier|)
    ensures !SomeCased(Run(INIT, later, config).db.cases, FirstUncased(Run(INIT, earlier, config).db, limit))
  {
    hide Run, Inv, HasCase;
    InitInv(config);
    RunKeepsInv(INIT, earlier, config);
    var rest := later[|earlier|..];
    RunConcat(INIT, earlier, rest, config);
    assert later == earlier + rest;
    var s := Run(INIT, earlier, config);
    var payments := FirstUncased(s.db, limit);
    forall k | 0 <= k < |payments| ensures !HasCase(Run(INIT, later, config).db.cases, payments[k]) {
      assert NeedsCase(s.db, payments[k]);
      RunLeavesUncased(s, rest, payments[k], config);
    }
  }

  // ---- what the sweep does to the work that remains ----

  /** Overtaken, the sweep opens nothing; but then somebody else has opened one of its cases. */
  lemma OvertakenDrained(earlier: seq<Action>, later: seq<Action>, limit: nat, config: Config)
    requires earlier <= later && CalmSince(later, |earlier|)
    requires SomeCased(Run(INIT, later, config).db.cases, FirstUncased(Run(INIT, earlier, config).db, limit))
    ensures Remaining(Run(INIT, later, config).db) < Remaining(Run(INIT, earlier, config).db)
  {
    hide Run, Remaining;
    HistoryProgress(earlier, later, config);
    var a, b := Run(INIT, earlier, config).db, Run(INIT, later, config).db;
    var payments := FirstUncased(a, limit);
    var k :| 0 <= k < |payments| && HasCase(b.cases, payments[k]);
    assert NeedsCase(a, payments[k]);
  }

  /** The commit of a sweep that nobody has overtaken lowers what remains by one for each case. */
  lemma SweptDrains(history: seq<Action>, me: nat, day: int, config: Config)
    requires
      var s := Run(INIT, history, config);
      me in s.sweeps && s.sweeps[me].loaded <= day <= s.today && !Overtaken(s, me)
    ensures
      var s := Run(INIT, history, config);
      Remaining(Run(INIT, history + [CommitSweep(me, day)], config).db) == Remaining(s.db) - |s.sweeps[me].payments|
  {
    hide Run, Remaining, Base, Listed;
    InitInv(config);
    RunKeepsInv(INIT, history, config);
    RunPush(INIT, history, CommitSweep(me, day), config);
    var s := Run(INIT, history, config);
    OpenableIff(s.db, s.sweeps[me].payments, day);
    SweepProgress(s.db, s.sweeps[me].payments, day);
  }

  /** The session's sweep has listed the first `limit` of the payments that lacked a case at `start`. */
  predicate Lists(s: Sys, me: nat, start: Db, limit: nat) {
    me in s.sweeps && s.sweeps[me].payments == FirstUncased(start, limit)
  }

  /** From the listing to the commit, when nobody brings in work. */
  lemma SweepDrained(start: seq<Action>, listed: seq<Action>, me: nat, limit: nat, day: int, config: Config)
    requires start <= listed && CalmSince(listed, |start|)
    requires
      var s := Run(INIT, listed, config);
      Lists(s, me, Run(INIT, start, config).db, limit) && s.sweeps[me].loaded <= day <= s.today
    ensures
      var a, s := Run(INIT, start, config).db, Run(INIT, listed, config);
      if Overtaken(s, me) then Remaining(s.db) < Remaining(a)
      else Remaining(Run(INIT, listed + [CommitSweep(me, day)], config).db) <= Remaining(a) - Min(limit, |Uncased(a)|)
  {
    hide Run, Remaining, Uncased, CalmSince;
    if Overtaken(Run(INIT, listed, config), me) {
      OvertakenDrained(start, listed, limit, config);
    } else {
      SweptDrains(listed, me, day, config);
      CalmDrains(start, listed, config);
    }
  }

  lemma CalmSweep(start: seq<Action>, swept: seq<Action>, end: seq<Action>, o: Oracle, config: Config)
    requires Calm(o) && GoesOn(start, swept, o) && GoesOn(swept, end, o)
    ensures Remaining(Run(INIT, end, config).db) <= Remaining(Run(INIT, swept, config).db)
    ensures Uncased(Run(INIT, start, config).db) == [] ==> Uncased(Run(INIT, end, config).db) == []
  {
    hide Run, Remaining, Uncased, CalmSince;
    CalmDrains(start, swept, config);
    CalmDrains(swept, end, config);
  }

  /** A sweep with nothing to list cannot be overtaken. */
  lemma NothingListed(db: Db, cases: seq<CaseRow>, limit: nat)
    ensures Uncased(db) == [] ==> !SomeCased(cases, FirstUncased(db, limit))
  {
  }

  /** The listing, and the reading of the date. */
  method ListFirst(w: World, o: Oracle, me: nat, maxDiscover: nat, config: Config) returns (day: int)
    requires Ready(w, o, me, config)
    modifies w, w.store
    ensures w.Sound(config) && GoesOn(old(w.history), w.history, o) && w.calls == old(w.calls)
    ensures me !in w.sessions && NeverFinishes(w.history, |old(w.history)|, me)
    ensures |old(w.history)| < |w.history|
    ensures Lists(w.State(), me, old(w.store.View()), maxDiscover)
    ensures w.sweeps[me].loaded <= day <= w.today
    ensures OpensNone(o) ==> OpensNoneSince(w.history, |old(w.history)|)
    ensures Refusing(o) ==> w.store.View() == old(w.store.View()) && w.today == old(w.today)
                            && w.sessions == old(w.sessions) && w.creates == old(w.creates)
                            && w.sweeps - {me} == old(w.sweeps)
    ensures Story(w.history, |old(w.history)|, me, config) == []
  {
    hide Run, Inv, Uncased, Calm, Apply, OpensNone, Story;
    ghost var start := w.history;
    w.BeginSweepOf(me, maxDiscover, config);
    ghost var listed := w.history;
    w.Yield(o, me, config);
    ghost var read := w.history;
    StoryEnds(listed, read, |start|, me, config);
    day := w.today;
    w.Yield(o, me, config);
    StoryEnds(read, w.history, |start|, me, config);
  }

  /**
   * The sweep, and whatever the others do before the candidates are listed. A case that somebody else has
   * opened for one of the listed payments stops the pass, and the sweep leaves nothing behind.
   */
  method SweepFirst(w: World, o: Oracle, me: nat, maxDiscover: nat, config: Config)
    returns (discovered: nat, overtaken: bool, ghost sweptAt: nat)
    requires Ready(w, o, me, config)
    modifies w, w.store
    ensures Ready(w, o, me, config) && GoesOn(old(w.history), w.history, o) && w.calls == old(w.calls)
    ensures NeverFinishes(w.history, |old(w.history)|, me)
    ensures |old(w.history)| < sweptAt < |w.history| && IsSweepOf(w.history[sweptAt], me)
    ensures Lists(StateAt(w.history, sweptAt, config), me, old(w.store.View()), maxDiscover)
    ensures overtaken <==> Overtaken(StateAt(w.history, sweptAt, config), me)
    ensures OpensNone(o) ==> !overtaken
    ensures discovered == if overtaken then 0 else Min(maxDiscover, |old(Uncased(w.State().db))|)
    ensures Calm(o) ==> Remaining(w.State().db) <= old(Remaining(w.State().db)) - discovered
    ensures Calm(o) && overtaken ==> Remaining(w.State().db) < old(Remaining(w.State().db))
    ensures Calm(o) && old(Uncased(w.State().db)) == [] ==> Uncased(w.State().db) == []
    ensures Refusing(o) && old(Uncased(w.State().db)) == [] ==> !overtaken && w.State() == old(w.State())
    ensures Story(w.history, |old(w.history)|, me, config) == []
  {
    hide Remaining, Run, Inv, Uncased, Calm, Apply, OpensNone, CalmSince, OpensNoneSince, SweepTxn, NeverFinishes,
         StateAt, HasCase, Story, SomeCased;
    ghost var start := w.history;
    var day := ListFirst(w, o, me, maxDiscover, config);
    ghost var listed := w.history;
    sweptAt := |listed|;
    NothingListed(old(w.store.View()), w.store.cases, maxDiscover);
    StateAtNow(listed, config);
    if OpensNone(o) {
      ListStaysGood(start, listed, maxDiscover, config);
    }
    if Calm(o) {
      SweepDrained(start, listed, me, maxDiscover, day, config);
    }
    discovered, overtaken := CommitListed(w, o, me, day, config);
    ghost var swept := w.history;
    StoryBegins(listed, swept, |start|, me, config);
    GoesOnJoins(start, listed, swept, o);
    NeverFinishesJoin(listed, swept, |start|, me);
    StateAtLater(listed, swept, |listed|, config);
    GoesOnStart(swept, o);
    if !overtaken {
      w.Yield(o, me, config);
      StoryBegins(swept, w.history, |start|, me, config);
      StateAtLater(swept, w.history, |listed|, config);
      NeverFinishesJoin(swept, w.history, |start|, me);
      GoesOnJoins(start, swept, w.history, o);
    }
    if Calm(o) {
      CalmSweep(start, swept, w.history, o, config);
    }
  }

  predicate IsSweepOf(a: Action, me: nat) {
    a.CommitSweep? && a.sid == me
  }

  /** The commit of what was listed; with nothing listed it changes nothing. */
  method CommitListed(w: World, o: Oracle, me: nat, day: int, config: Config) returns (discovered: nat, overtaken: bool)
    requires w.Sound(config) && PeersForeign(o, me) && me !in w.sessions
    requires me in w.sweeps && w.sweeps[me].loaded <= day <= w.today
    modifies w, w.store
    ensures Ready(w, o, me, config) && GoesOn(old(w.history), w.history, o) && w.calls == old(w.calls)
    ensures w.history == old(w.history) + [CommitSweep(me, day)]
    ensures NeverFinishes(w.history, |old(w.history)|, me)
    ensures overtaken <==> old(Overtaken(w.State(), me))
    ensures discovered == if overtaken then 0 else |old(w.sweeps[me].payments)|
    ensures overtaken ==> w.store.View() == old(w.store.View())
    ensures old(w.sweeps[me].payments) == [] ==> w.store.View() == old(w.store.View())
    ensures w.sessions == old(w.sessions) && w.today == old(w.today) && w.creates == old(w.creates)
    ensures w.sweeps == old(w.sweeps) - {me}
    ensures Story(w.history, |old(w.history)|, me, config) == []
  {
    hide Run, Inv, Uncased, Calm, Apply, Story;
    discovered, overtaken := w.CommitSweepOf(me, day, config);
  }
}
