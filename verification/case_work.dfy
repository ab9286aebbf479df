/** The cycle's work on one case, with everyone else at work between any two of its transactions. */
module CaseWork {
  import opened Domain
  import opened Policy
  import opened AiService
  import opened Records
  import Diagnosis
  import opened Execution
  import opened Protocol
  import opened Lifecycle
  import opened Runs
  import opened References
  import opened Deeds
  import opened Backlog
  import opened Worlds
  import opened Outcomes
  import opened Reports

  /** This session may act: the state is a run's, its peers are others, and it has nothing in flight. */
  ghost predicate Ready(w: World, o: Oracle, me: nat, config: Config)
    reads w, w.store
  {
    w.Sound(config) && PeersForeign(o, me) && me !in w.sessions && me !in w.sweeps
  }

  /** The history has gone on, calmly if the peers are calm. */
  ghost predicate GoesOn(earlier: seq<Action>, later: seq<Action>, o: Oracle) {
    earlier <= later && (Calm(o) ==> CalmSince(later, |earlier|))
  }

  lemma GoesOnStart(history: seq<Action>, o: Oracle)
    ensures GoesOn(history, history, o)
  {
  }

  lemma GoesOnJoins(a: seq<Action>, b: seq<Action>, c: seq<Action>, o: Oracle)
    requires GoesOn(a, b, o) && GoesOn(b, c, o)
    ensures GoesOn(a, c, o)
  {
    hide Calm;
  }

  lemma GoesOnPush(history: seq<Action>, a: Action, o: Oracle)
    requires CalmAction(a)
    ensures GoesOn(history, history + [a], o)
  {
    hide Calm;
  }

  // ---- a provider that refuses every link ----

  ghost predicate Alone(o: Oracle) {
    forall k: nat :: o.peers(k) == []
  }

  /** Nobody else acts, the AI is certain of a payment link every time, and the provider refuses to make any. */
  ghost predicate Refusing(o: Oracle) {
    && Alone(o) && (forall k: nat :: o.provider(k) == Raised(AuthError))
    && (forall k: nat, j: nat :: o.ai(k)(j) == Answer(Recommendation(SendPaymentLink, 1.0)))
  }

  /** A confident proposal of a link would be approved today. */
  predicate Ripe(s: Sys, c: nat, config: Config) {
    && c < |s.db.cases|
    && var row := s.db.cases[c];
       && Diagnosis.Diagnosable(row.status) && row.paymentId < |s.db.payments|
       && Diagnosis.PaymentEligible(s.db.payments[row.paymentId])
       && StandingFacts(SendPaymentLink, row.contactCount, 1.0, s.db.payments[row.paymentId].amount, config)
       && WindowOpen(row, s.today, config)
  }

  /** An approval that holds today. */
  predicate Primed(s: Sys, c: nat, config: Config) {
    && c < |s.db.cases|
    && var row := s.db.cases[c];
       && row.status == Approved && row.paymentId < |s.db.payments|
       && row.action == Some(SendPaymentLink) && row.confidence == Some(1.0)
       && StandingFacts(SendPaymentLink, row.contactCount, 1.0, s.db.payments[row.paymentId].amount, config)
       && WindowOpen(row, s.today, config)
  }

  lemma RipeIsApproved(s: Sys, t: Sys, c: nat, provider: nat -> AiResponse, maxRetries: int, config: Config)
    requires Ripe(s, c, config) && provider(0) == Answer(Recommendation(SendPaymentLink, 1.0))
    requires t.today == s.today
    requires t.db == Diagnosis.DiagnosisTxn(s.db, c, s.db.cases[c], Recommend(provider, maxRetries), s.today, config).0
    ensures Primed(t, c, config) && OnlyCase(s, t, c)
    ensures Diagnosis.DiagnosisTxn(s.db, c, s.db.cases[c], Recommend(provider, maxRetries), s.today, config).1
            == Diagnosis.Diagnosis(Approved)
  {
    Diagnosis.VerdictExact(s.db.cases[c], s.db.payments[s.db.cases[c].paymentId], Recommend(provider, maxRetries),
                           s.today, config);
    hide Evaluate, Diagnosis.Trail;
  }

  lemma PrimedEnters(s: Sys, t: Sys, c: nat, config: Config)
    requires Primed(s, c, config) && t.today == s.today
    requires t.db == EnterTxn(s.db, c, s.db.cases[c], s.today, config).0
    ensures EnterTxn(s.db, c, s.db.cases[c], s.today, config).1.Entered? && OnlyCase(s, t, c)
    ensures t.db.cases[c] == EnterTxn(s.db, c, s.db.cases[c], s.today, config).1.row
  {
    var amount := s.db.payments[s.db.cases[c].paymentId].amount;
    StandingApprovalRecheck(RecheckInput(s.db.cases[c], amount, s.today), config);
    hide Evaluate, EnterTrail;
  }

  /** Case c was written and is ESCALATED now, and no other case was written. */
  predicate Held(s: Sys, t: Sys, c: nat) {
    OnlyCase(s, t, c) && c < |t.db.cases| && t.db.cases[c].status == Escalated
  }

  // ---- one case ----

  /** Others may act before the load, while the AI thinks, and between reading the date and the commit. */
  method DiagnoseCase(w: World, o: Oracle, me: nat, c: nat, config: Config) returns (reply: Diagnosis.DiagnosisReply)
    requires Ready(w, o, me, config)
    modifies w, w.store
    ensures Ready(w, o, me, config) && w.calls == old(w.calls) && GoesOn(old(w.history), w.history, o)
    ensures NeverFinishes(w.history, |old(w.history)|, me)
    ensures reply.Diagnosis? ==>
              w.CaseIs(c, reply.status) && reply.status in {Approved, Stopped, Escalated, Ineligible}
    ensures (c < old(|w.store.cases|) && Diagnosis.Diagnosable(old(w.store.cases)[c].status)) ==>
              Advanced(old(w.store.cases), w.store.cases, c)
    ensures Refusing(o) && old(Ripe(w.State(), c, config)) ==>
              reply == Diagnosis.Diagnosis(Approved) && Primed(w.State(), c, config)
              && OnlyCase(old(w.State()), w.State(), c)
    ensures Story(w.history, |old(w.history)|, me, config) ==
            if reply.Diagnosis? then [Decided(c, reply.status)] else []
  {
    hide Inv, Run, Apply, Calm, CalmSince, Ripe, Primed, Story, NeverFinishes, Grown, Advanced, OnlyCase;
    ghost var start, rows := w.history, w.store.cases;
    w.Yield(o, me, config);
    ghost var yielded, found := w.history, w.store.cases;
    LongerHistoryGrows(start, yielded, config);
    WasReady(rows, found, c);
    if Ripe(w.State(), c, config) {
      RipeMeans(w.State(), c, config);
    }
    if c >= |w.store.cases| {
      return Diagnosis.NotFound;
    }
    if w.store.cases[c].status !in {Discovered, Eligible, Failed} {
      return Diagnosis.IllegalTransition;
    }
    reply := LoadAndDiagnose(w, o, me, c, config);
    StoryBegins(yielded, w.history, |start|, me, config);
    GoesOnJoins(start, yielded, w.history, o);
    NeverFinishesJoin(yielded, w.history, |start|, me);
    GrownAdvances(rows, found, w.store.cases, c);
  }

  method LoadAndDiagnose(w: World, o: Oracle, me: nat, c: nat, config: Config) returns (reply: Diagnosis.DiagnosisReply)
    requires Ready(w, o, me, config) && c < |w.store.cases| && Diagnosis.Diagnosable(w.store.cases[c].status)
    modifies w, w.store
    ensures Ready(w, o, me, config) && w.calls == old(w.calls) && GoesOn(old(w.history), w.history, o)
    ensures NeverFinishes(w.history, |old(w.history)|, me)
    ensures reply.Diagnosis? ==>
              w.CaseIs(c, reply.status) && reply.status in {Approved, Stopped, Escalated, Ineligible}
    ensures c < |w.store.cases| && w.store.cases[c].version > old(w.store.cases[c].version)
    ensures Refusing(o) && old(Ripe(w.State(), c, config)) ==>
              reply == Diagnosis.Diagnosis(Approved) && Primed(w.State(), c, config)
              && OnlyCase(old(w.State()), w.State(), c)
    ensures Story(w.history, |old(w.history)|, me, config) ==
            if reply.Diagnosis? then [Decided(c, reply.status)] else []
  {
    hide Inv, Run, Apply, Calm, CalmSince, Ripe, Primed, Story, NeverFinishes;
    ghost var start, before := w.history, w.State();
    w.BeginDiagnosisOf(me, c, config);
    ghost var loaded := w.history;
    GoesOnPush(start, BeginDiagnosis(me, c), o);
    BeginningFinishesNothing(start, me, c);
    SameDbSame(before, w.State(), c, config);
    reply := DiagnoseLoaded(w, o, me, c, config);
    StoryBegins(loaded, w.history, |start|, me, config);
    GoesOnJoins(start, loaded, w.history, o);
    NeverFinishesJoin(loaded, w.history, |start|, me);
  }

  /** A case that is not ready any more has been written. */
  lemma WasReady(a: seq<CaseRow>, b: seq<CaseRow>, c: nat)
    requires Grown(a, b)
    ensures (c < |a| && Diagnosis.Diagnosable(a[c].status)
             && (c >= |b| || b[c].status !in {Discovered, Eligible, Failed})) ==> Advanced(a, b, c)
  {
  }

  lemma BeginningFinishesNothing(history: seq<Action>, me: nat, c: nat)
    ensures NeverFinishes(history + [BeginDiagnosis(me, c)], |history|, me)
  {
  }

  lemma SameDbSame(s: Sys, t: Sys, c: nat, config: Config)
    requires t.db == s.db && t.today == s.today
    ensures Ripe(t, c, config) == Ripe(s, c, config) && Primed(t, c, config) == Primed(s, c, config)
  {
  }

  lemma RipeMeans(s: Sys, c: nat, config: Config)
    requires Ripe(s, c, config)
    ensures c < |s.db.cases| && s.db.cases[c].status in {Discovered, Eligible, Failed}
  {
  }

  lemma PrimedMeans(s: Sys, c: nat, config: Config)
    requires Primed(s, c, config)
    ensures c < |s.db.cases| && s.db.cases[c].status == Approved
  {
  }

  /** From the load to the commit: the AI is asked, the date is read, the verdict is committed. */
  method DiagnoseLoaded(w: World, o: Oracle, me: nat, c: nat, config: Config)
    returns (reply: Diagnosis.DiagnosisReply)
    requires w.Sound(config) && PeersForeign(o, me) && me !in w.sweeps
    requires me in w.sessions && w.sessions[me].DiagnosisOpen? && w.sessions[me].c == c
    requires w.sessions[me].loaded == w.today
    modifies w, w.store
    ensures Ready(w, o, me, config) && w.calls == old(w.calls) && GoesOn(old(w.history), w.history, o)
    ensures NeverFinishes(w.history, |old(w.history)|, me)
    ensures reply.Diagnosis? ==>
              w.CaseIs(c, reply.status) && reply.status in {Approved, Stopped, Escalated, Ineligible}
    ensures c < |w.store.cases| && w.store.cases[c].version > old(w.sessions[me].snap.version)
    ensures Refusing(o) && old(Ripe(w.State(), c, config) && LoadedNow(w, me)) ==>
              reply == Diagnosis.Diagnosis(Approved) && Primed(w.State(), c, config)
              && OnlyCase(old(w.State()), w.State(), c)
    ensures Story(w.history, |old(w.history)|, me, config) ==
            if reply.Diagnosis? then [Decided(c, reply.status)] else []
  {
    hide Inv, Run, Apply, Diagnosis.DiagnosisTxn, Calm, Recommend, Ripe, Primed, Story;
    ghost var start := w.history;
    w.Yield(o, me, config);
    ghost var first := w.history;
    var day := w.today;
    w.Yield(o, me, config);
    StoryEnds(first, w.history, |start|, me, config);
    ghost var before, k, second := w.State(), w.clock, w.history;
    reply := w.CommitDiagnosisOf(o, me, day, config);
    StoryBegins(second, w.history, |start|, me, config);
    if Refusing(o) && old(Ripe(w.State(), c, config) && LoadedNow(w, me)) {
      RipeIsApproved(before, w.State(), c, o.ai(k), o.maxRetries, config);
    }
  }

  /** The session holds the row as it is committed. */
  ghost predicate LoadedNow(w: World, me: nat)
    reads w, w.store
  {
    && me in w.sessions && w.sessions[me].c < |w.store.cases|
    && w.store.cases[w.sessions[me].c] == w.sessions[me].snap
  }

  /** Executes one case: the entry, the attempt, the one create call and the outcome, with everyone else in between. */
  method ExecuteCase(w: World, o: Oracle, me: nat, c: nat, config: Config) returns (result: ExecutionResult)
    requires Ready(w, o, me, config)
    modifies w, w.store
    ensures Ready(w, o, me, config) && GoesOn(old(w.history), w.history, o)
    ensures w.calls == old(w.calls) || w.calls == old(w.calls) + [c]
    ensures result.Launched? ==> w.calls == old(w.calls) + [c] && result.status == Executing && w.CaseIs(c, Executing)
    ensures result.HeldBack? ==> result.status == Escalated && w.CaseIs(c, Escalated)
    ensures result.Crashed? <==> DuplicateHit(w.history, |old(w.history)|, me, config)
    ensures (c < old(|w.store.cases|) && old(w.store.cases)[c].status == Approved) ==>
              Advanced(old(w.store.cases), w.store.cases, c)
    ensures Alone(o) && old(Primed(w.State(), c, config)) ==>
              result != Refused && w.calls == old(w.calls) + [c] && OnlyCase(old(w.State()), w.State(), c)
    ensures
      var story := Story(w.history, |old(w.history)|, me, config);
      && ExecutionStory(c, story, result) && HeardFrom(o.provider, o.lookup, story)
      && w.calls == old(w.calls) + if |story| >= 2 then [c] else []
  {
    hide Inv, Run, Apply, EnterTxn, Calm, DuplicateHit, Primed, NeverFinishes, Grown, Advanced, OnlyCase, CalmSince,
         Story, ExecutionStory, HeardFrom;
    w.Yield(o, me, config);
    ghost var yielded, rows := w.history, w.store.cases;
    LongerHistoryGrows(old(w.history), yielded, config);
    NoFinishNoHit(yielded, |old(w.history)|, me, config);
    if Primed(w.State(), c, config) {
      PrimedMeans(w.State(), c, config);
    }
    if c >= |w.store.cases| || !CanTransition(w.store.cases[c].status, Executing) {
      WrittenAdvances(old(w.store.cases), rows, c, Approved);
      HeardNothing(o.provider, o.lookup);
      NothingExecuted(c);
      return Refused;
    }
    result := LoadAndExecute(w, o, me, c, config);
    StoryBegins(yielded, w.history, |old(w.history)|, me, config);
    HitJoin(yielded, w.history, |old(w.history)|, me, config);
    GoesOnJoins(old(w.history), yielded, w.history, o);
    GrownAdvances(old(w.store.cases), rows, w.store.cases, c);
  }

  method LoadAndExecute(w: World, o: Oracle, me: nat, c: nat, config: Config) returns (result: ExecutionResult)
    requires Ready(w, o, me, config) && w.CaseIs(c, Approved)
    modifies w, w.store
    ensures Ready(w, o, me, config) && GoesOn(old(w.history), w.history, o)
    ensures w.calls == old(w.calls) || w.calls == old(w.calls) + [c]
    ensures result.Launched? ==> w.calls == old(w.calls) + [c] && result.status == Executing && w.CaseIs(c, Executing)
    ensures result.HeldBack? ==> result.status == Escalated && w.CaseIs(c, Escalated)
    ensures result.Crashed? <==> DuplicateHit(w.history, |old(w.history)|, me, config)
    ensures c < |w.store.cases| && w.store.cases[c].version > old(w.store.cases[c].version)
    ensures Alone(o) && old(Primed(w.State(), c, config)) ==>
              result != Refused && w.calls == old(w.calls) + [c] && OnlyCase(old(w.State()), w.State(), c)
    ensures
      var story := Story(w.history, |old(w.history)|, me, config);
      && ExecutionStory(c, story, result) && HeardFrom(o.provider, o.lookup, story)
      && w.calls == old(w.calls) + if |story| >= 2 then [c] else []
  {
    hide Inv, Run, Apply, EnterTxn, Calm, DuplicateHit, Primed, NeverFinishes, CalmSince, Story, ExecutionStory,
         HeardFrom;
    ghost var start, before := w.history, w.State();
    w.BeginExecutionOf(me, c, config);
    GoesOnPush(start, BeginExecution(me, c), o);
    SameDbSame(before, w.State(), c, config);
    ghost var loaded := w.history;
    BeginningHitsNothing(start, me, c, config);
    result := ExecuteLoaded(w, o, me, c, config);
    StoryBegins(loaded, w.history, |start|, me, config);
    HitJoin(loaded, w.history, |start|, me, config);
    GoesOnJoins(start, loaded, w.history, o);
  }

  lemma BeginningHitsNothing(history: seq<Action>, me: nat, c: nat, config: Config)
    ensures !DuplicateHit(history + [BeginExecution(me, c)], |history|, me, config)
  {
    hide Run, Duplicates;
  }

  lemma WrittenAdvances(a: seq<CaseRow>, b: seq<CaseRow>, c: nat, status: Status)
    requires Grown(a, b) && (c < |b| ==> b[c].status != status)
    ensures c < |a| && a[c].status == status ==> Advanced(a, b, c)
  {
  }

  lemma GrownAdvances(a: seq<CaseRow>, b: seq<CaseRow>, after: seq<CaseRow>, c: nat)
    requires Grown(a, b) && c < |b| && c < |after| && after[c].version > b[c].version
    ensures Advanced(a, after, c)
  {
  }

  /** From the load on: the re-check by the date just read, the committed entry, and the execution behind it. */
  method ExecuteLoaded(w: World, o: Oracle, me: nat, c: nat, config: Config) returns (result: ExecutionResult)
    requires w.Sound(config) && PeersForeign(o, me) && me !in w.sweeps
    requires me in w.sessions && w.sessions[me].ExecutionOpen? && w.sessions[me].c == c
    requires w.sessions[me].loaded == w.today
    modifies w, w.store
    ensures Ready(w, o, me, config) && GoesOn(old(w.history), w.history, o)
    ensures w.calls == old(w.calls) || w.calls == old(w.calls) + [c]
    ensures result.Launched? ==> w.calls == old(w.calls) + [c] && result.status == Executing && w.CaseIs(c, Executing)
    ensures result.HeldBack? ==> result.status == Escalated && w.CaseIs(c, Escalated)
    ensures result.Crashed? <==> DuplicateHit(w.history, |old(w.history)|, me, config)
    ensures c < |w.store.cases| && w.store.cases[c].version > old(w.sessions[me].snap.version)
    ensures Alone(o) && old(Primed(w.State(), c, config) && LoadedNow(w, me)) ==>
              result != Refused && w.calls == old(w.calls) + [c] && OnlyCase(old(w.State()), w.State(), c)
    ensures
      var story := Story(w.history, |old(w.history)|, me, config);
      && ExecutionStory(c, story, result) && HeardFrom(o.provider, o.lookup, story)
      && w.calls == old(w.calls) + if |story| >= 2 then [c] else []
  {
    hide Inv, Run, Apply, EnterTxn, Calm, DuplicateHit, Primed, OnlyCase, Story, CallStory,
         CalmSince, NeverFinishes, HeardFrom;
    var reply := EnterLoaded(w, o, me, c, config);
    ghost var entered, middle := w.history, w.State();
    NoFinishNoHit(entered, |old(w.history)|, me, config);
    HeardNothing(o.provider, o.lookup);
    HeardWrites(o.provider, o.lookup, c, Escalated);
    match reply {
      case Entered(_, _) =>
        result := RunExecution(w, o, me, c, config);
        StoryJoin(entered, w.history, |old(w.history)|, me, config);
        EntersThen(o, c, Story(w.history, |entered|, me, config), result);
        GoesOnJoins(old(w.history), entered, w.history, o);
        HitJoin(entered, w.history, |old(w.history)|, me, config);
        RowGrows(entered, w.history, c, config);
        if Alone(o) && old(Primed(w.State(), c, config) && LoadedNow(w, me)) {
          OnlyCaseJoins(old(w.State()), middle, w.State(), c);
        }
      case Withheld(_) =>
        result := HeldBack(Escalated);
      case EnterConflict =>
        result := Refused;
    }
  }

  lemma NothingExecuted(c: nat)
    ensures ExecutionStory(c, [], Refused)
  {
  }

  /** The entry, and what comes of the call behind it. */
  lemma EntersThen(o: Oracle, c: nat, rest: seq<Deed>, result: ExecutionResult)
    requires CallStory(c, rest, result) && HeardFrom(o.provider, o.lookup, rest)
    ensures ExecutionStory(c, [Wrote(c, Executing, [])] + rest, result)
    ensures HeardFrom(o.provider, o.lookup, [Wrote(c, Executing, [])] + rest)
    ensures |[Wrote(c, Executing, [])] + rest| >= 2
  {
    var story := [Wrote(c, Executing, [])] + rest;
    assert story[1..] == rest;
    HeardWrites(o.provider, o.lookup, c, Executing);
    HeardJoin(o.provider, o.lookup, [Wrote(c, Executing, [])], rest);
  }

  /** The entry: re-checked by a date read since the load, committed unless the row has been written meanwhile. */
  method EnterLoaded(w: World, o: Oracle, me: nat, c: nat, config: Config) returns (reply: EnterReply)
    requires w.Sound(config) && PeersForeign(o, me) && me !in w.sweeps
    requires me in w.sessions && w.sessions[me].ExecutionOpen? && w.sessions[me].c == c
    requires w.sessions[me].loaded == w.today
    modifies w, w.store
    ensures w.Sound(config) && PeersForeign(o, me) && me !in w.sweeps && GoesOn(old(w.history), w.history, o)
    ensures NeverFinishes(w.history, |old(w.history)|, me) && w.calls == old(w.calls)
    ensures if reply.Entered?
            then me in w.sessions && w.sessions[me].InExecuting? && w.sessions[me].c == c
            else me !in w.sessions
    ensures reply.Entered? || reply.Withheld? || reply.EnterConflict?
    ensures reply.Withheld? ==> w.CaseIs(c, Escalated)
    ensures c < |w.store.cases| && w.store.cases[c].version > old(w.sessions[me].snap.version)
    ensures Alone(o) && old(Primed(w.State(), c, config) && LoadedNow(w, me)) ==>
              reply.Entered? && StillCurrent(w, me) && OnlyCase(old(w.State()), w.State(), c)
    ensures Story(w.history, |old(w.history)|, me, config)
         == match reply
            case Entered(_, _) => [Wrote(c, Executing, [])]
            case Withheld(_) => [Wrote(c, Escalated, [])]
            case _ => []
  {
    hide Inv, Run, Apply, EnterTxn, Calm, Primed, Story;
    ghost var start := w.history;
    w.Yield(o, me, config);
    ghost var first := w.history;
    var day := w.today;
    w.Yield(o, me, config);
    StoryEnds(first, w.history, |start|, me, config);
    ghost var before, second := w.State(), w.history;
    reply := w.CommitEntryOf(me, day, config);
    StoryBegins(second, w.history, |start|, me, config);
    if Alone(o) && old(Primed(w.State(), c, config) && LoadedNow(w, me)) {
      PrimedEnters(before, w.State(), c, config);
    }
  }

  lemma OnlyCaseJoins(s: Sys, t: Sys, u: Sys, c: nat)
    requires OnlyCase(s, t, c) && OnlyCase(t, u, c)
    ensures OnlyCase(s, u, c)
  {
  }

  lemma RowGrows(earlier: seq<Action>, later: seq<Action>, c: nat, config: Config)
    requires earlier <= later && c < |Run(INIT, earlier, config).db.cases|
    ensures
      var a, b := Run(INIT, earlier, config).db.cases, Run(INIT, later, config).db.cases;
      c < |b| && a[c].version <= b[c].version
  {
    hide Run;
    LongerHistoryGrows(earlier, later, config);
  }

  /** The session's own copy is the committed row: nobody has written it since. */
  ghost predicate StillCurrent(w: World, me: nat)
    reads w, w.store
  {
    && me in w.sessions && w.sessions[me].c < |w.store.cases|
    && w.store.cases[w.sessions[me].c].version == w.sessions[me].snap.version
  }

  /** From the committed entry to the end of the execution. */
  method RunExecution(w: World, o: Oracle, me: nat, c: nat, config: Config) returns (result: ExecutionResult)
    requires w.Sound(config) && PeersForeign(o, me) && me !in w.sweeps
    requires me in w.sessions && w.sessions[me].InExecuting? && w.sessions[me].c == c
    modifies w, w.store
    ensures Ready(w, o, me, config) && GoesOn(old(w.history), w.history, o)
    ensures w.calls == old(w.calls) + [c]
    ensures result.Launched? ==> result.status == Executing && w.CaseIs(c, Executing)
    ensures result.HeldBack? ==> result.status == Escalated && w.CaseIs(c, Escalated)
    ensures result.Crashed? <==> DuplicateHit(w.history, |old(w.history)|, me, config)
    ensures Alone(o) && old(StillCurrent(w, me)) ==> result != Refused && OnlyCase(old(w.State()), w.State(), c)
    ensures
      var story := Story(w.history, |old(w.history)|, me, config);
      CallStory(c, story, result) && HeardFrom(o.provider, o.lookup, story)
  {
    hide Inv, Run, Apply, Calm, DuplicateHit, Duplicates, NeverFinishes, OnlyCase, Story, AnswerStory, CalmSince,
         HeardFrom;
    CallForLink(w, o, me, c, config);
    ghost var answered, middle := w.history, w.State();
    NoFinishNoHit(answered, |old(w.history)|, me, config);
    result := ConcludeExecution(w, o, me, c, config);
    StoryJoin(answered, w.history, |old(w.history)|, me, config);
    CallsThen(o, c, Story(answered, |old(w.history)|, me, config), Story(w.history, |answered|, me, config), result);
    GoesOnJoins(old(w.history), answered, w.history, o);
    HitJoin(answered, w.history, |old(w.history)|, me, config);
    if Alone(o) && old(StillCurrent(w, me)) {
      OnlyCaseJoins(old(w.State()), middle, w.State(), c);
    }
  }

  lemma CallsThen(o: Oracle, c: nat, call: seq<Deed>, rest: seq<Deed>, result: ExecutionResult)
    requires |call| == 1 && call[0].Called? && call[0].c == c && AnswerStory(c, call[0].answer, rest, result)
    requires HeardFrom(o.provider, o.lookup, call) && HeardFrom(o.provider, o.lookup, rest)
    ensures CallStory(c, call + rest, result) && HeardFrom(o.provider, o.lookup, call + rest)
  {
    hide AnswerStory;
    assert (call + rest)[1..] == rest && (call + rest)[0] == call[0];
    HeardJoin(o.provider, o.lookup, call, rest);
  }

  /** The attempt goes on record, and the provider is called once. */
  method CallForLink(w: World, o: Oracle, me: nat, c: nat, config: Config)
    requires w.Sound(config) && PeersForeign(o, me) && me !in w.sweeps
    requires me in w.sessions && w.sessions[me].InExecuting? && w.sessions[me].c == c
    modifies w, w.store
    ensures w.Sound(config) && PeersForeign(o, me) && me !in w.sweeps && GoesOn(old(w.history), w.history, o)
    ensures NeverFinishes(w.history, |old(w.history)|, me) && w.calls == old(w.calls) + [c]
    ensures me in w.sessions && w.sessions[me].Answered? && w.sessions[me].c == c
    ensures Alone(o) && old(StillCurrent(w, me)) ==>
              StillCurrent(w, me) && OnlyCase(old(w.State()), w.State(), c)
    ensures Story(w.history, |old(w.history)|, me, config) == [Called(c, w.sessions[me].answer)]
    ensures HeardFrom(o.provider, o.lookup, Story(w.history, |old(w.history)|, me, config))
  {
    hide Inv, Run, Apply, Calm, Story;
    ghost var start := w.history;
    w.Yield(o, me, config);
    ghost var first := w.history;
    w.CommitAttemptOf(me, config);
    ghost var second := w.history;
    StoryEnds(first, second, |start|, me, config);
    w.Yield(o, me, config);
    ghost var third, k := w.history, w.clock;
    StoryEnds(second, third, |start|, me, config);
    w.CallProviderFor(o, me, config);
    ghost var called := w.history;
    StoryBegins(third, called, |start|, me, config);
    HeardCall(o, c, k);
    w.Yield(o, me, config);
    StoryEnds(called, w.history, |start|, me, config);
  }

  lemma HeardCall(o: Oracle, c: nat, k: nat)
    ensures HeardFrom(o.provider, o.lookup, [Called(c, o.provider(k))])
    ensures HeardFrom(o.provider, o.lookup, [LookedUp(c, o.lookup(k))])
  {
  }

  /** Records what the provider answered; an ambiguous answer is looked up by reference, never created again. */
  method ConcludeExecution(w: World, o: Oracle, me: nat, c: nat, config: Config) returns (result: ExecutionResult)
    requires w.Sound(config) && PeersForeign(o, me) && me !in w.sweeps
    requires me in w.sessions && w.sessions[me].Answered? && w.sessions[me].c == c
    modifies w, w.store
    ensures Ready(w, o, me, config) && GoesOn(old(w.history), w.history, o) && w.calls == old(w.calls)
    ensures result.Launched? ==> result.status == Executing && w.CaseIs(c, Executing)
    ensures result.HeldBack? ==> result.status == Escalated && w.CaseIs(c, Escalated)
    ensures result.Crashed? <==> DuplicateHit(w.history, |old(w.history)|, me, config)
    ensures Alone(o) && old(StillCurrent(w, me)) ==> result != Refused && OnlyCase(old(w.State()), w.State(), c)
    ensures
      var story := Story(w.history, |old(w.history)|, me, config);
      AnswerStory(c, old(w.sessions[me].answer), story, result) && HeardFrom(o.provider, o.lookup, story)
  {
    hide Inv, Run, Apply, Calm, CalmSince, DuplicateHit, Duplicates, NeverFinishes, Story, HeardFrom,
         Concluded, AnswerStory;
    ghost var start := w.history;
    LookUpIfAmbiguous(w, o, me, c, config);
    ghost var looked := w.history;
    NoFinishNoHit(looked, |start|, me, config);
    ghost var session := w.sessions[me];
    HitAtFinish(looked, me, config);
    var reply := w.CommitFinishOf(me, config);
    HitJoin(looked, w.history, |start|, me, config);
    StoryJoin(looked, w.history, |start|, me, config);
    ConcludesAs(o, c, old(w.sessions[me].answer), session, Story(looked, |start|, me, config),
                Story(w.history, |looked|, me, config), ResultOf(reply));
    GoesOnPush(looked, CommitFinish(me), o);
    GoesOnJoins(start, looked, w.history, o);
    match reply {
      case LinkRecorded => result := Launched(Executing);
      case FailureEscalated => result := HeldBack(Escalated);
      case FinishConflict => result := Refused;
      case DuplicateReference => result := Crashed;
    }
  }

  /** After an ambiguous answer, and after no other, the lookup has been made and its result is what counts. */
  predicate LookedInto(c: nat, answer: ProviderAnswer, session: Session, deeds: seq<Deed>) {
    && session.c == c
    && if answer == Raised(AmbiguousError) then session.Reconciled? && deeds == [LookedUp(c, session.found)]
       else session.Answered? && session.answer == answer && deeds == []
  }

  lemma ConcludesAs(o: Oracle, c: nat, answer: ProviderAnswer, session: Session, looked: seq<Deed>, deeds: seq<Deed>,
                    result: ExecutionResult)
    requires LookedInto(c, answer, session, looked) && Concluded(session, deeds, result)
    requires HeardFrom(o.provider, o.lookup, looked)
    ensures AnswerStory(c, answer, looked + deeds, result) && HeardFrom(o.provider, o.lookup, looked + deeds)
  {
    assert (looked + deeds)[|looked|..] == deeds;
    HeardJoin(o.provider, o.lookup, looked, deeds);
  }

  /** An ambiguous answer is looked up by reference; any other stands. */
  method LookUpIfAmbiguous(w: World, o: Oracle, me: nat, c: nat, config: Config)
    requires w.Sound(config) && PeersForeign(o, me) && me !in w.sweeps
    requires me in w.sessions && w.sessions[me].Answered? && w.sessions[me].c == c
    modifies w, w.store
    ensures w.Sound(config) && PeersForeign(o, me) && me !in w.sweeps && GoesOn(old(w.history), w.history, o)
    ensures NeverFinishes(w.history, |old(w.history)|, me) && w.calls == old(w.calls)
    ensures me in w.sessions && !EndingOf(w.sessions[me]).NotYet? && w.sessions[me].c == c
    ensures LookedInto(c, old(w.sessions[me].answer), w.sessions[me], Story(w.history, |old(w.history)|, me, config))
    ensures HeardFrom(o.provider, o.lookup, Story(w.history, |old(w.history)|, me, config))
    ensures Alone(o) && old(StillCurrent(w, me)) ==>
              StillCurrent(w, me) && OnlyCase(old(w.State()), w.State(), c)
  {
    hide Inv, Run, Apply, Calm, Story;
    ghost var start, k := w.history, w.clock;
    StoryStart(start, me, config);
    HeardNothing(o.provider, o.lookup);
    if IsAmbiguous(w.sessions[me].answer) {
      w.CommitReconciliationOf(o, me, config);
      HeardCall(o, c, k);
      ghost var looked := w.history;
      w.Yield(o, me, config);
      StoryEnds(looked, w.history, |start|, me, config);
    }
  }

  /** Re-reads where a case actually is after an error. */
  function CurrentStatus(cases: seq<CaseRow>, c: nat): Status {
    if c < |cases| then cases[c].status else Discovered
  }

  /** Executes one approved case and says how it ended; after an error, where the case is then. */
  method ExecuteAndReport(w: World, o: Oracle, me: nat, c: nat, diagnosed: bool, config: Config)
    returns (outcome: CycleOutcome, crashed: bool)
    requires Ready(w, o, me, config)
    modifies w, w.store
    ensures Ready(w, o, me, config) && GoesOn(old(w.history), w.history, o)
    ensures crashed <==> DuplicateHit(w.history, |old(w.history)|, me, config)
    ensures
      var story := Story(w.history, |old(w.history)|, me, config);
      && ReportsExecution(c, story, diagnosed, outcome, crashed) && HeardFrom(o.provider, o.lookup, story)
      && w.calls == old(w.calls) + if |story| >= 2 then [c] else []
    ensures outcome.executed ==> w.calls == old(w.calls) + [c]
    ensures c < |w.store.cases| ==> outcome.finalStatus == w.store.cases[c].status
    ensures outcome.caseId == c && outcome.diagnosed == diagnosed
    ensures outcome.finalStatus == CurrentStatus(w.store.cases, c)
    ensures outcome.error || outcome.finalStatus in {Executing, Escalated}
    ensures (c < old(|w.store.cases|) && old(w.store.cases)[c].status == Approved) ==>
              Advanced(old(w.store.cases), w.store.cases, c)
    ensures Refusing(o) && old(Primed(w.State(), c, config)) ==>
              w.calls == old(w.calls) + [c] && IsWithheld(outcome) && !crashed && Held(old(w.State()), w.State(), c)
  {
    hide Run, Inv, DuplicateHit, Calm, CalmSince, Primed, Story, ExecutionStory, HeardFrom, NeverFinishes, Grown,
         OnlyCase;
    crashed := false;
    ghost var start, rows := w.history, w.store.cases;
    var execution := ExecuteCase(w, o, me, c, config);
    ghost var ended, middle := w.history, w.store.cases;
    if Refusing(o) {
      RefusalHoldsBack(o.provider, o.lookup, c, Story(ended, |start|, me, config), execution);
    }
    match execution {
      case Launched(final) => outcome := CycleOutcome(c, final, diagnosed, true, false, false);
      case HeldBack(final) => outcome := CycleOutcome(c, final, diagnosed, false, true, false);
      case Refused =>
        w.Yield(o, me, config);
        NothingMore(start, ended, w.history, c, o, me, config);
        outcome := CycleOutcome(c, CurrentStatus(w.store.cases, c), diagnosed, false, false, true);
      case Crashed =>
        crashed := true;
        outcome := CycleOutcome(c, CurrentStatus(w.store.cases, c), diagnosed, false, false, true);
    }
    assert ReportsResult(c, execution, diagnosed, outcome, crashed);
  }

  /** Others have acted since: nothing of this session's own, and no row goes back. */
  lemma NothingMore(start: seq<Action>, ended: seq<Action>, later: seq<Action>, c: nat, o: Oracle, me: nat,
                    config: Config)
    requires GoesOn(start, ended, o) && GoesOn(ended, later, o) && NeverFinishes(later, |ended|, me)
    requires Story(later, |ended|, me, config) == []
    ensures GoesOn(start, later, o)
    ensures Story(later, |start|, me, config) == Story(ended, |start|, me, config)
    ensures DuplicateHit(later, |start|, me, config) <==> DuplicateHit(ended, |start|, me, config)
    ensures Advanced(Run(INIT, start, config).db.cases, Run(INIT, ended, config).db.cases, c) ==>
              Advanced(Run(INIT, start, config).db.cases, Run(INIT, later, config).db.cases, c)
  {
    hide Run, Story, DuplicateHit, CalmSince;
    GoesOnJoins(start, ended, later, o);
    StoryEnds(ended, later, |start|, me, config);
    NoFinishNoHit(later, |ended|, me, config);
    HitJoin(ended, later, |start|, me, config);
    LongerHistoryGrows(ended, later, config);
  }

  /**
   * One candidate: diagnose it and, when approved, enabled and within budget, execute it. It is stopped exactly when
   * its own finish meets a recorded reference, and its outcome is what it has done about the case: executed exactly
   * when it has put a link on record.
   */
  method ProcessCase(w: World, o: Oracle, me: nat, c: nat, autoExecute: bool, budget: nat, config: Config)
    returns (outcome: CycleOutcome, crashed: bool)
    requires Ready(w, o, me, config)
    modifies w, w.store
    ensures Ready(w, o, me, config) && GoesOn(old(w.history), w.history, o)
    ensures w.calls == old(w.calls) || (autoExecute && budget > 0 && w.calls == old(w.calls) + [c])
    ensures crashed <==> DuplicateHit(w.history, |old(w.history)|, me, config)
    ensures
      var story := Story(w.history, |old(w.history)|, me, config);
      ProcessStory(c, story, autoExecute && budget > 0, outcome, crashed) && Counted(c, story, outcome, crashed)
    ensures outcome.caseId == c && Explained(outcome)
    ensures outcome.executed <==> !outcome.error && outcome.finalStatus == Executing
    ensures outcome.executed ==> w.calls == old(w.calls) + [c] && outcome.finalStatus == Executing
    ensures c < |w.store.cases| ==> outcome.finalStatus == w.store.cases[c].status
    ensures outcome.finalStatus == CurrentStatus(w.store.cases, c)
    ensures outcome.finalStatus == Approved && !outcome.error ==> !autoExecute || budget == 0
    ensures w.calls == old(w.calls) && !outcome.error && autoExecute && budget > 0 ==>
              outcome.finalStatus in {Stopped, Escalated, Ineligible}
    ensures (c < old(|w.store.cases|) && Diagnosis.Diagnosable(old(w.store.cases)[c].status)) ==>
              Advanced(old(w.store.cases), w.store.cases, c)
    ensures Refusing(o) && old(Ripe(w.State(), c, config)) && autoExecute && budget > 0 ==>
              w.calls == old(w.calls) + [c] && !outcome.executed && !crashed && Held(old(w.State()), w.State(), c)
  {
    hide Run, Inv, DuplicateHit, Calm, CalmSince, Ripe, Primed, Story, ExecutionStory, HeardFrom, NeverFinishes, Grown,
         Counted, ReportsExecution;
    crashed := false;
    ghost var start := w.history;
    var diagnosis := DiagnoseCase(w, o, me, c, config);
    ghost var ended := w.history;
    NoFinishNoHit(ended, |start|, me, config);
    if !diagnosis.Diagnosis? {
      w.Yield(o, me, config);
      NothingMore(start, ended, w.history, c, o, me, config);
      outcome := CycleOutcome(c, CurrentStatus(w.store.cases, c), false, false, false, true);
      ProcessCounts(c, [], autoExecute && budget > 0, outcome, false);
      return;
    }
    var status := diagnosis.status;
    if status != Approved {
      outcome := CycleOutcome(c, status, true, false, false, false);
      ProcessCounts(c, [Decided(c, status)], autoExecute && budget > 0, outcome, false);
      return;
    }
    if !autoExecute || budget == 0 {
      outcome := CycleOutcome(c, status, true, false, true, false);
      ProcessCounts(c, [Decided(c, status)], false, outcome, false);
      return;
    }
    outcome, crashed := ExecuteAndReport(w, o, me, c, true, config);
    ThenExecuted(start, ended, w.history, c, outcome, crashed, o, me, config);
  }

  /** The verdict, and what came of the execution behind it. */
  lemma ThenExecuted(start: seq<Action>, ended: seq<Action>, later: seq<Action>, c: nat, outcome: CycleOutcome,
                     crashed: bool, o: Oracle, me: nat, config: Config)
    requires GoesOn(start, ended, o) && GoesOn(ended, later, o) && !DuplicateHit(ended, |start|, me, config)
    requires Story(ended, |start|, me, config) == [Decided(c, Approved)]
    requires ReportsExecution(c, Story(later, |ended|, me, config), true, outcome, crashed)
    ensures GoesOn(start, later, o)
    ensures
      var story := Story(later, |start|, me, config);
      ProcessStory(c, story, true, outcome, crashed) && Counted(c, story, outcome, crashed)
    ensures outcome.executed <==> !outcome.error && outcome.finalStatus == Executing
    ensures DuplicateHit(later, |start|, me, config) <==> DuplicateHit(later, |ended|, me, config)
    ensures Advanced(Run(INIT, start, config).db.cases, Run(INIT, ended, config).db.cases, c) ==>
              Advanced(Run(INIT, start, config).db.cases, Run(INIT, later, config).db.cases, c)
  {
    hide Run, Story, DuplicateHit, CalmSince, ReportsExecution, LinkedCases, DecidedCases, OnlyOn, Told;
    GoesOnJoins(start, ended, later, o);
    StoryJoin(ended, later, |start|, me, config);
    HitJoin(ended, later, |start|, me, config);
    LongerHistoryGrows(ended, later, config);
    assert ([Decided(c, Approved)] + Story(later, |ended|, me, config))[1..] == Story(later, |ended|, me, config);
    ProcessCounts(c, Story(later, |start|, me, config), true, outcome, crashed);
  }

  /** One case of the approved backlog. */
  method ExecuteApprovedCase(w: World, o: Oracle, me: nat, c: nat, config: Config)
    returns (outcome: CycleOutcome, crashed: bool)
    requires Ready(w, o, me, config)
    modifies w, w.store
    ensures Ready(w, o, me, config) && GoesOn(old(w.history), w.history, o)
    ensures w.calls == old(w.calls) || w.calls == old(w.calls) + [c]
    ensures crashed <==> DuplicateHit(w.history, |old(w.history)|, me, config)
    ensures
      var story := Story(w.history, |old(w.history)|, me, config);
      ReportsExecution(c, story, false, outcome, crashed) && Counted(c, story, outcome, crashed)
    ensures outcome.caseId == c && Explained(outcome) && !outcome.diagnosed
    ensures outcome.executed <==> !outcome.error && outcome.finalStatus == Executing
    ensures outcome.executed ==> w.calls == old(w.calls) + [c] && outcome.finalStatus == Executing
    ensures c < |w.store.cases| ==> outcome.finalStatus == w.store.cases[c].status
    ensures outcome.finalStatus == CurrentStatus(w.store.cases, c)
    ensures outcome.error || outcome.finalStatus in {Executing, Escalated}
    ensures (c < old(|w.store.cases|) && old(w.store.cases)[c].status == Approved) ==>
              Advanced(old(w.store.cases), w.store.cases, c)
    ensures Refusing(o) && old(Primed(w.State(), c, config)) ==>
              w.calls == old(w.calls) + [c] && !outcome.executed && !crashed && Held(old(w.State()), w.State(), c)
  {
    hide Run, Inv, DuplicateHit, Calm, CalmSince, Primed, Story, ReportsExecution, HeardFrom;
    outcome, crashed := ExecuteAndReport(w, o, me, c, false, config);
    BacklogCounts(c, Story(w.history, |old(w.history)|, me, config), outcome, crashed);
  }
}
