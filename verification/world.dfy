/**
 * The imperative world: the store, the calendar and the sessions of everyone. Each service call of this
 * session is one action of the protocol, and between calls everyone else may do anything.
 */
module Worlds {
  import opened Domain
  import opened Policy
  import opened AiService
  import opened Records
  import Diagnosis
  import opened Execution
  import opened Webhooks
  import opened Ingestion
  import opened Protocol
  import opened Coherence
  import opened Lifecycle
  import opened Guarantees
  import opened Runs
  import opened References
  import opened Deeds
  import opened Backlog

  /** Everything the cycle cannot decide, indexed by a clock that advances with each use. */
  datatype Oracle = Oracle(
    ai: nat -> (nat -> AiResponse),
    maxRetries: int,
    provider: nat -> ProviderAnswer,
    lookup: nat -> Option<Link>,
    peers: nat -> seq<Action>)

  /** The others never act as session `me`. */
  ghost predicate PeersForeign(o: Oracle, me: nat) {
    forall k: nat, i: nat :: i < |o.peers(k)| ==> SidOf(o.peers(k)[i]) != Some(me)
  }

  /** The others bring no new payment and commit no webhook; otherwise they may work as they like. */
  ghost predicate Calm(o: Oracle) {
    forall k: nat, i: nat :: i < |o.peers(k)| ==> CalmAction(o.peers(k)[i])
  }

  /** The others open no case of a payment that is already on record: neither one by one nor by sweeps. */
  ghost predicate OpensNone(o: Oracle) {
    forall k: nat, i: nat :: i < |o.peers(k)| ==> !o.peers(k)[i].OpenCaseFor? && !o.peers(k)[i].CommitSweep?
  }

  predicate OpensNoneSince(history: seq<Action>, from: nat) {
    forall k :: from <= k < |history| ==> !history[k].OpenCaseFor? && !history[k].CommitSweep?
  }

  /** Nothing in this stretch of history can have made work. */
  predicate CalmSince(history: seq<Action>, from: nat) {
    forall k :: from <= k < |history| ==> CalmAction(history[k])
  }

  lemma PeersKeepOut(o: Oracle, k: nat, history: seq<Action>, me: nat)
    requires PeersForeign(o, me)
    ensures NeverFinishes(history + o.peers(k), |history|, me)
    ensures Calm(o) ==> CalmSince(history + o.peers(k), |history|)
    ensures OpensNone(o) ==> OpensNoneSince(history + o.peers(k), |history|)
    ensures forall i :: 0 <= i < |o.peers(k)| ==> SidOf(o.peers(k)[i]) != Some(me)
  {
  }

  lemma CreatesGrow(s: Sys, a: Action, config: Config)
    ensures |s.creates| <= |Apply(s, a, config).creates|
  {
    hide Diagnosis.DiagnosisTxn, EnterTxn, StartTxn, ReconcileTxn, RecordLinkTxn, FailTxn, Receive, ApplyTxn,
         IngestTxn, OpenCaseTxn, SweepTxn, FirstUncased;
  }

  /** Calls are never taken off the record. */
  lemma {:induction false} RunCreatesGrow(s: Sys, actions: seq<Action>, config: Config)
    ensures |s.creates| <= |Run(s, actions, config).creates|
  {
    if actions != [] {
      hide Apply;
      RunCreatesGrow(s, actions[..|actions| - 1], config);
      CreatesGrow(Run(s, actions[..|actions| - 1], config), actions[|actions| - 1], config);
    }
  }

  /** Nothing but case c, the log and the books of its execution is written. */
  predicate OnlyCase(s: Sys, t: Sys, c: nat) {
    && t.today == s.today && t.db.payments == s.db.payments && |t.db.cases| == |s.db.cases|
    && forall d :: 0 <= d < |s.db.cases| && d != c ==> t.db.cases[d] == s.db.cases[d]
  }

  /** What the caller of a diagnosis is told is what was committed. */
  lemma DiagnosisReplyHolds(db: Db, c: nat, snap: CaseRow, outcome: AiOutcome, today: int, config: Config)
    ensures
      var (after, reply) := Diagnosis.DiagnosisTxn(db, c, snap, outcome, today, config);
      reply.Diagnosis? ==>
        && c < |after.cases| && after.cases[c].status == reply.status
        && reply.status in {Approved, Stopped, Escalated, Ineligible}
  {
    if Diagnosis.Diagnosable(snap.status) && snap.paymentId < |db.payments| {
      Diagnosis.VerdictExact(snap, db.payments[snap.paymentId], outcome, today, config);
      ReviewVerdict(Diagnosis.ReviewInput(snap, db.payments[snap.paymentId], outcome, today), config);
    }
    hide Evaluate, Diagnosis.Trail;
  }

  /** An approved case that is there and has an action is entered, withheld or in conflict: never an uncaught error. */
  lemma EntryReplies(db: Db, c: nat, snap: CaseRow, today: int, config: Config)
    requires c < |db.cases| && snap.paymentId < |db.payments| && snap.status == Approved && snap.action.Some?
    ensures
      var reply := EnterTxn(db, c, snap, today, config).1;
      reply.Entered? || reply.Withheld? || reply.EnterConflict?
  {
    hide Evaluate;
  }

  lemma WithheldIsEscalated(db: Db, c: nat, snap: CaseRow, today: int, config: Config)
    ensures
      var (after, reply) := EnterTxn(db, c, snap, today, config);
      reply.Withheld? ==> c < |after.cases| && after.cases[c].status == Escalated
  {
    hide Evaluate, EnterTrail;
  }

  lemma FinishReplies(s: Sys, sid: nat)
    requires sid in s.sessions && !EndingOf(s.sessions[sid]).NotYet? && s.sessions[sid].snap.status == Executing
    requires s.sessions[sid].c < |s.db.cases| && s.sessions[sid].attempt < |s.db.attempts|
    ensures
      var session := s.sessions[sid];
      var (after, reply) := match EndingOf(session)
                            case Adopt(link) => RecordLinkTxn(s.db, session.c, session.snap, session.attempt, link)
                            case GiveUp(category) => FailTxn(s.db, session.c, session.snap, session.attempt, category);
      && |after.cases| == |s.db.cases| && after.payments == s.db.payments
      && (forall d :: 0 <= d < |s.db.cases| && d != session.c ==> after.cases[d] == s.db.cases[d])
      && (reply == DuplicateReference <==> Duplicates(s, sid))
      && (reply == FinishConflict <==> s.db.cases[session.c].version != session.snap.version)
      && (reply == LinkRecorded ==> EndingOf(session).Adopt? && after.cases[session.c].status == Executing)
      && (reply == FailureEscalated ==> EndingOf(session).GiveUp? && after.cases[session.c].status == Escalated)
  {
  }

  /** Whether it commits or meets a conflict: afterwards the row is past the version the session loaded. */
  lemma DiagnosisAdvances(db: Db, c: nat, snap: CaseRow, outcome: AiOutcome, day: int, config: Config)
    requires c < |db.cases| && snap.paymentId < |db.payments|
    requires Diagnosis.Diagnosable(snap.status) && Fresh(snap, db.cases[c])
    ensures
      var after := Diagnosis.DiagnosisTxn(db, c, snap, outcome, day, config).0.cases;
      c < |after| && after[c].version > snap.version
  {
    hide Evaluate, Diagnosis.Trail;
  }

  lemma EntryAdvances(db: Db, c: nat, snap: CaseRow, day: int, config: Config)
    requires Linked(db) && RowsOk(db, config) && c < |db.cases| && snap.paymentId < |db.payments|
    requires snap.status == Approved && Fresh(snap, db.cases[c])
    ensures
      var after := EnterTxn(db, c, snap, day, config).0.cases;
      c < |after| && after[c].version > snap.version
  {
    hide Evaluate, EnterTrail;
  }

  class World {
    const store: Store
    var today: int
    var sessions: map<nat, Session>
    var creates: seq<CreateCall>
    var sweeps: map<nat, Listing>
    var clock: nat
    var calls: seq<nat>  // the cases this session has called the provider for
    ghost var history: seq<Action>

    constructor ()
      ensures fresh(store) && State() == INIT && history == [] && calls == []
    {
      store := new Store();
      today, sessions, creates, sweeps, clock, calls, history := 0, map[], [], map[], 0, [], [];
    }

    function State(): Sys
      reads this, store
    {
      Sys(store.View(), today, sessions, creates, sweeps)
    }

    /** The case is committed in this status right now. */
    predicate CaseIs(c: nat, status: Status)
      reads this, store
    {
      c < |store.cases| && store.cases[c].status == status
    }

    /**
     * The state is the one the recorded actions lead to, so every theorem about runs applies to it, and this
     * session's calls are among the recorded ones.
     */
    ghost predicate Sound(config: Config)
      reads this, store
    {
      State() == Run(INIT, history, config) && |calls| <= |creates|
    }

    lemma SoundGivesInv(config: Config)
      requires Sound(config)
      ensures Inv(State(), config)
    {
      hide Run, Story;
      InitInv(config);
      RunKeepsInv(INIT, history, config);
    }

    /** What this session can rely on, however long the others have been acting. */
    lemma OwnFacts(me: nat, config: Config)
      requires Sound(config) && me in sessions
      ensures sessions[me].c < |store.cases| && sessions[me].snap.paymentId < |store.payments|
      ensures Fresh(sessions[me].snap, store.cases[sessions[me].c])
      ensures sessions[me].DiagnosisOpen? ==> Diagnosis.Diagnosable(sessions[me].snap.status)
      ensures sessions[me].ExecutionOpen? ==> sessions[me].snap.status == Approved
      ensures HasAttempt(sessions[me]) ==> sessions[me].attempt < |store.attempts|
      ensures HasEntry(sessions[me]) ==> sessions[me].snap.status == Executing
    {
      SoundGivesInv(config);
      hide Run, Story;
      assert SessionOk(store.View(), sessions[me]);
    }

    /** What the next commit of a diagnosis is going to be. */
    lemma DiagnosisFacts(me: nat, outcome: AiOutcome, day: int, config: Config)
      requires Sound(config) && me in sessions && sessions[me].DiagnosisOpen?
      requires sessions[me].loaded <= day <= today
      ensures
        var (session, a) := (sessions[me], CommitDiagnosis(me, outcome, day));
        var (after, reply) :=
          Diagnosis.DiagnosisTxn(store.View(), session.c, session.snap, outcome, day, config);
        && session.c < |after.cases| && after.cases[session.c].version > session.snap.version
        && (reply.Diagnosis? ==>
              && after.cases[session.c].status == reply.status
              && reply.status in {Approved, Stopped, Escalated, Ineligible})
        && Apply(State(), a, config) == State().(db := after, sessions := sessions - {me})
        && Run(INIT, history + [a], config) == Apply(State(), a, config)
        && Story(history + [a], |history|, me, config)
           == if reply.Diagnosis? then [Decided(session.c, reply.status)] else []
    {
      OwnFacts(me, config);
      hide Diagnosis.DiagnosisTxn, Run, Story;
      var (s, a) := (State(), CommitDiagnosis(me, outcome, day));
      RunPush(INIT, history, a, config);
      StoryPush(history, a, me, config);
      DiagnosisDeeds(s, me, outcome, day, Apply(s, a, config), config);
      DiagnosisReplyHolds(s.db, sessions[me].c, sessions[me].snap, outcome, day, config);
      DiagnosisAdvances(s.db, sessions[me].c, sessions[me].snap, outcome, day, config);
    }

    lemma EntryFacts(me: nat, day: int, config: Config)
      requires Sound(config) && me in sessions && sessions[me].ExecutionOpen?
      ensures
        var (after, reply) := EnterTxn(store.View(), sessions[me].c, sessions[me].snap, day, config);
        && sessions[me].c < |after.cases|
        && after.cases[sessions[me].c].version > sessions[me].snap.version
        && (reply.Withheld? ==> after.cases[sessions[me].c].status == Escalated)
        && (reply.Entered? || reply.Withheld? || reply.EnterConflict?)
    {
      OwnFacts(me, config);
      SoundGivesInv(config);
      EntryReplies(store.View(), sessions[me].c, sessions[me].snap, day, config);
      hide EnterTxn, Run, Coherent, CallsAccounted;
      WithheldIsEscalated(store.View(), sessions[me].c, sessions[me].snap, day, config);
      EntryAdvances(store.View(), sessions[me].c, sessions[me].snap, day, config);
    }

    /** What the next commit of an entry is going to be. */
    lemma EntryRuns(me: nat, day: int, config: Config)
      requires Sound(config) && me in sessions && sessions[me].ExecutionOpen?
      requires sessions[me].loaded <= day <= today
      ensures
        var (session, a) := (sessions[me], CommitEntry(me, day));
        var (after, reply) := EnterTxn(store.View(), session.c, session.snap, day, config);
        && Apply(State(), a, config) == State().(
             db := after,
             sessions := match reply
                         case Entered(row, entry) => sessions[me := InExecuting(session.c, row, entry)]
                         case _ => sessions - {me})
        && Run(INIT, history + [a], config) == Apply(State(), a, config)
        && Story(history + [a], |history|, me, config)
           == match reply
              case Entered(_, _) => [Wrote(session.c, Executing, [])]
              case Withheld(_) => [Wrote(session.c, Escalated, [])]
              case _ => []
    {
      OwnFacts(me, config);
      hide EnterTxn, Run, Story;
      var (s, a) := (State(), CommitEntry(me, day));
      RunPush(INIT, history, a, config);
      StoryPush(history, a, me, config);
      EntryDeeds(s, me, day, Apply(s, a, config), config);
    }

    /** The others act for a while. */
    method Yield(o: Oracle, me: nat, config: Config)
      requires Sound(config) && PeersForeign(o, me)
      modifies this, store
      ensures Sound(config) && calls == old(calls) && history == old(history) + o.peers(old(clock))
      ensures NeverFinishes(history, |old(history)|, me)
      ensures OpensNone(o) ==> OpensNoneSince(history, |old(history)|)
      ensures SameSession(old(State()), State(), me) && today >= old(today)
      ensures Calm(o) ==> CalmSince(history, |old(history)|)
      ensures o.peers(old(clock)) == [] ==> State() == old(State())
      ensures Story(history, |old(history)|, me, config) == []
    {
      hide Apply, Run, Calm, OpensNone, Story;
      PeersKeepOut(o, clock, history, me);
      var acts := o.peers(clock);
      var t := Run(State(), acts, config);
      ForeignRun(State(), acts, me, config);
      DaysPass(State(), acts, config);
      RunCreatesGrow(State(), acts, config);
      ForeignStory(history, acts, me, config);
      if acts == [] {
        RunNothing(State(), config);
      }
      RunConcat(INIT, history, acts, config);
      store.customers, store.payments, store.cases := t.db.customers, t.db.payments, t.db.cases;
      store.attempts, store.requests := t.db.attempts, t.db.requests;
      store.ledger, store.log := t.db.ledger, t.db.log;
      today, sessions, creates, sweeps := t.today, t.sessions, t.creates, t.sweeps;
      history := history + acts;
      clock := clock + 1;
    }

    /** Loads a case to diagnose it. */
    method BeginDiagnosisOf(me: nat, c: nat, config: Config)
      requires Sound(config) && me !in sessions
      requires c < |store.cases| && Diagnosis.Diagnosable(store.cases[c].status)
      modifies this
      ensures sweeps == old(sweeps)
      ensures Sound(config) && history == old(history) + [BeginDiagnosis(me, c)]
      ensures calls == old(calls) && clock == old(clock)
      ensures State() == Apply(old(State()), BeginDiagnosis(me, c), config)
      ensures me in sessions && sessions[me] == DiagnosisOpen(c, store.cases[c], today) && today == old(today)
      ensures Story(history, |old(history)|, me, config) == []
    {
      sessions := sessions[me := DiagnosisOpen(c, store.cases[c], today)];
      RunPush(INIT, history, BeginDiagnosis(me, c), config);
      StoryQuiet(history, BeginDiagnosis(me, c), me, config);
      history := history + [BeginDiagnosis(me, c)];
    }

    /** The session has read the date on `day`, some time between its load and this commit. */
    method CommitDiagnosisOf(o: Oracle, me: nat, day: int, config: Config) returns (reply: Diagnosis.DiagnosisReply)
      requires Sound(config) && me in sessions && sessions[me].DiagnosisOpen?
      requires sessions[me].loaded <= day <= today
      modifies this, store
      ensures sweeps == old(sweeps)
      ensures
        var outcome := Recommend(o.ai(old(clock)), o.maxRetries);
        && history == old(history) + [CommitDiagnosis(me, outcome, day)]
        && State() == Apply(old(State()), CommitDiagnosis(me, outcome, day), config)
        && (store.View(), reply) == Diagnosis.DiagnosisTxn(old(store.View()), old(sessions)[me].c,
                                                           old(sessions)[me].snap, outcome, day, config)
      ensures Sound(config) && calls == old(calls) && me !in sessions && today == old(today)
      ensures reply.Diagnosis? ==>
                CaseIs(old(sessions)[me].c, reply.status) && reply.status in {Approved, Stopped, Escalated, Ineligible}
      ensures old(sessions)[me].c < |store.cases|
              && store.cases[old(sessions)[me].c].version > old(sessions)[me].snap.version
      ensures Story(history, |old(history)|, me, config)
           == if reply.Diagnosis? then [Decided(old(sessions)[me].c, reply.status)] else []
    {
      OwnFacts(me, config);
      ghost var outcome := Recommend(o.ai(clock), o.maxRetries);
      DiagnosisFacts(me, outcome, day, config);
      hide Diagnosis.DiagnosisTxn, Run, Story, Apply, Recommend;
      reply := Diagnosis.DiagnoseRecoveryCase(store, sessions[me].c, sessions[me].snap, o.ai(clock), o.maxRetries,
                                              day, config);
      sessions := sessions - {me};
      clock := clock + 1;
      history := history + [CommitDiagnosis(me, outcome, day)];
    }

    method BeginExecutionOf(me: nat, c: nat, config: Config)
      requires Sound(config) && me !in sessions
      requires c < |store.cases| && store.cases[c].status == Approved
      modifies this
      ensures sweeps == old(sweeps)
      ensures Sound(config) && history == old(history) + [BeginExecution(me, c)] && calls == old(calls)
      ensures State() == Apply(old(State()), BeginExecution(me, c), config)
      ensures me in sessions && sessions[me] == ExecutionOpen(c, store.cases[c], today) && today == old(today)
      ensures Story(history, |old(history)|, me, config) == []
    {
      sessions := sessions[me := ExecutionOpen(c, store.cases[c], today)];
      RunPush(INIT, history, BeginExecution(me, c), config);
      StoryQuiet(history, BeginExecution(me, c), me, config);
      history := history + [BeginExecution(me, c)];
    }

    method CommitEntryOf(me: nat, day: int, config: Config) returns (reply: EnterReply)
      requires Sound(config) && me in sessions && sessions[me].ExecutionOpen?
      requires sessions[me].loaded <= day <= today
      modifies this, store
      ensures sweeps == old(sweeps)
      ensures Sound(config) && history == old(history) + [CommitEntry(me, day)] && calls == old(calls)
      ensures today == old(today)
      ensures State() == Apply(old(State()), CommitEntry(me, day), config)
      ensures (store.View(), reply)
           == EnterTxn(old(store.View()), old(sessions)[me].c, old(sessions)[me].snap, day, config)
      ensures if reply.Entered?
              then me in sessions && sessions[me] == InExecuting(old(sessions)[me].c, reply.row, reply.entry)
              else me !in sessions
      ensures reply.Withheld? ==>
                old(sessions)[me].c < |store.cases| && store.cases[old(sessions)[me].c].status == Escalated
      ensures reply.Entered? || reply.Withheld? || reply.EnterConflict?
      ensures old(sessions)[me].c < |store.cases|
              && store.cases[old(sessions)[me].c].version > old(sessions)[me].snap.version
      ensures Story(history, |old(history)|, me, config)
           == match reply
              case Entered(_, _) => [Wrote(old(sessions)[me].c, Executing, [])]
              case Withheld(_) => [Wrote(old(sessions)[me].c, Escalated, [])]
              case _ => []
    {
      OwnFacts(me, config);
      EntryFacts(me, day, config);
      EntryRuns(me, day, config);
      hide EnterTxn, Run, Story, Apply;
      var c := sessions[me].c;
      reply := EnterExecuting(store, c, sessions[me].snap, day, config);
      if reply.Entered? {
        sessions := sessions[me := InExecuting(c, reply.row, reply.entry)];
      } else {
        sessions := sessions - {me};
      }
      history := history + [CommitEntry(me, day)];
    }

    method CommitAttemptOf(me: nat, config: Config)
      requires Sound(config) && me in sessions && sessions[me].InExecuting?
      modifies this, store
      ensures sweeps == old(sweeps)
      ensures Sound(config) && history == old(history) + [CommitAttempt(me)] && calls == old(calls)
      ensures State() == Apply(old(State()), CommitAttempt(me), config)
      ensures store.cases == old(store.cases) && OnlyCase(old(State()), State(), old(sessions)[me].c)
      ensures me in sessions && sessions[me].snap == old(sessions)[me].snap
      ensures me in sessions && sessions[me].AttemptOpen? && sessions[me].c == old(sessions)[me].c
      ensures Story(history, |old(history)|, me, config) == []
    {
      OwnFacts(me, config);
      hide StartTxn, Run, Story;
      RunPush(INIT, history, CommitAttempt(me), config);
      StoryQuiet(history, CommitAttempt(me), me, config);
      var session := sessions[me];
      var attempt := StartAttempt(store, session.c, session.snap.paymentId);
      sessions := sessions[me := AttemptOpen(session.c, session.snap, session.entry, attempt)];
      history := history + [CommitAttempt(me)];
    }

    /** The one external call: its answer is the oracle's. */
    method CallProviderFor(o: Oracle, me: nat, config: Config)
      requires Sound(config) && me in sessions && sessions[me].AttemptOpen?
      modifies this
      ensures sweeps == old(sweeps)
      ensures Sound(config) && history == old(history) + [CallProvider(me, o.provider(old(clock)))]
      ensures calls == old(calls) + [old(sessions)[me].c]
      ensures State() == Apply(old(State()), CallProvider(me, o.provider(old(clock))), config)
      ensures me in sessions && sessions[me].Answered? && sessions[me].c == old(sessions)[me].c
      ensures sessions[me].snap == old(sessions)[me].snap && sessions[me].answer == o.provider(old(clock))
      ensures today == old(today)
      ensures Story(history, |old(history)|, me, config) == [Called(old(sessions)[me].c, o.provider(old(clock)))]
    {
      OwnFacts(me, config);
      hide Run, Story;
      var session := sessions[me];
      var answer := o.provider(clock);
      RunPush(INIT, history, CallProvider(me, answer), config);
      StoryPush(history, CallProvider(me, answer), me, config);
      CallDeeds(State(), me, answer, Apply(State(), CallProvider(me, answer), config));
      var amount := store.attempts[session.attempt].amount;
      creates := creates + [CreateCall(session.c, session.entry, session.attempt, amount)];
      sessions := sessions[me := Answered(session.c, session.snap, session.entry, session.attempt, answer)];
      calls := calls + [session.c];
      clock := clock + 1;
      history := history + [CallProvider(me, answer)];
    }

    /** After an ambiguous answer only the lookup by reference is tried; nothing is created again. */
    method CommitReconciliationOf(o: Oracle, me: nat, config: Config)
      requires Sound(config) && me in sessions && sessions[me].Answered? && IsAmbiguous(sessions[me].answer)
      modifies this, store
      ensures sweeps == old(sweeps)
      ensures Sound(config) && history == old(history) + [CommitReconciliation(me, o.lookup(old(clock)))]
      ensures calls == old(calls)
      ensures State() == Apply(old(State()), CommitReconciliation(me, o.lookup(old(clock))), config)
      ensures me in sessions && sessions[me].Reconciled? && sessions[me].c == old(sessions)[me].c
      ensures sessions[me].found == o.lookup(old(clock)) && sessions[me].snap == old(sessions)[me].snap
      ensures store.cases == old(store.cases) && OnlyCase(old(State()), State(), old(sessions)[me].c)
      ensures Story(history, |old(history)|, me, config) == [LookedUp(old(sessions)[me].c, o.lookup(old(clock)))]
    {
      hide Run, Story;
      var session := sessions[me];
      var found := o.lookup(clock);
      RunPush(INIT, history, CommitReconciliation(me, found), config);
      StoryPush(history, CommitReconciliation(me, found), me, config);
      LookupDeeds(State(), me, found, Apply(State(), CommitReconciliation(me, found), config));
      RecordReconciliation(store, session.attempt, found);
      sessions := sessions[me := Reconciled(session.c, session.snap, session.entry, session.attempt, found)];
      clock := clock + 1;
      history := history + [CommitReconciliation(me, found)];
    }

    method CommitFinishOf(me: nat, config: Config) returns (reply: FinishReply)
      requires Sound(config) && me in sessions && !EndingOf(sessions[me]).NotYet?
      modifies this, store
      ensures sweeps == old(sweeps)
      ensures Sound(config) && history == old(history) + [CommitFinish(me)] && calls == old(calls) && me !in sessions
      ensures State() == Apply(old(State()), CommitFinish(me), config)
      ensures old(sessions)[me].c < |old(store.cases)|
      ensures reply == DuplicateReference <==> Duplicates(old(State()), me)
      ensures reply == DuplicateReference ==> EndingOf(old(sessions)[me]).Adopt?
      ensures OnlyCase(old(State()), State(), old(sessions)[me].c)
      ensures reply == FinishConflict <==>
              old(store.cases)[old(sessions)[me].c].version != old(sessions)[me].snap.version
      ensures reply == LinkRecorded ==> EndingOf(old(sessions)[me]).Adopt? && CaseIs(old(sessions)[me].c, Executing)
      ensures reply == FailureEscalated ==>
                EndingOf(old(sessions)[me]).GiveUp? && CaseIs(old(sessions)[me].c, Escalated)
      ensures Concluded(old(sessions)[me], Story(history, |old(history)|, me, config), ResultOf(reply))
    {
      OwnFacts(me, config);
      hide Run, Story;
      RunPush(INIT, history, CommitFinish(me), config);
      hide RecordLinkTxn, FailTxn;
      FinishReplies(State(), me);
      StoryPush(history, CommitFinish(me), me, config);
      ghost var s, before := State(), history;
      var session := sessions[me];
      match EndingOf(session) {
        case Adopt(link) =>
          reply := RecordPaymentLinkCreated(store, session.c, session.snap, session.attempt, link);
        case GiveUp(category) =>
          reply := HandleDefiniteFailure(store, session.c, session.snap, session.attempt, category);
      }
      FinishDeeds(s, me, Run(INIT, before + [CommitFinish(me)], config), reply);
      sessions := sessions - {me};
      history := history + [CommitFinish(me)];
    }

    /** Lists the oldest failed payments without a case. */
    method BeginSweepOf(me: nat, limit: nat, config: Config)
      requires Sound(config) && me !in sweeps
      modifies this
      ensures Sound(config) && history == old(history) + [BeginSweep(me, limit)]
      ensures calls == old(calls) && sessions == old(sessions) && today == old(today) && creates == old(creates)
      ensures sweeps == old(sweeps)[me := Listing(FirstUncased(store.View(), limit), today)]
      ensures Story(history, |old(history)|, me, config) == []
    {
      hide Run, Uncased, Story;
      RunPush(INIT, history, BeginSweep(me, limit), config);
      StoryQuiet(history, BeginSweep(me, limit), me, config);
      var candidates, skipped := ListFailedPayments(store, limit);
      sweeps := sweeps[me := Listing(candidates, today)];
      history := history + [BeginSweep(me, limit)];
    }

    /** Opens a case for each listed payment, or for none if one of them has been given a case meanwhile. */
    method CommitSweepOf(me: nat, day: int, config: Config) returns (created: nat, overtaken: bool)
      requires Sound(config) && me in sweeps && sweeps[me].loaded <= day <= today
      modifies this, store
      ensures Sound(config) && history == old(history) + [CommitSweep(me, day)]
      ensures calls == old(calls) && sessions == old(sessions) && today == old(today) && creates == old(creates)
      ensures sweeps == old(sweeps) - {me}
      ensures overtaken <==> Overtaken(old(State()), me)
      ensures store.View() == SweepTxn(old(store.View()), old(sweeps)[me].payments, day).0
      ensures overtaken ==> created == 0 && store.View() == old(store.View())
      ensures !overtaken ==> created == |old(sweeps)[me].payments|
                             && SweepTxn(old(store.View()), old(sweeps)[me].payments, day).1.Swept?
      ensures Story(history, |old(history)|, me, config) == []
    {
      SoundGivesInv(config);
      assert Listed(store.View(), sweeps[me].payments);
      OpenableIff(store.View(), sweeps[me].payments, day);
      hide Run, Inv, Openable, Listed;
      RunPush(INIT, history, CommitSweep(me, day), config);
      StoryQuiet(history, CommitSweep(me, day), me, config);
      var ids, reply := DiscoverFailedPayments(store, sweeps[me].payments, day);
      created, overtaken := |ids|, reply.CaseTaken?;
      if overtaken {
        created := 0;
      }
      sweeps := sweeps - {me};
      history := history + [CommitSweep(me, day)];
    }

    method NoteCycleDone(diagnosed: nat, executed: nat, failed: nat, config: Config)
      requires Sound(config)
      modifies this, store
      ensures Sound(config) && history == old(history) + [NoteCycle(diagnosed, executed, failed)]
      ensures calls == old(calls) && sessions == old(sessions) && sweeps == old(sweeps)
      ensures State() == Apply(old(State()), NoteCycle(diagnosed, executed, failed), config)
    {
      hide Run, Story;
      RunPush(INIT, history, NoteCycle(diagnosed, executed, failed), config);
      store.RecordEvent(RecoveryCycleCompleted(diagnosed, executed, failed));
      history := history + [NoteCycle(diagnosed, executed, failed)];
    }
  }
}
