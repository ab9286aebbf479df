/**
 * The unique constraints a pass can run into, none of them caught: a payment request whose provider reference or
 * reference id is already recorded, and a second case for one payment.
 */
module References {
  import opened Domain
  import opened Policy
  import opened Records
  import Diagnosis
  import opened Execution
  import opened Webhooks
  import opened Ingestion
  import opened Protocol
  import opened Coherence
  import opened Steps
  import opened Lifecycle

  /** The session is about to record a link for its case under a reference or reference id that is taken. */
  predicate Duplicates(s: Sys, sid: nat) {
    && sid in s.sessions && HasAttempt(s.sessions[sid])
    && var session := s.sessions[sid];
       && EndingOf(session).Adopt?
       && session.c < |s.db.cases|
       && s.db.cases[session.c].version == session.snap.version
       && ReferenceTaken(s.db, EndingOf(session).link, session.attempt)
  }

  /** One of the payments the sweep has listed has been given a case since. */
  predicate Overtaken(s: Sys, sid: nat) {
    sid in s.sweeps && SomeCased(s.db.cases, s.sweeps[sid].payments)
  }

  /** Session `me` met a taken reference at some point of the history from `from` on. */
  ghost predicate DuplicateHit(history: seq<Action>, from: nat, me: nat, config: Config) {
    exists k :: from <= k < |history| && history[k] == CommitFinish(me)
                && Duplicates(Run(INIT, history[..k], config), me)
  }

  /** In this stretch the session has finished no execution. */
  predicate NeverFinishes(history: seq<Action>, from: nat, me: nat) {
    forall k :: from <= k < |history| ==> history[k] != CommitFinish(me)
  }

  lemma NeverFinishesJoin(earlier: seq<Action>, later: seq<Action>, from: nat, me: nat)
    requires earlier <= later && from <= |earlier|
    requires NeverFinishes(earlier, from, me) && NeverFinishes(later, |earlier|, me)
    ensures NeverFinishes(later, from, me)
  {
  }

  lemma NoFinishNoHit(history: seq<Action>, from: nat, me: nat, config: Config)
    requires NeverFinishes(history, from, me)
    ensures !DuplicateHit(history, from, me, config)
  {
    hide Run, Duplicates;
  }

  /** A hit in a longer history is a hit before or after. */
  lemma HitJoin(earlier: seq<Action>, later: seq<Action>, from: nat, me: nat, config: Config)
    requires earlier <= later && from <= |earlier|
    ensures DuplicateHit(later, from, me, config) <==>
            DuplicateHit(earlier, from, me, config) || DuplicateHit(later, |earlier|, me, config)
  {
    hide Run, Duplicates;
    forall k | 0 <= k < |earlier| ensures earlier[k] == later[k] && earlier[..k] == later[..k] {
    }
    if k :| from <= k < |earlier| && earlier[k] == CommitFinish(me) && Duplicates(Run(INIT, earlier[..k], config), me) {
      assert later[k] == earlier[k] && later[..k] == earlier[..k];
    }
    if k :| from <= k < |later| && later[k] == CommitFinish(me) && Duplicates(Run(INIT, later[..k], config), me) {
      if k < |earlier| {
        assert earlier[k] == later[k] && later[..k] == earlier[..k];
      }
    }
  }

  /** The last action decides about itself. */
  lemma HitAtFinish(history: seq<Action>, me: nat, config: Config)
    ensures DuplicateHit(history + [CommitFinish(me)], |history|, me, config) <==>
            Duplicates(Run(INIT, history, config), me)
  {
    hide Run, Duplicates;
    var all := history + [CommitFinish(me)];
    assert all[..|history|] == history && all[|history|] == CommitFinish(me);
  }

  // ---- the third unique column: a request's attempt ----

  /** Every recorded request stands for an attempt that has succeeded. */
  ghost predicate AttemptsSucceeded(db: Db) {
    forall r :: 0 <= r < |db.requests| ==>
      db.requests[r].attemptId < |db.attempts| && db.attempts[db.requests[r].attemptId].status == Succeeded
  }

  lemma AttemptsStand(s: Sys, a: Action, config: Config)
    requires AttemptsSucceeded(s.db) && !a.CommitFinish?
    ensures AttemptsSucceeded(Apply(s, a, config).db)
  {
    hide Diagnosis.DiagnosisTxn, EnterTxn, SweepTxn, FirstUncased;
    match a
    case CommitSweep(sid, day) =>
      if sid in s.sweeps {
        SweepLeavesTheRest(s.db, s.sweeps[sid].payments, day);
      }
    case CommitDiagnosis(sid, outcome, day) =>
      if sid in s.sessions && s.sessions[sid].DiagnosisOpen? {
        Diagnosis.LeavesTheRest(s.db, s.sessions[sid].c, s.sessions[sid].snap, outcome, day, config);
      }
    case CommitEntry(sid, day) =>
      if sid in s.sessions && s.sessions[sid].ExecutionOpen? {
        EntryLeavesTheRest(s.db, s.sessions[sid].c, s.sessions[sid].snap, day, config);
      }
    case _ =>
  }

  lemma FinishSucceeds(s: Sys, sid: nat)
    requires Base(s) && AttemptsSucceeded(s.db)
    ensures AttemptsSucceeded(DoCommitFinish(s, sid).db)
  {
    if sid in s.sessions {
      BaseGives(s, sid);
      hide Base, Linked, Coherent, CallsAccounted, NoneConflict, ReferenceTaken;
    }
  }

  lemma {:induction false} RunKeepsAttempts(actions: seq<Action>, config: Config)
    ensures AttemptsSucceeded(Run(INIT, actions, config).db)
  {
    if actions != [] {
      hide Apply, AttemptsSucceeded;
      var earlier, last := actions[..|actions| - 1], actions[|actions| - 1];
      RunKeepsAttempts(earlier, config);
      InitInv(config);
      RunKeepsInv(INIT, earlier, config);
      if last.CommitFinish? {
        FinishSucceeds(Run(INIT, earlier, config), last.sid);
        FinishIs(Run(INIT, earlier, config), last.sid, config);
      } else {
        AttemptsStand(Run(INIT, earlier, config), last, config);
      }
    }
  }

  lemma FinishIs(s: Sys, sid: nat, config: Config)
    ensures Apply(s, CommitFinish(sid), config) == DoCommitFinish(s, sid)
  {
  }

  /** An open execution's attempt has no request yet, so that constraint is never violated. */
  lemma AttemptIsNeverTaken(actions: seq<Action>, sid: nat, config: Config)
    requires sid in Run(INIT, actions, config).sessions && HasAttempt(Run(INIT, actions, config).sessions[sid])
    ensures
      var s := Run(INIT, actions, config);
      forall r :: 0 <= r < |s.db.requests| ==> s.db.requests[r].attemptId != s.sessions[sid].attempt
  {
    RunKeepsAttempts(actions, config);
    InitInv(config);
    RunKeepsInv(INIT, actions, config);
    hide Run;
    BaseGives(Run(INIT, actions, config), sid);
  }

  // ---- a provider whose answers are all distinct ----

  /** What a recorded link takes up: its provider reference and its reference id. */
  datatype Tag = Named(reference: string) | Identified(id: ReferenceId)

  function LinkTags(link: Link, attempt: nat): set<Tag> {
    {Named(link.providerReference), Identified(ReferenceIdOf(link, attempt))}
  }

  function RequestTags(r: PaymentRequest): set<Tag> {
    {Named(r.providerReference), Identified(r.referenceId)}
  }

  lemma TakenIff(db: Db, link: Link, attempt: nat)
    ensures ReferenceTaken(db, link, attempt) <==>
            exists i :: 0 <= i < |db.requests| && !(RequestTags(db.requests[i]) !! LinkTags(link, attempt))
  {
    if i :| 0 <= i < |db.requests| && (db.requests[i].providerReference == link.providerReference
                                       || db.requests[i].referenceId == ReferenceIdOf(link, attempt)) {
      assert Named(link.providerReference) in LinkTags(link, attempt);
      assert Identified(ReferenceIdOf(link, attempt)) in LinkTags(link, attempt);
      assert Named(db.requests[i].providerReference) in RequestTags(db.requests[i]);
      assert Identified(db.requests[i].referenceId) in RequestTags(db.requests[i]);
    }
  }

  /** The first answer was ambiguous, and the lookup by reference is still to come. */
  predicate AsksAgain(session: Session) {
    session.Answered? && IsAmbiguous(session.answer)
  }

  /** The tags of the link this action brings in for a session that waits for one. */
  function AnswerTags(s: Sys, a: Action): set<Tag> {
    match a
    case CallProvider(sid, Made(link)) =>
      if sid in s.sessions && s.sessions[sid].AttemptOpen? then LinkTags(link, s.sessions[sid].attempt) else {}
    case CommitReconciliation(sid, Some(link)) =>
      if sid in s.sessions && AsksAgain(s.sessions[sid]) then LinkTags(link, s.sessions[sid].attempt) else {}
    case _ => {}
  }

  /** Everything the provider's answers have taken up along a run. */
  ghost function Answers(actions: seq<Action>, config: Config): set<Tag> {
    if actions == [] then {}
    else
      var earlier := actions[..|actions| - 1];
      Answers(earlier, config) + AnswerTags(Run(INIT, earlier, config), actions[|actions| - 1])
  }

  /** No two answers with the same reference or the same reference id. */
  ghost predicate DistinctAnswers(actions: seq<Action>, config: Config) {
    actions == [] ||
    (var earlier := actions[..|actions| - 1];
     && DistinctAnswers(earlier, config)
     && AnswerTags(Run(INIT, earlier, config), actions[|actions| - 1]) !! Answers(earlier, config))
  }

  lemma {:induction false} DistinctSoFar(actions: seq<Action>, k: nat, config: Config)
    requires DistinctAnswers(actions, config) && k <= |actions|
    ensures DistinctAnswers(actions[..k], config)
  {
    if k < |actions| {
      DistinctSoFar(actions[..|actions| - 1], k, config);
      assert actions[..|actions| - 1][..k] == actions[..k];
    } else {
      assert actions[..k] == actions;
    }
  }

  predicate Adopts(session: Session) {
    EndingOf(session).Adopt? && HasAttempt(session)
  }

  function SessionTags(session: Session): set<Tag>
    requires Adopts(session)
  {
    LinkTags(EndingOf(session).link, session.attempt)
  }

  predicate FreeOf(db: Db, tags: set<Tag>) {
    forall r :: 0 <= r < |db.requests| ==> RequestTags(db.requests[r]) !! tags
  }

  /** Everything in use came from an answer, and a session about to record a link is its only user. */
  ghost predicate Owned(s: Sys, answers: set<Tag>) {
    && (forall r :: 0 <= r < |s.db.requests| ==> RequestTags(s.db.requests[r]) <= answers)
    && (forall sid :: sid in s.sessions && Adopts(s.sessions[sid]) ==>
          SessionTags(s.sessions[sid]) <= answers && FreeOf(s.db, SessionTags(s.sessions[sid])))
    && (forall i, j ::
          (i in s.sessions && j in s.sessions && i != j && Adopts(s.sessions[i]) && Adopts(s.sessions[j])) ==>
            SessionTags(s.sessions[i]) !! SessionTags(s.sessions[j]))
  }

  /** A step that records no link and gives no session one. */
  predicate AddsNoLink(s: Sys, t: Sys) {
    && |t.db.requests| == |s.db.requests|
    && (forall r :: 0 <= r < |s.db.requests| ==> RequestTags(t.db.requests[r]) == RequestTags(s.db.requests[r]))
    && (forall sid :: sid in t.sessions && Adopts(t.sessions[sid]) ==>
          sid in s.sessions && t.sessions[sid] == s.sessions[sid])
  }

  lemma QuietOwned(s: Sys, t: Sys, answers: set<Tag>)
    requires Owned(s, answers) && AddsNoLink(s, t)
    ensures Owned(t, answers)
  {
    hide RequestTags, LinkTags;
  }

  /** A session is given a link all of whose tags are new. */
  lemma AnsweredOwned(s: Sys, t: Sys, sid: nat, answers: set<Tag>)
    requires Owned(s, answers) && sid in t.sessions && Adopts(t.sessions[sid])
    requires t.db.requests == s.db.requests && t.sessions == s.sessions[sid := t.sessions[sid]]
    requires SessionTags(t.sessions[sid]) !! answers
    ensures Owned(t, answers + SessionTags(t.sessions[sid]))
  {
    hide RequestTags, LinkTags, SessionTags;
  }

  lemma LinkTagged(link: Link, attempt: nat)
    ensures LinkTags(link, attempt) == {Named(link.providerReference), Identified(ReferenceIdOf(link, attempt))}
  {
  }

  lemma FinishOwned(s: Sys, sid: nat, answers: set<Tag>)
    requires Base(s) && Owned(s, answers)
    ensures Owned(DoCommitFinish(s, sid), answers)
  {
    if DoCommitFinish(s, sid) != s {
      var t := DoCommitFinish(s, sid);
      BaseGives(s, sid);
      hide Base, SessionOk, Linked, Coherent, CallsAccounted, NoneConflict, Owned, LinkTags, ReferenceTaken;
      if |t.db.requests| > |s.db.requests| {
        assert RequestTags(t.db.requests[|s.db.requests|]) == SessionTags(s.sessions[sid]) by {
          LinkTagged(EndingOf(s.sessions[sid]).link, s.sessions[sid].attempt);
        }
        RecordedOwned(s, t, sid, answers);
      } else {
        QuietOwned(s, t, answers);
      }
    }
  }

  /** The session's link becomes a request, and the session is gone. */
  lemma RecordedOwned(s: Sys, t: Sys, sid: nat, answers: set<Tag>)
    requires Owned(s, answers) && sid in s.sessions && Adopts(s.sessions[sid])
    requires t.sessions == s.sessions - {sid} && |t.db.requests| == |s.db.requests| + 1
    requires s.db.requests <= t.db.requests
    requires RequestTags(t.db.requests[|s.db.requests|]) == SessionTags(s.sessions[sid])
    ensures Owned(t, answers)
  {
    hide RequestTags, LinkTags, SessionTags;
  }

  lemma DecisionAddsNoLink(s: Sys, a: Action, config: Config)
    requires a.CommitDiagnosis? || a.CommitEntry?
    ensures AddsNoLink(s, Apply(s, a, config))
  {
    hide Diagnosis.DiagnosisTxn, EnterTxn, RequestTags;
    if a.sid in s.sessions {
      var session := s.sessions[a.sid];
      if a.CommitDiagnosis? && session.DiagnosisOpen? {
        Diagnosis.LeavesTheRest(s.db, session.c, session.snap, a.outcome, a.day, config);
      }
      if a.CommitEntry? && session.ExecutionOpen? {
        EntryLeavesTheRest(s.db, session.c, session.snap, a.day, config);
      }
    }
  }

  lemma ReceiveAddsNoLink(s: Sys, sid: nat, e: LinkEvent)
    ensures AddsNoLink(s, DoReceiveWebhook(s, sid, e))
  {
    hide RequestTags;
  }

  lemma OtherAddsNoLink(s: Sys, a: Action, config: Config)
    requires AnswerTags(s, a) == {} && !a.CommitFinish? && !a.CommitDiagnosis? && !a.CommitEntry? && !a.ReceiveWebhook?
    ensures AddsNoLink(s, Apply(s, a, config))
  {
    hide SweepTxn, FirstUncased;
    if a.CommitSweep? && a.sid in s.sweeps {
      SweepLeavesTheRest(s.db, s.sweeps[a.sid].payments, a.day);
    }
  }

  lemma NoAnswerOwned(s: Sys, a: Action, answers: set<Tag>, config: Config)
    requires Base(s) && Owned(s, answers) && AnswerTags(s, a) == {}
    ensures Owned(Apply(s, a, config), answers)
  {
    hide Owned, Base, AddsNoLink;
    if a.CommitFinish? {
      FinishOwned(s, a.sid, answers);
    } else {
      if a.CommitDiagnosis? || a.CommitEntry? {
        DecisionAddsNoLink(s, a, config);
      } else if a.ReceiveWebhook? {
        ReceiveAddsNoLink(s, a.sid, a.event);
      } else {
        hide Apply;
        OtherAddsNoLink(s, a, config);
      }
      QuietOwned(s, Apply(s, a, config), answers);
    }
  }

  /** An answer brings its tags to the one session that waits for it. */
  predicate BringsIn(s: Sys, t: Sys, sid: nat, tags: set<Tag>) {
    && t.db.requests == s.db.requests && sid in t.sessions && Adopts(t.sessions[sid])
    && t.sessions == s.sessions[sid := t.sessions[sid]] && SessionTags(t.sessions[sid]) == tags
  }

  lemma CallBringsIn(s: Sys, sid: nat, link: Link)
    requires Base(s) && sid in s.sessions && s.sessions[sid].AttemptOpen?
    ensures BringsIn(s, DoCallProvider(s, sid, Made(link)), sid, LinkTags(link, s.sessions[sid].attempt))
  {
    BaseGives(s, sid);
    AttemptFacts(s.db, s.sessions[sid]);
    hide Base, SessionOk, Linked, Coherent, CallsAccounted, NoneConflict, LinkTags;
  }

  lemma LookupBringsIn(s: Sys, sid: nat, link: Link)
    requires sid in s.sessions && AsksAgain(s.sessions[sid])
    ensures BringsIn(s, DoCommitReconciliation(s, sid, Some(link)), sid, LinkTags(link, s.sessions[sid].attempt))
  {
    hide LinkTags;
  }

  lemma AnswerBringsIn(s: Sys, a: Action, config: Config)
    requires Base(s) && AnswerTags(s, a) != {}
    ensures (a.CallProvider? || a.CommitReconciliation?) && BringsIn(s, Apply(s, a, config), a.sid, AnswerTags(s, a))
  {
    hide Base, LinkTags, BringsIn, DoCallProvider, DoCommitReconciliation;
    match a
    case CallProvider(sid, Made(link)) => CallBringsIn(s, sid, link);
    case CommitReconciliation(sid, Some(link)) => LookupBringsIn(s, sid, link);
    case _ =>
  }

  lemma ApplyKeepsOwned(s: Sys, a: Action, answers: set<Tag>, config: Config)
    requires Base(s) && Owned(s, answers) && AnswerTags(s, a) !! answers
    ensures Owned(Apply(s, a, config), answers + AnswerTags(s, a))
  {
    hide Owned, Base, Apply, AnswerTags, SessionTags;
    if AnswerTags(s, a) == {} {
      NoAnswerOwned(s, a, answers, config);
      assert answers + {} == answers;
    } else {
      AnswerBringsIn(s, a, config);
      AnsweredOwned(s, Apply(s, a, config), a.sid, answers);
    }
  }

  lemma {:induction false} RunKeepsOwned(actions: seq<Action>, config: Config)
    requires DistinctAnswers(actions, config)
    ensures Owned(Run(INIT, actions, config), Answers(actions, config))
  {
    if actions != [] {
      hide Apply, Owned, AnswerTags;
      var earlier := actions[..|actions| - 1];
      RunKeepsOwned(earlier, config);
      InitInv(config);
      RunKeepsInv(INIT, earlier, config);
      ApplyKeepsOwned(Run(INIT, earlier, config), actions[|actions| - 1], Answers(earlier, config), config);
    }
  }

  /** With distinct answers no session is ever about to record a taken reference. */
  lemma DistinctAnswersAreFree(actions: seq<Action>, sid: nat, config: Config)
    requires DistinctAnswers(actions, config)
    ensures !Duplicates(Run(INIT, actions, config), sid)
  {
    RunKeepsOwned(actions, config);
    hide Run;
    var s := Run(INIT, actions, config);
    if sid in s.sessions && Adopts(s.sessions[sid]) {
      TakenIff(s.db, EndingOf(s.sessions[sid]).link, s.sessions[sid].attempt);
    }
  }

  /** With distinct answers nobody ever meets a taken reference. */
  lemma DistinctAnswersNeverCollide(history: seq<Action>, from: nat, me: nat, config: Config)
    requires DistinctAnswers(history, config)
    ensures !DuplicateHit(history, from, me, config)
  {
    hide Run, Duplicates, DistinctAnswers;
    forall k | from <= k < |history| ensures !Duplicates(Run(INIT, history[..k], config), me) {
      DistinctSoFar(history, k, config);
      DistinctAnswersAreFree(history[..k], me, config);
    }
  }

  // ---- a provider that reports our own reference id back ----

  /** Each link carries a provider reference not seen before, and the reference id of the attempt it answers. */
  predicate Echoes(s: Sys, a: Action, answers: set<Tag>) {
    match a
    case CallProvider(sid, Made(link)) =>
      sid in s.sessions && s.sessions[sid].AttemptOpen? ==>
        && Named(link.providerReference) !in answers
        && ReferenceIdOf(link, s.sessions[sid].attempt) == KeyOf(s.sessions[sid].attempt)
    case CommitReconciliation(sid, Some(link)) =>
      sid in s.sessions && AsksAgain(s.sessions[sid]) ==>
        && Named(link.providerReference) !in answers
        && ReferenceIdOf(link, s.sessions[sid].attempt) == KeyOf(s.sessions[sid].attempt)
    case _ => true
  }

  ghost predicate EchoingRun(actions: seq<Action>, config: Config) {
    actions == [] ||
    (var earlier := actions[..|actions| - 1];
     EchoingRun(earlier, config)
     && Echoes(Run(INIT, earlier, config), actions[|actions| - 1], Answers(earlier, config)))
  }

  /** The keys answered so far belong to attempts on record, and never to a session still without its link. */
  ghost predicate KeysSpent(s: Sys, answers: set<Tag>) {
    && (forall n: nat :: Identified(KeyOf(n)) in answers ==> n < |s.db.attempts|)
    && (forall sid :: sid in s.sessions && HasAttempt(s.sessions[sid]) && !Adopts(s.sessions[sid]) ==>
          Identified(KeyOf(s.sessions[sid].attempt)) !in answers)
  }

  lemma EchoIsNew(s: Sys, a: Action, answers: set<Tag>)
    requires KeysSpent(s, answers) && Echoes(s, a, answers)
    ensures AnswerTags(s, a) !! answers
  {
  }

  /** Sessions that still wait for a link: each waited already, or has just started its attempt. */
  predicate WaitsAsBefore(s: Sys, t: Sys) {
    && |s.db.attempts| <= |t.db.attempts|
    && forall sid :: sid in t.sessions && HasAttempt(t.sessions[sid]) && !Adopts(t.sessions[sid]) ==>
         || (sid in s.sessions && HasAttempt(s.sessions[sid]) && !Adopts(s.sessions[sid])
             && t.sessions[sid].attempt == s.sessions[sid].attempt)
         || t.sessions[sid].attempt >= |s.db.attempts|
  }

  lemma KeysStaySpent(s: Sys, t: Sys, answers: set<Tag>)
    requires KeysSpent(s, answers) && WaitsAsBefore(s, t)
    ensures KeysSpent(t, answers)
  {
  }

  lemma WaitingStep(s: Sys, a: Action, config: Config)
    ensures WaitsAsBefore(s, Apply(s, a, config))
  {
    hide Diagnosis.DiagnosisTxn, EnterTxn, IngestTxn, OpenCaseTxn, SweepTxn, FirstUncased;
    AttemptsGrow(s, a, config);
  }

  lemma AttemptsGrow(s: Sys, a: Action, config: Config)
    ensures |s.db.attempts| <= |Apply(s, a, config).db.attempts|
  {
    hide Evaluate, Diagnosis.Trail, Diagnosis.Diagnosed, EnterTrail, SweepTxn, FirstUncased;
    if a.CommitSweep? && a.sid in s.sweeps {
      SweepLeavesTheRest(s.db, s.sweeps[a.sid].payments, a.day);
    }
  }

  /** After an answer that echoes, its attempt's key is spent, and its session no longer waits. */
  lemma EchoStep(s: Sys, a: Action, answers: set<Tag>, config: Config)
    requires Base(s) && KeysSpent(s, answers) && Echoes(s, a, answers)
    ensures KeysSpent(Apply(s, a, config), answers + AnswerTags(s, a))
  {
    WaitingStep(s, a, config);
    AttemptsGrow(s, a, config);
    hide Apply, WaitsAsBefore, Base;
    KeysStaySpent(s, Apply(s, a, config), answers);
    if AnswerTags(s, a) == {} {
      assert answers + {} == answers;
    } else {
      AnswerBringsIn(s, a, config);
      BaseGives(s, a.sid);
      EchoSpends(s, Apply(s, a, config), a, answers);
    }
  }

  lemma EchoSpends(s: Sys, t: Sys, a: Action, answers: set<Tag>)
    requires NoneConflict(s.sessions) && KeysSpent(t, answers) && Echoes(s, a, answers)
    requires (a.CallProvider? || a.CommitReconciliation?) && AnswerTags(s, a) != {}
    requires BringsIn(s, t, a.sid, AnswerTags(s, a)) && a.sid in s.sessions && SessionOk(s.db, s.sessions[a.sid])
    requires |s.db.attempts| <= |t.db.attempts|
    ensures KeysSpent(t, answers + AnswerTags(s, a))
  {
    var spent := s.sessions[a.sid].attempt;
    assert Identified(KeyOf(spent)) in AnswerTags(s, a);
    forall n: nat | Identified(KeyOf(n)) in AnswerTags(s, a) ensures n == spent {
    }
    forall sid | sid in t.sessions && HasAttempt(t.sessions[sid]) && !Adopts(t.sessions[sid])
      ensures t.sessions[sid].attempt != spent
    {
      assert sid != a.sid && t.sessions[sid] == s.sessions[sid];
      assert !Conflicting(s.sessions[sid], s.sessions[a.sid]);
    }
  }

  /** A provider that reports our reference id back and never repeats its own gives distinct answers. */
  lemma {:induction false} EchoingIsDistinct(actions: seq<Action>, config: Config)
    requires EchoingRun(actions, config)
    ensures DistinctAnswers(actions, config) && KeysSpent(Run(INIT, actions, config), Answers(actions, config))
  {
    if actions != [] {
      hide Apply, KeysSpent, AnswerTags, Echoes;
      var earlier := actions[..|actions| - 1];
      EchoingIsDistinct(earlier, config);
      InitInv(config);
      RunKeepsInv(INIT, earlier, config);
      EchoIsNew(Run(INIT, earlier, config), actions[|actions| - 1], Answers(earlier, config));
      EchoStep(Run(INIT, earlier, config), actions[|actions| - 1], Answers(earlier, config), config);
    }
  }
}
