/**
 * Live links. Execution never looks for an active payment request; that no case ever has two is owed to the
 * ledger, and holds as long as all relevant events of one link share one dedup key.
 */
module LiveLinks {
  import opened Domain
  import opened Policy
  import opened AiService
  import opened Records
  import Diagnosis
  import opened Execution
  import opened Webhooks
  import opened Ingestion
  import opened Protocol
  import opened Coherence
  import opened Steps
  import opened Lifecycle

  predicate Live(req: PaymentRequest) {
    req.status in ACTIVE_STATUSES
  }

  /** The one dedup key of each link's relevant events, where that is assumed; None assumes nothing. */
  type Keys = Option<string -> string>

  /** The assumption: each link's relevant events carry the one key `keyOf` gives the link. */
  predicate OneKeyPerLink(a: Action, keyOf: string -> string) {
    a.ReceiveWebhook? && Relevant(a.event) ==> a.event.key == keyOf(a.event.link.value)
  }

  /** The guard the webhook service does not have: another request of the case is live. */
  predicate OtherLive(db: Db, w: Session)
    requires w.WebhookOpen?
  {
    exists r :: 0 <= r < |db.requests| && r != w.request && db.requests[r].caseId == w.c && Live(db.requests[r])
  }

  /** This event would move its case. */
  predicate Moves(db: Db, w: Session) {
    && w.WebhookOpen? && w.request < |db.requests| && w.seen.caseId < |db.cases| && w.event.status.Some?
    && ApplyTxn(db, w.event, w.request, w.seen, w.snap).1 == Processed
  }

  /** No event moves a case past another live request of it. */
  predicate Guarded(s: Sys, a: Action) {
    a.CommitWebhook? && a.sid in s.sessions && Moves(s.db, s.sessions[a.sid]) ==> !OtherLive(s.db, s.sessions[a.sid])
  }

  predicate Admissible(s: Sys, a: Action, keyOf: Keys) {
    if keyOf.Some? then OneKeyPerLink(a, keyOf.value) else Guarded(s, a)
  }

  /** A request that is live, or whose one key is still to come. */
  predicate Unsettled(db: Db, r: nat, keyOf: Keys)
    requires r < |db.requests|
  {
    Live(db.requests[r]) || (keyOf.Some? && keyOf.value(db.requests[r].providerReference) !in db.ledger)
  }

  /** A session that can still commit to its case: nobody has written the row since it did. */
  predicate Current(db: Db, session: Session) {
    HasEntry(session) && session.c < |db.cases| && db.cases[session.c].version == session.snap.version
  }

  ghost predicate UnsettledApart(db: Db, keyOf: Keys) {
    && (forall r :: 0 <= r < |db.requests| && Unsettled(db, r, keyOf) ==>
          db.requests[r].caseId < |db.cases| && db.cases[db.requests[r].caseId].status == Executing)
    && (forall q, r :: 0 <= q < |db.requests| && 0 <= r < |db.requests| && q != r ==>
          !(Unsettled(db, q, keyOf) && Unsettled(db, r, keyOf) && db.requests[q].caseId == db.requests[r].caseId))
  }

  /** An executor that may still record a link finds no unsettled request of its case. */
  predicate ClearFor(db: Db, session: Session, keyOf: Keys) {
    Current(db, session) ==>
      forall r :: 0 <= r < |db.requests| && db.requests[r].caseId == session.c ==> !Unsettled(db, r, keyOf)
  }

  predicate KeyedSession(session: Session, keyOf: Keys) {
    session.WebhookOpen? && keyOf.Some? ==> session.event.key == keyOf.value(session.seen.providerReference)
  }

  ghost predicate LinksOk(s: Sys, keyOf: Keys) {
    && UnsettledApart(s.db, keyOf)
    && (forall sid :: sid in s.sessions ==>
          ClearFor(s.db, s.sessions[sid], keyOf) && KeyedSession(s.sessions[sid], keyOf))
  }

  /** Requests only settle, and a case row changes only to a higher version. */
  ghost predicate Settles(a: Db, b: Db, keyOf: Keys) {
    && |a.requests| == |b.requests|
    && |a.cases| <= |b.cases|
    && (forall r :: 0 <= r < |a.requests| ==>
          && b.requests[r].caseId == a.requests[r].caseId
          && b.requests[r].providerReference == a.requests[r].providerReference
          && (Unsettled(b, r, keyOf) ==> Unsettled(a, r, keyOf)))
    && (forall c :: 0 <= c < |a.cases| ==> RowEvolves(a.cases[c], b.cases[c]))
  }

  /** Every changed case has all its requests settled. */
  ghost predicate ChangedAreClear(a: Db, b: Db, keyOf: Keys)
    requires |a.cases| <= |b.cases|
  {
    forall r :: 0 <= r < |b.requests| && Unsettled(b, r, keyOf) ==>
                  b.requests[r].caseId < |a.cases| && b.cases[b.requests[r].caseId] == a.cases[b.requests[r].caseId]
  }

  lemma SettlesKeepsApart(a: Db, b: Db, keyOf: Keys)
    requires UnsettledApart(a, keyOf) && Settles(a, b, keyOf) && ChangedAreClear(a, b, keyOf)
    ensures UnsettledApart(b, keyOf)
  {
  }

  /** An executor with a coherent snapshot stays clear. */
  lemma ClearSurvives(a: Db, b: Db, session: Session, keyOf: Keys)
    requires ClearFor(a, session, keyOf) && SessionOk(a, session) && Settles(a, b, keyOf)
    ensures ClearFor(b, session, keyOf)
  {
  }

  lemma SettlesKeepsLinks(s: Sys, t: Sys, keyOf: Keys)
    requires Base(s) && LinksOk(s, keyOf)
    requires Settles(s.db, t.db, keyOf) && ChangedAreClear(s.db, t.db, keyOf)
    requires forall sid :: sid in t.sessions ==>
                             || (sid in s.sessions && t.sessions[sid] == s.sessions[sid])
                             || (ClearFor(t.db, t.sessions[sid], keyOf) && KeyedSession(t.sessions[sid], keyOf))
    ensures LinksOk(t, keyOf)
  {
    SettlesKeepsApart(s.db, t.db, keyOf);
    forall sid | sid in t.sessions
      ensures ClearFor(t.db, t.sessions[sid], keyOf) && KeyedSession(t.sessions[sid], keyOf)
    {
      if sid in s.sessions && t.sessions[sid] == s.sessions[sid] {
        ClearSurvives(s.db, t.db, s.sessions[sid], keyOf);
      }
    }
  }

  lemma DiagnosisLinks(s: Sys, sid: nat, outcome: AiOutcome, day: int, config: Config, keyOf: Keys)
    requires Base(s) && LinksOk(s, keyOf)
    ensures LinksOk(DoCommitDiagnosis(s, sid, outcome, day, config), keyOf)
  {
    hide Evaluate, Diagnosis.Trail, LinksOk, Base;
    if Busy(s, sid) && s.sessions[sid].DiagnosisOpen? {
      var session := s.sessions[sid];
      LinksGive(s, sid, keyOf);
      DiagnosisSettles(s.db, session.c, session.snap, outcome, day, config, keyOf);
      SettlesKeepsLinks(s, DoCommitDiagnosis(s, sid, outcome, day, config), keyOf);
    }
  }

  lemma LinksGive(s: Sys, sid: nat, keyOf: Keys)
    requires Base(s) && LinksOk(s, keyOf) && sid in s.sessions
    ensures SessionOk(s.db, s.sessions[sid]) && ClearFor(s.db, s.sessions[sid], keyOf)
    ensures KeyedSession(s.sessions[sid], keyOf) && UnsettledApart(s.db, keyOf) && Linked(s.db)
  {
  }

  lemma DiagnosisSettles(db: Db, c: nat, snap: CaseRow, outcome: AiOutcome, today: int, config: Config,
                         keyOf: Keys)
    requires UnsettledApart(db, keyOf) && c < |db.cases| && Fresh(snap, db.cases[c])
    ensures Settles(db, Diagnosis.DiagnosisTxn(db, c, snap, outcome, today, config).0, keyOf)
    ensures ChangedAreClear(db, Diagnosis.DiagnosisTxn(db, c, snap, outcome, today, config).0, keyOf)
  {
    hide Evaluate, Diagnosis.Trail;
  }

  lemma EnterSettles(db: Db, c: nat, snap: CaseRow, today: int, config: Config, keyOf: Keys)
    requires UnsettledApart(db, keyOf) && c < |db.cases| && Fresh(snap, db.cases[c])
    ensures
      var (after, reply) := EnterTxn(db, c, snap, today, config);
      && Settles(db, after, keyOf) && ChangedAreClear(db, after, keyOf)
      && (reply.Entered? ==> ClearFor(after, InExecuting(c, reply.row, reply.entry), keyOf))
  {
    hide Evaluate, EnterTrail;
  }

  lemma EntryLinks(s: Sys, sid: nat, day: int, config: Config, keyOf: Keys)
    requires Base(s) && LinksOk(s, keyOf)
    ensures LinksOk(DoCommitEntry(s, sid, day, config), keyOf)
  {
    hide EnterTxn, LinksOk, Base;
    if Busy(s, sid) && s.sessions[sid].ExecutionOpen? && CouldRead(s, s.sessions[sid], day) {
      var session := s.sessions[sid];
      LinksGive(s, sid, keyOf);
      EnterSettles(s.db, session.c, session.snap, day, config, keyOf);
      var t := DoCommitEntry(s, sid, day, config);
      var (db, reply) := EnterTxn(s.db, session.c, session.snap, day, config);
      if reply.Entered? {
        assert t.sessions[sid] == InExecuting(session.c, reply.row, reply.entry);
      }
      SettlesKeepsLinks(s, t, keyOf);
    }
  }

  /** Recording a link adds the case's one unsettled request and makes every other executor stale. */
  lemma RecordLinkApart(db: Db, session: Session, link: Link, keyOf: Keys)
    requires Linked(db) && UnsettledApart(db, keyOf)
    requires HasAttempt(session) && SessionOk(db, session) && ClearFor(db, session, keyOf)
    ensures UnsettledApart(RecordLinkTxn(db, session.c, session.snap, session.attempt, link).0, keyOf)
  {
    var after := RecordLinkTxn(db, session.c, session.snap, session.attempt, link).0;
    if after != db {
      assert forall r :: 0 <= r < |db.requests| ==> Unsettled(after, r, keyOf) == Unsettled(db, r, keyOf);
      assert forall r :: 0 <= r < |db.requests| && db.requests[r].caseId == session.c ==> !Unsettled(db, r, keyOf);
    }
  }

  lemma RecordLinkClear(db: Db, session: Session, link: Link, other: Session, keyOf: Keys)
    requires HasAttempt(session) && SessionOk(db, session)
    requires SessionOk(db, other) && ClearFor(db, other, keyOf)
    ensures ClearFor(RecordLinkTxn(db, session.c, session.snap, session.attempt, link).0, other, keyOf)
  {
  }

  lemma FailSettles(db: Db, session: Session, category: FailureCategory, keyOf: Keys)
    requires HasAttempt(session) && SessionOk(db, session) && ClearFor(db, session, keyOf)
    requires UnsettledApart(db, keyOf)
    ensures
      var after := FailTxn(db, session.c, session.snap, session.attempt, category).0;
      Settles(db, after, keyOf) && ChangedAreClear(db, after, keyOf)
  {
  }

  lemma FinishLinks(s: Sys, sid: nat, keyOf: Keys)
    requires Base(s) && LinksOk(s, keyOf)
    ensures LinksOk(DoCommitFinish(s, sid), keyOf)
  {
    hide RecordLinkTxn, FailTxn, SessionOk, ClearFor, UnsettledApart, Linked;
    if DoCommitFinish(s, sid) != s {
      var session := s.sessions[sid];
      LinksGive(s, sid, keyOf);
      match EndingOf(session)
      case Adopt(link) =>
        RecordLinkApart(s.db, session, link, keyOf);
        forall i | i in s.sessions && i != sid
          ensures ClearFor(DoCommitFinish(s, sid).db, s.sessions[i], keyOf)
        {
          RecordLinkClear(s.db, session, link, s.sessions[i], keyOf);
        }
      case GiveUp(category) =>
        FailSettles(s.db, session, category, keyOf);
        SettlesKeepsLinks(s, DoCommitFinish(s, sid), keyOf);
    }
  }

  /** An applied event settles its request, which was the case's only unsettled one. */
  lemma ApplySettles(db: Db, w: Session, keyOf: Keys)
    requires Linked(db) && UnsettledApart(db, keyOf)
    requires w.WebhookOpen? && SessionOk(db, w) && KeyedSession(w, keyOf)
    requires keyOf.None? && Moves(db, w) ==> !OtherLive(db, w)
    ensures
      var after := ApplyTxn(db, w.event, w.request, w.seen, w.snap).0;
      Settles(db, after, keyOf) && ChangedAreClear(db, after, keyOf)
  {
    var after := ApplyTxn(db, w.event, w.request, w.seen, w.snap).0;
    if after != db {
      assert keyOf.Some? ==> Unsettled(db, w.request, keyOf);
      assert !Unsettled(after, w.request, keyOf);
    }
  }

  lemma WebhookLinks(s: Sys, sid: nat, keyOf: Keys)
    requires Base(s) && LinksOk(s, keyOf) && Admissible(s, CommitWebhook(sid), keyOf)
    ensures LinksOk(DoCommitWebhook(s, sid), keyOf)
  {
    hide ApplyTxn, LinksOk, Base;
    if DoCommitWebhook(s, sid) != s {
      LinksGive(s, sid, keyOf);
      ApplySettles(s.db, s.sessions[sid], keyOf);
      SettlesKeepsLinks(s, DoCommitWebhook(s, sid), keyOf);
    }
  }

  lemma SameRequestsSettle(a: Db, b: Db, keyOf: Keys)
    requires UnsettledApart(a, keyOf)
    requires b.cases == a.cases && b.requests == a.requests && a.ledger <= b.ledger
    ensures Settles(a, b, keyOf) && ChangedAreClear(a, b, keyOf)
  {
  }

  lemma LinksApart(s: Sys, keyOf: Keys)
    requires LinksOk(s, keyOf)
    ensures UnsettledApart(s.db, keyOf)
  {
  }

  lemma ReceiveLinks(s: Sys, sid: nat, e: LinkEvent, keyOf: Keys)
    requires Base(s) && LinksOk(s, keyOf) && Admissible(s, ReceiveWebhook(sid, e), keyOf)
    ensures LinksOk(DoReceiveWebhook(s, sid, e), keyOf)
  {
    hide LinksOk, Base, UnsettledApart, Settles, ChangedAreClear;
    var t := DoReceiveWebhook(s, sid, e);
    LinksApart(s, keyOf);
    SameRequestsSettle(s.db, t.db, keyOf);
    SettlesKeepsLinks(s, t, keyOf);
  }

  /** Steps that write no case row, request or ledger entry; a session keeps its case, snapshot and entry. */
  lemma LocalLinks(s: Sys, t: Sys, sid: nat, keyOf: Keys)
    requires Base(s) && LinksOk(s, keyOf)
    requires t.db.cases == s.db.cases && t.db.requests == s.db.requests && t.db.ledger == s.db.ledger
    requires forall i :: i in t.sessions && i != sid ==> i in s.sessions && t.sessions[i] == s.sessions[i]
    requires sid in t.sessions && (sid !in s.sessions || t.sessions[sid] != s.sessions[sid]) ==>
               && !t.sessions[sid].WebhookOpen?
               && (HasEntry(t.sessions[sid]) ==>
                     sid in s.sessions && HasEntry(s.sessions[sid]) && t.sessions[sid].c == s.sessions[sid].c
                     && t.sessions[sid].snap == s.sessions[sid].snap)
    ensures LinksOk(t, keyOf)
  {
    hide LinksOk, Base, UnsettledApart, Settles, ChangedAreClear, SessionOk, Linked;
    LinksApart(s, keyOf);
    SameRequestsSettle(s.db, t.db, keyOf);
    if sid in t.sessions && sid in s.sessions && HasEntry(s.sessions[sid]) {
      LinksGive(s, sid, keyOf);
      SameClear(s.db, t.db, s.sessions[sid], t.sessions[sid], keyOf);
    }
    SettlesKeepsLinks(s, t, keyOf);
  }

  lemma SameClear(a: Db, b: Db, x: Session, y: Session, keyOf: Keys)
    requires ClearFor(a, x, keyOf) && b.cases == a.cases && b.requests == a.requests && b.ledger == a.ledger
    requires HasEntry(y) ==> HasEntry(x) && y.c == x.c && y.snap == x.snap
    ensures ClearFor(b, y, keyOf)
  {
  }

  lemma BirthLinks(s: Sys, db: Db, keyOf: Keys)
    requires Base(s) && LinksOk(s, keyOf)
    requires s.db.cases <= db.cases && db.requests == s.db.requests && db.ledger == s.db.ledger
    ensures LinksOk(s.(db := db), keyOf)
  {
    assert forall r :: 0 <= r < |s.db.requests| ==> s.db.requests[r].caseId < |s.db.cases|;
    SettlesKeepsLinks(s, s.(db := db), keyOf);
  }

  lemma LocalStepLinks(s: Sys, a: Action, config: Config, keyOf: Keys)
    requires Base(s) && LinksOk(s, keyOf)
    requires a.Tick? || a.BeginDiagnosis? || a.BeginExecution? || a.CommitAttempt? || a.CallProvider?
             || a.CommitReconciliation? || a.NoteCycle? || a.BeginSweep?
    ensures LinksOk(Apply(s, a, config), keyOf)
  {
    hide LinksOk, Base;
    if Apply(s, a, config) != s {
      LocalLinks(s, Apply(s, a, config), if a.Tick? || a.NoteCycle? || a.BeginSweep? then 0 else a.sid, keyOf);
    }
  }

  lemma SameButSweeps(s: Sys, t: Sys, keyOf: Keys)
    requires LinksOk(s, keyOf) && t.db == s.db && t.sessions == s.sessions
    ensures LinksOk(t, keyOf)
  {
  }

  lemma BirthStepLinks(s: Sys, a: Action, config: Config, keyOf: Keys)
    requires Base(s) && LinksOk(s, keyOf) && (a.Ingest? || a.OpenCaseFor? || a.CommitSweep?)
    ensures LinksOk(Apply(s, a, config), keyOf)
  {
    hide LinksOk, Base, SweepTxn;
    if a.CommitSweep? && a.sid in s.sweeps {
      SweepLeavesTheRest(s.db, s.sweeps[a.sid].payments, a.day);
    }
    BirthLinks(s, Apply(s, a, config).db, keyOf);
    SameButSweeps(s.(db := Apply(s, a, config).db), Apply(s, a, config), keyOf);
  }

  lemma ApplyKeepsLinks(s: Sys, a: Action, config: Config, keyOf: Keys)
    requires Base(s) && LinksOk(s, keyOf) && Admissible(s, a, keyOf)
    ensures LinksOk(Apply(s, a, config), keyOf)
  {
    hide LinksOk, Base;
    match a
    case CommitDiagnosis(sid, outcome, day) => DiagnosisLinks(s, sid, outcome, day, config, keyOf);
    case CommitEntry(sid, day) => EntryLinks(s, sid, day, config, keyOf);
    case CommitFinish(sid) => FinishLinks(s, sid, keyOf);
    case ReceiveWebhook(sid, event) => ReceiveLinks(s, sid, event, keyOf);
    case CommitWebhook(sid) => WebhookLinks(s, sid, keyOf);
    case _ =>
      hide Apply;
      if a.Ingest? || a.OpenCaseFor? || a.CommitSweep? {
        BirthStepLinks(s, a, config, keyOf);
      } else {
        LocalStepLinks(s, a, config, keyOf);
      }
  }

  /** Each action of the run is admissible where it happens. */
  ghost predicate AdmissibleRun(actions: seq<Action>, config: Config, keyOf: Keys) {
    forall n :: 0 <= n < |actions| ==> Admissible(Run(INIT, actions[..n], config), actions[n], keyOf)
  }

  lemma {:induction false} RunKeepsLinks(actions: seq<Action>, config: Config, keyOf: Keys)
    requires AdmissibleRun(actions, config, keyOf)
    ensures LinksOk(Run(INIT, actions, config), keyOf)
  {
    hide Apply, LinksOk, Admissible;
    if actions == [] {
      InitLinks(keyOf);
    } else {
      var earlier := actions[..|actions| - 1];
      EarlierAdmissible(actions, config, keyOf);
      hide AdmissibleRun;
      RunKeepsLinks(earlier, config, keyOf);
      InitInv(config);
      RunKeepsInv(INIT, earlier, config);
      ApplyKeepsLinks(Run(INIT, earlier, config), actions[|actions| - 1], config, keyOf);
    }
  }

  lemma InitLinks(keyOf: Keys)
    ensures LinksOk(INIT, keyOf)
  {
  }

  lemma EarlierAdmissible(actions: seq<Action>, config: Config, keyOf: Keys)
    requires AdmissibleRun(actions, config, keyOf) && actions != []
    ensures
      var earlier := actions[..|actions| - 1];
      AdmissibleRun(earlier, config, keyOf)
      && Admissible(Run(INIT, earlier, config), actions[|actions| - 1], keyOf)
  {
    hide Run, Admissible;
    var earlier := actions[..|actions| - 1];
    forall n | 0 <= n < |earlier| ensures Admissible(Run(INIT, earlier[..n], config), earlier[n], keyOf) {
      assert earlier[..n] == actions[..n];
    }
  }

  /** No case outside EXECUTING has a live request, and none has two. */
  predicate LiveSafe(db: Db) {
    && (forall r :: 0 <= r < |db.requests| && Live(db.requests[r]) ==>
          db.requests[r].caseId < |db.cases| && db.cases[db.requests[r].caseId].status == Executing)
    && (forall q, r :: 0 <= q < r < |db.requests| ==>
          !(Live(db.requests[q]) && Live(db.requests[r]) && db.requests[q].caseId == db.requests[r].caseId))
  }

  lemma LinksAreSafe(s: Sys, keyOf: Keys)
    requires LinksOk(s, keyOf)
    ensures LiveSafe(s.db)
  {
  }

  /**
   * No two live links: if the relevant events of each link share one dedup key, then in every reachable
   * state, with any number of racing executors, a case that is not EXECUTING has no live payment request and
   * an EXECUTING case has at most one.
   */
  lemma NeverTwoLiveLinks(actions: seq<Action>, config: Config, keyOf: string -> string)
    requires forall i :: 0 <= i < |actions| ==> OneKeyPerLink(actions[i], keyOf)
    ensures LiveSafe(Run(INIT, actions, config).db)
  {
    hide Run, LinksOk;
    RunKeepsLinks(actions, config, Some(keyOf));
    LinksAreSafe(Run(INIT, actions, config), Some(keyOf));
  }

  /** One event that moves its case keeps links safe exactly when no other request of the case is live. */
  lemma MovingEventKeepsLinksIff(db: Db, w: Session)
    requires Linked(db) && LiveSafe(db) && SessionOk(db, w) && Moves(db, w)
    ensures LiveSafe(ApplyTxn(db, w.event, w.request, w.seen, w.snap).0) <==> !OtherLive(db, w)
  {
    var after := ApplyTxn(db, w.event, w.request, w.seen, w.snap).0;
    assert !Live(after.requests[w.request]);
    if r :| 0 <= r < |db.requests| && r != w.request && db.requests[r].caseId == w.c && Live(db.requests[r]) {
      assert Live(after.requests[r]) && after.cases[after.requests[r].caseId].status != Executing;
    }
  }

  /** Every state the run passes through is safe. */
  ghost predicate SafeThroughout(actions: seq<Action>, config: Config) {
    forall n :: 0 <= n <= |actions| ==> LiveSafe(Run(INIT, actions[..n], config).db)
  }

  ghost predicate GuardedThroughout(actions: seq<Action>, config: Config) {
    forall n :: 0 <= n < |actions| ==> Guarded(Run(INIT, actions[..n], config), actions[n])
  }

  lemma GuardedPrefix(actions: seq<Action>, n: nat, config: Config)
    requires GuardedThroughout(actions, config) && n <= |actions|
    ensures AdmissibleRun(actions[..n], config, None)
  {
    hide Run, Guarded;
    var first := actions[..n];
    forall k | 0 <= k < |first| ensures Admissible(Run(INIT, first[..k], config), first[k], None) {
      assert first[..k] == actions[..k];
      assert Guarded(Run(INIT, actions[..k], config), actions[k]);
    }
  }

  lemma SafeStepIsGuarded(s: Sys, a: Action, config: Config)
    requires Base(s) && LiveSafe(s.db) && LiveSafe(Apply(s, a, config).db)
    ensures Guarded(s, a)
  {
    hide LiveSafe, OtherLive;
    if a.CommitWebhook? && a.sid in s.sessions && Moves(s.db, s.sessions[a.sid]) {
      BaseGives(s, a.sid);
      hide Base, SessionOk, Linked;
      MovingEventKeepsLinksIff(s.db, s.sessions[a.sid]);
    }
  }

  /**
   * Whatever the dedup keys: a run keeps links safe in every state it passes through exactly when no webhook
   * of it moves a case past another live request, a guard the service could check before its commit.
   */
  lemma SafeIffGuarded(actions: seq<Action>, config: Config)
    ensures SafeThroughout(actions, config) <==> GuardedThroughout(actions, config)
  {
    hide Run, Apply, LiveSafe, Guarded, LinksOk;
    if GuardedThroughout(actions, config) {
      forall n | 0 <= n <= |actions| ensures LiveSafe(Run(INIT, actions[..n], config).db) {
        GuardedPrefix(actions, n, config);
        RunKeepsLinks(actions[..n], config, None);
        LinksAreSafe(Run(INIT, actions[..n], config), None);
      }
    }
    if SafeThroughout(actions, config) {
      forall n | 0 <= n < |actions| ensures Guarded(Run(INIT, actions[..n], config), actions[n]) {
        InitInv(config);
        RunKeepsInv(INIT, actions[..n], config);
        RunNext(actions, n, config);
        assert LiveSafe(Run(INIT, actions[..n], config).db) && LiveSafe(Run(INIT, actions[..n + 1], config).db);
        SafeStepIsGuarded(Run(INIT, actions[..n], config), actions[n], config);
      }
    }
  }

  lemma RunNext(actions: seq<Action>, n: nat, config: Config)
    requires n < |actions|
    ensures Run(INIT, actions[..n + 1], config) == Apply(Run(INIT, actions[..n], config), actions[n], config)
  {
    assert actions[..n + 1][..n] == actions[..n];
  }
}
