/**
 * What late, early, repeated and racing events can do: each lemma reaches a state the services do not rule out, or
 * says exactly when they do.
 */
module LateEvents {
  import opened Domain
  import opened Policy
  import opened AiService
  import opened Records
  import Diagnosis
  import opened Execution
  import opened Webhooks
  import opened Ingestion
  import opened Protocol
  import opened Coherence
  import opened Steps
  import opened Lifecycle
  import opened Guarantees
  import opened Books
  import opened Summary
  import opened LiveLinks
  import opened Runs
  import opened References
  import opened Scenarios

  /** Two live links of one case. */
  predicate TwoLive(db: Db) {
    exists q, r :: 0 <= q < r < |db.requests| && Live(db.requests[q]) && Live(db.requests[r])
                   && db.requests[q].caseId == db.requests[r].caseId
  }

  /**
   * Link a expires under key 1 and the case goes on with link b; a late event about a under key 2 fails the
   * case while b is live, and its next execution adds c.
   */
  lemma TwoLiveLinksAreReachable()
    ensures exists actions :: TwoLive(Run(INIT, actions, DEFAULTS).db)
  {
    hide Run, Apply, Reached;
    var j := Journey(INIT, DEFAULTS);
    var s0 := Arrives(DEFAULTS, 100);
    var s1 := Diagnoses(j, s0, 0, 100);
    assert FreeName(s1.db, "a");
    var s2 := Launches(j, s1, 1, "a", 100);
    var s3 := Concludes(j, s2, 2, 0, Expired, "1", 100);
    var s4 := Diagnoses(j, s3, 3, 100);
    assert FreeName(s4.db, "b");
    var s5 := Launches(j, s4, 4, "b", 100);
    assert FindRequest(s5.db.requests, "a") == Some(0);
    var s6 := Concludes(j, s5, 5, 0, Cancelled, "2", 100);
    var s7 := Diagnoses(j, s6, 6, 100);
    assert FreeName(s7.db, "c");
    var s8 := Launches(j, s7, 7, "c", 100);
    assert Live(s8.db.requests[1]) && Live(s8.db.requests[2]);
    assert TwoLive(s8.db);
    Actions(j, s8, 8);
  }

  /** An execution that cannot end: its session is about to record a reference that is taken. */
  predicate Stranding(s: Sys) {
    && Duplicates(s, 0)
    && DoCommitFinish(s, 0) == s.(sessions := map[])
    && |s.db.cases| == 1 && s.db.cases[0].status == Executing
  }

  /**
   * Two ambiguous creates of one case, both reconciled to the same link: the second finish hits the unique
   * constraint, nothing is written, and the case is left EXECUTING with nobody working on it.
   */
  lemma CollisionIsReachable()
    ensures exists actions :: Stranding(Run(INIT, actions, DEFAULTS))
  {
    hide Run, Apply, Reached;
    var j := Journey(INIT, DEFAULTS);
    var s0 := Arrives(DEFAULTS, 100);
    var s1 := Diagnoses(j, s0, 0, 100);
    var s2 := Loads(j, s1, 1, 100);
    var s3 := Enters(j, s2, 1, 100);
    var s4 := Reconciles(j, s3, 2, "a", 100);
    var s5 := RecordsLink(j, s4, 2, "a", 100);
    var s6 := Concludes(j, s5, 2, 0, Expired, "1", 100);
    var s7 := Diagnoses(j, s6, 3, 100);
    var s8 := Loads(j, s7, 4, 100);
    var s9 := Enters(j, s8, 4, 100);
    var s10 := Reconciles(j, s9, 5, "a", 100);
    assert s10.db.requests[0].providerReference == "a";
    assert s10.sessions - {0} == map[];
    assert Stranding(s10);
    Actions(j, s10, 5);
  }

  const UNTRACKED := IngestRequest(None, 100, PaymentFailed, None, false)

  /** A sweep has listed payments 0 and 1, and payment 1 has been given its case: the sweep opens neither. */
  predicate SweepsInVain(s: Sys) {
    && Overtaken(s, 0) && s.sweeps[0].payments == [0, 1]
    && !HasCase(s.db.cases, 0) && HasCase(s.db.cases, 1)
    && DoCommitSweep(s, 0, s.today) == s.(sweeps := map[])
  }

  /** An operator opens one of the cases a sweep has listed, and the whole sweep is lost. */
  lemma OvertakenSweepIsReachable()
    ensures exists actions :: SweepsInVain(Run(INIT, actions, DEFAULTS))
  {
    var two := TwoUntracked();
    OneOpened(two);
    hide Run, Apply, SweepsInVain;
    var reports, sweep := [Ingest(UNTRACKED), Ingest(UNTRACKED)], [BeginSweep(0, 10), OpenCaseFor(1)];
    RunTwo(two, BeginSweep(0, 10), OpenCaseFor(1), DEFAULTS);
    RunConcat(INIT, reports, sweep, DEFAULTS);
    assert SweepsInVain(Run(INIT, reports + sweep, DEFAULTS));
  }

  lemma TwoUntracked() returns (s: Sys)
    ensures s == Run(INIT, [Ingest(UNTRACKED), Ingest(UNTRACKED)], DEFAULTS)
    ensures |s.db.payments| == 2 && NeedsCase(s.db, 0) && NeedsCase(s.db, 1)
    ensures s.db.cases == [] && s.sweeps == map[] && s.today == 0
  {
    hide Run;
    RunTwo(INIT, Ingest(UNTRACKED), Ingest(UNTRACKED), DEFAULTS);
    s := Apply(Apply(INIT, Ingest(UNTRACKED), DEFAULTS), Ingest(UNTRACKED), DEFAULTS);
  }

  lemma OneOpened(s: Sys)
    requires |s.db.payments| == 2 && NeedsCase(s.db, 0) && NeedsCase(s.db, 1)
    requires s.db.cases == [] && s.sweeps == map[] && s.today == 0
    ensures SweepsInVain(Apply(Apply(s, BeginSweep(0, 10), DEFAULTS), OpenCaseFor(1), DEFAULTS))
  {
    BothListed(s.db);
    hide FirstUncased;
    var listed := Apply(s, BeginSweep(0, 10), DEFAULTS);
    var t := Apply(listed, OpenCaseFor(1), DEFAULTS);
    assert t.db.cases[0].paymentId == 1;
    assert listed.sweeps[0].payments[1] == 1;
    OpenableIff(t.db, [0, 1], 0);
    assert t.sweeps - {0} == map[];
  }

  lemma BothListed(db: Db)
    requires |db.payments| == 2 && NeedsCase(db, 0) && NeedsCase(db, 1)
    ensures FirstUncased(db, 10) == [0, 1]
  {
    assert UncasedFrom(db, 2) == [];
    assert UncasedFrom(db, 1) == [1];
    assert UncasedFrom(db, 0) == [0] + [1];
  }

  // ---- paid requests ----

  /** This commit rewrites the paid request with a status that is not PAID. */
  predicate Unpays(s: Sys, a: Action, r: nat) {
    && a.CommitWebhook? && a.sid in s.sessions
    && var w := s.sessions[a.sid];
       && w.WebhookOpen? && w.request == r && w.event.key !in s.db.ledger
       && w.event.status.Some? && w.event.status.value != Paid
       && w.seen.caseId < |s.db.cases|
       && (w.snap.status == Executing ==> s.db.cases[w.seen.caseId].version == w.snap.version)
  }

  lemma PaidWebhook(s: Sys, sid: nat, r: nat)
    requires r < |s.db.requests| && s.db.requests[r].status == Paid
    ensures r < |DoCommitWebhook(s, sid).db.requests|
    ensures DoCommitWebhook(s, sid).db.requests[r].status == Paid <==> !Unpays(s, CommitWebhook(sid), r)
  {
  }

  lemma PaidElsewhere(s: Sys, a: Action, r: nat, config: Config)
    requires r < |s.db.requests| && s.db.requests[r].status == Paid && !a.CommitWebhook?
    ensures r < |Apply(s, a, config).db.requests| && Apply(s, a, config).db.requests[r].status == Paid
  {
    hide Diagnosis.DiagnosisTxn, EnterTxn, SweepTxn, FirstUncased;
    match a
    case CommitSweep(sid, day) =>
      if sid in s.sweeps {
        SweepLeavesTheRest(s.db, s.sweeps[sid].payments, day);
      }
    case CommitDiagnosis(sid, outcome, day) =>
      if sid in s.sessions && s.sessions[sid].DiagnosisOpen? {
        Diagnosis.LeavesTheRest(s.db, s.sessions[sid].c, s.sessions[sid].snap, outcome, day, config);
      }
    case CommitEntry(sid, day) =>
      if sid in s.sessions && s.sessions[sid].ExecutionOpen? {
        EntryLeavesTheRest(s.db, s.sessions[sid].c, s.sessions[sid].snap, day, config);
      }
    case _ =>
  }

  /** A paid request stays paid exactly until an event about it that says otherwise is claimed and committed. */
  lemma PaidStaysIff(s: Sys, a: Action, r: nat, config: Config)
    requires r < |s.db.requests| && s.db.requests[r].status == Paid
    ensures r < |Apply(s, a, config).db.requests|
    ensures Apply(s, a, config).db.requests[r].status == Paid <==> !Unpays(s, a, r)
  {
    hide Unpays;
    if a.CommitWebhook? {
      PaidWebhook(s, a.sid, r);
    } else {
      assert !Unpays(s, a, r) by { NotUnpaid(s, a, r); }
      hide Apply;
      PaidElsewhere(s, a, r, config);
    }
  }

  lemma NotUnpaid(s: Sys, a: Action, r: nat)
    requires !a.CommitWebhook?
    ensures !Unpays(s, a, r)
  {
  }

  /** One case recovered by its one request, with everything paid for. */
  predicate RecoveredInFull(db: Db) {
    && |db.cases| == 1 && db.cases[0].status == Recovered
    && db.cases[0].recoveredAmount == db.cases[0].revenueAtRisk > 0
  }

  /** The honest runs the books are proved for do recover money. */
  lemma RecoveryIsReachable()
    ensures exists actions ::
              && GoodRun(Exact, INIT, actions, DEFAULTS)
              && (forall i :: 0 <= i < |actions| ==> SchemaOk(actions[i]))
              && RecoveredInFull(Run(INIT, actions, DEFAULTS).db)
  {
    hide Run, Apply, Reached, GoodRun;
    var s := PaidUp();
    Actions(Journey(INIT, DEFAULTS), s, 3);
  }

  lemma PaidUp() returns (s: Sys)
    ensures Reached(Journey(INIT, DEFAULTS), s, 3) && Resting(s, Recovered, 100) && RecoveredInFull(s.db)
    ensures s.db.ledger == {"1"} && |s.db.requests| == 1
    ensures
      var req := s.db.requests[0];
      req.providerReference == "a" && req.caseId == 0 && req.status == Paid && req.amount == 100
  {
    hide Run, Apply, Reached;
    var j := Journey(INIT, DEFAULTS);
    var s0 := Arrives(DEFAULTS, 100);
    var s1 := Diagnoses(j, s0, 0, 100);
    assert FreeName(s1.db, "a");
    var s2 := Launches(j, s1, 1, "a", 100);
    s := Concludes(j, s2, 2, 0, Paid, "1", 100);
  }

  /** A late event turns the paid request of a recovered case to EXPIRED; the case keeps its money. */
  lemma PaidCanExpire()
    ensures exists actions ::
              var db := Run(INIT, actions, DEFAULTS).db;
              RecoveredInFull(db) && |db.requests| == 1 && db.requests[0].status == Expired
  {
    hide Run, Apply, Reached;
    var j := Journey(INIT, DEFAULTS);
    var s := PaidUp();
    assert FindRequest(s.db.requests, "a") == Some(0);
    var t := Overwrites(j, s, 3, 0, Expired, "2", 100);
    Actions(j, t, 3);
  }

  // ---- events that come too early ----

  /** The one key its link's events carry is spent, and nobody is working on the case. */
  ghost predicate Lost(s: Sys, c: nat, reference: string, key: string) {
    && c < |s.db.cases| && s.db.cases[c].status == Executing
    && key in s.db.ledger
    && (forall r :: 0 <= r < |s.db.requests| && s.db.requests[r].caseId == c ==>
          s.db.requests[r].providerReference == reference)
    && (forall sid :: sid in s.sessions ==> s.sessions[sid].c != c)
  }

  /** Every delivery about this link carries this key. */
  predicate SameKey(a: Action, reference: string, key: string) {
    a.ReceiveWebhook? && a.event.link == Some(reference) ==> a.event.key == key
  }

  lemma LostReceive(s: Sys, sid: nat, e: LinkEvent, c: nat, reference: string, key: string)
    requires Lost(s, c, reference, key) && SameKey(ReceiveWebhook(sid, e), reference, key)
    ensures Lost(DoReceiveWebhook(s, sid, e), c, reference, key)
  {
  }

  lemma LostFinish(s: Sys, sid: nat, c: nat, reference: string, key: string)
    requires Lost(s, c, reference, key)
    ensures Lost(DoCommitFinish(s, sid), c, reference, key)
  {
  }

  lemma LostWebhook(s: Sys, sid: nat, c: nat, reference: string, key: string)
    requires Base(s) && Lost(s, c, reference, key)
    ensures Lost(DoCommitWebhook(s, sid), c, reference, key)
  {
    if sid in s.sessions {
      BaseGives(s, sid);
      hide Base;
    }
  }

  /** A transaction that writes at most the row of another case. */
  lemma LostElsewhere(s: Sys, t: Sys, d: nat, c: nat, reference: string, key: string)
    requires Lost(s, c, reference, key) && d != c
    requires |t.db.cases| == |s.db.cases|
    requires forall k :: 0 <= k < |s.db.cases| && t.db.cases[k] != s.db.cases[k] ==> k == d
    requires t.db.requests == s.db.requests && t.db.ledger == s.db.ledger
    requires forall sid :: sid in t.sessions ==> sid in s.sessions && t.sessions[sid].c == s.sessions[sid].c
    ensures Lost(t, c, reference, key)
  {
  }

  lemma LostDiagnosis(s: Sys, sid: nat, outcome: AiOutcome, day: int, c: nat, reference: string, key: string,
                      config: Config)
    requires Base(s) && Lost(s, c, reference, key)
    ensures Lost(DoCommitDiagnosis(s, sid, outcome, day, config), c, reference, key)
  {
    hide Diagnosis.DiagnosisTxn;
    var t := DoCommitDiagnosis(s, sid, outcome, day, config);
    if t != s {
      BaseGives(s, sid);
      hide Base;
      var session := s.sessions[sid];
      assert session.c != c && session.c < |s.db.cases|;
      hide Lost, SessionOk;
      DiagnosisTouches(s.db, session.c, session.snap, outcome, day, config);
      Diagnosis.LeavesTheRest(s.db, session.c, session.snap, outcome, day, config);
      LostElsewhere(s, t, session.c, c, reference, key);
    }
  }

  lemma LostEntry(s: Sys, sid: nat, day: int, c: nat, reference: string, key: string, config: Config)
    requires Base(s) && Lost(s, c, reference, key)
    ensures Lost(DoCommitEntry(s, sid, day, config), c, reference, key)
  {
    hide EnterTxn;
    var t := DoCommitEntry(s, sid, day, config);
    if t != s {
      BaseGives(s, sid);
      hide Base;
      var session := s.sessions[sid];
      assert session.c != c && session.c < |s.db.cases|;
      hide Lost, SessionOk;
      EntryTouches(s.db, session.c, session.snap, day, config);
      EntryLeavesTheRest(s.db, session.c, session.snap, day, config);
      assert t.db == EnterTxn(s.db, session.c, session.snap, day, config).0;
      hide Open, Close;
      LostElsewhere(s, t, session.c, c, reference, key);
    }
  }

  lemma LostBirth(s: Sys, a: Action, c: nat, reference: string, key: string, config: Config)
    requires Lost(s, c, reference, key) && (a.Ingest? || a.OpenCaseFor? || a.CommitSweep?)
    ensures Lost(Apply(s, a, config), c, reference, key)
  {
    hide SweepTxn;
    if a.CommitSweep? && a.sid in s.sweeps {
      SweepLeavesTheRest(s.db, s.sweeps[a.sid].payments, a.day);
    }
  }

  lemma LostOther(s: Sys, a: Action, c: nat, reference: string, key: string, config: Config)
    requires Lost(s, c, reference, key)
    requires a.Tick? || a.BeginDiagnosis? || a.BeginExecution? || a.CommitAttempt? || a.CallProvider?
             || a.CommitReconciliation? || a.NoteCycle? || a.BeginSweep?
    ensures Lost(Apply(s, a, config), c, reference, key)
  {
  }

  lemma LostStep(s: Sys, a: Action, c: nat, reference: string, key: string, config: Config)
    requires Base(s) && Lost(s, c, reference, key) && SameKey(a, reference, key)
    ensures Lost(Apply(s, a, config), c, reference, key)
  {
    hide Lost, Base;
    match a
    case ReceiveWebhook(sid, e) => LostReceive(s, sid, e, c, reference, key);
    case CommitWebhook(sid) => LostWebhook(s, sid, c, reference, key);
    case CommitFinish(sid) => LostFinish(s, sid, c, reference, key);
    case CommitDiagnosis(sid, outcome, day) => LostDiagnosis(s, sid, outcome, day, c, reference, key, config);
    case CommitEntry(sid, day) => LostEntry(s, sid, day, c, reference, key, config);
    case _ =>
      hide Apply;
      if a.Ingest? || a.OpenCaseFor? || a.CommitSweep? {
        LostBirth(s, a, c, reference, key, config);
      } else {
        LostOther(s, a, c, reference, key, config);
      }
  }

  /** Once lost, the case is EXECUTING for ever, whatever anybody does. */
  lemma {:induction false} LostForever(s: Sys, later: seq<Action>, c: nat, reference: string, key: string,
                                       config: Config)
    requires Inv(s, config) && Lost(s, c, reference, key)
    requires forall i :: 0 <= i < |later| ==> SameKey(later[i], reference, key)
    ensures Lost(Run(s, later, config), c, reference, key)
  {
    if later != [] {
      hide Apply, Lost;
      var earlier := later[..|later| - 1];
      LostForever(s, earlier, c, reference, key, config);
      RunKeepsInv(s, earlier, config);
      LostStep(Run(s, earlier, config), later[|later| - 1], c, reference, key, config);
    }
  }

  // ---- exactly when a payment can still recover its case ----

  /** Case c waits for the payment of its request r, the link `reference`, and nobody is working on it. */
  ghost predicate AwaitsPayment(s: Sys, c: nat, r: nat, reference: string) {
    && c < |s.db.cases| && s.db.cases[c].status == Executing
    && r < |s.db.requests| && s.db.requests[r].caseId == c && s.db.requests[r].providerReference == reference
    && (forall q :: 0 <= q < |s.db.requests| && s.db.requests[q].caseId == c ==>
          s.db.requests[q].providerReference == reference)
    && (forall sid :: sid in s.sessions ==> s.sessions[sid].c != c)
  }

  /** After these actions, every delivery about the link among them under its one key, the case is recovered. */
  ghost predicate Recovers(s: Sys, later: seq<Action>, c: nat, reference: string, key: string, config: Config) {
    && (forall i :: 0 <= i < |later| ==> SameKey(later[i], reference, key))
    && var t := Run(s, later, config);
       c < |t.db.cases| && t.db.cases[c].status == Recovered
  }

  /** A report of the link as paid in full. */
  function PaidReport(req: PaymentRequest, key: string): LinkEvent {
    LinkEvent(Some(req.providerReference), Some(Paid), Some(if req.amount > 0 then req.amount else 1), key)
  }

  lemma {:induction false} UnusedId(used: set<nat>) returns (id: nat)
    ensures forall n :: n in used ==> n < id
  {
    if used == {} {
      id := 0;
    } else {
      var n :| n in used;
      var above := UnusedId(used - {n});
      id := if n < above then above else n + 1;
      assert forall m :: m in used ==> m == n || m in used - {n};
    }
  }

  lemma OnlyOneNamed(db: Db, r: nat)
    requires Linked(db) && r < |db.requests|
    ensures FindRequest(db.requests, db.requests[r].providerReference) == Some(r)
  {
    var found := FindRequest(db.requests, db.requests[r].providerReference);
    assert found.Some?;
  }

  lemma PaymentCommitted(s: Sys, sid: nat, c: nat, r: nat, reference: string, key: string, config: Config)
    requires AwaitsPayment(s, c, r, reference) && key !in s.db.ledger && sid !in s.sessions
    ensures
      var e := PaidReport(s.db.requests[r], key);
      var loaded := Open(s, sid, WebhookOpen(c, s.db.cases[c], e, r, s.db.requests[r]));
      var t := Apply(loaded, CommitWebhook(sid), config);
      c < |t.db.cases| && t.db.cases[c].status == Recovered
  {
  }

  lemma PaymentReceived(s: Sys, sid: nat, c: nat, r: nat, reference: string, key: string, config: Config)
    requires Linked(s.db) && AwaitsPayment(s, c, r, reference) && key !in s.db.ledger && sid !in s.sessions
    ensures
      var e := PaidReport(s.db.requests[r], key);
      Apply(s, ReceiveWebhook(sid, e), config)
      == Open(s, sid, WebhookOpen(c, s.db.cases[c], e, r, s.db.requests[r]))
  {
    OnlyOneNamed(s.db, r);
    hide FindRequest, Linked;
  }

  /** The report is claimed and committed with nothing in between. */
  lemma PaymentArrives(s: Sys, sid: nat, c: nat, r: nat, reference: string, key: string, config: Config)
    requires Linked(s.db) && AwaitsPayment(s, c, r, reference) && key !in s.db.ledger && sid !in s.sessions
    ensures
      var e := PaidReport(s.db.requests[r], key);
      Recovers(s, [ReceiveWebhook(sid, e), CommitWebhook(sid)], c, reference, key, config)
  {
    PaymentReceived(s, sid, c, r, reference, key, config);
    PaymentCommitted(s, sid, c, r, reference, key, config);
    hide Run, Linked, Apply, Open;
    RunTwo(s, ReceiveWebhook(sid, PaidReport(s.db.requests[r], key)), CommitWebhook(sid), config);
  }

  /**
   * A case that waits for its one link can still be recovered exactly when the key its reports carry has not been
   * spent: on an early report, or on one that was ignored.
   */
  lemma RecoverableIff(s: Sys, c: nat, r: nat, reference: string, key: string, config: Config)
    requires Inv(s, config) && AwaitsPayment(s, c, r, reference)
    ensures (exists later :: Recovers(s, later, c, reference, key, config)) <==> key !in s.db.ledger
  {
    assert Linked(s.db);
    hide Run, Inv, Linked;
    if key !in s.db.ledger {
      var sid := UnusedId(s.sessions.Keys);
      PaymentArrives(s, sid, c, r, reference, key, config);
    } else if later :| Recovers(s, later, c, reference, key, config) {
      LostForever(s, later, c, reference, key, config);
      assert false;
    }
  }

  const EARLY := LinkEvent(Some("a"), Some(Paid), Some(100), "1")

  /** The payment is reported before its link is recorded. */
  predicate PaidTooEarly(before: Sys) {
    && HasLink(before, "a", 100) && before.db.requests == [] && before.db.ledger == {}
    && |before.db.cases| == 1 && before.db.cases[0].status == Executing
  }

  /**
   * A payment reported before its link is recorded is claimed and ignored: the link is recorded right after
   * it, and no redelivery of that report ever recovers the case.
   */
  lemma EarlyPaymentIsLost()
    ensures exists actions ::
              && PaidTooEarly(Run(INIT, actions, DEFAULTS))
              && var s := Run(INIT, actions + [ReceiveWebhook(1, EARLY), CommitFinish(0)], DEFAULTS);
                 && |s.db.requests| == 1 && s.db.requests[0].providerReference == "a" && s.db.requests[0].caseId == 0
                 && forall later: seq<Action> ::
                      (forall i :: 0 <= i < |later| ==> SameKey(later[i], "a", "1")) ==>
                        Lost(Run(s, later, DEFAULTS), 0, "a", "1")
  {
    hide Run, Apply, Reached, Lost;
    var j := Journey(INIT, DEFAULTS);
    var s0 := Arrives(DEFAULTS, 100);
    var s1 := Diagnoses(j, s0, 0, 100);
    var s2 := Loads(j, s1, 1, 100);
    var s3 := Enters(j, s2, 1, 100);
    var s4 := Makes(j, s3, 2, "a", 100);
    Actions(j, s4, 2);
    var actions :| Run(INIT, actions, DEFAULTS) == s4;
    var all := actions + [ReceiveWebhook(1, EARLY), CommitFinish(0)];
    EarlyRun(actions, s4);
    var s := Run(INIT, all, DEFAULTS);
    InitInv(DEFAULTS);
    RunKeepsInv(INIT, all, DEFAULTS);
    forall later: seq<Action> | forall i :: 0 <= i < |later| ==> SameKey(later[i], "a", "1")
      ensures Lost(Run(s, later, DEFAULTS), 0, "a", "1")
    {
      LostForever(s, later, 0, "a", "1", DEFAULTS);
    }
  }

  lemma EarlyRun(actions: seq<Action>, before: Sys)
    requires Run(INIT, actions, DEFAULTS) == before && PaidTooEarly(before)
    ensures
      var s := Run(INIT, actions + [ReceiveWebhook(1, EARLY), CommitFinish(0)], DEFAULTS);
      && Lost(s, 0, "a", "1")
      && |s.db.requests| == 1 && s.db.requests[0].providerReference == "a" && s.db.requests[0].caseId == 0
  {
    hide Run;
    RunConcat(INIT, actions, [ReceiveWebhook(1, EARLY), CommitFinish(0)], DEFAULTS);
    RunTwo(before, ReceiveWebhook(1, EARLY), CommitFinish(0), DEFAULTS);
    var t := Apply(before, ReceiveWebhook(1, EARLY), DEFAULTS);
    assert t.sessions == before.sessions && t.db.requests == [];
  }

  // ---- a date read just in time ----

  /**
   * The bound of three is met: an execution that loaded its case on the last open day and commits its entry
   * after the close takes the case through EXECUTING and FAILED to STOPPED.
   */
  lemma ThreeChangesAfterTheClose()
    ensures exists before, after ::
              var s := Run(INIT, before, DEFAULTS);
              && |s.db.cases| == 1 && !WindowOpen(s.db.cases[0], s.today, DEFAULTS)
              && StatusChanges(s, after, 0, DEFAULTS) == 3
  {
    hide Run, Apply, Reached;
    var j := Journey(INIT, DEFAULTS);
    var s0 := Arrives(DEFAULTS, 100);
    var s1 := Diagnoses(j, s0, 0, 100);
    var s2 := DaysPassBy(j, s1, 1, 14);
    var s3 := Loads(j, s2, 1, 100);
    var s4 := DayPasses(j, s3, 1);
    Actions(j, s4, 1);
    var before :| Run(INIT, before, DEFAULTS) == s4;
    var k := Journey(s4, DEFAULTS);
    SetsOut(k);
    var t0 := Enters(k, s4, 0, 100);
    var t1 := Makes(k, t0, 1, "a", 100);
    assert FreeName(t1.db, "a");
    var t2 := RecordsLink(k, t1, 1, "a", 100);
    var t3 := Concludes(k, t2, 1, 0, Expired, "1", 100);
    var t4 := Diagnoses(k, t3, 2, 100);
    Changes(k, t4, 3);
  }

  lemma Changes(j: Journey, s: Sys, changes: nat)
    requires Reached(j, s, changes)
    ensures exists actions :: StatusChanges(j.origin, actions, 0, j.config) == changes
  {
    var actions :| Travels(j, actions, s, changes);
  }
}
