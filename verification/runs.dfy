/** Composing runs: prefixes, and what the actions of one session can do to another. */
module Runs {
  import opened Domain
  import opened Policy
  import opened Records
  import Diagnosis
  import opened Execution
  import opened Webhooks
  import opened Ingestion
  import opened Protocol
  import opened Lifecycle
  import opened Guarantees

  /** The session an action belongs to. */
  function SidOf(a: Action): Option<nat> {
    match a
    case BeginSweep(sid, _) => Some(sid)
    case CommitSweep(sid, _) => Some(sid)
    case BeginDiagnosis(sid, _) => Some(sid)
    case CommitDiagnosis(sid, _, _) => Some(sid)
    case BeginExecution(sid, _) => Some(sid)
    case CommitEntry(sid, _) => Some(sid)
    case CommitAttempt(sid) => Some(sid)
    case CallProvider(sid, _) => Some(sid)
    case CommitReconciliation(sid, _) => Some(sid)
    case CommitFinish(sid) => Some(sid)
    case ReceiveWebhook(sid, _) => Some(sid)
    case CommitWebhook(sid) => Some(sid)
    case _ => None
  }

  predicate SameSession(s: Sys, t: Sys, me: nat) {
    && (me in s.sessions <==> me in t.sessions) && (me in s.sessions ==> t.sessions[me] == s.sessions[me])
    && (me in s.sweeps <==> me in t.sweeps) && (me in s.sweeps ==> t.sweeps[me] == s.sweeps[me])
  }

  lemma ForeignStep(s: Sys, a: Action, me: nat, config: Config)
    requires SidOf(a) != Some(me)
    ensures SameSession(s, Apply(s, a, config), me)
  {
    hide Diagnosis.DiagnosisTxn, EnterTxn, StartTxn, ReconcileTxn, RecordLinkTxn, FailTxn, Receive, ApplyTxn,
         IngestTxn, OpenCaseTxn, SweepTxn, FirstUncased;
  }

  lemma {:induction false} ForeignRun(s: Sys, actions: seq<Action>, me: nat, config: Config)
    requires forall i :: 0 <= i < |actions| ==> SidOf(actions[i]) != Some(me)
    ensures SameSession(s, Run(s, actions, config), me)
  {
    if actions != [] {
      hide Apply;
      var earlier := actions[..|actions| - 1];
      ForeignRun(s, earlier, me, config);
      ForeignStep(Run(s, earlier, config), actions[|actions| - 1], me, config);
    }
  }

  lemma RunNothing(s: Sys, config: Config)
    ensures Run(s, [], config) == s
  {
  }

  lemma RunPush(s: Sys, actions: seq<Action>, a: Action, config: Config)
    ensures Run(s, actions + [a], config) == Apply(Run(s, actions, config), a, config)
  {
    assert (actions + [a])[..|actions|] == actions;
  }

  lemma RunTwo(s: Sys, a: Action, b: Action, config: Config)
    ensures Run(s, [a, b], config) == Apply(Apply(s, a, config), b, config)
  {
    hide Apply;
    RunNothing(s, config);
    RunPush(s, [], a, config);
    RunPush(s, [a], b, config);
    assert [] + [a] == [a] && [a] + [b] == [a, b];
  }

  lemma {:induction false} RunConcat(s: Sys, a: seq<Action>, b: seq<Action>, config: Config)
    ensures Run(s, a + b, config) == Run(Run(s, a, config), b, config)
  {
    if b == [] {
      assert a + b == a;
    } else {
      hide Apply;
      RunConcat(s, a, b[..|b| - 1], config);
      assert (a + b)[..|a + b| - 1] == a + b[..|b| - 1];
    }
  }

  /** Cases are never deleted, and a row that differs later has a higher version. */
  predicate Grown(a: seq<CaseRow>, b: seq<CaseRow>) {
    |a| <= |b| && forall c :: 0 <= c < |a| ==> a[c] == b[c] || a[c].version < b[c].version
  }

  lemma {:induction false} RunGrows(s: Sys, actions: seq<Action>, config: Config)
    requires Inv(s, config)
    ensures Grown(s.db.cases, Run(s, actions, config).db.cases)
  {
    if actions != [] {
      hide Apply, Inv;
      var earlier := actions[..|actions| - 1];
      RunGrows(s, earlier, config);
      RunStep(s, actions, config);
      StepGrows(Run(s, earlier, config).db, Run(s, actions, config).db,
                DayOf(Run(s, earlier, config), actions[|actions| - 1]), config);
    }
  }

  lemma StepGrows(a: Db, b: Db, day: int, config: Config)
    requires RowsStep(a, b, day, config)
    ensures Grown(a.cases, b.cases)
  {
  }

  /** A longer history only grows the cases. */
  lemma LongerHistoryGrows(earlier: seq<Action>, later: seq<Action>, config: Config)
    requires earlier <= later
    ensures Grown(Run(INIT, earlier, config).db.cases, Run(INIT, later, config).db.cases)
    ensures Inv(Run(INIT, earlier, config), config)
  {
    hide Run, Inv, Grown;
    InitInv(config);
    RunKeepsInv(INIT, earlier, config);
    RunConcat(INIT, earlier, later[|earlier|..], config);
    assert later == earlier + later[|earlier|..];
    RunGrows(Run(INIT, earlier, config), later[|earlier|..], config);
  }
}
