/**
 * What one session does, as anybody can see it: read off the states before and after each of its actions, not off
 * the transactions that make them.
 */
module Deeds {
  import opened Domain
  import opened Policy
  import opened AiService
  import opened Records
  import Diagnosis
  import opened Execution
  import opened Protocol
  import opened Coherence
  import opened Runs

  datatype Deed =
    | Decided(c: nat, verdict: Status)                           // a verdict it committed
    | Wrote(c: nat, to: Status, links: seq<PaymentRequest>)      // a case it executes, with the links it put on record
    | Called(c: nat, answer: ProviderAnswer)                     // a create call, and what came of it
    | LookedUp(c: nat, found: Option<Link>)                      // a lookup by reference, and what it found

  /** What session `me` does in the step from s to t. */
  function DeedsIn(s: Sys, a: Action, t: Sys, me: nat): seq<Deed> {
    if SidOf(a) != Some(me) || me !in s.sessions then []
    else
      var c := s.sessions[me].c;
      var written := c < |s.db.cases| && c < |t.db.cases| && t.db.cases[c] != s.db.cases[c];
      match a
      case CommitDiagnosis(_, _, _) => if written then [Decided(c, t.db.cases[c].status)] else []
      case CommitEntry(_, _) => if written then [Wrote(c, t.db.cases[c].status, LinksAdded(s, t))] else []
      case CommitFinish(_) => if written then [Wrote(c, t.db.cases[c].status, LinksAdded(s, t))] else []
      case CallProvider(_, answer) => if |t.creates| > |s.creates| then [Called(c, answer)] else []
      case CommitReconciliation(_, found) => if |t.db.log| > |s.db.log| then [LookedUp(c, found)] else []
      case _ => []
  }

  function LinksAdded(s: Sys, t: Sys): seq<PaymentRequest> {
    if |s.db.requests| <= |t.db.requests| then t.db.requests[|s.db.requests|..] else []
  }

  /** Everything session `me` has done in the history from `from` on. */
  ghost function Story(history: seq<Action>, from: nat, me: nat, config: Config): seq<Deed> {
    if from >= |history| then []
    else
      var n := |history| - 1;
      Story(history[..n], from, me, config)
      + DeedsIn(Run(INIT, history[..n], config), history[n], Run(INIT, history, config), me)
  }

  lemma {:induction false} StoryJoin(earlier: seq<Action>, later: seq<Action>, from: nat, me: nat, config: Config)
    requires earlier <= later && from <= |earlier|
    ensures Story(later, from, me, config)
         == Story(earlier, from, me, config) + Story(later, |earlier|, me, config)
    decreases |later|
  {
    hide Run, DeedsIn;
    if earlier != later {
      StoryJoin(earlier, later[..|later| - 1], from, me, config);
    } else {
      assert Story(later, |earlier|, me, config) == [];
    }
  }

  lemma StoryPush(history: seq<Action>, a: Action, me: nat, config: Config)
    ensures Story(history + [a], |history|, me, config)
         == DeedsIn(Run(INIT, history, config), a, Run(INIT, history + [a], config), me)
  {
    hide Run, DeedsIn;
    assert (history + [a])[..|history|] == history;
    assert Story(history, |history|, me, config) == [];
  }

  /** Nothing done before: the story begins later. */
  lemma StoryBegins(earlier: seq<Action>, later: seq<Action>, from: nat, me: nat, config: Config)
    requires earlier <= later && from <= |earlier| && Story(earlier, from, me, config) == []
    ensures Story(later, from, me, config) == Story(later, |earlier|, me, config)
  {
    hide Story;
    StoryJoin(earlier, later, from, me, config);
  }

  /** Nothing done since: the story ended earlier. */
  lemma StoryEnds(earlier: seq<Action>, later: seq<Action>, from: nat, me: nat, config: Config)
    requires earlier <= later && from <= |earlier| && Story(later, |earlier|, me, config) == []
    ensures Story(later, from, me, config) == Story(earlier, from, me, config)
  {
    hide Story;
    StoryJoin(earlier, later, from, me, config);
  }

  lemma StoryStart(history: seq<Action>, me: nat, config: Config)
    ensures Story(history, |history|, me, config) == []
  {
  }

  /** What others do is not its story. */
  lemma {:induction false} ForeignStory(history: seq<Action>, acts: seq<Action>, me: nat, config: Config)
    requires forall i :: 0 <= i < |acts| ==> SidOf(acts[i]) != Some(me)
    ensures Story(history + acts, |history|, me, config) == []
  {
    if acts == [] {
      assert history + acts == history;
    } else {
      hide Run;
      var n := |acts| - 1;
      ForeignStory(history, acts[..n], me, config);
      assert (history + acts)[..|history| + n] == history + acts[..n];
    }
  }

  // ---- what each of its own actions amounts to ----

  /** The link as it was answered, on record for the case. */
  predicate IsRequestFor(req: PaymentRequest, c: nat, link: Link) {
    && req.caseId == c && req.providerReference == link.providerReference
    && req.amount == link.amount && req.amountPaid == link.amountPaid && req.status == link.status
  }

  /** How an execution ends for the cycle. A violated unique constraint is not a domain error: it propagates. */
  datatype ExecutionResult = Launched(status: Status) | HeldBack(status: Status) | Refused | Crashed

  /** A link to record: on record for the EXECUTING case, or nothing done, on a conflict or a taken reference. */
  predicate Adoption(c: nat, link: Link, deeds: seq<Deed>, result: ExecutionResult) {
    || (deeds == [] && (result == Refused || result == Crashed))
    || (result == Launched(Executing) && |deeds| == 1 && deeds[0].Wrote? && deeds[0].c == c && deeds[0].to == Executing
        && |deeds[0].links| == 1 && IsRequestFor(deeds[0].links[0], c, link))
  }

  /** No link: the case is ESCALATED, or nothing done on a conflict. */
  predicate Failure(c: nat, deeds: seq<Deed>, result: ExecutionResult) {
    || (deeds == [] && result == Refused)
    || (deeds == [Wrote(c, Escalated, [])] && result == HeldBack(Escalated))
  }

  /** What follows an answer: an ambiguous one is looked up first, and only then is it a link or a failure. */
  predicate AnswerStory(c: nat, answer: ProviderAnswer, deeds: seq<Deed>, result: ExecutionResult) {
    match answer
    case Made(link) => Adoption(c, link, deeds, result)
    case Raised(error) =>
      if error == AmbiguousError then
        && |deeds| >= 1 && deeds[0].LookedUp? && deeds[0].c == c
        && match deeds[0].found
           case Some(link) => Adoption(c, link, deeds[1..], result)
           case None => Failure(c, deeds[1..], result)
      else Failure(c, deeds, result)
  }

  predicate CallStory(c: nat, story: seq<Deed>, result: ExecutionResult) {
    |story| >= 1 && story[0].Called? && story[0].c == c && AnswerStory(c, story[0].answer, story[1..], result)
  }

  /** One execution: not entered, withheld at the entry, or entered, called for and concluded. */
  predicate ExecutionStory(c: nat, story: seq<Deed>, result: ExecutionResult) {
    || (story == [] && result == Refused)
    || (story == [Wrote(c, Escalated, [])] && result == HeldBack(Escalated))
    || (|story| >= 1 && story[0] == Wrote(c, Executing, []) && CallStory(c, story[1..], result))
  }

  function ResultOf(reply: FinishReply): ExecutionResult {
    match reply
    case LinkRecorded => Launched(Executing)
    case FailureEscalated => HeldBack(Escalated)
    case FinishConflict => Refused
    case DuplicateReference => Crashed
  }

  /** The last commit of an execution, by what the session has been told. */
  predicate Concluded(session: Session, deeds: seq<Deed>, result: ExecutionResult) {
    match session
    case Answered(c, _, _, _, Made(link)) => Adoption(c, link, deeds, result)
    case Answered(c, _, _, _, Raised(error)) => error != AmbiguousError && Failure(c, deeds, result)
    case Reconciled(c, _, _, _, Some(link)) => Adoption(c, link, deeds, result)
    case Reconciled(c, _, _, _, None) => Failure(c, deeds, result)
    case _ => false
  }

  /** The actions of a session that are no deeds: it reads, or it puts down what a deed of its own is about to use. */
  predicate IsQuiet(a: Action) {
    a.BeginDiagnosis? || a.BeginExecution? || a.CommitAttempt? || a.BeginSweep? || a.CommitSweep? || a.NoteCycle?
  }

  lemma StoryQuiet(history: seq<Action>, a: Action, me: nat, config: Config)
    requires IsQuiet(a)
    ensures Story(history + [a], |history|, me, config) == []
  {
    hide Run, Story;
    StoryPush(history, a, me, config);
  }

  lemma DiagnosisDeeds(s: Sys, me: nat, outcome: AiOutcome, day: int, t: Sys, config: Config)
    requires me in s.sessions && s.sessions[me].c < |s.db.cases| && Diagnosis.Diagnosable(s.sessions[me].snap.status)
    requires t.db == Diagnosis.DiagnosisTxn(s.db, s.sessions[me].c, s.sessions[me].snap, outcome, day, config).0
    ensures
      var c := s.sessions[me].c;
      var reply := Diagnosis.DiagnosisTxn(s.db, c, s.sessions[me].snap, outcome, day, config).1;
      DeedsIn(s, CommitDiagnosis(me, outcome, day), t, me) ==
      if reply.Diagnosis? then [Decided(c, reply.status)] else []
  {
    hide Evaluate, Diagnosis.Trail, Diagnosis.Verdict;
  }

  lemma EntryDeeds(s: Sys, me: nat, day: int, t: Sys, config: Config)
    requires me in s.sessions && s.sessions[me].c < |s.db.cases| && s.sessions[me].snap.status == Approved
    requires t.db == EnterTxn(s.db, s.sessions[me].c, s.sessions[me].snap, day, config).0
    ensures
      var c := s.sessions[me].c;
      DeedsIn(s, CommitEntry(me, day), t, me)
      == match EnterTxn(s.db, c, s.sessions[me].snap, day, config).1
         case Entered(_, _) => [Wrote(c, Executing, [])]
         case Withheld(_) => [Wrote(c, Escalated, [])]
         case _ => []
  {
    hide Evaluate, EnterTrail;
    assert s.db.requests[|s.db.requests|..] == [];
  }

  lemma CallDeeds(s: Sys, me: nat, answer: ProviderAnswer, t: Sys)
    requires me in s.sessions && |t.creates| == |s.creates| + 1
    ensures DeedsIn(s, CallProvider(me, answer), t, me) == [Called(s.sessions[me].c, answer)]
  {
  }

  lemma LookupDeeds(s: Sys, me: nat, found: Option<Link>, t: Sys)
    requires me in s.sessions && |t.db.log| > |s.db.log|
    ensures DeedsIn(s, CommitReconciliation(me, found), t, me) == [LookedUp(s.sessions[me].c, found)]
  {
  }

  lemma RecordingDeeds(s: Sys, me: nat, link: Link, t: Sys)
    requires me in s.sessions && HasAttempt(s.sessions[me])
    requires s.sessions[me].c < |s.db.cases| && s.sessions[me].attempt < |s.db.attempts|
    requires s.sessions[me].snap.status == Executing
    requires t.db == RecordLinkTxn(s.db, s.sessions[me].c, s.sessions[me].snap, s.sessions[me].attempt, link).0
    ensures
      var (c, deeds) := (s.sessions[me].c, DeedsIn(s, CommitFinish(me), t, me));
      match RecordLinkTxn(s.db, c, s.sessions[me].snap, s.sessions[me].attempt, link).1
      case LinkRecorded =>
        && |deeds| == 1 && deeds[0].Wrote? && deeds[0].c == c && deeds[0].to == Executing
        && |deeds[0].links| == 1 && IsRequestFor(deeds[0].links[0], c, link)
      case _ => deeds == []
  {
  }

  lemma FailingDeeds(s: Sys, me: nat, category: FailureCategory, t: Sys)
    requires me in s.sessions && HasAttempt(s.sessions[me])
    requires s.sessions[me].c < |s.db.cases| && s.sessions[me].attempt < |s.db.attempts|
    requires t.db == FailTxn(s.db, s.sessions[me].c, s.sessions[me].snap, s.sessions[me].attempt, category).0
    ensures
      var c := s.sessions[me].c;
      DeedsIn(s, CommitFinish(me), t, me)
      == match FailTxn(s.db, c, s.sessions[me].snap, s.sessions[me].attempt, category).1
         case FailureEscalated => [Wrote(c, Escalated, [])]
         case _ => []
  {
    assert s.db.requests[|s.db.requests|..] == [];
  }

  lemma FinishDeeds(s: Sys, me: nat, t: Sys, reply: FinishReply)
    requires me in s.sessions && !EndingOf(s.sessions[me]).NotYet? && s.sessions[me].snap.status == Executing
    requires s.sessions[me].c < |s.db.cases| && s.sessions[me].attempt < |s.db.attempts|
    requires
      var session := s.sessions[me];
      (t.db, reply) == match EndingOf(session)
                       case Adopt(link) => RecordLinkTxn(s.db, session.c, session.snap, session.attempt, link)
                       case GiveUp(category) => FailTxn(s.db, session.c, session.snap, session.attempt, category)
    ensures Concluded(s.sessions[me], DeedsIn(s, CommitFinish(me), t, me), ResultOf(reply))
  {
    var session := s.sessions[me];
    match EndingOf(session) {
      case Adopt(link) =>
        RecordingDeeds(s, me, link, t);
        RecordingReplies(s.db, session.c, session.snap, session.attempt, link);
      case GiveUp(category) =>
        FailingDeeds(s, me, category, t);
        FailingReplies(s.db, session.c, session.snap, session.attempt, category);
    }
    hide RecordLinkTxn, FailTxn, DeedsIn;
  }

  lemma RecordingReplies(db: Db, c: nat, snap: CaseRow, attempt: nat, link: Link)
    requires c < |db.cases| && attempt < |db.attempts|
    ensures RecordLinkTxn(db, c, snap, attempt, link).1 in {LinkRecorded, FinishConflict, DuplicateReference}
  {
    hide ReferenceTaken;
  }

  lemma FailingReplies(db: Db, c: nat, snap: CaseRow, attempt: nat, category: FailureCategory)
    requires c < |db.cases| && attempt < |db.attempts|
    ensures FailTxn(db, c, snap, attempt, category).1 in {FailureEscalated, FinishConflict}
  {
  }

  // ---- the deeds about one case, and the links among them ----

  function On(story: seq<Deed>, c: nat): seq<Deed> {
    if story == [] then []
    else On(story[..|story| - 1], c) + if story[|story| - 1].c == c then [story[|story| - 1]] else []
  }

  /** The cases links were put on record for, in order. */
  function LinkedCases(story: seq<Deed>): seq<nat> {
    if story == [] then []
    else
      var last := story[|story| - 1];
      LinkedCases(story[..|story| - 1]) + if last.Wrote? && last.links != [] then [last.c] else []
  }

  function DecidedCases(story: seq<Deed>): seq<nat> {
    if story == [] then []
    else
      var last := story[|story| - 1];
      DecidedCases(story[..|story| - 1]) + if last.Decided? then [last.c] else []
  }

  predicate OnlyOn(story: seq<Deed>, ids: seq<nat>) {
    forall i :: 0 <= i < |story| ==> story[i].c in ids
  }

  lemma {:induction false} OnConcat(a: seq<Deed>, b: seq<Deed>, c: nat)
    ensures On(a + b, c) == On(a, c) + On(b, c)
  {
    if b == [] {
      assert a + b == a;
    } else {
      OnConcat(a, b[..|b| - 1], c);
      assert (a + b)[..|a + b| - 1] == a + b[..|b| - 1];
    }
  }

  lemma {:induction false} LinkedConcat(a: seq<Deed>, b: seq<Deed>)
    ensures LinkedCases(a + b) == LinkedCases(a) + LinkedCases(b)
  {
    if b == [] {
      assert a + b == a;
    } else {
      LinkedConcat(a, b[..|b| - 1]);
      assert (a + b)[..|a + b| - 1] == a + b[..|b| - 1];
    }
  }

  lemma {:induction false} DecidedConcat(a: seq<Deed>, b: seq<Deed>)
    ensures DecidedCases(a + b) == DecidedCases(a) + DecidedCases(b)
  {
    if b == [] {
      assert a + b == a;
    } else {
      DecidedConcat(a, b[..|b| - 1]);
      assert (a + b)[..|a + b| - 1] == a + b[..|b| - 1];
    }
  }

  lemma {:induction false} OnOthers(story: seq<Deed>, ids: seq<nat>, c: nat)
    requires OnlyOn(story, ids) && c !in ids
    ensures On(story, c) == []
  {
    if story != [] {
      OnOthers(story[..|story| - 1], ids, c);
    }
  }

  lemma {:induction false} OnItself(story: seq<Deed>, c: nat)
    requires OnlyOn(story, [c])
    ensures On(story, c) == story
  {
    if story != [] {
      assert story[|story| - 1].c in [c];
      OnItself(story[..|story| - 1], c);
      assert story == story[..|story| - 1] + [story[|story| - 1]];
    }
  }

  // ---- what it has heard ----

  /** Every answer in the story is one the provider gave. */
  ghost predicate HeardFrom(provider: nat -> ProviderAnswer, lookup: nat -> Option<Link>, story: seq<Deed>) {
    && (forall i :: 0 <= i < |story| && story[i].Called? ==> exists k: nat :: provider(k) == story[i].answer)
    && (forall i :: 0 <= i < |story| && story[i].LookedUp? ==> exists k: nat :: lookup(k) == story[i].found)
  }

  lemma HeardJoin(provider: nat -> ProviderAnswer, lookup: nat -> Option<Link>, a: seq<Deed>, b: seq<Deed>)
    requires HeardFrom(provider, lookup, a) && HeardFrom(provider, lookup, b)
    ensures HeardFrom(provider, lookup, a + b)
  {
  }

  lemma HeardNothing(provider: nat -> ProviderAnswer, lookup: nat -> Option<Link>)
    ensures HeardFrom(provider, lookup, [])
  {
  }

  lemma HeardWrites(provider: nat -> ProviderAnswer, lookup: nat -> Option<Link>, c: nat, to: Status)
    ensures HeardFrom(provider, lookup, [Wrote(c, to, [])])
  {
  }

  /** A provider that refuses every link lets no execution succeed: once called, it ends held back or in conflict. */
  lemma RefusalHoldsBack(provider: nat -> ProviderAnswer, lookup: nat -> Option<Link>, c: nat, story: seq<Deed>,
                         result: ExecutionResult)
    requires ExecutionStory(c, story, result) && HeardFrom(provider, lookup, story)
    requires forall k: nat :: provider(k) == Raised(AuthError)
    ensures result == HeldBack(Escalated) || result == Refused
  {
  }
}
