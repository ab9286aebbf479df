/** Reading the audit log back: replaying a case's status, and the evidence each change rests on. */
module AuditLog {
  import opened Domain
  import opened Policy
  import opened Records
  import opened Folds

  function ReplayStep(status: Option<Status>, e: Event, c: nat): Option<Status> {
    if e.StatusChanged? && e.c == c then
      if status == Some(e.from) && CanTransition(e.from, e.to) then Some(e.to) else None
    else status
  }

  /** The status case c has after the log, or None if its changes do not form a legal path from Discovered. */
  function Replay(log: seq<Event>, c: nat): Option<Status> {
    if log == [] then Some(Discovered) else ReplayStep(Replay(log[..|log| - 1], c), log[|log| - 1], c)
  }

  /** What must stand directly before a status change in the log. */
  predicate Justified(log: seq<Event>, e: Event) {
    e.StatusChanged? ==>
      && (e.to == Approved ==> log != [] && log[|log| - 1] == PolicyEvaluated(e.c, Decision(true, []), SendPaymentLink))
      && (e.to == Executing ==> log != [] && log[|log| - 1].PolicyRechecked? && log[|log| - 1].c == e.c)
      && (e.to == Recovered ==> log != [] && log[|log| - 1].PaymentConfirmed? && log[|log| - 1].c == e.c)
  }

  predicate Audited(log: seq<Event>) {
    log == [] || (Audited(log[..|log| - 1]) && Justified(log[..|log| - 1], log[|log| - 1]))
  }

  lemma ReplayPush(log: seq<Event>, e: Event, c: nat)
    ensures Replay(log + [e], c) == ReplayStep(Replay(log, c), e, c)
  {
  }

  lemma AuditedPush(log: seq<Event>, e: Event)
    ensures Audited(log + [e]) <==> Audited(log) && Justified(log, e)
  {
  }

  /** Statuses case c takes on, in log order, starting from Discovered. */
  function StatusHistory(log: seq<Event>, c: nat): (history: seq<Status>)
    ensures history != [] && history[0] == Discovered
  {
    if log == [] then [Discovered]
    else
      var history := StatusHistory(log[..|log| - 1], c);
      var e := log[|log| - 1];
      if e.StatusChanged? && e.c == c then history + [e.to] else history
  }

  /** A replayable log spells out a legal path of the transition table that ends at the replayed status. */
  lemma {:induction false} ReplayIsLegalPath(log: seq<Event>, c: nat)
    requires Replay(log, c).Some?
    ensures LegalPath(StatusHistory(log, c))
    ensures StatusHistory(log, c)[|StatusHistory(log, c)| - 1] == Replay(log, c).value
  {
    if log != [] {
      ReplayIsLegalPath(log[..|log| - 1], c);
    }
  }

  /** Every status change in an audited log has its own evidence directly before it. */
  lemma {:induction false} AuditedEverywhere(log: seq<Event>, p: nat)
    requires Audited(log) && p < |log|
    ensures Justified(log[..p], log[p])
  {
    if p < |log| - 1 {
      AuditedEverywhere(log[..|log| - 1], p);
      assert log[..|log| - 1][..p] == log[..p];
    }
  }

  function EntryInto(c: nat, status: Status): Event -> int {
    (e: Event) => if e.StatusChanged? && e.c == c && e.to == status then 1 else 0
  }

  /** How many committed entries into a status the log records for case c. */
  function Entries(log: seq<Event>, c: nat, status: Status): int {
    Sum(log, EntryInto(c, status))
  }

  function LinkEventOf(c: nat): Event -> int {
    (e: Event) => if e.PaymentLinkCreated? && e.c == c then 1 else 0
  }

  /** On a legal path every approval but a standing one has been spent by exactly one entry into Executing. */
  lemma {:induction false} ApprovalsSpent(log: seq<Event>, c: nat)
    requires Replay(log, c).Some?
    ensures Entries(log, c, Approved) ==
            Entries(log, c, Executing) + if Replay(log, c) == Some(Approved) then 1 else 0
  {
    if log != [] {
      ApprovalsSpent(log[..|log| - 1], c);
    }
  }
}
