/** Webhooks: dedup keys, claim-first deduplication, and the only way a case is recovered. */
module Webhooks {
  import opened Domain
  import opened Records

  /** A parsed payment-link event. A status outside the link vocabulary parses to None. */
  datatype LinkEvent = LinkEvent(
    link: Option<string>, status: Option<LinkStatus>, amountPaid: Option<int>, key: string)

  /** The parts of a delivery the dedup key is built from. */
  datatype Delivery = Delivery(
    eventId: Option<string>, eventType: string, linkId: Option<string>, paymentId: Option<string>)

  datatype WebhookReply = Processed | Duplicate | Ignored | WebhookConflict

  function OrEmpty(s: Option<string>): string {
    if s.Some? then s.value else ""
  }

  function BuildDedupKey(d: Delivery): string {
    if d.eventId.Some? && d.eventId.value != "" then "event_id:" + d.eventId.value
    else d.eventType + ":" + OrEmpty(d.linkId) + ":" + OrEmpty(d.paymentId)
  }

  predicate Relevant(e: LinkEvent) {
    e.link.Some? && e.status.Some? && e.status.value in RELEVANT_LINK_STATUSES
  }

  /** The position of the payment request of a link, if we recorded one. */
  function FindRequest(requests: seq<PaymentRequest>, reference: string): (r: Option<nat>)
    ensures r.Some? ==> r.value < |requests| && requests[r.value].providerReference == reference
    ensures r.None? <==> forall i :: 0 <= i < |requests| ==> requests[i].providerReference != reference
  {
    if requests == [] then None
    else if requests[|requests| - 1].providerReference == reference then Some(|requests| - 1)
    else FindRequest(requests[..|requests| - 1], reference)
  }

  /** What a delivery that claims its key does before any case is touched. */
  datatype Receipt = Settled(db: Db, reply: WebhookReply) | Matched(request: nat)

  function Receive(db: Db, e: LinkEvent): Receipt {
    if e.key in db.ledger then Settled(db, Duplicate)
    else if !Relevant(e) then Settled(db.(ledger := db.ledger + {e.key}), Ignored)
    else
      var found := FindRequest(db.requests, e.link.value);
      if found.None? then
        Settled(db.(ledger := db.ledger + {e.key}, log := db.log + [WebhookUnmatchedLink(e.link.value)]), Ignored)
      else Matched(found.value)
  }

  /** The amount a request shows after an event: a missing or zero amount leaves it as it was. */
  function AmountAfter(e: LinkEvent, before: int): int {
    if e.amountPaid.Some? && e.amountPaid.value != 0 then e.amountPaid.value else before
  }

  function Updated(req: PaymentRequest, e: LinkEvent, seen: PaymentRequest): PaymentRequest
    requires e.status.Some?
  {
    req.(status := e.status.value, amountPaid := AmountAfter(e, seen.amountPaid))
  }

  function PaymentEvent(c: nat, e: LinkEvent, seen: PaymentRequest): Event
    requires e.status.Some?
  {
    if e.status.value == Paid then PaymentConfirmed(c, seen.providerReference, AmountAfter(e, seen.amountPaid))
    else PaymentNotRecovered(c, seen.providerReference, e.status.value)
  }

  predicate FullyPaid(e: LinkEvent, seen: PaymentRequest) {
    e.status == Some(Paid) && AmountAfter(e, seen.amountPaid) >= seen.amount
  }

  /** The case row a processed event writes. */
  function Resolved(row: CaseRow, e: LinkEvent, seen: PaymentRequest): CaseRow {
    if FullyPaid(e, seen) then
      row.(status := Recovered, version := row.version + 1,
           recoveredAmount := row.recoveredAmount + AmountAfter(e, seen.amountPaid))
    else row.(status := Failed, version := row.version + 1)
  }

  function AttemptsAfter(attempts: seq<Attempt>, e: LinkEvent, seen: PaymentRequest): seq<Attempt> {
    if FullyPaid(e, seen) || seen.attemptId >= |attempts| then attempts
    else attempts[seen.attemptId := attempts[seen.attemptId].(
      failureCode := Some(if e.status == Some(Expired) then LinkPaymentExpired else LinkPaymentFailed))]
  }

  /**
   * The rest of the transaction, on the request and case as they were loaded. An event for a case that was
   * not Executing when loaded writes no case row, so no version is compared for it.
   */
  function ApplyTxn(db: Db, e: LinkEvent, r: nat, seen: PaymentRequest, snap: CaseRow): (Db, WebhookReply)
    requires r < |db.requests| && seen.caseId < |db.cases| && e.status.Some?
  {
    var c := seen.caseId;
    if e.key in db.ledger then (db, Duplicate)
    else if snap.status != Executing then
      (db.(requests := db.requests[r := Updated(db.requests[r], e, seen)],
           ledger := db.ledger + {e.key},
           log := db.log + [PaymentEvent(c, e, seen)]),
       Ignored)
    else if db.cases[c].version != snap.version then (db, WebhookConflict)
    else
      (db.(cases := db.cases[c := Resolved(snap, e, seen)],
           attempts := AttemptsAfter(db.attempts, e, seen),
           requests := db.requests[r := Updated(db.requests[r], e, seen)],
           ledger := db.ledger + {e.key},
           log := db.log + [PaymentEvent(c, e, seen), StatusChanged(c, Executing, Resolved(snap, e, seen).status)]),
       Processed)
  }

  /** Recovered on a full payment, failed otherwise; a failure is also noted on the attempt. */
  method ResolveCase(session: CaseSession, e: LinkEvent, seen: PaymentRequest, isPaid: bool, amountPaid: int,
                     attempts: seq<Attempt>)
    returns (after: seq<Attempt>)
    requires session.status == Executing && e.status.Some?
    requires isPaid == (e.status == Some(Paid)) && amountPaid == AmountAfter(e, seen.amountPaid)
    modifies session
    ensures session.Row() == Resolved(old(session.Row()), e, seen)
    ensures session.trail == old(session.trail) + [StatusChanged(session.id, Executing, session.status)]
    ensures after == AttemptsAfter(attempts, e, seen)
  {
    after := attempts;
    var fullyPaid := isPaid && amountPaid >= seen.amount;
    if fullyPaid {
      session.recoveredAmount := session.recoveredAmount + amountPaid;
      var recovered := session.Transition(Recovered);
    } else {
      var category := if e.status.value == Expired then LinkPaymentExpired else LinkPaymentFailed;
      if seen.attemptId < |after| {
        after := after[seen.attemptId := after[seen.attemptId].(failureCode := Some(category))];
      }
      var failed := session.Transition(Failed);
    }
  }

  /** Every request belongs to a case: what the foreign key guarantees. */
  predicate RequestsLinked(db: Db) {
    forall i :: 0 <= i < |db.requests| ==> db.requests[i].caseId < |db.cases|
  }

  /** One delivery with nothing interleaved. */
  function Deliver(db: Db, e: LinkEvent): (Db, WebhookReply)
    requires RequestsLinked(db)
  {
    match Receive(db, e)
    case Settled(after, reply) => (after, reply)
    case Matched(r) => ApplyTxn(db, e, r, db.requests[r], db.cases[db.requests[r].caseId])
  }

  /** Claims the event: inserts the ledger row unless the key is there already. */
  method ClaimEvent(store: Store, e: LinkEvent) returns (claimed: bool)
    modifies store`ledger
    ensures claimed == (e.key !in old(store.ledger))
    ensures store.ledger == old(store.ledger) + {e.key}
  {
    if e.key in store.ledger {
      return false;
    }
    store.ledger := store.ledger + {e.key};
    return true;
  }

  method ProcessWebhookEvent(store: Store, e: LinkEvent) returns (reply: WebhookReply)
    requires RequestsLinked(store.View())
    modifies store
    ensures (store.View(), reply) == Deliver(old(store.View()), e)
  {
    var before := store.ledger;
    var claimed := ClaimEvent(store, e);
    if !claimed {
      assert store.ledger == before;
      return Duplicate;
    }
    if e.link.None? || e.status.None? || e.status.value !in RELEVANT_LINK_STATUSES {
      return Ignored;
    }
    var found := FindRequest(store.requests, e.link.value);
    if found.None? {
      store.RecordEvent(WebhookUnmatchedLink(e.link.value));
      return Ignored;
    }
    var seen := store.requests[found.value];
    assert store.View() == old(store.View()).(ledger := before + {e.key});
    reply := ApplyPaymentLinkEvent(store, e, found.value, seen, store.cases[seen.caseId], before);
  }

  /**
   * Applies a claimed event to its request and case. `before` is the ledger without this claim: a version
   * conflict rolls the whole transaction back, the claim included.
   */
  method ApplyPaymentLinkEvent(store: Store, e: LinkEvent, r: nat, seen: PaymentRequest, snap: CaseRow,
                               before: set<string>)
    returns (reply: WebhookReply)
    requires r < |store.requests| && seen.caseId < |store.cases| && e.status.Some?
    requires e.key !in before && store.ledger == before + {e.key}
    modifies store
    ensures (store.View(), reply) == ApplyTxn(old(store.View()).(ledger := before), e, r, seen, snap)
  {
    var c := seen.caseId;
    var session := new CaseSession.Load(c, snap);
    var req := store.requests[r];
    var newStatus := e.status.value;
    var amountPaid := if e.amountPaid.Some? && e.amountPaid.value != 0 then e.amountPaid.value else seen.amountPaid;
    req := req.(status := newStatus, amountPaid := amountPaid);
    var isPaid := newStatus == Paid;
    session.Record(if isPaid then PaymentConfirmed(c, seen.providerReference, amountPaid)
                   else PaymentNotRecovered(c, seen.providerReference, newStatus));
    assert session.trail == [PaymentEvent(c, e, seen)];
    if session.status != Executing {
      store.requests := store.requests[r := req];
      store.log := store.log + session.trail;
      return Ignored;
    }
    var attempts := ResolveCase(session, e, seen, isPaid, amountPaid, store.attempts);
    assert session.trail == [PaymentEvent(c, e, seen), StatusChanged(c, Executing, session.status)];
    var committed := session.Commit(store);
    if !committed {
      store.ledger := before;
      return WebhookConflict;
    }
    store.requests := store.requests[r := req];
    store.attempts := attempts;
    return Processed;
  }

  /** No other request records the same link. */
  predicate OneOfItsLink(requests: seq<PaymentRequest>, r: nat)
    requires r < |requests|
  {
    forall q :: 0 <= q < |requests| && requests[q].providerReference == requests[r].providerReference ==> q == r
  }

  /** The request and its case are where a payment is waited for, and the event is about exactly that link. */
  predicate Awaited(db: Db, r: nat, e: LinkEvent) {
    && r < |db.requests| && db.requests[r].caseId < |db.cases|
    && db.cases[db.requests[r].caseId].status == Executing
    && e.link == Some(db.requests[r].providerReference)
    && OneOfItsLink(db.requests, r)
  }

  /** Failed by this event: the case, its request and its attempt, with the events that say so. */
  function FailedBy(db: Db, r: nat, status: LinkStatus, amount: int, code: FailureCategory, key: string, first: Event)
    : Db
    requires r < |db.requests| && db.requests[r].caseId < |db.cases|
  {
    var req := db.requests[r];
    var row := db.cases[req.caseId];
    db.(cases := db.cases[req.caseId := row.(status := Failed, version := row.version + 1)],
        attempts := if req.attemptId < |db.attempts|
                    then db.attempts[req.attemptId := db.attempts[req.attemptId].(failureCode := Some(code))]
                    else db.attempts,
        requests := db.requests[r := req.(status := status, amountPaid := amount)],
        ledger := db.ledger + {key},
        log := db.log + [first, StatusChanged(req.caseId, Executing, Failed)])
  }

  /**
   * What a first report about the link of an EXECUTING case does, status by status. A link paid in full recovers the
   * case; an expired, cancelled or underpaid one fails it and notes why on the attempt; any other report is ignored
   * and only spends its key.
   */
  lemma ReportDecides(db: Db, r: nat, e: LinkEvent)
    requires RequestsLinked(db) && Awaited(db, r, e) && e.key !in db.ledger
    ensures
      var (req, c) := (db.requests[r], db.requests[r].caseId);
      var amount := if e.amountPaid.Some? && e.amountPaid.value != 0 then e.amountPaid.value else req.amountPaid;
      var confirmed := PaymentConfirmed(c, req.providerReference, amount);
      Deliver(db, e) ==
      match e.status
      case None => (db.(ledger := db.ledger + {e.key}), Ignored)
      case Some(LinkCreated) => (db.(ledger := db.ledger + {e.key}), Ignored)
      case Some(PartiallyPaid) => (db.(ledger := db.ledger + {e.key}), Ignored)
      case Some(Expired) =>
        (FailedBy(db, r, Expired, amount, LinkPaymentExpired, e.key,
                  PaymentNotRecovered(c, req.providerReference, Expired)), Processed)
      case Some(Cancelled) =>
        (FailedBy(db, r, Cancelled, amount, LinkPaymentFailed, e.key,
                  PaymentNotRecovered(c, req.providerReference, Cancelled)), Processed)
      case Some(Paid) =>
        if amount < req.amount then (FailedBy(db, r, Paid, amount, LinkPaymentFailed, e.key, confirmed), Processed)
        else
          (db.(cases := db.cases[c := db.cases[c].(
                 status := Recovered, version := db.cases[c].version + 1,
                 recoveredAmount := db.cases[c].recoveredAmount + amount)],
               requests := db.requests[r := req.(status := Paid, amountPaid := amount)],
               ledger := db.ledger + {e.key},
               log := db.log + [confirmed, StatusChanged(c, Executing, Recovered)]),
           Processed)
  {
    var found := FindRequest(db.requests, e.link.value);
    assert found == Some(r);
    hide FindRequest;
  }

  /** A report about a case that is no longer EXECUTING still rewrites its request, and moves nothing else. */
  lemma LateReportRewrites(db: Db, r: nat, e: LinkEvent)
    requires RequestsLinked(db) && r < |db.requests| && e.link == Some(db.requests[r].providerReference)
    requires db.cases[db.requests[r].caseId].status != Executing && e.key !in db.ledger
    requires OneOfItsLink(db.requests, r)
    requires e.status in {Some(Paid), Some(Expired), Some(Cancelled)}
    ensures
      var req := db.requests[r];
      var amount := if e.amountPaid.Some? && e.amountPaid.value != 0 then e.amountPaid.value else req.amountPaid;
      Deliver(db, e) ==
      (db.(requests := db.requests[r := req.(status := e.status.value, amountPaid := amount)],
           ledger := db.ledger + {e.key},
           log := db.log + [if e.status == Some(Paid) then PaymentConfirmed(req.caseId, req.providerReference, amount)
                            else PaymentNotRecovered(req.caseId, req.providerReference, e.status.value)]),
       Ignored)
  {
    assert FindRequest(db.requests, e.link.value) == Some(r);
    hide FindRequest;
  }

  /** A report that moves nothing: its key is spent already, it names no link, or a link nobody has recorded. */
  lemma ReportMovesNothing(db: Db, e: LinkEvent)
    requires RequestsLinked(db)
    ensures e.key in db.ledger ==> Deliver(db, e) == (db, Duplicate)
    ensures e.key !in db.ledger && e.link.None? ==> Deliver(db, e) == (db.(ledger := db.ledger + {e.key}), Ignored)
    ensures (e.key !in db.ledger && e.link.Some? && e.status in {Some(Paid), Some(Expired), Some(Cancelled)}
             && forall i :: 0 <= i < |db.requests| ==> db.requests[i].providerReference != e.link.value) ==>
              Deliver(db, e) == (db.(ledger := db.ledger + {e.key},
                                     log := db.log + [WebhookUnmatchedLink(e.link.value)]), Ignored)
  {
  }

  /** A link can still be paid exactly while no report of its status would be acted on. */
  lemma LiveUntilReported(status: LinkStatus)
    ensures status in ACTIVE_STATUSES <==> status !in {Paid, Expired, Cancelled}
    ensures status in ACTIVE_STATUSES <==> forall link, amount, key ::
              !Relevant(LinkEvent(Some(link), Some(status), amount, key))
  {
    assert Relevant(LinkEvent(Some(""), Some(status), None, "")) <==> status in RELEVANT_LINK_STATUSES;
  }

  /** Delivers a list of events one after another. */
  function DeliverAll(db: Db, events: seq<LinkEvent>): (after: Db)
    requires RequestsLinked(db)
    ensures RequestsLinked(after)
  {
    if events == [] then db
    else
      var before := DeliverAll(db, events[..|events| - 1]);
      Deliver(before, events[|events| - 1]).0
  }

  /** The events whose key is neither in the ledger nor on an earlier event of the list. */
  function FirstOfEachKey(events: seq<LinkEvent>, ledger: set<string>): seq<LinkEvent> {
    if events == [] then []
    else
      var last := events[|events| - 1];
      var earlier := events[..|events| - 1];
      var kept := FirstOfEachKey(earlier, ledger);
      if last.key in ledger || exists i :: 0 <= i < |earlier| && earlier[i].key == last.key then kept else kept + [last]
  }

  /** Delivery claims: after a list of deliveries the ledger holds exactly the old keys and theirs. */
  lemma {:induction false} LedgerAfter(db: Db, events: seq<LinkEvent>)
    requires RequestsLinked(db)
    ensures forall k :: k in DeliverAll(db, events).ledger <==>
                        k in db.ledger || exists i :: 0 <= i < |events| && events[i].key == k
  {
    if events != [] {
      var n := |events| - 1;
      LedgerAfter(db, events[..n]);
      var before := DeliverAll(db, events[..n]);
      var after := Deliver(before, events[n]).0;
      assert after.ledger == before.ledger + {events[n].key};
      forall k ensures k in after.ledger <==>
                       k in db.ledger || exists i :: 0 <= i < |events| && events[i].key == k
      {
        if i :| 0 <= i < |events| && events[i].key == k {
          if i < n { assert events[..n][i].key == k; }
        }
        if i :| 0 <= i < n && events[..n][i].key == k {
          assert events[i].key == k;
        }
      }
    }
  }

  /**
   * Redelivery changes nothing: any sequence of deliveries leaves the database exactly as the first
   * delivery of each dedup key does, whatever else the repeats carry.
   */
  lemma {:induction false} RedeliveryIsInvisible(db: Db, events: seq<LinkEvent>)
    requires RequestsLinked(db)
    ensures DeliverAll(db, events) == DeliverAll(db, FirstOfEachKey(events, db.ledger))
  {
    if events != [] {
      var n := |events| - 1;
      var earlier := events[..n];
      RedeliveryIsInvisible(db, earlier);
      LedgerAfter(db, earlier);
      var kept := FirstOfEachKey(earlier, db.ledger);
      if !(events[n].key in db.ledger || exists i :: 0 <= i < |earlier| && earlier[i].key == events[n].key) {
        assert (kept + [events[n]])[..|kept|] == kept;
      }
    }
  }

  predicate ColonFree(s: string) {
    ':' !in s
  }

  function Colons(s: string): nat {
    if s == "" then 0 else (if s[0] == ':' then 1 else 0) + Colons(s[1..])
  }

  lemma {:induction false} NoColons(s: string)
    ensures ColonFree(s) ==> Colons(s) == 0
  {
    if s != "" {
      NoColons(s[1..]);
      assert forall k :: 0 <= k < |s[1..]| ==> s[1..][k] == s[k + 1];
    }
  }

  lemma FirstIsColon(a: string, x: string)
    ensures a == "" ==> (a + ":" + x)[0] == ':'
    ensures (a + ":" + x)[0] == ':' && Colons(a) == 0 ==> a == ""
  {
  }

  /** Two parts joined by a colon come apart in one way once the colons of the first are counted. */
  lemma {:induction false} ColonSplits(a: string, b: string, x: string, y: string)
    requires Colons(a) == Colons(b)
    requires a + ":" + x == b + ":" + y
    ensures a == b && x == y
  {
    var s, t := a + ":" + x, b + ":" + y;
    FirstIsColon(a, x);
    FirstIsColon(b, y);
    if a == "" {
      assert x == s[1..] && y == t[1..];
    } else {
      assert a[0] == s[0] && b[0] == t[0];
      assert s[1..] == a[1..] + ":" + x && t[1..] == b[1..] + ":" + y;
      ColonSplits(a[1..], b[1..], x, y);
      assert a == [a[0]] + a[1..] && b == [b[0]] + b[1..];
    }
  }

  predicate HasHeader(d: Delivery) {
    d.eventId.Some? && d.eventId.value != ""
  }

  /** The same event about the same link and payment, missing and empty ids identified. */
  predicate SameParts(d: Delivery, e: Delivery) {
    && d.eventType == e.eventType
    && OrEmpty(d.linkId) == OrEmpty(e.linkId)
    && OrEmpty(d.paymentId) == OrEmpty(e.paymentId)
  }

  /**
   * Header-less keys of any two deliveries: the parts are the same exactly when the keys are and the event
   * types and link ids have as many colons. Without colons in them, that is exactly when the keys are.
   */
  lemma PayloadKeysAgreeIff(d: Delivery, e: Delivery)
    requires !HasHeader(d) && !HasHeader(e)
    ensures SameParts(d, e) <==>
            && BuildDedupKey(d) == BuildDedupKey(e)
            && Colons(d.eventType) == Colons(e.eventType)
            && Colons(OrEmpty(d.linkId)) == Colons(OrEmpty(e.linkId))
    ensures ColonFree(d.eventType) && ColonFree(e.eventType) && ColonFree(OrEmpty(d.linkId))
            && ColonFree(OrEmpty(e.linkId)) ==>
              (BuildDedupKey(d) == BuildDedupKey(e) <==> SameParts(d, e))
  {
    var x := OrEmpty(d.linkId) + ":" + OrEmpty(d.paymentId);
    var y := OrEmpty(e.linkId) + ":" + OrEmpty(e.paymentId);
    assert BuildDedupKey(d) == d.eventType + ":" + x;
    assert BuildDedupKey(e) == e.eventType + ":" + y;
    NoColons(d.eventType);
    NoColons(e.eventType);
    NoColons(OrEmpty(d.linkId));
    NoColons(OrEmpty(e.linkId));
    if BuildDedupKey(d) == BuildDedupKey(e) && Colons(d.eventType) == Colons(e.eventType)
      && Colons(OrEmpty(d.linkId)) == Colons(OrEmpty(e.linkId)) {
      ColonSplits(d.eventType, e.eventType, x, y);
      ColonSplits(OrEmpty(d.linkId), OrEmpty(e.linkId), OrEmpty(d.paymentId), OrEmpty(e.paymentId));
    }
  }

  /** With a colon in the wrong place, two different deliveries share a key. */
  lemma ColonsCanCollide()
    ensures exists d, e :: !HasHeader(d) && !HasHeader(e) && !SameParts(d, e) && BuildDedupKey(d) == BuildDedupKey(e)
  {
    var d := Delivery(None, "a:b", Some("c"), None);
    var e := Delivery(None, "a", Some("b:c"), None);
    assert BuildDedupKey(d) == "a:b:c:" == BuildDedupKey(e);
    assert !SameParts(d, e);
  }

  /** What a key built without a header must begin with to look like one built from a header. */
  predicate LooksLikeHeader(eventType: string) {
    eventType == "event_id" || "event_id:" <= eventType
  }

  /** A key with the header's prefix: the text in front of its first colon is exactly "event_id". */
  lemma PrefixOf(eventType: string, rest: string)
    ensures "event_id:" <= eventType + ":" + rest <==> LooksLikeHeader(eventType)
  {
    var key := eventType + ":" + rest;
    assert key[|eventType|] == ':';
    if |eventType| < 8 {
      assert "event_id:"[|eventType|] != ':';
    } else if |eventType| == 8 {
      assert key[..8] == eventType && "event_id:"[..8] == "event_id";
    } else {
      assert key[..9] == eventType[..9];
    }
  }

  /**
   * A header key names its delivery id; and a delivery without a header can share a key with one that has a header
   * exactly when its event type is "event_id" or begins with "event_id:".
   */
  lemma HeaderKeysStandApart(d: Delivery, e: Delivery)
    ensures HasHeader(d) && HasHeader(e) ==> (BuildDedupKey(d) == BuildDedupKey(e) <==> d.eventId == e.eventId)
    ensures !HasHeader(e) ==>
              ((exists h :: HasHeader(h) && BuildDedupKey(h) == BuildDedupKey(e)) <==> LooksLikeHeader(e.eventType))
  {
    if HasHeader(d) && HasHeader(e) {
      assert BuildDedupKey(d)[9..] == d.eventId.value && BuildDedupKey(e)[9..] == e.eventId.value;
    }
    if !HasHeader(e) {
      var rest := OrEmpty(e.linkId) + ":" + OrEmpty(e.paymentId);
      var key := BuildDedupKey(e);
      assert key == e.eventType + ":" + rest;
      PrefixOf(e.eventType, rest);
      if LooksLikeHeader(e.eventType) {
        var h := Delivery(Some(key[9..]), "", None, None);
        assert |key| > 9 && key == key[..9] + key[9..];
        assert HasHeader(h) && BuildDedupKey(h) == key;
      }
      forall h | HasHeader(h) && BuildDedupKey(h) == key ensures LooksLikeHeader(e.eventType) {
        assert "event_id:" <= BuildDedupKey(h);
      }
    }
  }
}
