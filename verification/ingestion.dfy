/** Ingestion: reported payments become rows, failed ones become cases, and repeats change nothing. */
module Ingestion {
  import opened Domain
  import opened Records
  import opened Folds

  datatype IngestRequest = IngestRequest(
    customerReference: Option<string>, amount: int, status: PaymentStatus,
    providerPaymentId: Option<string>, autoCreateCase: bool)

  datatype IngestReply = IngestReply(payment: nat, customer: nat, openedCase: Option<nat>, deduplicated: bool)

  datatype OpenReply = PaymentNotFound | PaymentNotFailed | AlreadyOpen(existing: nat) | Opened(created: nat)

  predicate Given(s: Option<string>) {
    s.Some? && s.value != ""
  }

  /** The earliest payment reported under a provider id. */
  function FindPayment(payments: seq<Payment>, id: string): (r: Option<nat>)
    ensures r.Some? ==> r.value < |payments| && payments[r.value].providerPaymentId == Some(id)
    ensures r.None? <==> forall i :: 0 <= i < |payments| ==> payments[i].providerPaymentId != Some(id)
  {
    if payments == [] then None
    else
      var earlier := FindPayment(payments[..|payments| - 1], id);
      if earlier.Some? then earlier
      else if payments[|payments| - 1].providerPaymentId == Some(id) then Some(|payments| - 1)
      else None
  }

  function FindCustomer(customers: seq<Customer>, reference: string): (r: Option<nat>)
    ensures r.Some? ==> r.value < |customers| && customers[r.value].externalReference == Some(reference)
    ensures r.None? <==> forall i :: 0 <= i < |customers| ==> customers[i].externalReference != Some(reference)
  {
    if customers == [] then None
    else
      var earlier := FindCustomer(customers[..|customers| - 1], reference);
      if earlier.Some? then earlier
      else if customers[|customers| - 1].externalReference == Some(reference) then Some(|customers| - 1)
      else None
  }

  predicate HasCase(cases: seq<CaseRow>, payment: nat) {
    exists i :: 0 <= i < |cases| && cases[i].paymentId == payment
  }

  function CaseOf(cases: seq<CaseRow>, payment: nat): (r: Option<nat>)
    ensures r.Some? ==> r.value < |cases| && cases[r.value].paymentId == payment
    ensures r.Some? <==> HasCase(cases, payment)
  {
    if cases == [] then None
    else if cases[|cases| - 1].paymentId == payment then Some(|cases| - 1)
    else
      var earlier := CaseOf(cases[..|cases| - 1], payment);
      assert forall i :: 0 <= i < |cases| - 1 ==> cases[i] == cases[..|cases| - 1][i];
      earlier
  }

  /** Opens the case of one payment: revenue at risk is copied from the payment, never recomputed. */
  function CreateCase(db: Db, payment: nat, today: int): Db
    requires payment < |db.payments|
  {
    db.(cases := db.cases + [NewCase(payment, db.payments[payment].amount, today)],
        log := db.log + [CaseCreated(|db.cases|, payment, db.payments[payment].amount)])
  }

  function CustomerFor(customers: seq<Customer>, reference: Option<string>): (seq<Customer>, nat) {
    if Given(reference) && FindCustomer(customers, reference.value).Some? then
      (customers, FindCustomer(customers, reference.value).value)
    else
      (customers + [Customer(reference, 0, 0)], |customers|)
  }

  function Charged(customer: Customer, status: PaymentStatus): Customer {
    customer.(totalPayments := customer.totalPayments + 1,
              totalFailed := customer.totalFailed + if status == PaymentFailed then 1 else 0)
  }

  /** The payment row and its customer, before any case is opened. */
  function RecordPayment(db: Db, req: IngestRequest): Db {
    var (customers, k) := CustomerFor(db.customers, req.customerReference);
    db.(customers := customers[k := Charged(customers[k], req.status)],
        payments := db.payments + [Payment(k, req.amount, req.status, req.providerPaymentId)],
        log := db.log + [PaymentIngested(|db.payments|, req.status, req.amount)])
  }

  predicate Repeated(db: Db, req: IngestRequest) {
    Given(req.providerPaymentId) && FindPayment(db.payments, req.providerPaymentId.value).Some?
  }

  function IngestTxn(db: Db, req: IngestRequest, today: int): (Db, IngestReply) {
    if Repeated(db, req) then
      var p := FindPayment(db.payments, req.providerPaymentId.value).value;
      (db.(log := db.log + [PaymentIngestDeduplicated(p)]),
       IngestReply(p, db.payments[p].customerId, CaseOf(db.cases, p), true))
    else
      var recorded := RecordPayment(db, req);
      var k := CustomerFor(db.customers, req.customerReference).1;
      if req.autoCreateCase && req.status == PaymentFailed then
        (CreateCase(recorded, |db.payments|, today), IngestReply(|db.payments|, k, Some(|db.cases|), false))
      else
        (recorded, IngestReply(|db.payments|, k, None, false))
  }

  function OpenCaseTxn(db: Db, payment: nat, today: int): (Db, OpenReply) {
    if payment >= |db.payments| then (db, PaymentNotFound)
    else if db.payments[payment].status != PaymentFailed then (db, PaymentNotFailed)
    else if CaseOf(db.cases, payment).Some? then (db, AlreadyOpen(CaseOf(db.cases, payment).value))
    else (CreateCase(db, payment, today), Opened(|db.cases|))
  }

  predicate NeedsCase(db: Db, payment: nat)
    requires payment < |db.payments|
  {
    db.payments[payment].status == PaymentFailed && !HasCase(db.cases, payment)
  }

  /** Failed payments without a case, oldest first, from position i on. */
  function UncasedFrom(db: Db, i: nat): (ids: seq<nat>)
    ensures forall k :: 0 <= k < |ids| ==> i <= ids[k] < |db.payments| && NeedsCase(db, ids[k])
    decreases |db.payments| - i
  {
    if i >= |db.payments| then []
    else (if NeedsCase(db, i) then [i] else []) + UncasedFrom(db, i + 1)
  }

  function Uncased(db: Db): seq<nat> {
    UncasedFrom(db, 0)
  }

  /** How many failed payments, from position i on, have a case. */
  function TrackedFrom(db: Db, i: nat): nat
    decreases |db.payments| - i
  {
    if i >= |db.payments| then 0
    else (if db.payments[i].status == PaymentFailed && HasCase(db.cases, i) then 1 else 0) + TrackedFrom(db, i + 1)
  }

  function FailedFrom(payments: seq<Payment>, i: nat): nat
    decreases |payments| - i
  {
    if i >= |payments| then 0
    else (if payments[i].status == PaymentFailed then 1 else 0) + FailedFrom(payments, i + 1)
  }

  function Min(a: nat, b: nat): nat {
    if a <= b then a else b
  }

  /** Opens the cases of a list of payments in order. */
  function OpenAll(db: Db, payments: seq<nat>, today: int): (after: Db)
    requires forall k :: 0 <= k < |payments| ==> payments[k] < |db.payments|
    ensures after.payments == db.payments && db.cases <= after.cases
    decreases |payments|
  {
    if payments == [] then db else OpenAll(CreateCase(db, payments[0], today), payments[1..], today)
  }

  /** Each payment in turn can be given a case: the unique constraint on a case's payment never bites. */
  predicate Openable(db: Db, payments: seq<nat>, today: int): (ok: bool)
    ensures ok ==> forall k :: 0 <= k < |payments| ==> payments[k] < |db.payments|
    decreases |payments|
  {
    payments == []
    || (payments[0] < |db.payments| && !HasCase(db.cases, payments[0])
        && Openable(CreateCase(db, payments[0], today), payments[1..], today))
  }

  datatype SweepReply = Swept | CaseTaken

  /** The commit of a sweep that listed these payments earlier: a case for each, or nothing at all. */
  function SweepTxn(db: Db, payments: seq<nat>, today: int): (Db, SweepReply) {
    if Openable(db, payments, today) then (OpenAll(db, payments, today), Swept) else (db, CaseTaken)
  }

  /** What a sweep lists: failed payments, none twice. */
  predicate Listed(db: Db, payments: seq<nat>) {
    && (forall k :: 0 <= k < |payments| ==>
          payments[k] < |db.payments| && db.payments[payments[k]].status == PaymentFailed)
    && (forall i, j :: 0 <= i < j < |payments| ==> payments[i] != payments[j])
  }

  /** One of the listed payments has been given a case. */
  predicate SomeCased(cases: seq<CaseRow>, payments: seq<nat>) {
    exists k :: 0 <= k < |payments| && HasCase(cases, payments[k])
  }

  /** A whole sweep with nothing in between: listed and committed at once. */
  function DiscoverTxn(db: Db, limit: nat, today: int): Db {
    OpenAll(db, FirstUncased(db, limit), today)
  }

  /** The oldest `limit` failed payments without a case. */
  function FirstUncased(db: Db, limit: nat): seq<nat> {
    Uncased(db)[..Min(limit, |Uncased(db)|)]
  }

  /** Opening cases writes case rows and audit rows, and nothing else. */
  lemma {:induction false} OpenAllLeavesTheRest(db: Db, payments: seq<nat>, today: int)
    requires forall k :: 0 <= k < |payments| ==> payments[k] < |db.payments|
    ensures
      var after := OpenAll(db, payments, today);
      after == db.(cases := after.cases, log := after.log)
    decreases |payments|
  {
    if payments != [] {
      OpenAllLeavesTheRest(CreateCase(db, payments[0], today), payments[1..], today);
    }
  }

  /** Each case a sweep opens is of a payment it listed. */
  lemma {:induction false} OpenedAreListed(db: Db, payments: seq<nat>, today: int, c: nat)
    requires forall k :: 0 <= k < |payments| ==> payments[k] < |db.payments|
    requires |db.cases| <= c < |OpenAll(db, payments, today).cases|
    ensures OpenAll(db, payments, today).cases[c].paymentId in payments
    decreases |payments|
  {
    var next := CreateCase(db, payments[0], today);
    assert OpenAll(next, payments[1..], today).cases[|db.cases|] == next.cases[|db.cases|];
    if c > |db.cases| {
      OpenedAreListed(next, payments[1..], today, c);
    }
  }

  lemma SweepLeavesTheRest(db: Db, payments: seq<nat>, today: int)
    ensures
      var after := SweepTxn(db, payments, today).0;
      after == db.(cases := after.cases, log := after.log) && db.cases <= after.cases
  {
    if Openable(db, payments, today) {
      OpenAllLeavesTheRest(db, payments, today);
    }
  }

  // ---- the services ----

  method IngestPayment(store: Store, req: IngestRequest, today: int) returns (reply: IngestReply)
    modifies store
    ensures (store.View(), reply) == IngestTxn(old(store.View()), req, today)
  {
    if req.providerPaymentId.Some? && req.providerPaymentId.value != "" {
      var existing := FindPayment(store.payments, req.providerPaymentId.value);
      if existing.Some? {
        store.RecordEvent(PaymentIngestDeduplicated(existing.value));
        return IngestReply(existing.value, store.payments[existing.value].customerId,
                           CaseOf(store.cases, existing.value), true);
      }
    }
    var (customers, k) := CustomerFor(store.customers, req.customerReference);
    var customer := customers[k];
    customer := customer.(totalPayments := customer.totalPayments + 1);
    if req.status == PaymentFailed {
      customer := customer.(totalFailed := customer.totalFailed + 1);
    }
    store.customers := customers[k := customer];
    var payment := |store.payments|;
    store.payments := store.payments + [Payment(k, req.amount, req.status, req.providerPaymentId)];
    store.RecordEvent(PaymentIngested(payment, req.status, req.amount));
    var caseId: Option<nat> := None;
    if req.autoCreateCase && req.status == PaymentFailed {
      var c := OpenCase(store, payment, today);
      caseId := Some(c);
    }
    return IngestReply(payment, k, caseId, false);
  }

  method OpenCase(store: Store, payment: nat, today: int) returns (c: nat)
    requires payment < |store.payments|
    modifies store`cases, store`log
    ensures store.View() == CreateCase(old(store.View()), payment, today)
    ensures c == |old(store.cases)|
  {
    c := |store.cases|;
    store.cases := store.cases + [NewCase(payment, store.payments[payment].amount, today)];
    store.RecordEvent(CaseCreated(c, payment, store.payments[payment].amount));
  }

  method CreateRecoveryCaseForPayment(store: Store, payment: nat, today: int) returns (reply: OpenReply)
    modifies store`cases, store`log
    ensures (store.View(), reply) == OpenCaseTxn(old(store.View()), payment, today)
  {
    if payment >= |store.payments| {
      return PaymentNotFound;
    }
    if store.payments[payment].status != PaymentFailed {
      return PaymentNotFailed;
    }
    var existing := CaseOf(store.cases, payment);
    if existing.Some? {
      return AlreadyOpen(existing.value);
    }
    var c := OpenCase(store, payment, today);
    return Opened(c);
  }

  /** The load of a sweep: the first `limit` failed payments without a case, and how many have one. */
  method ListFailedPayments(store: Store, limit: nat) returns (candidates: seq<nat>, skippedExisting: nat)
    ensures candidates == FirstUncased(store.View(), limit)
    ensures skippedExisting == TrackedFrom(store.View(), 0)
  {
    var all := Uncased(store.View());
    candidates := all[..Min(limit, |all|)];
    skippedExisting := TrackedFrom(store.View(), 0);
  }

  /**
   * The rest of the sweep, on the payments it listed. A case opened for one of them meanwhile violates the
   * unique constraint, and everything the sweep has inserted is rolled back.
   */
  method DiscoverFailedPayments(store: Store, candidates: seq<nat>, today: int)
    returns (caseIds: seq<nat>, reply: SweepReply)
    requires forall k :: 0 <= k < |candidates| ==> candidates[k] < |store.payments|
    modifies store`cases, store`log
    ensures (store.View(), reply) == SweepTxn(old(store.View()), candidates, today)
    ensures reply.Swept? ==> |caseIds| == |candidates|
    ensures forall k :: 0 <= k < |caseIds| ==> caseIds[k] == |old(store.cases)| + k
  {
    var cases, log := store.cases, store.log;
    ghost var start := store.View();
    caseIds := [];
    for i := 0 to |candidates|
      invariant |caseIds| == i && |store.cases| == |cases| + i
      invariant start == store.View().(cases := cases, log := log)
      invariant forall k :: 0 <= k < i ==> caseIds[k] == |cases| + k
      invariant Openable(store.View(), candidates[i..], today) == Openable(start, candidates, today)
      invariant OpenAll(store.View(), candidates[i..], today) == OpenAll(start, candidates, today)
    {
      assert candidates[i..][0] == candidates[i] && candidates[i..][1..] == candidates[i + 1..];
      if HasCase(store.cases, candidates[i]) {
        store.cases, store.log := cases, log;
        return [], CaseTaken;
      }
      var c := OpenCase(store, candidates[i], today);
      caseIds := caseIds + [c];
    }
    reply := Swept;
  }

  // ---- what ingestion promises ----

  /** One case per payment, and each case at risk for exactly its payment's amount. */
  predicate CasesMatchPayments(db: Db) {
    && (forall c :: 0 <= c < |db.cases| ==>
          && db.cases[c].paymentId < |db.payments|
          && db.cases[c].revenueAtRisk == db.payments[db.cases[c].paymentId].amount)
    && (forall c, d :: 0 <= c < d < |db.cases| ==> db.cases[c].paymentId != db.cases[d].paymentId)
  }

  function PaymentOf(k: nat): Payment -> int {
    (p: Payment) => if p.customerId == k then 1 else 0
  }

  function FailedPaymentOf(k: nat): Payment -> int {
    (p: Payment) => if p.customerId == k && p.status == PaymentFailed then 1 else 0
  }

  /** Each customer's counters are the payments and failed payments stored for it. */
  ghost predicate CountersAgree(db: Db) {
    && (forall p :: 0 <= p < |db.payments| ==> db.payments[p].customerId < |db.customers|)
    && (forall k: nat :: k < |db.customers| ==>
          && db.customers[k].totalPayments == Sum(db.payments, PaymentOf(k))
          && db.customers[k].totalFailed == Sum(db.payments, FailedPaymentOf(k)))
  }

  lemma CreateCaseMatches(db: Db, payment: nat, today: int)
    requires CasesMatchPayments(db) && payment < |db.payments| && !HasCase(db.cases, payment)
    ensures CasesMatchPayments(CreateCase(db, payment, today))
  {
  }

  lemma IngestKeepsBooks(db: Db, req: IngestRequest, today: int)
    requires CasesMatchPayments(db) && CountersAgree(db)
    ensures CasesMatchPayments(IngestTxn(db, req, today).0)
    ensures CountersAgree(IngestTxn(db, req, today).0)
  {
    if !Repeated(db, req) {
      var after := RecordPayment(db, req);
      var (customers, owner) := CustomerFor(db.customers, req.customerReference);
      var row := Payment(owner, req.amount, req.status, req.providerPaymentId);
      forall k: nat | k < |after.customers|
        ensures after.customers[k].totalPayments == Sum(after.payments, PaymentOf(k))
        ensures after.customers[k].totalFailed == Sum(after.payments, FailedPaymentOf(k))
      {
        SumPush(db.payments, row, PaymentOf(k));
        SumPush(db.payments, row, FailedPaymentOf(k));
        if k == |db.customers| {
          SumZero(db.payments, PaymentOf(k));
          SumZero(db.payments, FailedPaymentOf(k));
        }
      }
      assert CountersAgree(after);
      assert CasesMatchPayments(after);
      assert forall i :: 0 <= i < |db.cases| ==> db.cases[i].paymentId != |db.payments|;
      CreateCaseMatches(after, |db.payments|, today);
    }
  }

  datatype Report = Report(request: IngestRequest, day: int)

  function IngestAll(db: Db, reports: seq<Report>): Db {
    if reports == [] then db
    else
      var last := reports[|reports| - 1];
      IngestTxn(IngestAll(db, reports[..|reports| - 1]), last.request, last.day).0
  }

  predicate SeenBefore(db: Db, reports: seq<Report>, id: string) {
    || FindPayment(db.payments, id).Some?
    || exists i :: 0 <= i < |reports| && reports[i].request.providerPaymentId == Some(id)
  }

  /** The list without later repeats of a non-empty provider payment id. */
  function WithoutRepeats(db: Db, reports: seq<Report>): seq<Report> {
    if reports == [] then []
    else
      var last := reports[|reports| - 1];
      var earlier := reports[..|reports| - 1];
      var kept := WithoutRepeats(db, earlier);
      if Given(last.request.providerPaymentId) && SeenBefore(db, earlier, last.request.providerPaymentId.value)
      then kept else kept + [last]
  }

  /** The tables apart from the audit log, which does record every repeat. */
  function Tables(db: Db): Db {
    db.(log := [])
  }

  lemma IngestReadsTables(a: Db, b: Db, req: IngestRequest, today: int)
    requires Tables(a) == Tables(b)
    ensures Tables(IngestTxn(a, req, today).0) == Tables(IngestTxn(b, req, today).0)
  {
    assert a == b.(log := a.log);
  }

  lemma SeenStep(db: Db, reports: seq<Report>, id: string)
    requires reports != []
    ensures SeenBefore(db, reports, id) <==>
            SeenBefore(db, reports[..|reports| - 1], id)
            || reports[|reports| - 1].request.providerPaymentId == Some(id)
  {
  }

  lemma {:induction false} PaymentsSeen(db: Db, reports: seq<Report>, id: string)
    requires id != ""
    ensures FindPayment(IngestAll(db, reports).payments, id).Some? <==> SeenBefore(db, reports, id)
  {
    if reports != [] {
      var n := |reports| - 1;
      PaymentsSeen(db, reports[..n], id);
      SeenStep(db, reports, id);
      IngestPayments(IngestAll(db, reports[..n]), reports[n].request, reports[n].day, id);
    }
  }

  lemma IngestPayments(db: Db, req: IngestRequest, today: int, id: string)
    requires id != ""
    ensures FindPayment(IngestTxn(db, req, today).0.payments, id).Some? <==>
            FindPayment(db.payments, id).Some? || req.providerPaymentId == Some(id)
  {
  }

  /** Re-reported payments change no payment, case, customer or counter. */
  lemma {:induction false} RepeatsAreInvisible(db: Db, reports: seq<Report>)
    ensures Tables(IngestAll(db, reports)) == Tables(IngestAll(db, WithoutRepeats(db, reports)))
  {
    if reports != [] {
      var n := |reports| - 1;
      var last := reports[n];
      var earlier := reports[..n];
      var kept := WithoutRepeats(db, earlier);
      RepeatsAreInvisible(db, earlier);
      if Given(last.request.providerPaymentId) {
        PaymentsSeen(db, earlier, last.request.providerPaymentId.value);
      }
      if Given(last.request.providerPaymentId) && SeenBefore(db, earlier, last.request.providerPaymentId.value) {
        assert Repeated(IngestAll(db, earlier), last.request);
      } else {
        assert (kept + [last])[..|kept|] == kept;
        IngestReadsTables(IngestAll(db, earlier), IngestAll(db, kept), last.request, last.day);
      }
    }
  }

  /** From an empty store, any list of reports keeps one case per payment and exact counters. */
  lemma {:induction false} IngestAllKeepsBooks(reports: seq<Report>)
    ensures CasesMatchPayments(IngestAll(EMPTY_DB, reports)) && CountersAgree(IngestAll(EMPTY_DB, reports))
  {
    if reports != [] {
      IngestAllKeepsBooks(reports[..|reports| - 1]);
      var last := reports[|reports| - 1];
      IngestKeepsBooks(IngestAll(EMPTY_DB, reports[..|reports| - 1]), last.request, last.day);
    }
  }

  // ---- whose payment is it ----

  /** Payment i is stored as it was reported, under a customer with the reference it was reported with. */
  predicate StoredAs(db: Db, i: nat, report: Report)
    requires i < |db.payments|
  {
    var (payment, req) := (db.payments[i], report.request);
    && payment.amount == req.amount && payment.status == req.status
    && payment.providerPaymentId == req.providerPaymentId
    && payment.customerId < |db.customers|
    && db.customers[payment.customerId].externalReference == req.customerReference
  }

  predicate SameReference(a: Report, b: Report) {
    && a.request.customerReference.Some? && a.request.customerReference.value != ""
    && a.request.customerReference == b.request.customerReference
  }

  predicate HasPayment(payments: seq<Payment>, k: nat) {
    exists i :: 0 <= i < |payments| && payments[i].customerId == k
  }

  /** The tables are the reports: payments one by one, customers by their references, cases where one was asked for. */
  ghost predicate Mirrors(db: Db, reports: seq<Report>) {
    && |db.payments| == |reports|
    && (forall i :: 0 <= i < |reports| ==> StoredAs(db, i, reports[i]))
    && (forall i, j :: 0 <= i < j < |reports| ==>
          (db.payments[i].customerId == db.payments[j].customerId <==> SameReference(reports[i], reports[j])))
    && (forall k :: 0 <= k < |db.customers| ==> HasPayment(db.payments, k))
    && (forall c :: 0 <= c < |db.cases| ==>
          db.cases[c].paymentId < |reports| && db.cases[c].createdDay == reports[db.cases[c].paymentId].day)
    && (forall i :: 0 <= i < |reports| ==>
          (HasCase(db.cases, i) <==> reports[i].request.autoCreateCase && reports[i].request.status == PaymentFailed))
  }

  /** Whose a new payment is: that of the payments reported with the same reference, or nobody's so far. */
  lemma OwnerOf(db: Db, reports: seq<Report>, report: Report)
    requires Mirrors(db, reports)
    ensures
      var (customers, k) := CustomerFor(db.customers, report.request.customerReference);
      && k < |customers| && |db.customers| <= |customers| <= |db.customers| + 1
      && customers[..|db.customers|] == db.customers
      && customers[k].externalReference == report.request.customerReference
      && (|customers| > |db.customers| <==> k == |db.customers|)
      && forall i :: 0 <= i < |reports| ==> (db.payments[i].customerId == k <==> SameReference(reports[i], report))
  {
    var reference := report.request.customerReference;
    var (customers, k) := CustomerFor(db.customers, reference);
    forall i | 0 <= i < |reports| ensures db.payments[i].customerId == k <==> SameReference(reports[i], report) {
      assert StoredAs(db, i, reports[i]);
      if k < |db.customers| {
        assert HasPayment(db.payments, k);
        var j :| 0 <= j < |db.payments| && db.payments[j].customerId == k;
        assert StoredAs(db, j, reports[j]);
      }
    }
  }

  lemma StoredMirrors(db: Db, reports: seq<Report>, report: Report)
    requires Mirrors(db, reports)
    ensures
      var after := RecordPayment(db, report.request);
      var all := reports + [report];
      && (forall i :: 0 <= i < |all| ==> StoredAs(after, i, all[i]))
      && (forall i, j :: 0 <= i < j < |all| ==>
            (after.payments[i].customerId == after.payments[j].customerId <==> SameReference(all[i], all[j])))
      && (forall k :: 0 <= k < |after.customers| ==> HasPayment(after.payments, k))
  {
    OwnerOf(db, reports, report);
    var k := CustomerFor(db.customers, report.request.customerReference).1;
    hide CustomerFor, HasCase;
    var after := RecordPayment(db, report.request);
    var n := |reports|;
    assert after.payments[n].customerId == k;
    forall i | 0 <= i < n ensures StoredAs(after, i, reports[i]) {
      assert StoredAs(db, i, reports[i]) && after.payments[i] == db.payments[i];
    }
    forall d | 0 <= d < |after.customers| ensures HasPayment(after.payments, d) {
      if d != k {
        assert HasPayment(db.payments, d);
        var i :| 0 <= i < |db.payments| && db.payments[i].customerId == d;
        assert after.payments[i].customerId == d;
      }
    }
  }

  lemma ReportMirrors(db: Db, reports: seq<Report>, report: Report)
    requires Mirrors(db, reports) && !Repeated(db, report.request)
    ensures Mirrors(IngestTxn(db, report.request, report.day).0, reports + [report])
  {
    StoredMirrors(db, reports, report);
    hide CustomerFor;
    var n := |reports|;
    var recorded, after := RecordPayment(db, report.request), IngestTxn(db, report.request, report.day).0;
    forall i | 0 <= i <= n
      ensures StoredAs(after, i, (reports + [report])[i])
      ensures HasCase(after.cases, i) <==>
              (if i == n then report.request.autoCreateCase && report.request.status == PaymentFailed
               else HasCase(db.cases, i))
    {
      assert StoredAs(recorded, i, (reports + [report])[i]);
      if after.cases != db.cases {
        CasedAfter(recorded, n, report.day, i);
      }
    }
  }

  /**
   * From an empty store, any list of reports: what is stored is the list without later repeats, payment by payment.
   * Each payment belongs to a customer with the reference it was reported with, two payments to the same customer
   * exactly when they were reported with the same non-empty reference, and a case is open exactly where one was
   * asked for a failed payment.
   */
  lemma {:induction false} TablesMirrorReports(reports: seq<Report>)
    ensures Mirrors(IngestAll(EMPTY_DB, reports), WithoutRepeats(EMPTY_DB, reports))
  {
    if reports != [] {
      hide Mirrors, IngestTxn;
      var n := |reports| - 1;
      var (last, before) := (reports[n], IngestAll(EMPTY_DB, reports[..n]));
      TablesMirrorReports(reports[..n]);
      if Given(last.request.providerPaymentId) {
        PaymentsSeen(EMPTY_DB, reports[..n], last.request.providerPaymentId.value);
      }
      if Repeated(before, last.request) {
        RepeatMirrors(before, WithoutRepeats(EMPTY_DB, reports[..n]), last);
      } else {
        ReportMirrors(before, WithoutRepeats(EMPTY_DB, reports[..n]), last);
      }
    } else {
      EmptyMirrors();
    }
  }

  lemma EmptyMirrors()
    ensures Mirrors(EMPTY_DB, [])
  {
  }

  lemma RepeatMirrors(db: Db, reports: seq<Report>, report: Report)
    requires Mirrors(db, reports) && Repeated(db, report.request)
    ensures Mirrors(IngestTxn(db, report.request, report.day).0, reports)
  {
    var after := IngestTxn(db, report.request, report.day).0;
    forall i | 0 <= i < |reports| ensures StoredAs(after, i, reports[i]) {
      assert StoredAs(db, i, reports[i]);
    }
  }

  /** So no two customers share a non-empty reference, and nobody without one has two payments. */
  lemma CustomersAreDistinct(reports: seq<Report>, j: nat, k: nat)
    requires j < k < |IngestAll(EMPTY_DB, reports).customers|
    ensures
      var customers := IngestAll(EMPTY_DB, reports).customers;
      customers[j].externalReference == customers[k].externalReference ==>
        customers[j].externalReference in {None, Some("")}
  {
    TablesMirrorReports(reports);
    var (db, kept) := (IngestAll(EMPTY_DB, reports), WithoutRepeats(EMPTY_DB, reports));
    hide IngestAll, WithoutRepeats;
    assert HasPayment(db.payments, j) && HasPayment(db.payments, k);
    var p :| 0 <= p < |db.payments| && db.payments[p].customerId == j;
    var q :| 0 <= q < |db.payments| && db.payments[q].customerId == k;
    assert StoredAs(db, p, kept[p]) && StoredAs(db, q, kept[q]);
    assert !SameReference(kept[p], kept[q]) && !SameReference(kept[q], kept[p]);
  }

  /** What the caller is told about a report: the payment it stands for, its customer and its case. */
  lemma ReplyTells(db: Db, req: IngestRequest, today: int)
    requires CasesMatchPayments(db)
    ensures
      var (after, reply) := IngestTxn(db, req, today);
      && reply.payment < |after.payments| && reply.customer == after.payments[reply.payment].customerId
      && after.payments[reply.payment].providerPaymentId == req.providerPaymentId
      && (reply.openedCase.Some? ==>
            reply.openedCase.value < |after.cases| && after.cases[reply.openedCase.value].paymentId == reply.payment)
      && (reply.openedCase.None? <==> !HasCase(after.cases, reply.payment))
      && (reply.deduplicated <==>
            req.providerPaymentId.Some? && req.providerPaymentId.value != ""
            && exists i :: 0 <= i < |db.payments| && db.payments[i].providerPaymentId == req.providerPaymentId)
      && (reply.deduplicated ==> Tables(after) == Tables(db) && reply.payment < |db.payments|)
      && (!reply.deduplicated ==> reply.payment == |db.payments| == |after.payments| - 1)
      && after.log == db.log +
         if reply.deduplicated then [PaymentIngestDeduplicated(reply.payment)]
         else [PaymentIngested(reply.payment, req.status, req.amount)]
              + if reply.openedCase.Some? then [CaseCreated(reply.openedCase.value, reply.payment, req.amount)] else []
  {
    var (after, reply) := IngestTxn(db, req, today);
    if !reply.deduplicated {
      assert forall i :: 0 <= i < |db.cases| ==> db.cases[i].paymentId < |db.payments|;
      if reply.openedCase.Some? {
        CasedAfter(RecordPayment(db, req), |db.payments|, today, |db.payments|);
      }
    }
  }

  /**
   * What the caller is told who asks for one case: a missing payment, one that has not failed, the case there is
   * already, or the new one.
   */
  lemma OpeningTells(db: Db, payment: nat, today: int)
    ensures
      var (after, reply) := OpenCaseTxn(db, payment, today);
      match reply
      case PaymentNotFound => payment >= |db.payments| && after == db
      case PaymentNotFailed => payment < |db.payments| && db.payments[payment].status != PaymentFailed && after == db
      case AlreadyOpen(c) =>
        && payment < |db.payments| && db.payments[payment].status == PaymentFailed
        && c < |db.cases| && db.cases[c].paymentId == payment && after == db
      case Opened(c) =>
        && payment < |db.payments| && db.payments[payment].status == PaymentFailed && c == |db.cases|
        && (forall d :: 0 <= d < |db.cases| ==> db.cases[d].paymentId != payment)
        && |after.cases| == |db.cases| + 1 && db.cases <= after.cases && after.cases[c].paymentId == payment
        && after == db.(cases := after.cases,
                        log := db.log + [CaseCreated(c, payment, db.payments[payment].amount)])
  {
  }

  lemma {:induction false} UncasedLater(db: Db, payment: nat, today: int, i: nat)
    requires payment < i && payment < |db.payments|
    ensures UncasedFrom(CreateCase(db, payment, today), i) == UncasedFrom(db, i)
    decreases |db.payments| - i
  {
    if i < |db.payments| {
      UncasedLater(db, payment, today, i + 1);
      CasedAfter(db, payment, today, i);
    }
  }

  lemma CasedAfter(db: Db, payment: nat, today: int, p: nat)
    requires payment < |db.payments|
    ensures HasCase(CreateCase(db, payment, today).cases, p) <==> HasCase(db.cases, p) || p == payment
  {
    var after := CreateCase(db, payment, today).cases;
    assert after[|db.cases|].paymentId == payment;
    if HasCase(db.cases, p) {
      var i :| 0 <= i < |db.cases| && db.cases[i].paymentId == p;
      assert after[i].paymentId == p;
    }
  }

  lemma {:induction false} FirstUncasedLeaves(db: Db, today: int, i: nat)
    requires UncasedFrom(db, i) != []
    ensures UncasedFrom(CreateCase(db, UncasedFrom(db, i)[0], today), i) == UncasedFrom(db, i)[1..]
    decreases |db.payments| - i
  {
    var first := UncasedFrom(db, i)[0];
    CasedAfter(db, first, today, i);
    if NeedsCase(db, i) {
      UncasedLater(db, i, today, i + 1);
    } else {
      FirstUncasedLeaves(db, today, i + 1);
    }
  }

  lemma {:induction false} UncasedClimbs(db: Db, i: nat)
    ensures forall k, l :: 0 <= k < l < |UncasedFrom(db, i)| ==> UncasedFrom(db, i)[k] < UncasedFrom(db, i)[l]
    decreases |db.payments| - i
  {
    if i < |db.payments| {
      UncasedClimbs(db, i + 1);
    }
  }

  lemma UncasedAreListed(db: Db, limit: nat)
    ensures Listed(db, FirstUncased(db, limit))
  {
    UncasedClimbs(db, 0);
  }

  /** The list of a sweep is every failed payment without a case, oldest first. */
  lemma {:induction false} UncasedComplete(db: Db, i: nat, p: nat)
    requires p < |db.payments|
    ensures p in UncasedFrom(db, i) <==>
            i <= p && db.payments[p].status == PaymentFailed
            && !exists c :: 0 <= c < |db.cases| && db.cases[c].paymentId == p
    decreases |db.payments| - i
  {
    if i < |db.payments| {
      UncasedComplete(db, i + 1, p);
    }
  }

  /** A listed sweep commits exactly when none of its payments has been given a case since. */
  lemma {:induction false} OpenableIff(db: Db, payments: seq<nat>, today: int)
    requires Listed(db, payments)
    ensures Openable(db, payments, today) <==> !SomeCased(db.cases, payments)
    decreases |payments|
  {
    if payments != [] {
      var next := CreateCase(db, payments[0], today);
      var rest := payments[1..];
      assert forall k :: 0 <= k < |rest| ==> rest[k] == payments[k + 1];
      assert Listed(next, rest);
      OpenableIff(next, rest, today);
      forall k | 0 <= k < |rest| ensures HasCase(next.cases, rest[k]) == HasCase(db.cases, payments[k + 1]) {
        CasedAfter(db, payments[0], today, rest[k]);
      }
      if SomeCased(next.cases, rest) {
        var k :| 0 <= k < |rest| && HasCase(next.cases, rest[k]);
        assert HasCase(db.cases, payments[k + 1]);
      }
      if SomeCased(db.cases, payments) && !HasCase(db.cases, payments[0]) {
        var k :| 0 <= k < |payments| && HasCase(db.cases, payments[k]);
        assert HasCase(next.cases, rest[k - 1]);
      }
    }
  }

  /** Undisturbed between its listing and its commit, a sweep is the whole sweep. */
  lemma UndisturbedSweep(db: Db, limit: nat, today: int)
    ensures SweepTxn(db, FirstUncased(db, limit), today) == (DiscoverTxn(db, limit, today), Swept)
  {
    UncasedAreListed(db, limit);
    OpenableIff(db, FirstUncased(db, limit), today);
  }

  /** A sweep takes exactly the oldest `limit` un-cased failures off the list. */
  lemma {:induction false} SweepTakesOldest(db: Db, limit: nat, today: int)
    ensures Uncased(DiscoverTxn(db, limit, today)) == Uncased(db)[Min(limit, |Uncased(db)|)..]
    decreases limit
  {
    var all := Uncased(db);
    if limit > 0 && all != [] {
      var next := CreateCase(db, all[0], today);
      FirstUncasedLeaves(db, today, 0);
      SweepTakesOldest(next, limit - 1, today);
      var n := Min(limit, |all|);
      assert all[..n][1..] == all[1..][..n - 1];
      assert all[1..][n - 1..] == all[n..];
    }
  }

  /** Every failed payment is either tracked already or on the list of a sweep. */
  lemma {:induction false} TrackedOrUncased(db: Db, i: nat)
    ensures TrackedFrom(db, i) + |UncasedFrom(db, i)| == FailedFrom(db.payments, i)
    decreases |db.payments| - i
  {
    if i < |db.payments| {
      TrackedOrUncased(db, i + 1);
    }
  }

  /** A sweep moves exactly as many failed payments from the one side to the other as it opens cases. */
  lemma SweepTracks(db: Db, limit: nat, today: int)
    ensures TrackedFrom(DiscoverTxn(db, limit, today), 0) == TrackedFrom(db, 0) + Min(limit, |Uncased(db)|)
  {
    SweepTakesOldest(db, limit, today);
    TrackedOrUncased(db, 0);
    TrackedOrUncased(DiscoverTxn(db, limit, today), 0);
  }

  /** After a sweep that was not cut short by its limit, another sweep creates nothing. */
  lemma SecondSweepIsIdle(db: Db, limit: nat, again: nat, today: int, later: int)
    requires |Uncased(db)| <= limit
    ensures DiscoverTxn(DiscoverTxn(db, limit, today), again, later) == DiscoverTxn(db, limit, today)
  {
    SweepTakesOldest(db, limit, today);
  }
}
