/** The two work lists of a cycle: the cases ready for diagnosis and the approved backlog. */
module Queue {
  import opened Domain
  import opened Records

  /** Ids of the cases in a status, newest first, among the first n cases. */
  function NewestBelow(cases: seq<CaseRow>, status: Status, n: nat): (ids: seq<nat>)
    requires n <= |cases|
    ensures forall i :: 0 <= i < |ids| ==> ids[i] < n && cases[ids[i]].status == status
    ensures forall i, j :: 0 <= i < j < |ids| ==> ids[j] < ids[i]
  {
    if n == 0 then []
    else (if cases[n - 1].status == status then [n - 1] else []) + NewestBelow(cases, status, n - 1)
  }

  function Newest(cases: seq<CaseRow>, status: Status): seq<nat> {
    NewestBelow(cases, status, |cases|)
  }

  lemma {:induction false} NewestComplete(cases: seq<CaseRow>, status: Status, n: nat, c: nat)
    requires c < n <= |cases| && cases[c].status == status
    ensures c in NewestBelow(cases, status, n)
  {
    if c < n - 1 {
      NewestComplete(cases, status, n - 1, c);
    }
  }

  function Take(ids: seq<nat>, limit: nat): seq<nat> {
    if limit < |ids| then ids[..limit] else ids
  }

  function Without(ids: seq<nat>, exclude: set<nat>): seq<nat> {
    if ids == [] then []
    else if ids[0] in exclude then Without(ids[1..], exclude)
    else [ids[0]] + Without(ids[1..], exclude)
  }

  lemma {:induction false} WithoutConcat(a: seq<nat>, b: seq<nat>, exclude: set<nat>)
    ensures Without(a + b, exclude) == Without(a, exclude) + Without(b, exclude)
  {
    if a == [] {
      assert a + b == b;
    } else {
      WithoutConcat(a[1..], b, exclude);
      assert (a + b)[1..] == a[1..] + b && (a + b)[0] == a[0];
    }
  }

  predicate Distinct(ids: seq<nat>) {
    forall i, j :: 0 <= i < j < |ids| ==> ids[i] != ids[j]
  }

  /** Distinct ids lose at most one element per excluded id. */
  lemma {:induction false} WithoutLoses(ids: seq<nat>, exclude: set<nat>)
    requires Distinct(ids)
    ensures |Without(ids, exclude)| >= |ids| - |exclude|
  {
    if ids != [] {
      if ids[0] in exclude {
        WithoutIgnores(ids[1..], exclude, ids[0]);
        WithoutLoses(ids[1..], exclude - {ids[0]});
      } else {
        WithoutLoses(ids[1..], exclude);
      }
    }
  }

  lemma {:induction false} WithoutIgnores(ids: seq<nat>, exclude: set<nat>, id: nat)
    requires id !in ids
    ensures Without(ids, exclude) == Without(ids, exclude - {id})
  {
    if ids != [] {
      WithoutIgnores(ids[1..], exclude, id);
    }
  }

  /**
   * The over-fetch is exactly enough: filtering the first limit + |exclude| rows and cutting to limit is
   * cutting the fully filtered list to limit.
   */
  lemma OverFetchSuffices(ids: seq<nat>, limit: nat, exclude: set<nat>)
    requires Distinct(ids)
    ensures Take(Without(Take(ids, limit + |exclude|), exclude), limit) == Take(Without(ids, exclude), limit)
  {
    var n := limit + |exclude|;
    if n < |ids| {
      assert ids == ids[..n] + ids[n..];
      WithoutConcat(ids[..n], ids[n..], exclude);
      WithoutLoses(ids[..n], exclude);
    }
  }

  lemma {:induction false} WithoutMembers(ids: seq<nat>, exclude: set<nat>)
    requires Distinct(ids)
    ensures forall i :: 0 <= i < |Without(ids, exclude)| ==>
                          Without(ids, exclude)[i] in ids && Without(ids, exclude)[i] !in exclude
    ensures Distinct(Without(ids, exclude))
    ensures forall id :: id in ids && id !in exclude ==> id in Without(ids, exclude)
  {
    if ids != [] {
      WithoutMembers(ids[1..], exclude);
      var rest := Without(ids[1..], exclude);
      var all := Without(ids, exclude);
      forall i, j | 0 <= i < j < |all| ensures all[i] != all[j] {
        if ids[0] !in exclude && i == 0 {
          assert all[j] == rest[j - 1];
          assert rest[j - 1] in ids[1..];
        }
      }
    }
  }

  /** Everything a cycle may diagnose, in pick-up order. */
  function ReadyList(cases: seq<CaseRow>): seq<nat> {
    Newest(cases, Discovered) + Newest(cases, Eligible) + Newest(cases, Failed)
  }

  lemma ReadyListDistinct(cases: seq<CaseRow>)
    ensures Distinct(ReadyList(cases))
    ensures forall i :: 0 <= i < |ReadyList(cases)| ==>
              ReadyList(cases)[i] < |cases| && cases[ReadyList(cases)[i]].status in {Discovered, Eligible, Failed}
  {
  }

  /** Every case in one of the three statuses is on the list, and no other. */
  lemma ReadyListComplete(cases: seq<CaseRow>, c: nat)
    requires c < |cases|
    ensures c in ReadyList(cases) <==> cases[c].status in {Discovered, Eligible, Failed}
  {
    if cases[c].status in {Discovered, Eligible, Failed} {
      NewestComplete(cases, cases[c].status, |cases|, c);
    }
  }

  /** Discovered cases come first and failed ones last. */
  lemma ReadyListOrdered(cases: seq<CaseRow>, i: nat, j: nat)
    requires i < j < |ReadyList(cases)|
    ensures
      var (first, second) := (ReadyList(cases)[i], ReadyList(cases)[j]);
      && first < |cases| && second < |cases|
      && (cases[first].status == Failed ==> cases[second].status == Failed)
      && (cases[second].status == Discovered ==> cases[first].status == Discovered)
  {
    ReadyListDistinct(cases);
    hide NewestBelow;
  }

  /** Two cases in one status are picked up newest first, whichever has waited longer. */
  lemma PickedUpNewestFirst(cases: seq<CaseRow>, i: nat, j: nat)
    requires i < j < |ReadyList(cases)| && ReadyList(cases)[i] < |cases| && ReadyList(cases)[j] < |cases|
    requires cases[ReadyList(cases)[i]].status == cases[ReadyList(cases)[j]].status
    ensures ReadyList(cases)[i] > ReadyList(cases)[j]
  {
  }

  /** With room for one of two discovered cases, it is the older one that waits. */
  lemma OldestWaits(older: CaseRow, newer: CaseRow)
    requires older.status == Discovered && newer.status == Discovered && older.createdDay < newer.createdDay
    ensures ReadyList([older, newer]) == [1, 0] && Take(ReadyList([older, newer]), 1) == [1]
  {
    var cases := [older, newer];
    assert NewestBelow(cases, Discovered, 1) == [0] && NewestBelow(cases, Discovered, 2) == [1] + [0];
    assert NewestBelow(cases, Eligible, 1) == [] && NewestBelow(cases, Failed, 1) == [];
  }

  /** The loop over the three statuses returns exactly the first `limit` of the ready list. */
  method CasesReadyForDiagnosis(store: Store, limit: nat) returns (collected: seq<nat>)
    ensures collected == Take(ReadyList(store.cases), limit)
    ensures collected <= ReadyList(store.cases)
    ensures |collected| == limit || (|collected| < limit && collected == ReadyList(store.cases))
  {
    var statuses := [Discovered, Eligible, Failed];
    collected := [];
    ghost var lists := [Newest(store.cases, Discovered), Newest(store.cases, Eligible), Newest(store.cases, Failed)];
    ghost var seen: seq<nat> := [];
    for k := 0 to |statuses|
      invariant collected == Take(seen, limit)
      invariant seen == (if k == 0 then [] else if k == 1 then lists[0] else if k == 2 then lists[0] + lists[1]
                         else lists[0] + lists[1] + lists[2])
    {
      if |collected| >= limit {
        assert collected == Take(ReadyList(store.cases), limit);
        return;
      }
      var rows := Newest(store.cases, statuses[k]);
      collected := collected + Take(rows, limit - |collected|);
      seen := seen + rows;
    }
    collected := Take(collected, limit);
  }

  /** Approved cases this cycle has not handled, newest first. */
  method ApprovedBacklog(store: Store, limit: nat, exclude: set<nat>) returns (ids: seq<nat>)
    ensures ids == Take(Without(Newest(store.cases, Approved), exclude), limit)
    ensures Distinct(ids) && |ids| <= limit
    ensures forall i :: 0 <= i < |ids| ==>
              ids[i] < |store.cases| && store.cases[ids[i]].status == Approved && ids[i] !in exclude
    ensures |ids| < limit ==> forall c: nat ::
              c < |store.cases| && store.cases[c].status == Approved && c !in exclude ==> c in ids
  {
    var approved := Newest(store.cases, Approved);
    var rows := Take(approved, limit + |exclude|);
    ids := [];
    for i := 0 to |rows|
      invariant ids == Without(rows[..i], exclude)
    {
      WithoutConcat(rows[..i], [rows[i]], exclude);
      assert rows[..i + 1] == rows[..i] + [rows[i]];
      if rows[i] !in exclude {
        ids := ids + [rows[i]];
      }
    }
    assert rows[..|rows|] == rows;
    ids := Take(ids, limit);
    OverFetchSuffices(approved, limit, exclude);
    WithoutMembers(approved, exclude);
    forall c: nat | c < |store.cases| && store.cases[c].status == Approved ensures c in approved {
      NewestComplete(store.cases, Approved, |store.cases|, c);
    }
  }
}
