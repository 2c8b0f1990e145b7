/**
 The lists of approvals that are ready to resume: the in-memory store orders them by creation, the statement by
 decision.  Their filters are the same; under a limit the lists need not be.
 */
module ReadyLists {
  import opened Prelude
  import A = Approvals
  import AR = ApprovalRuns
  import G = SqlGuards

  predicate SqlReadyGuard(a: A.Approval, now: int) {
    && a.status == A.Approved
    && a.attempts < 5
    && (a.exec == A.NotStarted || a.exec == A.Failed || (a.exec == A.Executing && G.LessThan(a.leaseUntil, now)))
  }

  ghost function SqlReady<B>(s: A.Store<B>, now: int): iset<Id> {
    iset id | id in s.approvals && SqlReadyGuard(s.approvals[id], now)
  }

  // Two lists of the same ready approvals under one limit are as long, and complete if there is room left.
  lemma {:induction false} ListsOfSameReady<B>(s: A.Store<B>, ready: iset<Id>, limit: nat, one: seq<Id>, other: seq<Id>)
    requires A.ReadyList(s, ready, A.ByCreation, limit, one) && A.ReadyList(s, ready, A.ByDecision, limit, other)
    ensures |one| == |other|
    ensures |one| < limit ==> forall id :: id in one <==> id in other
  {
    if |one| < limit {
      NoLonger(other, one);
    }
    if |other| < limit {
      NoLonger(one, other);
    }
  }

  lemma {:induction false} NoLonger(part: seq<Id>, whole: seq<Id>)
    requires forall i, j :: 0 <= i < j < |part| ==> part[i] != part[j]
    requires forall i :: 0 <= i < |part| ==> part[i] in whole
    ensures |part| <= |whole|
    decreases |part|
  {
    if part != [] {
      var last := part[|part| - 1];
      var k :| 0 <= k < |whole| && whole[k] == last;
      var rest := whole[..k] + whole[k + 1..];
      forall i | 0 <= i < |part| - 1
        ensures part[i] in rest
      {
        var m :| 0 <= m < |whole| && whole[m] == part[i];
        assert rest[if m < k then m else m - 1] == part[i];
      }
      NoLonger(part[..|part| - 1], rest);
    }
  }

  /**
   In every reachable store the statement's filter admits exactly the approvals that BeginExecution would accept,
   so under a positive limit both stores list as many, and the very same ones unless the limit cuts the list.
   */
  lemma {:induction false} ReadyListsAgree<B>(es: seq<AR.Event<B>>, limit: nat, now: int, memory: seq<Id>, sql: seq<Id>)
    requires AR.LegalRun(A.Empty<B>(), es)
    requires
      var s := AR.Run(A.Empty<B>(), es);
      A.ReadyList(s, A.Startables(s, now), A.ByCreation, limit, memory)
        && A.ReadyList(s, SqlReady(s, now), A.ByDecision, limit, sql)
    ensures
      var s := AR.Run(A.Empty<B>(), es);
      && (forall id :: id in s.approvals ==> (A.Startable(s, id, now) <==> SqlReadyGuard(s.approvals[id], now)))
      && |memory| == |sql|
      && (|memory| < limit ==> forall id :: id in memory <==> id in sql)
  {
    var s := AR.Run(A.Empty<B>(), es);
    assert A.Startables(s, now) == SqlReady(s, now);
    ListsOfSameReady(s, SqlReady(s, now), limit, memory, sql);
  }

  // ---- when a cut list is the same ----

  // By decision, and among those decided at once the preferred one first.
  function Key<B>(s: A.Store<B>, id: Id, first: Id): int
    requires id in s.approvals
  {
    2 * A.Rank(s.approvals[id], A.ByDecision) + (if id == first then 0 else 1)
  }

  ghost predicate SortedByKey<B>(s: A.Store<B>, first: Id, all: seq<Id>) {
    && (forall i :: 0 <= i < |all| ==> all[i] in s.approvals)
    && (forall i, j :: 0 <= i < j < |all| ==> all[i] != all[j] && Key(s, all[i], first) <= Key(s, all[j], first))
  }

  lemma {:induction false} InsertedIsSorted<B>(s: A.Store<B>, first: Id, rest: seq<Id>, k: nat, id: Id)
    requires SortedByKey(s, first, rest) && id in s.approvals && id !in rest && k <= |rest|
    requires forall i :: 0 <= i < k ==> Key(s, rest[i], first) <= Key(s, id, first)
    requires k < |rest| ==> Key(s, id, first) <= Key(s, rest[k], first)
    ensures SortedByKey(s, first, InsertAt(rest, k, id))
  {
    var all, key := InsertAt(rest, k, id), Key(s, id, first);
    forall i, j | 0 <= i < j < |all|
      ensures all[i] in s.approvals && all[j] in s.approvals
      ensures all[i] != all[j] && Key(s, all[i], first) <= Key(s, all[j], first)
    {
      if i == k {
        assert key <= Key(s, rest[k], first);
      }
    }
  }

  lemma {:induction false} InsertSorted<B>(s: A.Store<B>, first: Id, rest: seq<Id>, id: Id) returns (all: seq<Id>)
    requires SortedByKey(s, first, rest) && id in s.approvals && id !in rest
    ensures SortedByKey(s, first, all) && forall x :: x in all <==> x in rest || x == id
  {
    var k := 0;
    while k < |rest| && Key(s, rest[k], first) <= Key(s, id, first)
      invariant k <= |rest| && forall i :: 0 <= i < k ==> Key(s, rest[i], first) <= Key(s, id, first)
    {
      k := k + 1;
    }
    InsertedIsSorted(s, first, rest, k, id);
    all := InsertAt(rest, k, id);
    InsertedMembers(rest, k, id);
  }

  lemma {:induction false} Sorted<B>(s: A.Store<B>, first: Id, ready: set<Id>) returns (all: seq<Id>)
    requires ready <= s.approvals.Keys
    ensures SortedByKey(s, first, all) && forall x :: x in all <==> x in ready
    decreases |ready|
  {
    if ready == {} {
      all := [];
    } else {
      var id :| id in ready;
      var rest := Sorted(s, first, ready - {id});
      all := InsertSorted(s, first, rest, id);
    }
  }

  lemma {:induction false} SortedIsReadyList<B>(s: A.Store<B>, first: Id, ready: iset<Id>, all: seq<Id>)
    requires SortedByKey(s, first, all) && forall x :: x in all <==> x in ready
    ensures A.ReadyList(s, ready, A.ByDecision, |all| + 1, all)
  {
  }

  // A list by decision that names the preferred approval before any other decided at the same instant or later.
  lemma {:induction false} ListPreferring<B>(s: A.Store<B>, now: int, limit: nat, first: Id) returns (sql: seq<Id>)
    requires first in SqlReady(s, now)
    ensures A.ReadyList(s, SqlReady(s, now), A.ByDecision, limit, sql)
    ensures first !in sql ==> forall x <- sql ::
        A.Rank(s.approvals[x], A.ByDecision) < A.Rank(s.approvals[first], A.ByDecision)
  {
    var ready := set id | id in s.approvals && SqlReadyGuard(s.approvals[id], now);
    var all := Sorted(s, first, ready);
    SortedIsReadyList(s, first, SqlReady(s, now), all);
    if limit <= |all| {
      A.CutReadyList(s, SqlReady(s, now), A.ByDecision, limit, all);
      sql := all[..limit];
      var k :| 0 <= k < |all| && all[k] == first;
      assert forall i :: 0 <= i < limit ==> sql[i] == all[i];
    } else {
      sql := all;
    }
  }

  ghost predicate SameIds(one: seq<Id>, other: seq<Id>) {
    forall id :: id in one <==> id in other
  }

  // A list that holds one id another of its length does not is missing one of the other's.
  lemma {:induction false} OneIsMissing(one: seq<Id>, other: seq<Id>, extra: Id) returns (missing: Id)
    requires |one| == |other| && extra in one && extra !in other
    requires forall i, j :: 0 <= i < j < |other| ==> other[i] != other[j]
    ensures missing in other && missing !in one
  {
    if forall i :: 0 <= i < |other| ==> other[i] in one {
      var longer := other + [extra];
      NoLonger(longer, one);
      assert false;
    }
    var i :| 0 <= i < |other| && other[i] !in one;
    missing := other[i];
  }

  predicate DecidedBefore(a: A.Approval, b: A.Approval) {
    a.resolvedAt.Some? && b.resolvedAt.Some? && a.resolvedAt.value < b.resolvedAt.value
  }

  // What the in-memory store lists was decided strictly before what its limit leaves out.
  ghost predicate CutByDecision<B>(s: A.Store<B>, now: int, memory: seq<Id>)
    requires forall id <- memory :: id in s.approvals
  {
    forall x, y :: x in memory && y in A.Startables(s, now) && y !in memory ==>
      DecidedBefore(s.approvals[x], s.approvals[y])
  }

  // The statement, whichever way it orders approvals decided at the same instant, lists what the in-memory store does.
  ghost predicate AlwaysTheSame<B>(s: A.Store<B>, now: int, limit: nat, memory: seq<Id>) {
    forall sql: seq<Id> :: A.ReadyList(s, SqlReady(s, now), A.ByDecision, limit, sql) ==> SameIds(memory, sql)
  }

  lemma {:induction false} RankIsDecision<B>(es: seq<AR.Event<B>>, now: int, x: Id, y: Id)
    requires AR.LegalRun(A.Empty<B>(), es)
    requires x in A.Startables(AR.Run(A.Empty<B>(), es), now) && y in A.Startables(AR.Run(A.Empty<B>(), es), now)
    ensures
      var a, b := AR.Run(A.Empty<B>(), es).approvals[x], AR.Run(A.Empty<B>(), es).approvals[y];
      DecidedBefore(a, b) <==> A.Rank(a, A.ByDecision) < A.Rank(b, A.ByDecision)
  {
    AR.ReachableStoresAreOk(es);
    var s := AR.Run(A.Empty<B>(), es);
    assert AR.RecordOk(s.approvals[x], s.issued) && AR.RecordOk(s.approvals[y], s.issued);
  }

  lemma {:induction false} ListedNoLater<B>(s: A.Store<B>, ready: iset<Id>, limit: nat, sql: seq<Id>, x: Id, y: Id)
    requires A.ReadyList(s, ready, A.ByDecision, limit, sql) && x in sql && y !in sql && y in ready && y in s.approvals
    ensures A.Rank(s.approvals[x], A.ByDecision) <= A.Rank(s.approvals[y], A.ByDecision)
  {
    var i :| 0 <= i < |sql| && sql[i] == x;
  }

  lemma {:induction false} CutApartAgrees<B>(s: A.Store<B>, ready: iset<Id>, limit: nat, memory: seq<Id>, sql: seq<Id>)
    requires A.ReadyList(s, ready, A.ByCreation, limit, memory) && A.ReadyList(s, ready, A.ByDecision, limit, sql)
    requires forall x, y :: x in memory && y in ready && y in s.approvals && y !in memory ==>
        A.Rank(s.approvals[x], A.ByDecision) < A.Rank(s.approvals[y], A.ByDecision)
    ensures SameIds(memory, sql)
  {
    ListsOfSameReady(s, ready, limit, memory, sql);
    forall id: Id
      ensures id in memory <==> id in sql
    {
      if id in sql && id !in memory {
        var x := OneIsMissing(sql, memory, id);
        ListedNoLater(s, ready, limit, sql, id, x);
      } else if id in memory && id !in sql {
        var y := OneIsMissing(memory, sql, id);
        ListedNoLater(s, ready, limit, sql, y, id);
      }
    }
  }

  /**
   Under a limit, the statement is sure to list the same approvals as the in-memory store exactly if every approval
   listed there was decided strictly before every ready one it leaves out.
   */
  lemma {:induction false} CutListsAgreeIff<B>(es: seq<AR.Event<B>>, limit: nat, now: int, memory: seq<Id>)
    requires AR.LegalRun(A.Empty<B>(), es)
    requires A.ReadyList(AR.Run(A.Empty<B>(), es), A.Startables(AR.Run(A.Empty<B>(), es), now), A.ByCreation, limit,
      memory)
    ensures AlwaysTheSame(AR.Run(A.Empty<B>(), es), now, limit, memory)
       <==> CutByDecision(AR.Run(A.Empty<B>(), es), now, memory)
  {
    var s := AR.Run(A.Empty<B>(), es);
    assert A.Startables(s, now) == SqlReady(s, now);
    forall x, y | x in memory && y in A.Startables(s, now) && y !in memory
      ensures DecidedBefore(s.approvals[x], s.approvals[y])
         <==> A.Rank(s.approvals[x], A.ByDecision) < A.Rank(s.approvals[y], A.ByDecision)
    {
      RankIsDecision(es, now, x, y);
    }
    if CutByDecision(s, now, memory) {
      forall sql: seq<Id> | A.ReadyList(s, SqlReady(s, now), A.ByDecision, limit, sql)
        ensures SameIds(memory, sql)
      {
        CutApartAgrees(s, SqlReady(s, now), limit, memory, sql);
      }
    } else {
      var x, y :| x in memory && y in A.Startables(s, now) && y !in memory
        && !DecidedBefore(s.approvals[x], s.approvals[y]);
      var sql := ListPreferring(s, now, limit, y);
      assert !SameIds(memory, sql);
    }
  }

  /** Cut by their limit, the lists may hold different approvals: here the older one was decided later. */
  lemma {:induction false} CutListsMayDiffer<B>() returns (es: seq<AR.Event<B>>)
    ensures AR.LegalRun(A.Empty<B>(), es)
    ensures
      var s := AR.Run(A.Empty<B>(), es);
      A.ReadyList(s, A.Startables(s, 4), A.ByCreation, 1, [1]) && A.ReadyList(s, SqlReady(s, 4), A.ByDecision, 1, [2])
  {
    var created := [AR.Event(AR.Create(1, NO_ID, 1, "", ""), 0), AR.Event(AR.Create(2, NO_ID, 1, "", ""), 1)];
    var decided := [AR.Event(AR.Resolve(2, NO_ID, A.Approved, NO_ID), 2),
      AR.Event(AR.Resolve(1, NO_ID, A.Approved, NO_ID), 3)];
    var s := TwoCreated<B>(created);
    AR.TwoEvents(s, decided[0], decided[1]);
    TwoListed(AR.Run(s, decided));
    AR.RunConcat(A.Empty<B>(), created, decided);
    es := created + decided;
  }

  lemma {:induction false} TwoCreated<B>(created: seq<AR.Event<B>>) returns (s: A.Store<B>)
    requires created == [AR.Event(AR.Create(1, NO_ID, 1, "", ""), 0), AR.Event(AR.Create(2, NO_ID, 1, "", ""), 1)]
    ensures s == AR.Run(A.Empty<B>(), created) && AR.LegalRun(A.Empty<B>(), created)
    ensures s.approvals == map[1 := A.NewApproval(NO_ID, 1, "", "", 0), 2 := A.NewApproval(NO_ID, 1, "", "", 1)]
  {
    AR.TwoEvents(A.Empty<B>(), created[0], created[1]);
    s := AR.Run(A.Empty<B>(), created);
  }

  // Created in one order and decided in the other.
  lemma {:induction false} TwoListed<B>(s: A.Store<B>)
    requires s.approvals.Keys == {1, 2}
    requires s.approvals[1] == A.NewApproval(NO_ID, 1, "", "", 0).(status := A.Approved, resolvedAt := Some(3))
    requires s.approvals[2] == A.NewApproval(NO_ID, 1, "", "", 1).(status := A.Approved, resolvedAt := Some(2))
    ensures A.ReadyList(s, A.Startables(s, 4), A.ByCreation, 1, [1])
    ensures A.ReadyList(s, SqlReady(s, 4), A.ByDecision, 1, [2])
  {
  }
}
