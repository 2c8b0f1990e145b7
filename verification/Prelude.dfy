/** Types shared by the models: an optional value, and the two-minute lease used by both stores. */
module Prelude {
  datatype Option<+T> = None | Some(value: T)

  // Identifiers (of approvals, conversations, workspaces, users, tool calls, ledger rows) are only ever
  // compared, so they are numbers here; the number 0 stands for the empty string.
  type Id = nat
  const NO_ID: Id := 0

  // Clock readings are integers (nanoseconds); both leases last two minutes.
  const LEASE: int := 120_000_000_000

  // time.Time.Before and time.Time.After on a possibly unset time.  The unset time is the zero
  // time, which lies before every reading of the clock.
  predicate Before(t: Option<int>, now: int) {
    t.None? || t.value < now
  }

  predicate After(t: Option<int>, now: int) {
    t.Some? && t.value > now
  }

  // A list with one element more, at index k.
  function InsertAt<T>(xs: seq<T>, k: nat, x: T): (r: seq<T>)
    requires k <= |xs|
    ensures |r| == |xs| + 1
    ensures forall i :: 0 <= i < |r| ==> r[i] == if i < k then xs[i] else if i == k then x else xs[i - 1]
  {
    xs[..k] + [x] + xs[k..]
  }

  lemma {:induction false} InsertedMembers<T>(xs: seq<T>, k: nat, x: T)
    requires k <= |xs|
    ensures forall y :: y in InsertAt(xs, k, x) <==> y in xs || y == x
  {
    var r := InsertAt(xs, k, x);
    forall y: T
      ensures y in r <==> y in xs || y == x
    {
      if y == x {
        assert r[k] == y;
      } else if y in xs {
        var i :| 0 <= i < |xs| && xs[i] == y;
        assert r[if i < k then i else i + 1] == y;
      }
    }
  }
}
