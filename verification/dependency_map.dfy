/** The multimap of unresolved dependencies. A pair (a, b) says that job a waits for job b. */
module DependencyMap {
  import opened Sequences

  predicate HasUnresolved<J(==)>(d: seq<(J, J)>, a: J) {
    exists i :: 0 <= i < |d| && d[i].0 == a
  }

  /** Every entry that waits for `b` is gone. */
  function Resolved<J(==)>(d: seq<(J, J)>, b: J): (r: seq<(J, J)>)
    ensures forall i :: 0 <= i < |r| ==> r[i] in d && r[i].1 != b
    ensures forall i :: 0 <= i < |d| && d[i].1 != b ==> d[i] in r
  {
    if d == [] then []
    else if d[0].1 == b then Resolved(d[1..], b)
    else [d[0]] + Resolved(d[1..], b)
  }

  /** Every entry that waits for somebody else stays, as often as it was there. */
  lemma {:induction false} ResolvedExactly<J>(d: seq<(J, J)>, b: J, p: (J, J))
    ensures multiset(Resolved(d, b))[p] == if p.1 == b then 0 else multiset(d)[p]
  {
    if d != [] {
      ResolvedExactly(d[1..], b, p);
      assert d == [d[0]] + d[1..];
    }
  }

  lemma ResolvedMembers<J>(d: seq<(J, J)>, b: J, p: (J, J))
    ensures p in Resolved(d, b) <==> p in d && p.1 != b
  {
    ResolvedExactly(d, b, p);
    assert p in d <==> multiset(d)[p] > 0;
  }

  lemma {:induction false} ResolvedNothing<J>(d: seq<(J, J)>, b: J)
    requires forall i :: 0 <= i < |d| ==> d[i].1 != b
    ensures Resolved(d, b) == d
  {
    if d != [] {
      assert forall i :: 0 <= i < |d[1..]| ==> d[1..][i] == d[i + 1];
      ResolvedNothing(d[1..], b);
    }
  }

  lemma {:induction false} ResolvedTwice<J>(d: seq<(J, J)>, b: J)
    ensures Resolved(Resolved(d, b), b) == Resolved(d, b)
  {
    ResolvedNothing(Resolved(d, b), b);
  }

  /** removeDependency takes away one occurrence at most. */
  function RemoveOne<J(==)>(d: seq<(J, J)>, a: J, b: J): (bool, seq<(J, J)>) {
    ((a, b) in d, RemoveFirst(d, (a, b)))
  }

  /** The assertion that closes removeDependency, that the pair is gone, holds exactly when the pair was
      entered at most once. */
  lemma RemovalIsComplete<J>(d: seq<(J, J)>, a: J, b: J)
    ensures (a, b) !in RemoveOne(d, a, b).1 <==> multiset(d)[(a, b)] <= 1
  {
    RemoveFirstKeepsCount(d, (a, b));
    assert (a, b) in RemoveOne(d, a, b).1 <==> (a, b) in multiset(RemoveOne(d, a, b).1);
  }
}
