/** Operations on lists that the queue and the policies share. */
module Sequences {

  /** QList::removeAt(indexOf(x)): the first occurrence goes, nothing happens without one. */
  function RemoveFirst<T(==)>(s: seq<T>, x: T): (r: seq<T>)
    ensures x in s ==> |r| == |s| - 1
    ensures x !in s ==> r == s
  {
    if s == [] then []
    else if s[0] == x then s[1..]
    else [s[0]] + RemoveFirst(s[1..], x)
  }

  ghost predicate NoDup<T>(s: seq<T>) {
    forall i, j :: 0 <= i < j < |s| ==> s[i] != s[j]
  }

  function Copies<T>(x: T, n: nat): (r: seq<T>)
    ensures |r| == n && forall i :: 0 <= i < n ==> r[i] == x
  {
    if n == 0 then [] else [x] + Copies(x, n - 1)
  }

  lemma {:induction false} RemoveFirstKeepsCount<T>(s: seq<T>, x: T)
    ensures multiset(RemoveFirst(s, x)) == multiset(s) - multiset{x}
  {
    if s != [] {
      assert s == [s[0]] + s[1..];
      if s[0] != x {
        RemoveFirstKeepsCount(s[1..], x);
        var r := RemoveFirst(s[1..], x);
        assert multiset([s[0]] + r) == multiset{s[0]} + multiset(r);
      }
    }
  }

  /** Appending x and then removing its first occurrence. */
  lemma {:induction false} RemoveAppended<T>(s: seq<T>, x: T, n: nat)
    requires x !in s && n > 0
    ensures RemoveFirst(s + Copies(x, n), x) == s + Copies(x, n - 1)
  {
    var t := s + Copies(x, n);
    if s == [] {
      assert t == Copies(x, n) && t[1..] == Copies(x, n - 1);
    } else {
      assert t[0] == s[0] && t[1..] == s[1..] + Copies(x, n);
      RemoveAppended(s[1..], x, n);
      assert [s[0]] + (s[1..] + Copies(x, n - 1)) == s + Copies(x, n - 1);
    }
  }

  lemma {:induction false} RemoveFirstMembers<T>(s: seq<T>, x: T)
    requires NoDup(s)
    ensures NoDup(RemoveFirst(s, x))
    ensures forall y {:trigger y in RemoveFirst(s, x)} {:trigger y in s} :: y in RemoveFirst(s, x) <==> y in s && y != x
  {
    if s != [] {
      assert forall i :: 1 <= i < |s| ==> s[i] == s[1..][i - 1];
      RemoveFirstMembers(s[1..], x);
      var r := RemoveFirst(s[1..], x);
      assert s == [s[0]] + s[1..];
      assert s[0] !in s[1..];
      assert s[0] !in r;
    }
  }

  lemma NoMember<T>(s: seq<T>)
    ensures s == [] || exists x :: x in s
  {
    if s != [] { assert s[0] in s; }
  }

  lemma NoDupAppend<T>(s: seq<T>, x: T)
    requires NoDup(s) && x !in s
    ensures NoDup(s + [x])
  {
  }

  /** Behind the first x there is nothing but x. */
  ghost predicate OnlyAtEnd<T>(s: seq<T>, x: T) {
    s == [] || if s[0] == x then forall k :: 0 <= k < |s| ==> s[k] == x else OnlyAtEnd(s[1..], x)
  }

  /** Without the assumption that x was absent, the content comes back, but the order only if there is
      nothing but x behind the first x. */
  lemma {:induction false} RemoveAppendedExactly<T>(s: seq<T>, x: T)
    ensures multiset(RemoveFirst(s + [x], x)) == multiset(s)
    ensures RemoveFirst(s + [x], x) == s <==> OnlyAtEnd(s, x)
  {
    RemoveFirstKeepsCount(s + [x], x);
    OrderComesBack(s, x);
  }

  lemma {:induction false} OrderComesBack<T>(s: seq<T>, x: T)
    ensures RemoveFirst(s + [x], x) == s <==> OnlyAtEnd(s, x)
  {
    if s != [] {
      var t := s[1..];
      assert (s + [x])[1..] == t + [x] && (s + [x])[0] == s[0] && s == [s[0]] + t;
      if s[0] == x {
        ShiftedByOne(s, x);
      } else {
        OrderComesBack(t, x);
        var r := RemoveFirst(t + [x], x);
        assert ([s[0]] + r)[1..] == r;
      }
    }
  }

  lemma ShiftedByOne<T>(s: seq<T>, x: T)
    requires s != [] && s[0] == x
    ensures s[1..] + [x] == s <==> forall k :: 0 <= k < |s| ==> s[k] == x
  {
    if s[1..] + [x] == s {
      forall k | 0 <= k < |s| ensures s[k] == x { AllSame(s, x, k); }
    }
  }

  lemma {:induction false} AllSame<T>(s: seq<T>, x: T, k: nat)
    requires k < |s| && s[0] == x && s[1..] + [x] == s
    ensures s[k] == x
    decreases |s| - k
  {
    assert s[k] == (s[1..] + [x])[k];
    if k < |s| - 1 { AllSame(s, x, k + 1); }
  }

  lemma {:induction false} RemoveFirstOthers<T>(s: seq<T>, x: T, y: T)
    requires y != x
    ensures y in RemoveFirst(s, x) <==> y in s
  {
    if s != [] {
      assert s == [s[0]] + s[1..];
      if s[0] != x { RemoveFirstOthers(s[1..], x, y); }
    }
  }

  lemma {:induction false} RemoveFirstSubset<T>(s: seq<T>, x: T, y: T)
    requires y in RemoveFirst(s, x)
    ensures y in s
  {
    if s[0] != x && y != s[0] { RemoveFirstSubset(s[1..], x, y); }
  }
}
