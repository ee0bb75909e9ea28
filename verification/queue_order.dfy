/** The order of the queue: by priority, first come first served among equals. */
module QueueOrder {
  import opened Sequences
  import opened QueuePolicies
  import opened WeaverSpec

  ghost predicate Sorted<J>(prio: J -> int, q: seq<J>) {
    forall i, k :: 0 <= i < k < |q| ==> prio(q[i]) >= prio(q[k])
  }

  /** The jobs of one priority, in their order. */
  function OfPriority<J>(prio: J -> int, q: seq<J>, p: int): seq<J> {
    if q == [] then [] else (if prio(q[0]) == p then [q[0]] else []) + OfPriority(prio, q[1..], p)
  }

  lemma {:induction false} OfPriorityConcat<J>(prio: J -> int, a: seq<J>, b: seq<J>, p: int)
    ensures OfPriority(prio, a + b, p) == OfPriority(prio, a, p) + OfPriority(prio, b, p)
  {
    if a == [] {
      assert a + b == b;
    } else {
      OfPriorityConcat(prio, a[1..], b, p);
      OfPriorityCons(prio, a[0], a[1..] + b, p);
      OfPriorityCons(prio, a[0], a[1..], p);
      assert a + b == [a[0]] + (a[1..] + b) && a == [a[0]] + a[1..];
    }
  }

  lemma OfPriorityCons<J>(prio: J -> int, j: J, q: seq<J>, p: int)
    ensures OfPriority(prio, [j] + q, p) == (if prio(j) == p then [j] else []) + OfPriority(prio, q, p)
  {
  }

  lemma {:induction false} OfOtherPriority<J>(prio: J -> int, q: seq<J>, p: int)
    requires forall i :: 0 <= i < |q| ==> prio(q[i]) != p
    ensures OfPriority(prio, q, p) == []
  {
    if q != [] { OfOtherPriority(prio, q[1..], p); }
  }

  lemma InsertKeepsSorted<J>(prio: J -> int, q: seq<J>, j: J)
    requires Sorted(prio, q)
    ensures Sorted(prio, Insert(prio, q, j))
  {
    var k := InsertPosition(prio, q, j, |q|);
    var a, b := q[..k], q[k..];
    forall i | 0 <= i < |a| ensures prio(a[i]) >= prio(j) {
      assert prio(q[i]) >= prio(q[k - 1]);
    }
    forall i | 0 <= i < |b| ensures prio(j) >= prio(b[i]) {
      assert b[i] == q[k + i];
    }
    forall i, m | 0 <= i < |a| && 0 <= m < |b| ensures prio(a[i]) >= prio(b[m]) {
      assert prio(a[i]) >= prio(j) >= prio(b[m]);
    }
    SortedTogether(prio, a, j, b);
  }

  lemma SortedTogether<J>(prio: J -> int, a: seq<J>, j: J, b: seq<J>)
    requires Sorted(prio, a) && Sorted(prio, b)
    requires forall i :: 0 <= i < |a| ==> prio(a[i]) >= prio(j)
    requires forall i :: 0 <= i < |b| ==> prio(j) >= prio(b[i])
    ensures Sorted(prio, a + [j] + b)
  {
  }

  lemma InsertAddsOne<J>(prio: J -> int, q: seq<J>, j: J)
    ensures multiset(Insert(prio, q, j)) == multiset(q) + multiset{j}
  {
    var k := InsertPosition(prio, q, j, |q|);
    assert q == q[..k] + q[k..];
  }

  /** Inserting puts the job last among its equals. */
  lemma InsertIsStable<J>(prio: J -> int, q: seq<J>, j: J, p: int)
    requires Sorted(prio, q)
    ensures OfPriority(prio, Insert(prio, q, j), p) == OfPriority(prio, q, p) + if prio(j) == p then [j] else []
  {
    hide Sorted, OfPriority;
    var k := InsertPosition(prio, q, j, |q|);
    var a, b := q[..k], q[k..];
    assert q == a + b && Insert(prio, q, j) == a + ([j] + b);
    OfPriorityConcat(prio, a, [j] + b, p);
    OfPriorityCons(prio, j, b, p);
    OfPriorityConcat(prio, a, b, p);
    if prio(j) == p {
      OfOtherPriority(prio, b, p);
    }
  }

  /** `out` is the stable sort of `jobs`. */
  ghost predicate StableSort<J(!new)>(prio: J -> int, out: seq<J>, jobs: seq<J>) {
    Sorted(prio, out) && forall p :: OfPriority(prio, out, p) == OfPriority(prio, jobs, p)
  }

  function InsertAll<J>(prio: J -> int, q: seq<J>, jobs: seq<J>): seq<J>
    decreases |jobs|
  {
    if jobs == [] then q else InsertAll(prio, Insert(prio, q, jobs[0]), jobs[1..])
  }

  lemma {:induction false} InsertAllAppends<J>(prio: J -> int, q: seq<J>, jobs: seq<J>, p: int)
    requires Sorted(prio, q)
    ensures Sorted(prio, InsertAll(prio, q, jobs))
    ensures OfPriority(prio, InsertAll(prio, q, jobs), p) == OfPriority(prio, q, p) + OfPriority(prio, jobs, p)
    decreases |jobs|
  {
    if jobs != [] {
      InsertIsStable(prio, q, jobs[0], p);
      InsertKeepsSorted(prio, q, jobs[0]);
      assert jobs == [jobs[0]] + jobs[1..];
      InsertAllAppends(prio, Insert(prio, q, jobs[0]), jobs[1..], p);
    }
  }

  /** A batch enqueued into an empty queue lies there in its stable sort. */
  lemma BatchIsSorted<J(!new)>(prio: J -> int, jobs: seq<J>)
    ensures StableSort(prio, InsertAll(prio, [], jobs), jobs)
  {
    forall p ensures OfPriority(prio, InsertAll(prio, [], jobs), p) == OfPriority(prio, jobs, p) {
      InsertAllAppends(prio, [], jobs, p);
    }
    InsertAllAppends(prio, [], jobs, 0);
  }

  /** There is only one stable sort. */
  lemma {:induction false} StableSortIsUnique<J(!new)>(prio: J -> int, a: seq<J>, b: seq<J>)
    requires Sorted(prio, a) && Sorted(prio, b)
    requires forall p :: OfPriority(prio, a, p) == OfPriority(prio, b, p)
    ensures a == b
  {
    assert b != [] ==> OfPriority(prio, b, prio(b[0])) != [];
    assert a != [] ==> OfPriority(prio, a, prio(a[0])) != [];
    if a != [] && b != [] {
      HeadsAgree(prio, a, b);
      forall r ensures OfPriority(prio, a[1..], r) == OfPriority(prio, b[1..], r) {
        TailOfPriority(prio, a, r);
        TailOfPriority(prio, b, r);
        assert OfPriority(prio, a, r) == OfPriority(prio, b, r);
      }
      StableSortIsUnique(prio, a[1..], b[1..]);
      assert a == [a[0]] + a[1..] && b == [b[0]] + b[1..];
    }
  }

  lemma TailOfPriority<J>(prio: J -> int, q: seq<J>, r: int)
    requires q != []
    ensures OfPriority(prio, q[1..], r) ==
      if prio(q[0]) == r then OfPriority(prio, q, r)[1..] else OfPriority(prio, q, r)
  {
  }

  lemma HeadsAgree<J>(prio: J -> int, a: seq<J>, b: seq<J>)
    requires Sorted(prio, a) && Sorted(prio, b) && a != [] && b != []
    requires OfPriority(prio, a, prio(a[0])) == OfPriority(prio, b, prio(a[0]))
    requires OfPriority(prio, a, prio(b[0])) == OfPriority(prio, b, prio(b[0]))
    ensures a[0] == b[0]
  {
    var p := prio(a[0]);
    HeadIsHighest(prio, a, prio(b[0]));
    HeadIsHighest(prio, b, p);
    assert OfPriority(prio, a, p)[0] == a[0];
    assert OfPriority(prio, b, p)[0] == b[0];
  }

  lemma {:induction false} HeadIsHighest<J>(prio: J -> int, q: seq<J>, p: int)
    requires Sorted(prio, q) && q != [] && OfPriority(prio, q, p) != []
    ensures prio(q[0]) >= p
  {
    if prio(q[0]) < p {
      OfOtherPriority(prio, q, p);
    }
  }

  // ---- The scan ----

  /** No queued job is already a customer of one of its resources, and no list names a policy twice. */
  ghost predicate ScanReady<J, R>(ps: Policies<J, R>, q: seq<J>, lists: map<J, seq<Policy<R>>>) {
    && (forall i :: 0 <= i < |q| ==> q[i] in lists)
    && (forall i :: 0 <= i < |q| ==> NoDup(lists[q[i]]) && NoCustomer(ps, lists[q[i]], q[i]))
  }

  /** The scan finds the first job all of whose policies are willing. However many candidates it
      refused on the way, the only change is that this job has entered its own restrictions. */
  lemma {:induction false} ScanFindsFirst<J, R>(ps: Policies<J, R>, q: seq<J>, lists: map<J, seq<Policy<R>>>, k: nat)
    requires ScanReady(ps, q, lists) && k <= |q|
    ensures var (found, qs) := Scan(ps, q, lists, k);
      match found
      case None => qs == ps && forall i :: k <= i < |q| ==> !AllWilling(ps, lists[q[i]], q[i])
      case At(i) =>
        && AllWilling(ps, lists[q[i]], q[i])
        && qs == Entered(ps, lists[q[i]], q[i])
        && forall m :: k <= m < i ==> !AllWilling(ps, lists[q[m]], q[m])
    decreases |q| - k
  {
    if k < |q| {
      CanBeExecutedExactly(ps, lists[q[k]], q[k]);
      if !AllWilling(ps, lists[q[k]], q[k]) {
        ScanFindsFirst(ps, q, lists, k + 1);
      }
    }
  }

  /** In a sorted queue, the job found is the earliest of the runnable jobs with the highest
      priority that any runnable job has. */
  lemma ScanTakesHighest<J, R>(prio: J -> int, ps: Policies<J, R>, q: seq<J>, lists: map<J, seq<Policy<R>>>, m: nat)
    requires ScanReady(ps, q, lists) && Sorted(prio, q) && m < |q|
    requires AllWilling(ps, lists[q[m]], q[m])
    ensures Scan(ps, q, lists, 0).0.At?
    ensures var i := Scan(ps, q, lists, 0).0.i; i <= m && prio(q[i]) >= prio(q[m])
  {
    ScanFindsFirst(ps, q, lists, 0);
  }

  // ---- Enqueueing a batch ----

  /** As many as are asked for, and as there is room for. */
  function AtMost(room: int, wanted: int): int {
    if room < 0 || wanted < 0 then 0 else if room < wanted then room else wanted
  }

  /** No job is lost or doubled, and all sleepers are woken. */
  lemma {:induction false} EnqueueAddsAll<J, R>(w: Weaver<J, R>, prio: J -> int, batch: nat, js: seq<J>)
    ensures var v := Enqueue(w, prio, batch, js);
      && multiset(v.assignments) == multiset(w.assignments) + multiset(js)
      && (js != [] ==> v.sleeping == {})
    decreases |js|
  {
    if js != [] {
      var m := EnqueueOne(w, prio, batch, js[0]);
      EnqueueAddsAll(m, prio, batch, js[1..]);
      assert js == [js[0]] + js[1..];
      InsertAddsOne(prio, w.assignments, js[0]);
      assert m.assignments == Insert(prio, w.assignments, js[0]) && m.sleeping == {};
      hide Enqueue, EnqueueOne, Insert;
    }
  }

  lemma OneRoundOfThreads<J, R>(w: Weaver<J, R>, prio: J -> int, batch: nat, j: J)
    ensures var m := EnqueueOne(w, prio, batch, j);
      && |m.inventory| - |w.inventory| == m.created - w.created == AtMost(w.inventoryMax - |w.inventory|, batch)
      && m.inventoryMax == w.inventoryMax
  {
  }

  lemma OneMoreRound(n: nat, batch: nat)
    ensures 0 <= n * batch && (n + 1) * batch == batch + n * batch
  {
  }

  lemma AskedTwice(room: int, a: nat, b: nat)
    ensures AtMost(room, a) + AtMost(room - AtMost(room, a), b) == AtMost(room, a + b)
  {
  }

  /** Every job of the batch asks for as many threads as there are jobs in it. */
  lemma {:induction false} EnqueueCreates<J, R>(w: Weaver<J, R>, prio: J -> int, batch: nat, js: seq<J>)
    ensures var v := Enqueue(w, prio, batch, js);
      && |v.inventory| - |w.inventory| == v.created - w.created
      && v.created - w.created == AtMost(w.inventoryMax - |w.inventory|, |js| * batch)
    decreases |js|
  {
    if js != [] {
      var m := EnqueueOne(w, prio, batch, js[0]);
      OneRoundOfThreads(w, prio, batch, js[0]);
      EnqueueCreates(m, prio, batch, js[1..]);
      hide EnqueueOne, AtMost;
      OneMoreRound(|js[1..]|, batch);
      AskedTwice(w.inventoryMax - |w.inventory|, batch, |js[1..]| * batch);
    }
  }

  /** Each job goes behind its equals, in the order of the batch. */
  lemma {:induction false} EnqueueOrders<J, R>(w: Weaver<J, R>, prio: J -> int, batch: nat, js: seq<J>, p: int)
    requires Sorted(prio, w.assignments)
    ensures var v := Enqueue(w, prio, batch, js);
      && Sorted(prio, v.assignments)
      && OfPriority(prio, v.assignments, p) == OfPriority(prio, w.assignments, p) + OfPriority(prio, js, p)
    decreases |js|
  {
    if js != [] {
      var m := EnqueueOne(w, prio, batch, js[0]);
      InsertKeepsSorted(prio, w.assignments, js[0]);
      InsertIsStable(prio, w.assignments, js[0], p);
      EnqueueOrders(m, prio, batch, js[1..], p);
      OfPriorityCons(prio, js[0], js[1..], p);
      assert js == [js[0]] + js[1..];
    }
  }

  // ---- The critical section of a thread ----

  lemma SettledMeans<J, R>(w: Weaver<J, R>, wasBusy: bool)
    ensures var m := Settled(w, wasBusy);
      && m.active == w.active - (if wasBusy then 1 else 0) && m.expired == []
      && |m.inventory| == |w.inventory| + (if |w.inventory| < w.inventoryMax then 1 else 0)
      && w.inventory <= m.inventory
      && m.state == w.state && m.assignments == w.assignments && m.inventoryMax == w.inventoryMax
      && m.sleeping == w.sleeping && m.policies == w.policies
  {
  }

  /** A pass ends in one of four ways: it completes a suspend or turns back, it shrinks the inventory, it
      takes a job, or it falls asleep. */
  lemma TakeDecides<J, R>(w: Weaver<J, R>, lists: map<J, seq<Policy<R>>>, th: nat, wasBusy: bool,
      suspendIfInactive: bool, justReturning: bool)
    requires forall i :: 0 <= i < |w.assignments| ==> w.assignments[i] in lists
    ensures var (t, v) := TakeFirst(w, lists, th, wasBusy, suspendIfInactive, justReturning);
      var active := w.active - if wasBusy then 1 else 0;
      var suspends := suspendIfInactive && active == 0 && w.state == Suspending;
      var looks := w.state == WorkingHard && !justReturning;
      && v.state == (if suspends then Suspended else w.state)
      && (t.Returned? <==> suspends || !looks)
      && (t.Expired? <==> looks && |w.inventory| > w.inventoryMax)
      && v.active == active + (if t.Assigned? then 1 else 0)
      && v.sleeping == w.sleeping + (if t.Slept? then {th} else {})
      && v.expired == (if t.Expired? then [th] else [])
      && (!t.Assigned? ==> v.assignments == w.assignments)
  {
    SettledMeans(w, wasBusy);
    hide Settled, Scan;
  }

  /** A pass takes the first job in the queue all of whose policies are willing, and falls asleep only if
      there is none. */
  lemma TakeChooses<J, R>(w: Weaver<J, R>, lists: map<J, seq<Policy<R>>>, th: nat, wasBusy: bool,
      suspendIfInactive: bool, justReturning: bool)
    requires ScanReady(w.policies, w.assignments, lists)
    ensures var (t, v) := TakeFirst(w, lists, th, wasBusy, suspendIfInactive, justReturning);
      match t
      case Assigned(job) =>
        exists i :: 0 <= i < |w.assignments| && FirstWilling(w, lists, i) && w.assignments[i] == job
          && v.assignments == w.assignments[..i] + w.assignments[i + 1..]
          && v.policies == Entered(w.policies, lists[job], job)
      case Slept =>
        v.policies == w.policies && forall i :: 0 <= i < |w.assignments| ==>
          !AllWilling(w.policies, lists[w.assignments[i]], w.assignments[i])
      case _ => v.policies == w.policies
  {
    SettledMeans(w, wasBusy);
    ScanFindsFirst(w.policies, w.assignments, lists, 0);
    hide Settled, Scan, AllWilling, Entered;
    var (t, v) := TakeFirst(w, lists, th, wasBusy, suspendIfInactive, justReturning);
    if t.Assigned? {
      assert FirstWilling(w, lists, Scan(w.policies, w.assignments, lists, 0).0.i);
    }
  }

  ghost predicate FirstWilling<J, R>(w: Weaver<J, R>, lists: map<J, seq<Policy<R>>>, i: nat)
    requires i < |w.assignments| && forall i :: 0 <= i < |w.assignments| ==> w.assignments[i] in lists
  {
    && AllWilling(w.policies, lists[w.assignments[i]], w.assignments[i])
    && forall k :: 0 <= k < i ==> !AllWilling(w.policies, lists[w.assignments[k]], w.assignments[k])
  }
}
