/** What the queue policies of a job answer and how they change, as functions on their state. */
module QueuePolicies {
  import opened Sequences
  import D = DependencyMap

  /** A policy in a job's list: the one DependencyPolicy, a ResourceRestrictionPolicy, or the
      blocker of the Sequence `owner`. */
  datatype Policy<R> = Dependencies | Restriction(r: R) | Blocker(owner: nat)

  datatype Resource<J> = Resource(cap: int, customers: seq<J>)

  datatype Policies<J, R> = Policies(deps: seq<(J, J)>, resources: map<R, Resource<J>>)

  function CanRun<J(==), R(==)>(ps: Policies<J, R>, p: Policy<R>, j: J): (bool, Policies<J, R>) {
    match p
    case Dependencies => (!D.HasUnresolved(ps.deps, j), ps)
    case Blocker(_) => (false, ps)
    case Restriction(r) =>
      if r in ps.resources && |ps.resources[r].customers| < ps.resources[r].cap
      then (true, ps.(resources := ps.resources[r := ps.resources[r].(customers := ps.resources[r].customers + [j])]))
      else (false, ps)
  }

  /** release, which only a restriction acts on; it is also what its free does. */
  function Release<J(==), R(==)>(ps: Policies<J, R>, p: Policy<R>, j: J): Policies<J, R> {
    if p.Restriction? && p.r in ps.resources
    then
      var res := ps.resources[p.r];
      ps.(resources := ps.resources[p.r := res.(customers := RemoveFirst(res.customers, j))])
    else ps
  }

  /** free, after the job has ended with success or not. */
  function FreeOne<J(==), R(==)>(ps: Policies<J, R>, p: Policy<R>, j: J, success: bool): Policies<J, R> {
    if p.Dependencies? then (if success then ps.(deps := D.Resolved(ps.deps, j)) else ps)
    else Release(ps, p, j)
  }

  // ---- The loops of canBeExecuted and freeQueuePolicyResources ----

  /** All of the first n policies say yes when asked in order. */
  function Accepts<J(==), R(==)>(ps: Policies<J, R>, list: seq<Policy<R>>, j: J, n: nat): bool
    requires n <= |list|
  {
    n == 0 || (Accepts(ps, list, j, n - 1) && CanRun(Acquire(ps, list, j, n - 1), list[n - 1], j).0)
  }

  /** The state after asking the first n policies. */
  function Acquire<J(==), R(==)>(ps: Policies<J, R>, list: seq<Policy<R>>, j: J, n: nat): Policies<J, R>
    requires n <= |list|
  {
    if n == 0 then ps else CanRun(Acquire(ps, list, j, n - 1), list[n - 1], j).1
  }

  function ReleaseSome<J(==), R(==)>(ps: Policies<J, R>, list: seq<Policy<R>>, j: J, n: nat): Policies<J, R>
    requires n <= |list|
  {
    if n == 0 then ps else Release(ReleaseSome(ps, list, j, n - 1), list[n - 1], j)
  }

  function FreeSome<J(==), R(==)>(ps: Policies<J, R>, list: seq<Policy<R>>, j: J, success: bool, n: nat): Policies<J, R>
    requires n <= |list|
  {
    if n == 0 then ps else FreeOne(FreeSome(ps, list, j, success, n - 1), list[n - 1], j, success)
  }

  function FreeAll<J(==), R(==)>(ps: Policies<J, R>, list: seq<Policy<R>>, j: J, success: bool): Policies<J, R> {
    FreeSome(ps, list, j, success, |list|)
  }

  /** How many of the first policies accept before one refuses. */
  function Granted<J(==), R(==)>(ps: Policies<J, R>, list: seq<Policy<R>>, j: J, n: nat): (k: nat)
    requires n <= |list|
    ensures k <= n && Accepts(ps, list, j, k)
    ensures k == n <==> Accepts(ps, list, j, n)
    ensures k < n ==> !Accepts(ps, list, j, k + 1)
  {
    if n == 0 then 0
    else
      var k := Granted(ps, list, j, n - 1);
      if k == n - 1 && Accepts(ps, list, j, n) then n else k
  }

  /** canBeExecuted: ask the policies in order, and take everything back if one refuses. */
  function CanBeExecuted<J(==), R(==)>(ps: Policies<J, R>, list: seq<Policy<R>>, j: J): (bool, Policies<J, R>) {
    var k := Granted(ps, list, j, |list|);
    var acquired := Acquire(ps, list, j, k);
    if k == |list| then (true, acquired) else (false, ReleaseSome(acquired, list, j, k))
  }

  // ---- A refusal leaves no trace ----

  function Times<R(==)>(list: seq<Policy<R>>, r: R, n: nat): nat
    requires n <= |list|
  {
    if n == 0 then 0 else Times(list, r, n - 1) + if list[n - 1] == Restriction(r) then 1 else 0
  }

  ghost predicate NoCustomer<J, R>(ps: Policies<J, R>, list: seq<Policy<R>>, j: J) {
    forall p :: p in list && p.Restriction? && p.r in ps.resources ==> j !in ps.resources[p.r].customers
  }

  /** The resource has gained one entry of j at its end for each time the list names it before `up`
      and not before `down`. */
  ghost predicate PaddedAt<J, R>(ps: Policies<J, R>, qs: Policies<J, R>, j: J, list: seq<Policy<R>>, up: nat,
      down: nat, r: R)
    requires down <= up <= |list| && r in ps.resources && r in qs.resources
  {
    && Times(list, r, down) <= Times(list, r, up)
    && qs.resources[r].cap == ps.resources[r].cap
    && qs.resources[r].customers == ps.resources[r].customers + Copies(j, Times(list, r, up) - Times(list, r, down))
  }

  ghost predicate Padded<J, R>(ps: Policies<J, R>, qs: Policies<J, R>, j: J, list: seq<Policy<R>>, up: nat, down: nat)
    requires down <= up <= |list|
  {
    && qs.deps == ps.deps && qs.resources.Keys == ps.resources.Keys
    && forall r :: r in ps.resources ==> PaddedAt(ps, qs, j, list, up, down, r)
  }

  lemma {:induction false} TimesGrow<R>(list: seq<Policy<R>>, r: R, i: nat, k: nat)
    requires i <= k <= |list|
    ensures Times(list, r, i) <= Times(list, r, k)
    ensures i < k && list[i] == Restriction(r) ==> Times(list, r, i) < Times(list, r, k)
  {
    if i < k { TimesGrow(list, r, i, k - 1); }
  }

  lemma {:induction false} AcquirePads<J, R>(ps: Policies<J, R>, list: seq<Policy<R>>, j: J, k: nat)
    requires k <= |list| && Accepts(ps, list, j, k)
    ensures Padded(ps, Acquire(ps, list, j, k), j, list, k, 0)
  {
    if k > 0 {
      AcquirePads(ps, list, j, k - 1);
      var p := list[k - 1];
      if p.Restriction? {
        var c := ps.resources[p.r].customers;
        var n := Times(list, p.r, k - 1);
        assert Copies(j, n) + [j] == Copies(j, n + 1);
        assert c + Copies(j, n) + [j] == c + Copies(j, n + 1);
      }
    }
  }

  lemma {:induction false} ReleasePads<J, R>(ps: Policies<J, R>, list: seq<Policy<R>>, j: J, k: nat, i: nat)
    requires i <= k <= |list| && Accepts(ps, list, j, k) && NoCustomer(ps, list, j)
    ensures Padded(ps, ReleaseSome(Acquire(ps, list, j, k), list, j, i), j, list, k, i)
  {
    hide Padded, Release, NoCustomer;
    if i == 0 {
      AcquirePads(ps, list, j, k);
    } else {
      ReleasePads(ps, list, j, k, i - 1);
      ReleaseOnePads(ps, ReleaseSome(Acquire(ps, list, j, k), list, j, i - 1), list, j, k, i - 1);
    }
  }

  lemma ReleaseOnePads<J, R>(ps: Policies<J, R>, qs: Policies<J, R>, list: seq<Policy<R>>, j: J, k: nat, i: nat)
    requires i < k <= |list| && NoCustomer(ps, list, j) && Padded(ps, qs, j, list, k, i)
    ensures Padded(ps, Release(qs, list[i], j), j, list, k, i + 1)
  {
    var after := Release(qs, list[i], j);
    forall r | r in ps.resources ensures PaddedAt(ps, after, j, list, k, i + 1, r) {
      assert PaddedAt(ps, qs, j, list, k, i, r);
      hide Padded, Copies, RemoveFirst;
      TimesGrow(list, r, i + 1, k);
      if list[i] == Restriction(r) {
        assert list[i] in list;
        RemoveAppended(ps.resources[r].customers, j, Times(list, r, k) - Times(list, r, i));
      }
    }
    hide PaddedAt, Times, RemoveFirst;
  }

  /** A refusal leaves every policy exactly as it was, for any list of policies, as long as the job
      is not already a customer of one of them. */
  lemma RefusalLeavesNoTrace<J, R>(ps: Policies<J, R>, list: seq<Policy<R>>, j: J)
    requires NoCustomer(ps, list, j) && !CanBeExecuted(ps, list, j).0
    ensures CanBeExecuted(ps, list, j).1 == ps
  {
    var k := Granted(ps, list, j, |list|);
    ReleasePads(ps, list, j, k, k);
    var qs := CanBeExecuted(ps, list, j).1;
    forall r | r in ps.resources ensures qs.resources[r] == ps.resources[r] {
      assert PaddedAt(ps, qs, j, list, k, k, r);
      assert ps.resources[r].customers + Copies(j, 0) == ps.resources[r].customers;
    }
    assert qs.resources == ps.resources;
  }

  // ---- What an acceptance means ----

  predicate Willing<J(==), R(==)>(ps: Policies<J, R>, p: Policy<R>, j: J) {
    match p
    case Dependencies => !D.HasUnresolved(ps.deps, j)
    case Restriction(r) => r in ps.resources && |ps.resources[r].customers| < ps.resources[r].cap
    case Blocker(_) => false
  }

  /** Every policy of the list, asked alone, says yes. */
  predicate AllWilling<J(==), R(==)>(ps: Policies<J, R>, list: seq<Policy<R>>, j: J) {
    forall i :: 0 <= i < |list| ==> Willing(ps, list[i], j)
  }

  /** The job becomes the last customer of each of its restrictions. */
  function Entered<J, R(==)>(ps: Policies<J, R>, list: seq<Policy<R>>, j: J): Policies<J, R> {
    ps.(resources := map r | r in ps.resources ::
      if Restriction(r) in list
      then ps.resources[r].(customers := ps.resources[r].customers + [j])
      else ps.resources[r])
  }

  lemma {:induction false} TimesNoDup<R>(list: seq<Policy<R>>, r: R, k: nat)
    requires NoDup(list) && k <= |list|
    ensures Times(list, r, k) == if Restriction(r) in list[..k] then 1 else 0
  {
    if k > 0 {
      TimesNoDup(list, r, k - 1);
      assert list[..k] == list[..k - 1] + [list[k - 1]];
    }
  }

  lemma {:induction false} AcceptsMeansWilling<J, R>(ps: Policies<J, R>, list: seq<Policy<R>>, j: J, k: nat)
    requires NoDup(list) && k <= |list|
    ensures Accepts(ps, list, j, k) <==> forall i :: 0 <= i < k ==> Willing(ps, list[i], j)
  {
    if k > 0 {
      AcceptsMeansWilling(ps, list, j, k - 1);
      if Accepts(ps, list, j, k - 1) {
        AcquirePads(ps, list, j, k - 1);
        var p := list[k - 1];
        if p.Restriction? {
          TimesNoDup(list, p.r, k - 1);
        }
      }
    }
  }

  /** canBeExecuted says yes exactly when every policy is willing; then the only change is that the
      job has entered its own restrictions, and otherwise nothing has changed. */
  lemma CanBeExecutedExactly<J, R>(ps: Policies<J, R>, list: seq<Policy<R>>, j: J)
    requires NoDup(list) && NoCustomer(ps, list, j)
    ensures CanBeExecuted(ps, list, j).0 <==> AllWilling(ps, list, j)
    ensures CanBeExecuted(ps, list, j).1 == if AllWilling(ps, list, j) then Entered(ps, list, j) else ps
  {
    AcceptsMeansWilling(ps, list, j, |list|);
    if AllWilling(ps, list, j) {
      AcquirePads(ps, list, j, |list|);
      var qs := CanBeExecuted(ps, list, j).1;
      assert list[..|list|] == list;
      forall r | r in ps.resources ensures qs.resources[r] == Entered(ps, list, j).resources[r] {
        TimesNoDup(list, r, |list|);
        assert Copies(j, 1) == [j] + Copies(j, 0) && Copies(j, 0) == [];
      }
      assert qs.resources == Entered(ps, list, j).resources;
    } else {
      RefusalLeavesNoTrace(ps, list, j);
    }
  }

  // ---- What freeing means ----

  /** The job's dependents are released if it succeeded, and it leaves its own restrictions. */
  function Freed<J(==), R(==)>(ps: Policies<J, R>, list: seq<Policy<R>>, j: J, success: bool): Policies<J, R> {
    Policies(
      if success && Dependencies in list then D.Resolved(ps.deps, j) else ps.deps,
      map r | r in ps.resources ::
        if Restriction(r) in list
        then ps.resources[r].(customers := RemoveFirst(ps.resources[r].customers, j))
        else ps.resources[r])
  }

  lemma {:induction false} FreeSomeExactly<J, R>(ps: Policies<J, R>, list: seq<Policy<R>>, j: J, success: bool, k: nat)
    requires NoDup(list) && k <= |list|
    ensures FreeSome(ps, list, j, success, k) == Freed(ps, list[..k], j, success)
  {
    if k == 0 {
      assert Freed(ps, list[..0], j, success).resources == ps.resources;
    } else {
      FreeSomeExactly(ps, list, j, success, k - 1);
      var p := list[k - 1];
      assert list[..k] == list[..k - 1] + [p];
      assert p !in list[..k - 1];
      assert FreeSome(ps, list, j, success, k).resources == Freed(ps, list[..k], j, success).resources;
    }
  }

  lemma FreeAllExactly<J, R>(ps: Policies<J, R>, list: seq<Policy<R>>, j: J, success: bool)
    requires NoDup(list)
    ensures FreeAll(ps, list, j, success) == Freed(ps, list, j, success)
  {
    FreeSomeExactly(ps, list, j, success, |list|);
    assert list[..|list|] == list;
  }

  /** Freeing twice, as a collection does, is freeing once. */
  lemma SecondFreeChangesNothing<J, R>(ps: Policies<J, R>, list: seq<Policy<R>>, j: J, success: bool)
    requires NoDup(list)
    requires forall r :: r in ps.resources ==> NoDup(ps.resources[r].customers)
    ensures var once := FreeAll(ps, list, j, success); FreeAll(once, list, j, success) == once
  {
    var once := FreeAll(ps, list, j, success);
    FreeAllExactly(ps, list, j, success);
    FreeAllExactly(once, list, j, success);
    D.ResolvedTwice(ps.deps, j);
    forall r | r in ps.resources
      ensures var c := RemoveFirst(ps.resources[r].customers, j); RemoveFirst(c, j) == c
    {
      RemoveFirstMembers(ps.resources[r].customers, j);
    }
    assert FreeAll(once, list, j, success).resources == once.resources;
  }
}
