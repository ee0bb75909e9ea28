/** Jobs, the multimap of dependencies and the counting resource as the objects they are. Each method
    is proved to do to the object's data what the function of the same purpose does to values. */
module JobsAndPolicies {
  import opened JobStatus
  import opened Sequences
  import opened QueuePolicies
  import D = DependencyMap

  type QueuePolicy = Policy<ResourceRestrictionPolicy>

  /** A policy at the end of a list that does not have it yet. */
  function With(l: seq<QueuePolicy>, p: QueuePolicy): (r: seq<QueuePolicy>)
    ensures p in r && l <= r
  {
    if p in l then l else l + [p]
  }

  /** What the two kinds of policy objects hold, as one value. */
  ghost function PoliciesOf(deps: DependencyPolicy, restrictions: set<ResourceRestrictionPolicy>)
    : Policies<Job, ResourceRestrictionPolicy>
    reads deps, restrictions
  {
    Policies(deps.depMap, map r | r in restrictions :: Resource(r.cap, r.customers))
  }

  predicate Covers(restrictions: set<ResourceRestrictionPolicy>, l: seq<QueuePolicy>) {
    forall i :: 0 <= i < |l| && l[i].Restriction? ==> l[i].r in restrictions
  }

  class Job {
    const priority: int
    var status: Status
    var shouldAbort: bool
    var queuePolicies: seq<QueuePolicy>

    constructor (priority: int)
      ensures this.priority == priority && status == New && !shouldAbort && queuePolicies == []
    {
      this.priority, status, shouldAbort, queuePolicies := priority, New, false, [];
    }

    method AssignQueuePolicy(p: QueuePolicy)
      modifies `queuePolicies
      ensures queuePolicies == With(old(queuePolicies), p)
      ensures p in queuePolicies && old(queuePolicies) <= queuePolicies
      ensures |queuePolicies| == |old(queuePolicies)| + if p in old(queuePolicies) then 0 else 1
      ensures NoDup(old(queuePolicies)) ==> NoDup(queuePolicies)
    {
      if p !in queuePolicies {
        queuePolicies := queuePolicies + [p];
      }
    }

    method RemoveQueuePolicy(p: QueuePolicy)
      modifies `queuePolicies
      ensures queuePolicies == RemoveFirst(old(queuePolicies), p)
      ensures NoDup(old(queuePolicies)) ==> p !in queuePolicies
    {
      if NoDup(queuePolicies) { RemoveFirstMembers(queuePolicies, p); }
      var index := IndexOf(queuePolicies, p);
      if index < |queuePolicies| {
        RemoveAtIndex(queuePolicies, p, index);
        queuePolicies := queuePolicies[..index] + queuePolicies[index + 1..];
      }
    }

    /** The status life cycle of execute; `left` is the status that run() leaves behind, or the one
        that its exception stands for. */
    method Execute(left: Status)
      requires left == Running || left.Finished()
      modifies `status
      ensures status.Finished()
      ensures status == Success <==> left == Running || left == Success
      ensures left.Bad() ==> status == left
    {
      status := Running;
      status := left;
      if status == Running {
        status := Success;
      }
    }

    /** The release half of the policy protocol, in the order of the job's list. */
    method FreeQueuePolicyResources(deps: DependencyPolicy, ghost restrictions: set<ResourceRestrictionPolicy>)
      requires Covers(restrictions, queuePolicies) && status.Finished()
      modifies deps, restrictions
      ensures PoliciesOf(deps, restrictions)
           == FreeAll(old(PoliciesOf(deps, restrictions)), queuePolicies, this, status == Success)
    {
      hide PoliciesOf, FreeOne;
      ghost var before := PoliciesOf(deps, restrictions);
      var index := 0;
      while index < |queuePolicies|
        invariant 0 <= index <= |queuePolicies|
        invariant PoliciesOf(deps, restrictions) == FreeSome(before, queuePolicies, this, status == Success, index)
      {
        FreePolicy(queuePolicies[index], deps, restrictions);
        index := index + 1;
      }
    }

    method FreePolicy(p: QueuePolicy, deps: DependencyPolicy, ghost restrictions: set<ResourceRestrictionPolicy>)
      requires (p.Restriction? ==> p.r in restrictions) && status.Finished()
      modifies deps, restrictions
      ensures PoliciesOf(deps, restrictions)
           == FreeOne(old(PoliciesOf(deps, restrictions)), p, this, status == Success)
    {
      ghost var ps := PoliciesOf(deps, restrictions);
      match p {
        case Dependencies => deps.Free(this);
        case Restriction(r) => r.Free(this);
        case Blocker(_) =>
      }
      assert PoliciesOf(deps, restrictions).resources == FreeOne(ps, p, this, status == Success).resources;
    }
  }

  // ---- Searching a list ----

  method IndexOf<T(==)>(s: seq<T>, x: T) returns (i: nat)
    ensures i <= |s| && x !in s[..i]
    ensures i < |s| ==> s[i] == x
  {
    i := 0;
    while i < |s| && s[i] != x
      invariant i <= |s| && x !in s[..i]
    {
      i := i + 1;
    }
  }

  lemma {:induction false} RemoveAtIndex<T>(s: seq<T>, x: T, i: nat)
    requires i < |s| && s[i] == x && x !in s[..i]
    ensures RemoveFirst(s, x) == s[..i] + s[i + 1..]
  {
    if i > 0 {
      assert s[..i] == [s[0]] + s[1..][..i - 1];
      RemoveAtIndex(s[1..], x, i - 1);
      assert s[i + 1..] == s[1..][i..];
    }
  }

  // ---- The counting resource ----

  class ResourceRestrictionPolicy {
    var cap: int
    var customers: seq<Job>

    constructor (cap: int)
      ensures this.cap == cap && customers == []
    {
      this.cap, customers := cap, [];
    }

    method SetCap(cap: int)
      modifies `cap
      ensures this.cap == cap
    {
      this.cap := cap;
    }

    method CanRun(job: Job) returns (ok: bool)
      modifies `customers
      ensures ok <==> |old(customers)| < cap
      ensures customers == if ok then old(customers) + [job] else old(customers)
    {
      ok := |customers| < cap;
      if ok {
        customers := customers + [job];
      }
    }

    method Free(job: Job)
      modifies `customers
      ensures customers == RemoveFirst(old(customers), job)
    {
      var position := IndexOf(customers, job);
      if position < |customers| {
        RemoveAtIndex(customers, job, position);
        customers := customers[..position] + customers[position + 1..];
      }
    }

    method Release(job: Job)
      modifies `customers
      ensures customers == RemoveFirst(old(customers), job)
    {
      Free(job);
    }
  }

  // ---- The multimap of dependencies ----

  class DependencyPolicy {
    /** The entries, with the dependent as the key; a new one is put first. The map itself iterates by
        key, and no result depends on the order. */
    var depMap: seq<(Job, Job)>

    constructor ()
      ensures depMap == []
    {
      depMap := [];
    }

    method AddDependency(a: Job, b: Job)
      requires a != b
      modifies `depMap, a`queuePolicies, b`queuePolicies
      ensures a.queuePolicies == With(old(a.queuePolicies), Dependencies)
      ensures b.queuePolicies == With(old(b.queuePolicies), Dependencies)
      ensures depMap == [(a, b)] + old(depMap)
      ensures D.HasUnresolved(depMap, a)
      ensures Dependencies in a.queuePolicies && Dependencies in b.queuePolicies
      ensures old(a.queuePolicies) <= a.queuePolicies && old(b.queuePolicies) <= b.queuePolicies
    {
      a.AssignQueuePolicy(Dependencies);
      b.AssignQueuePolicy(Dependencies);
      depMap := [(a, b)] + depMap;
      assert depMap[0].0 == a;
    }

    method RemoveDependency(a: Job, b: Job) returns (result: bool)
      modifies `depMap
      ensures (result, depMap) == D.RemoveOne(old(depMap), a, b)
      ensures result <==> (a, b) in old(depMap)
      ensures multiset(depMap) == multiset(old(depMap)) - multiset{(a, b)}
      ensures (a, b) !in depMap <==> multiset(old(depMap))[(a, b)] <= 1
    {
      D.RemovalIsComplete(depMap, a, b);
      RemoveFirstKeepsCount(depMap, (a, b));
      result := false;
      var it := 0;
      while it < |depMap|
        invariant 0 <= it <= |depMap| && !result && depMap == old(depMap)
        invariant (a, b) !in depMap[..it]
      {
        if depMap[it].0 == a && depMap[it].1 == b {
          RemoveAtIndex(depMap, (a, b), it);
          depMap := depMap[..it] + depMap[it + 1..];
          result := true;
          break;
        }
        it := it + 1;
      }
    }

    /** Every entry whose dependee is the job goes, if the job succeeded, and no other. */
    method ResolveDependencies(job: Job)
      modifies `depMap
      ensures depMap == if job.status == Success then D.Resolved(old(depMap), job) else old(depMap)
      ensures forall p :: p in depMap <==> p in old(depMap) && !(job.status == Success && p.1 == job)
    {
      if job.status == Success {
        var it := 0;
        ghost var seen := 0;
        while it < |depMap|
          invariant 0 <= it <= |depMap| && 0 <= seen <= |old(depMap)|
          invariant depMap[..it] == D.Resolved(old(depMap)[..seen], job)
          invariant depMap[it..] == old(depMap)[seen..]
          decreases |depMap| - it
        {
          assert depMap[it] == depMap[it..][0] == old(depMap)[seen..][0] == old(depMap)[seen];
          ResolvedSnoc(old(depMap), job, seen);
          assert old(depMap)[seen..][1..] == old(depMap)[seen + 1..];
          assert depMap[it..][1..] == depMap[it + 1..];
          if depMap[it].1 == job {
            depMap := depMap[..it] + depMap[it + 1..];
          } else {
            assert depMap[..it + 1] == depMap[..it] + [depMap[it]];
            it := it + 1;
          }
          seen := seen + 1;
        }
        assert old(depMap)[..seen] == old(depMap) && depMap[..it] == depMap;
        forall p ensures p in depMap <==> p in old(depMap) && p.1 != job { D.ResolvedMembers(old(depMap), job, p); }
      }
    }

    method CanRun(job: Job) returns (ok: bool)
      ensures ok <==> !D.HasUnresolved(depMap, job)
      ensures ok <==> forall p :: p in depMap ==> p.0 != job
    {
      ok := !D.HasUnresolved(depMap, job);
    }

    method Free(job: Job)
      requires job.status.Finished()
      modifies `depMap
      ensures depMap == if job.status == Success then D.Resolved(old(depMap), job) else old(depMap)
    {
      if job.status == Success {
        ResolveDependencies(job);
      }
    }
  }

  lemma {:induction false} ResolvedSnoc(d: seq<(Job, Job)>, b: Job, n: nat)
    requires n < |d|
    ensures D.Resolved(d[..n + 1], b) == D.Resolved(d[..n], b) + if d[n].1 == b then [] else [d[n]]
  {
    if n == 0 {
      assert d[..1] == [d[0]] && d[..1][1..] == [];
    } else {
      ResolvedSnoc(d[1..], b, n - 1);
      assert d[..n + 1][1..] == d[1..][..n] && d[..n][1..] == d[1..][..n - 1];
      assert d[..n + 1][0] == d[..n][0] == d[0];
    }
  }
}
