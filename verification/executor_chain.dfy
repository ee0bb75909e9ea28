/** The chain of executors that wrap the execution of a job. Each collection that a job is added to
    puts a wrapper on top; a queued collection has two more of its own. */
module ExecutorChain {
  import opened Sequences

  datatype Kind = Default | CollectionWrapper | SelfWrapper

  class Executor {
    const kind: Kind
    var wrapped: Executor?

    constructor (kind: Kind)
      ensures this.kind == kind && wrapped == null
    {
      this.kind, wrapped := kind, null;
    }

    method Wrap(previous: Executor?) returns (was: Executor?)
      modifies this
      ensures wrapped == previous && was == old(wrapped)
    {
      was := wrapped;
      wrapped := previous;
    }

    /** Put what this executor wraps into its place at the top of the job. */
    method Unwrap(job: JobExecution) returns (was: Executor)
      requires this != job.defaultExecutor
      modifies this, job`executor
      ensures wrapped == null && was == old(job.executor)
      ensures job.executor == if old(wrapped) == null then job.defaultExecutor else old(wrapped)
    {
      var inner := wrapped;
      wrapped := null;
      was := job.SetExecutor(inner);
    }
  }

  /** The links of a chain: each executor wraps the next, the last is the default one. */
  ghost predicate Linked(chain: seq<Executor>, last: Executor)
    reads chain
  {
    && chain != [] && chain[|chain| - 1] == last && last.kind == Default
    && forall i :: 0 <= i < |chain| - 1 ==> chain[i].kind != Default && chain[i].wrapped == chain[i + 1]
  }

  /** The side of a job, here of a collection, that holds its executor. */
  class JobExecution {
    var executor: Executor
    const defaultExecutor: Executor
    const selfExecuteWrapper: Executor
    /** The api pointer is set. */
    var queued: bool
    /** The chain from `executor` down to the default executor. */
    ghost var chain: seq<Executor>

    /** The chain is linked, ends in the default executor, and no executor occurs in it twice, so it
        has no cycle. The self wrapper is in use exactly while the collection is queued. */
    ghost predicate Valid()
      reads this, chain
    {
      && Linked(chain, defaultExecutor) && chain[0] == executor && NoDup(chain)
      && selfExecuteWrapper.kind == SelfWrapper
      && (selfExecuteWrapper in chain <==> queued)
    }

    constructor (defaultExecutor: Executor)
      requires defaultExecutor.kind == Default
      ensures Valid() && chain == [defaultExecutor] && !queued && this.defaultExecutor == defaultExecutor
      ensures fresh(selfExecuteWrapper)
    {
      var own := new Executor(SelfWrapper);
      this.defaultExecutor, selfExecuteWrapper, executor := defaultExecutor, own, defaultExecutor;
      queued, chain := false, [defaultExecutor];
    }

    method SetExecutor(e: Executor?) returns (was: Executor)
      modifies `executor
      ensures was == old(executor)
      ensures executor == if e == null then defaultExecutor else e
    {
      was := executor;
      executor := if e == null then defaultExecutor else e;
    }

    /** Put a new executor on top of the chain. */
    method WrapWith(w: Executor)
      requires Linked(chain, defaultExecutor) && chain[0] == executor && NoDup(chain)
      requires w !in chain && w.kind != Default
      modifies w, `executor, `chain
      ensures chain == [w] + old(chain)
      ensures Linked(chain, defaultExecutor) && chain[0] == executor && NoDup(chain)
    {
      var previous := SetExecutor(w);
      var _ := w.Wrap(previous);
      chain := [w] + chain;
      assert forall i :: 1 <= i < |chain| ==> chain[i] == old(chain)[i - 1];
    }

    /** Take the top off again. */
    method UnwrapTop()
      requires Linked(chain, defaultExecutor) && chain[0] == executor && NoDup(chain) && |chain| >= 2
      modifies executor, `executor, `chain
      ensures chain == old(chain)[1..]
      ensures Linked(chain, defaultExecutor) && chain[0] == executor && NoDup(chain)
    {
      assert chain[0].wrapped == chain[1];
      var _ := executor.Unwrap(this);
      chain := chain[1..];
      assert forall i :: 0 <= i < |chain| ==> chain[i] == old(chain)[i + 1];
    }

    /** addJob of an enclosing collection. */
    method AddedToCollection()
      requires Valid()
      modifies `executor, `chain
      ensures Valid() && |chain| == |old(chain)| + 1 && chain[1..] == old(chain)
      ensures fresh(chain[0]) && chain[0].kind == CollectionWrapper
    {
      var wrapper := new Executor(CollectionWrapper);
      WrapWith(wrapper);
      assert chain[1..] == old(chain);
    }

    method AboutToBeQueued()
      requires Valid() && !queued
      modifies `executor, `chain, `queued, selfExecuteWrapper
      ensures Valid() && queued
      ensures |chain| == |old(chain)| + 2 && chain[2..] == old(chain)
      ensures chain[1] == selfExecuteWrapper && chain[0].kind == CollectionWrapper && fresh(chain[0])
    {
      queued := true;
      WrapWith(selfExecuteWrapper);
      var wrapper := new Executor(CollectionWrapper);
      WrapWith(wrapper);
      assert chain == [wrapper, selfExecuteWrapper] + old(chain);
    }

    /** The source asserts on the way that its own two wrappers are what it takes off. */
    method AboutToBeDequeued()
      requires Valid() && queued && |chain| > 2 && chain[1] == selfExecuteWrapper && chain[0].kind == CollectionWrapper
      modifies `executor, `chain, `queued, executor, selfExecuteWrapper
      ensures Valid() && !queued && chain == old(chain)[2..]
    {
      UnwrapTop();
      assert executor == selfExecuteWrapper;
      UnwrapTop();
      queued := false;
      assert chain == old(chain)[2..];
      assert forall i :: 0 <= i < |chain| ==> chain[i] == old(chain)[i + 2];
    }
  }

  /** Queueing and dequeueing a collection any number of times leaves its chain as it was. */
  method QueueAndDequeue(c: JobExecution, times: nat)
    requires c.Valid() && !c.queued
    modifies c, c.selfExecuteWrapper
    ensures c.Valid() && !c.queued && c.chain == old(c.chain) && c.executor == old(c.executor)
  {
    var n := 0;
    while n < times
      invariant c.Valid() && !c.queued && c.chain == old(c.chain)
    {
      ghost var before := c.chain;
      c.AboutToBeQueued();
      assert |c.chain| > 2;
      c.AboutToBeDequeued();
      assert c.chain == before;
      n := n + 1;
    }
  }

  /** The same for a collection inside any number of others: each of them keeps its wrapper, the
      innermost deepest. */
  method NestAndQueue(c: JobExecution, depth: nat, times: nat)
    requires c.Valid() && !c.queued
    modifies c, c.selfExecuteWrapper
    ensures c.Valid() && !c.queued
    ensures |c.chain| == |old(c.chain)| + depth && c.chain[depth..] == old(c.chain)
    ensures forall i :: 0 <= i < depth ==> c.chain[i].kind == CollectionWrapper
  {
    var n := 0;
    while n < depth
      invariant n <= depth && c.Valid() && !c.queued
      invariant |c.chain| == |old(c.chain)| + n && c.chain[n..] == old(c.chain)
      invariant forall i :: 0 <= i < n ==> c.chain[i].kind == CollectionWrapper
    {
      ghost var before := c.chain;
      c.AddedToCollection();
      assert c.chain[n + 1..] == before[n..];
      assert forall i :: 1 <= i <= n ==> c.chain[i] == before[i - 1];
      n := n + 1;
    }
    QueueAndDequeue(c, times);
  }
}
