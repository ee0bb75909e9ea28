/** Several top-level jobs in one queue, with dependencies between any of their nodes and any
    number of worker threads. Runs here have no stop, abort or dequeue from outside. */
module CollectionForest {
  import opened JobStatus
  import opened CollectionLedger
  import opened CollectionTree
  import opened CollectionInvariant
  import D = DependencyMap

  /** `active` is the Weaver's count of threads that have taken a job and not yet come back for
      the next one. */
  datatype Forest = Forest(roots: seq<Node>, deps: Deps, active: int)

  datatype GlobalAct =
    | Submit(i: nat)
    | Take(i: nat)
    | Inside(i: nat, a: Act)
    | Finish(i: nat)
    | ComeBack

  /** Threads that are inside the nodes of a tree. */
  function Holders(n: Node): nat
    decreases n, 1
  {
    (if Held(n) then 1 else 0) + HoldersOf(n.kids)
  }

  function HoldersOf(ks: seq<Node>): nat
    decreases ks, 0
  {
    if ks == [] then 0 else Holders(ks[0]) + HoldersOf(ks[1..])
  }

  function TakesOne(a: Act): int {
    match a
    case TakeKid(_) => 1
    case In(_, b) => TakesOne(b)
    case _ => 0
  }

  predicate CanStep(f: Forest, g: GlobalAct) {
    match g
    case Submit(i) => i < |f.roots| && f.roots[i].ph.Idle?
    case Take(i) => i < |f.roots| && Takeable(f.roots[i], f.deps)
    case Inside(i, a) => i < |f.roots| && Internal(a) && Enabled(f.roots[i], a, f.deps)
    case Finish(i) => i < |f.roots| && f.roots[i].ph.Ending?
    case ComeBack => f.active > HoldersOf(f.roots)
  }

  function Step(f: Forest, g: GlobalAct): Forest
    requires CanStep(f, g)
  {
    match g
    case Submit(i) => f.(roots := f.roots[i := EnqueueElement(f.roots[i], false)])
    case Take(i) => f.(roots := f.roots[i := StartNode(f.roots[i])], active := f.active + 1)
    case Inside(i, a) =>
      var (n, d) := Next(f.roots[i], a, f.deps);
      Forest(f.roots[i := n], d, f.active + TakesOne(a))
    case Finish(i) => f.(roots := f.roots[i := f.roots[i].(ph := Ended)])
    case ComeBack => f.(active := f.active - 1)
  }

  ghost predicate Possible(f: Forest, gs: seq<GlobalAct>)
    decreases |gs|
  {
    gs == [] || (CanStep(f, gs[0]) && Possible(Step(f, gs[0]), gs[1..]))
  }

  ghost function Reach(f: Forest, gs: seq<GlobalAct>): Forest
    requires Possible(f, gs)
    decreases |gs|
  {
    if gs == [] then f else Reach(Step(f, gs[0]), gs[1..])
  }

  /** A tree that was never touched. */
  ghost predicate Untouched(n: Node) {
    && n.ph.Idle?
    && n.outcome.Finished()
    && n.sweep.Still? && !n.blocked && n.started == n.begins == n.ends == 0 && !n.skipped && !n.stranded
    && n.led == Ledger(n.kind == Sequential, New, false, false, 0, 0)
    && (n.kind == Leaf ==> n.kids == [])
    && forall i :: 0 <= i < |n.kids| ==> Untouched(n.kids[i])
  }

  ghost predicate Initial(f: Forest) {
    f.active == 0 && forall i :: 0 <= i < |f.roots| ==> Untouched(f.roots[i])
  }

  // ---- No loss without interference ----

  /** No abort was ever requested, and no stop came but those of Sequences in their windows. */
  ghost predicate Clean(n: Node) {
    && !n.led.shouldAbort && !n.skipped && !n.stranded && (Sweeping(n) ==> n.sweep.own)
    && forall i :: 0 <= i < |n.kids| ==> Clean(n.kids[i])
  }

  lemma {:induction false} UntouchedIsGood(n: Node)
    requires Untouched(n)
    ensures Inv(n) && Clean(n) && Holders(n) == 0
    decreases n
  {
    forall i | 0 <= i < |n.kids| ensures Inv(n.kids[i]) && Clean(n.kids[i]) && Holders(n.kids[i]) == 0 {
      UntouchedIsGood(n.kids[i]);
    }
    NoHolders(n.kids);
  }

  lemma {:induction false} NoHolders(ks: seq<Node>)
    requires forall i :: 0 <= i < |ks| ==> Holders(ks[i]) == 0
    ensures HoldersOf(ks) == 0
  {
    if ks != [] { NoHolders(ks[1..]); }
  }

  lemma {:induction false} HoldersUpdate(ks: seq<Node>, i: nat, k: Node)
    requires i < |ks|
    ensures HoldersOf(ks[i := k]) + Holders(ks[i]) == HoldersOf(ks) + Holders(k)
  {
    if i == 0 {
      assert ks[i := k][1..] == ks[1..];
    } else {
      assert ks[i := k][1..] == ks[1..][i - 1 := k];
      HoldersUpdate(ks[1..], i - 1, k);
    }
  }

  lemma {:induction false} HoldersSame(ks: seq<Node>, js: seq<Node>)
    requires |ks| == |js| && forall i :: 0 <= i < |ks| ==> Holders(ks[i]) == Holders(js[i])
    ensures HoldersOf(ks) == HoldersOf(js)
  {
    if ks != [] { HoldersSame(ks[1..], js[1..]); }
  }

  /** The parts of a composite end up with the same threads inside and as clean as before. */
  ghost predicate KidsAlike(n: Node, m: Node) {
    && |m.kids| == |n.kids|
    && forall i :: 0 <= i < |n.kids| ==>
      Holders(m.kids[i]) == Holders(n.kids[i]) && (Clean(n.kids[i]) ==> Clean(m.kids[i]))
  }

  lemma RelabelAlike(k: Node, m: Node)
    requires m.kids == k.kids && Held(m) == Held(k)
    requires m.led.shouldAbort == k.led.shouldAbort && m.skipped == k.skipped
    requires m.stranded == k.stranded && m.sweep == k.sweep
    ensures Holders(m) == Holders(k) && (Clean(k) ==> Clean(m))
  {
  }

  lemma AlikeHolders(n: Node, m: Node)
    requires KidsAlike(n, m)
    ensures HoldersOf(m.kids) == HoldersOf(n.kids)
  {
    HoldersSame(m.kids, n.kids);
  }

  lemma SweepAlike(n: Node, d: Deps)
    ensures KidsAlike(n, SweepOn(n, d).0)
  {
    if n.sweep.Dequeuing? && n.sweep.i < |n.kids| {
      RelabelAlike(n.kids[n.sweep.i], WithdrawElement(n.kids[n.sweep.i]));
    } else if n.sweep.Unblocking? && n.sweep.i < |n.kids| {
      RelabelAlike(n.kids[n.sweep.i], n.kids[n.sweep.i].(blocked := false));
    }
  }

  lemma EnqueueAlike(n: Node)
    requires AllKids(n, Unborn)
    ensures KidsAlike(n, EnqueueElements(n))
  {
  }

  lemma AdvanceAlike(n: Node)
    ensures KidsAlike(n, Advance(n))
  {
  }

  lemma PartCompletedAlike(n: Node, s: Status, d: Deps)
    ensures KidsAlike(n, PartCompleted(n, s, d).0)
  {
    var m := SetStatus(n, UpdatedStatus(s));
    AdvanceAlike(m);
    assert KidsAlike(n, m);
  }

  lemma AlikeClean(n: Node, m: Node)
    requires Clean(n) && KidsAlike(n, m) && !m.led.shouldAbort && !m.skipped && !m.stranded
    requires Sweeping(m) ==> m.sweep.own
    ensures Clean(m)
  {
  }

  lemma EndRunHolders(n: Node, d: Deps)
    requires Inv(n) && Clean(n) && n.ph.RunDone? && !Sweeping(n)
    ensures Clean(Next(n, EndRun, d).0) && Holders(Next(n, EndRun, d).0) <= Holders(n)
  {
    var m := Next(n, EndRun, d).0;
    if n.kind != Leaf {
      EnqueueAlike(n);
      PartCompletedAlike(EnqueueElements(n), n.led.status, d);
      AlikeHolders(n, m);
      AlikeClean(n, m);
    } else {
      RelabelAlike(n, m);
    }
  }

  lemma AfterWindowHolders(n: Node, d: Deps)
    requires Clean(n) && n.ph.StopDone? && !Sweeping(n)
    ensures Clean(Next(n, AfterWindow, d).0) && Holders(Next(n, AfterWindow, d).0) <= Holders(n)
  {
    hide HoldersOf;
    var m := Next(n, AfterWindow, d).0;
    AdvanceAlike(SetStatus(n, n.ph.failure));
    AlikeHolders(n, m);
    AlikeClean(n, m);
  }

  lemma SweepHolders(n: Node, d: Deps)
    requires Inv(n) && Clean(n) && Sweeping(n)
    ensures Clean(SweepOn(n, d).0) && Holders(SweepOn(n, d).0) <= Holders(n)
  {
    hide HoldersOf;
    var m := SweepOn(n, d).0;
    SweepIsOwn(n);
    hide Inv;
    SweepAlike(n, d);
    AlikeHolders(n, m);
    AlikeClean(n, m);
  }

  lemma SweepIsOwn(n: Node)
    requires Inv(n) && Clean(n) && Sweeping(n)
    ensures n.ph.StopDue? && n.sweep.own && Swept(n) <= |n.kids|
  {
  }

  lemma TakeKidHolders(n: Node, i: nat, d: Deps)
    requires Clean(n) && Enabled(n, TakeKid(i), d)
    ensures Clean(Next(n, TakeKid(i), d).0) && Holders(Next(n, TakeKid(i), d).0) == Holders(n) + 1
  {
    hide HoldersOf;
    var k := StartNode(n.kids[i]);
    RelabelKid(n.kids[i], k);
    HoldersUpdate(n.kids, i, k);
    var m := Next(n, TakeKid(i), d).0;
    hide StartNode;
    assert forall j :: 0 <= j < |m.kids| ==> Clean(m.kids[j]);
  }

  lemma KidEndHolders(n: Node, i: nat, d: Deps)
    requires Clean(n) && Enabled(n, KidEnd(i), d) && n.ph.Open?
    ensures Clean(Next(n, KidEnd(i), d).0) && Holders(Next(n, KidEnd(i), d).0) <= Holders(n)
  {
    hide HoldersOf;
    var k := n.kids[i].(ph := Ended);
    var e := n.(kids := n.kids[i := k]);
    RelabelKid(n.kids[i], k);
    HoldersUpdate(n.kids, i, k);
    assert Clean(e) by { assert forall j :: 0 <= j < |e.kids| ==> Clean(e.kids[j]); }
    PartCompletedAlike(e, n.kids[i].led.status, d);
    AlikeHolders(e, Next(n, KidEnd(i), d).0);
    AlikeClean(e, Next(n, KidEnd(i), d).0);
  }

  /** A step of a node itself gives work to one more thread only by taking a job. */
  lemma RootStepHolders(n: Node, a: Act, d: Deps)
    requires Inv(n) && Clean(n) && Enabled(n, a, d) && Internal(a) && !a.In?
    ensures Clean(Next(n, a, d).0)
    ensures Holders(Next(n, a, d).0) <= Holders(n) + TakesOne(a)
  {
    match a
    case FinishRun => RelabelAlike(n, Next(n, a, d).0);
    case EndRun => EndRunHolders(n, d);
    case StopInWindow =>
      AlikeHolders(n, Next(n, a, d).0);
      AlikeClean(n, Next(n, a, d).0);
    case AfterWindow => AfterWindowHolders(n, d);
    case Sweep => SweepHolders(n, d);
    case TakeKid(i) => TakeKidHolders(n, i, d);
    case KidEnd(i) =>
      KidEndKeeps(n, i, d);
      KidEndHolders(n, i, d);
  }

  lemma RelabelKid(k: Node, m: Node)
    requires m.kids == k.kids
    requires m.led.shouldAbort == k.led.shouldAbort && m.skipped == k.skipped
    requires m.stranded == k.stranded && m.sweep == k.sweep
    ensures Holders(m) + (if Held(k) then 1 else 0) == Holders(k) + (if Held(m) then 1 else 0)
    ensures Clean(k) ==> Clean(m)
  {
  }

  lemma InsideStep(n: Node, i: nat, b: Act, d: Deps)
    requires Enabled(n, In(i, b), d)
    ensures var (k, e) := Next(n.kids[i], b, d); Next(n, In(i, b), d) == (n.(kids := n.kids[i := k]), e)
  {
  }

  lemma {:induction false} StepHolders(n: Node, a: Act, d: Deps)
    requires Inv(n) && Clean(n) && Enabled(n, a, d) && Internal(a)
    ensures Clean(Next(n, a, d).0)
    ensures Holders(Next(n, a, d).0) <= Holders(n) + TakesOne(a)
    decreases a
  {
    if a.In? {
      StepHolders(n.kids[a.i], a.a, d);
      var k := Next(n.kids[a.i], a.a, d).0;
      HoldersUpdate(n.kids, a.i, k);
      var m := n.(kids := n.kids[a.i := k]);
      assert forall i :: 0 <= i < |m.kids| ==> Clean(m.kids[i]);
    } else {
      RootStepHolders(n, a, d);
    }
  }
}
