/** Whole runs of a forest: what idle means, and collections as barriers. */
module CollectionBarrier {
  import opened JobStatus
  import opened CollectionLedger
  import opened CollectionTree
  import opened CollectionInvariant
  import opened CollectionForest
  import opened CollectionPlan
  import D = DependencyMap

  ghost predicate ForestInv(f: Forest) {
    && (forall i :: 0 <= i < |f.roots| ==>
         Inv(f.roots[i]) && Clean(f.roots[i]) && !f.roots[i].ph.Withdrawn? && !f.roots[i].blocked)
    && HoldersOf(f.roots) <= f.active
  }

  lemma SubmitKeeps(n: Node)
    requires Inv(n) && Clean(n) && n.ph.Idle?
    ensures Inv(EnqueueElement(n, false)) && Clean(EnqueueElement(n, false))
    ensures Holders(EnqueueElement(n, false)) == Holders(n)
  {
  }

  lemma ReplaceRoot(f: Forest, i: nat, n: Node, d: Deps, active: int)
    requires ForestInv(f) && i < |f.roots| && Inv(n) && Clean(n) && !n.ph.Withdrawn? && !n.blocked
    requires Holders(n) - Holders(f.roots[i]) <= active - f.active
    ensures ForestInv(Forest(f.roots[i := n], d, active))
  {
    HoldersUpdate(f.roots, i, n);
  }

  lemma FinishKeeps(n: Node)
    requires Inv(n) && Clean(n) && n.ph.Ending?
    ensures Inv(n.(ph := Ended)) && Clean(n.(ph := Ended)) && Holders(n.(ph := Ended)) <= Holders(n)
  {
  }

  lemma ForestStepKeeps(f: Forest, g: GlobalAct)
    requires ForestInv(f) && CanStep(f, g)
    ensures ForestInv(Step(f, g))
  {
    hide Inv, Clean, Holders, HoldersOf;
    match g
    case ComeBack =>
    case Submit(i) =>
      SubmitKeeps(f.roots[i]);
      ReplaceRoot(f, i, EnqueueElement(f.roots[i], false), f.deps, f.active);
    case Take(i) =>
      StartKeeps(f.roots[i]);
      RelabelKid(f.roots[i], StartNode(f.roots[i]));
      ReplaceRoot(f, i, StartNode(f.roots[i]), f.deps, f.active + 1);
    case Inside(i, a) =>
      StepKeeps(f.roots[i], a, f.deps);
      StepHolders(f.roots[i], a, f.deps);
      StaysInFlight(f.roots[i], a, f.deps);
      var (n, d) := Next(f.roots[i], a, f.deps);
      ReplaceRoot(f, i, n, d, f.active + TakesOne(a));
    case Finish(i) =>
      FinishKeeps(f.roots[i]);
      ReplaceRoot(f, i, f.roots[i].(ph := Ended), f.deps, f.active);
  }

  lemma {:induction false} ForestRunKeeps(f: Forest, gs: seq<GlobalAct>)
    requires ForestInv(f) && Possible(f, gs)
    ensures ForestInv(Reach(f, gs))
    decreases |gs|
  {
    if gs != [] {
      ForestStepKeeps(f, gs[0]);
      ForestRunKeeps(Step(f, gs[0]), gs[1..]);
    }
  }

  lemma InitialIsGood(f: Forest)
    requires Initial(f)
    ensures ForestInv(f)
  {
    forall i | 0 <= i < |f.roots| ensures Inv(f.roots[i]) && Clean(f.roots[i]) && Holders(f.roots[i]) == 0 {
      UntouchedIsGood(f.roots[i]);
    }
    NoHolders(f.roots);
  }

  // ---- Idle ----

  predicate NothingQueued(n: Node) {
    !n.ph.InQueue? && forall i :: 0 <= i < |n.kids| ==> NothingQueued(n.kids[i])
  }

  /** isIdle_p: the queue is empty and the active count is zero. */
  predicate IsIdle(f: Forest) {
    f.active == 0 && forall i :: 0 <= i < |f.roots| ==> NothingQueued(f.roots[i])
  }

  /** Nothing below is going on, and every composite that began has ended, once, with all its
      parts counted. */
  ghost predicate Quiet(n: Node) {
    && !InFlight(n) && !n.ph.InQueue?
    && (n.ph.Ended? && n.kind != Leaf ==> n.led.jobCounter == 0 && n.begins == 1 && n.ends == 1)
    && forall i :: 0 <= i < |n.kids| ==> Quiet(n.kids[i])
  }

  lemma {:induction false} HolderOfKid(ks: seq<Node>, i: nat)
    requires i < |ks|
    ensures Holders(ks[i]) <= HoldersOf(ks)
  {
    if i > 0 {
      HolderOfKid(ks[1..], i - 1);
    }
  }

  lemma {:induction false} IdleIsQuiet(n: Node)
    requires Inv(n) && Clean(n) && NothingQueued(n) && Holders(n) == 0
    ensures Quiet(n)
    decreases n
  {
    forall i | 0 <= i < |n.kids| ensures Quiet(n.kids[i]) {
      HolderOfKid(n.kids, i);
      IdleIsQuiet(n.kids[i]);
    }
    if n.ph.Open? {
      forall i | 0 <= i < |n.kids| ensures ClassOf(n.kids[i]) != Waiting && ClassOf(n.kids[i]) != Flying {
        assert Quiet(n.kids[i]);
      }
      CountZero(Waiting, n.kids);
      CountZero(Flying, n.kids);
    }
  }

  /** Idle means the whole forest is done: a tree was never submitted, or it has ended with every
      composite in it that ever began. */
  lemma IdleMeansDone(f: Forest, gs: seq<GlobalAct>, i: nat)
    requires Initial(f) && Possible(f, gs) && IsIdle(Reach(f, gs)) && i < |Reach(f, gs).roots|
    ensures Quiet(Reach(f, gs).roots[i])
    ensures Reach(f, gs).roots[i].ph.Idle? || Reach(f, gs).roots[i].ph.Ended?
  {
    InitialIsGood(f);
    ForestRunKeeps(f, gs);
    var h := Reach(f, gs);
    HolderOfKid(h.roots, i);
    IdleIsQuiet(h.roots[i]);
  }

  // ---- Barriers ----

  /** All nodes of a tree. */
  ghost function Nodes(n: Node): set<Node> {
    {n} + set i, x | 0 <= i < |n.kids| && x in Nodes(n.kids[i]) :: x
  }

  /** The ids of the nodes that have begun. */
  ghost function BegunIds(n: Node): set<nat> {
    (if Begun(n) then {n.id} else {}) + set i, x | 0 <= i < |n.kids| && x in BegunIds(n.kids[i]) :: x
  }

  predicate Succeeded(n: Node) {
    Finishing(n) && n.led.status == Success
  }

  /** The ids of the nodes whose end came with success. */
  ghost function DoneIds(n: Node): set<nat> {
    (if Succeeded(n) then {n.id} else {}) + set i, x | 0 <= i < |n.kids| && x in DoneIds(n.kids[i]) :: x
  }

  ghost predicate KidsAlikeIds(n: Node, m: Node) {
    && |m.kids| == |n.kids|
    && forall i :: 0 <= i < |n.kids| ==>
      BegunIds(m.kids[i]) == BegunIds(n.kids[i]) && DoneIds(m.kids[i]) == DoneIds(n.kids[i])
  }

  lemma RelabelIds(k: Node, m: Node)
    requires m.kids == k.kids && m.id == k.id && Begun(m) == Begun(k) && Succeeded(m) == Succeeded(k)
    ensures BegunIds(m) == BegunIds(k) && DoneIds(m) == DoneIds(k)
  {
  }

  lemma AlikeIds(n: Node, m: Node)
    requires KidsAlikeIds(n, m) && m.id == n.id && Begun(m) == Begun(n)
    requires Succeeded(n) ==> Succeeded(m)
    ensures BegunIds(m) == BegunIds(n)
    ensures DoneIds(m) == DoneIds(n) + if Succeeded(m) then {n.id} else {}
  {
  }

  lemma SweepAlikeIds(n: Node, d: Deps)
    ensures KidsAlikeIds(n, SweepOn(n, d).0)
  {
    hide BegunIds, DoneIds;
    if Sweeping(n) && n.sweep.i < |n.kids| {
      var k := n.kids[n.sweep.i];
      RelabelIds(k, WithdrawElement(k));
      RelabelIds(k, k.(blocked := false));
    }
  }

  /** The cleanup in the window of a Sequence releases nobody, since the Sequence has failed. */
  lemma SweepFreesNothing(n: Node, d: Deps)
    requires Inv(n) && Clean(n) && Sweeping(n)
    ensures SweepOn(n, d).1 == d
  {
    SweepIsOwn(n);
  }

  lemma SweepIds(n: Node, d: Deps)
    requires Inv(n) && Clean(n) && Sweeping(n)
    ensures BegunIds(SweepOn(n, d).0) == BegunIds(n) && DoneIds(n) <= DoneIds(SweepOn(n, d).0)
    ensures SweepOn(n, d).1 == d
  {
    hide BegunIds, DoneIds;
    SweepIsOwn(n);
    SweepFreesNothing(n, d);
    SweepAlikeIds(n, d);
    AlikeIds(n, SweepOn(n, d).0);
  }

  lemma EnqueueIds(n: Node)
    requires AllKids(n, Unborn)
    ensures KidsAlikeIds(n, EnqueueElements(n))
  {
  }

  lemma AdvanceIds(n: Node)
    ensures KidsAlikeIds(n, Advance(n))
  {
  }

  lemma PartCompletedIds(n: Node, s: Status, d: Deps)
    ensures KidsAlikeIds(n, PartCompleted(n, s, d).0)
  {
    hide BegunIds, DoneIds;
    var m := SetStatus(n, UpdatedStatus(s));
    AdvanceIds(m);
    assert KidsAlikeIds(n, m);
  }

  /** The job that a step takes from the queue. */
  function TakenBy(n: Node, a: Act, d: Deps): set<nat>
    requires Enabled(n, a, d)
  {
    match a
    case TakeKid(i) => {n.kids[i].id}
    case In(i, b) => TakenBy(n.kids[i], b, d)
    case _ => {}
  }

  /** Entries leave the dependency map only for a node whose end came with success. */
  ghost predicate Accounted(d: Deps, e: Deps, done: set<nat>) {
    forall p :: p in d ==> p in e || p.1 in done
  }

  lemma FreeAccounted(d: Deps, n: Node)
    requires n.led.status == Success ==> Succeeded(n)
    ensures Accounted(d, Free(d, n.id, n.led.status), DoneIds(n))
  {
  }

  lemma PartCompletedAccounted(n: Node, s: Status, d: Deps)
    ensures Accounted(d, PartCompleted(n, s, d).1, DoneIds(PartCompleted(n, s, d).0))
  {
  }

  lemma EndRunIds(n: Node, d: Deps)
    requires Inv(n) && Clean(n) && n.ph.RunDone? && !Sweeping(n)
    ensures BegunIds(Next(n, EndRun, d).0) == BegunIds(n)
    ensures DoneIds(n) <= DoneIds(Next(n, EndRun, d).0)
    ensures Accounted(d, Next(n, EndRun, d).1, DoneIds(Next(n, EndRun, d).0))
  {
    var m := Next(n, EndRun, d).0;
    if n.kind == Leaf {
      FreeAccounted(d, m);
    } else {
      EnqueueIds(n);
      PartCompletedIds(EnqueueElements(n), n.led.status, d);
      PartCompletedAccounted(EnqueueElements(n), n.led.status, d);
    }
    AlikeIds(n, m);
  }

  lemma WindowIds(n: Node, a: Act, d: Deps)
    requires Inv(n) && Clean(n) && (a.StopInWindow? || a.AfterWindow?) && Enabled(n, a, d)
    ensures BegunIds(Next(n, a, d).0) == BegunIds(n)
    ensures DoneIds(n) <= DoneIds(Next(n, a, d).0)
    ensures Accounted(d, Next(n, a, d).1, DoneIds(Next(n, a, d).0))
  {
    hide BegunIds, DoneIds;
    var m := Next(n, a, d).0;
    if a.AfterWindow? {
      AdvanceIds(SetStatus(n, n.ph.failure));
      if m.ph.Ending? { FreeAccounted(d, m); }
    }
    AlikeIds(n, m);
  }

  lemma BegunUnfolds(n: Node)
    ensures forall x :: x in BegunIds(n) <==>
      (Begun(n) && x == n.id) || exists i :: 0 <= i < |n.kids| && x in BegunIds(n.kids[i])
  {
  }

  lemma KidReplacedBegun(n: Node, m: Node, i: nat, extra: set<nat>)
    requires i < |n.kids| == |m.kids| && m == n.(kids := n.kids[i := m.kids[i]])
    requires BegunIds(m.kids[i]) == BegunIds(n.kids[i]) + extra
    ensures BegunIds(m) == BegunIds(n) + extra
  {
    hide BegunIds;
    BegunUnfolds(m);
    forall x | x in extra ensures x in BegunIds(m) {
      assert x in BegunIds(m.kids[i]);
    }
    forall x | x in BegunIds(n) ensures x in BegunIds(m) { StillBegun(n, m, i, x); }
    forall x | x in BegunIds(m) && x !in extra ensures x in BegunIds(n) { StillBegun(m, n, i, x); }
  }

  lemma StillBegun(n: Node, m: Node, i: nat, x: nat)
    requires i < |n.kids| == |m.kids| && m == n.(kids := n.kids[i := m.kids[i]])
    requires x in BegunIds(n) && (x in BegunIds(n.kids[i]) ==> x in BegunIds(m.kids[i]))
    ensures x in BegunIds(m)
  {
    hide BegunIds;
    BegunUnfolds(n);
    BegunUnfolds(m);
    if !(Begun(n) && x == n.id) {
      var j :| 0 <= j < |n.kids| && x in BegunIds(n.kids[j]);
      assert x in BegunIds(m.kids[j]);
    }
  }

  lemma KidReplacedDone(n: Node, m: Node, i: nat)
    requires i < |n.kids| == |m.kids| && m == n.(kids := n.kids[i := m.kids[i]])
    requires DoneIds(n.kids[i]) <= DoneIds(m.kids[i])
    ensures DoneIds(n) <= DoneIds(m) && DoneIds(m.kids[i]) <= DoneIds(m)
  {
    forall x | x in DoneIds(n) ensures x in DoneIds(m) {
      if !(Succeeded(n) && x == n.id) {
        var j :| 0 <= j < |n.kids| && x in DoneIds(n.kids[j]);
        assert x in DoneIds(m.kids[j]);
      }
    }
  }

  lemma KidReplacedIds(n: Node, i: nat, k: Node, extra: set<nat>)
    requires i < |n.kids|
    requires BegunIds(k) == BegunIds(n.kids[i]) + extra && DoneIds(n.kids[i]) <= DoneIds(k)
    ensures BegunIds(n.(kids := n.kids[i := k])) == BegunIds(n) + extra
    ensures DoneIds(n) <= DoneIds(n.(kids := n.kids[i := k])) && DoneIds(k) <= DoneIds(n.(kids := n.kids[i := k]))
  {
    hide BegunIds, DoneIds;
    var m := n.(kids := n.kids[i := k]);
    KidReplacedBegun(n, m, i, extra);
    KidReplacedDone(n, m, i);
  }

  lemma StartIds(k: Node)
    requires ClassOf(k) == Waiting
    ensures BegunIds(StartNode(k)) == BegunIds(k) + {k.id} && DoneIds(StartNode(k)) == DoneIds(k)
  {
  }

  lemma TakeKidIsOpen(n: Node, i: nat, d: Deps)
    requires Local(n) && Enabled(n, TakeKid(i), d)
    ensures n.ph.Open?
  {
  }

  lemma TakeKidIds(n: Node, i: nat, d: Deps)
    requires Enabled(n, TakeKid(i), d) && n.ph.Open?
    ensures BegunIds(Next(n, TakeKid(i), d).0) == BegunIds(n) + {n.kids[i].id}
    ensures DoneIds(n) <= DoneIds(Next(n, TakeKid(i), d).0)
  {
    hide BegunIds, DoneIds;
    var r := StartNode(n.kids[i]);
    StartIds(n.kids[i]);
    KidReplacedIds(n, i, r, {n.kids[i].id});
    var m := n.(kids := n.kids[i := r]);
    RelabelIds(m, ElementStarted(m));
  }

  lemma KidEndIds(n: Node, i: nat, d: Deps)
    requires n.ph.Open? && Enabled(n, KidEnd(i), d)
    ensures BegunIds(Next(n, KidEnd(i), d).0) == BegunIds(n)
    ensures DoneIds(n) <= DoneIds(Next(n, KidEnd(i), d).0)
    ensures Accounted(d, Next(n, KidEnd(i), d).1, DoneIds(Next(n, KidEnd(i), d).0))
  {
    var k := n.(kids := n.kids[i := n.kids[i].(ph := Ended)]);
    RelabelIds(n.kids[i], n.kids[i].(ph := Ended));
    AlikeIds(n, k);
    PartCompletedIds(k, n.kids[i].led.status, d);
    PartCompletedAccounted(k, n.kids[i].led.status, d);
    AlikeIds(k, Next(n, KidEnd(i), d).0);
  }

  /** A step begins exactly the job it takes, undoes no end, and releases dependents only of
      nodes that have ended with success. */
  lemma {:induction false} StepIds(n: Node, a: Act, d: Deps)
    requires Inv(n) && Clean(n) && Enabled(n, a, d) && Internal(a)
    ensures BegunIds(Next(n, a, d).0) == BegunIds(n) + TakenBy(n, a, d)
    ensures DoneIds(n) <= DoneIds(Next(n, a, d).0)
    ensures Accounted(d, Next(n, a, d).1, DoneIds(Next(n, a, d).0))
    ensures forall x :: x in TakenBy(n, a, d) ==> !D.HasUnresolved(d, x)
    decreases a, 0
  {
    hide Local, Clean, BegunIds, DoneIds;
    match a
    case FinishRun => RelabelIds(n, Next(n, a, d).0);
    case EndRun => EndRunIds(n, d);
    case StopInWindow => WindowIds(n, a, d);
    case AfterWindow => WindowIds(n, a, d);
    case Sweep => SweepIds(n, d);
    case TakeKid(i) =>
      TakeKidIsOpen(n, i, d);
      TakeKidIds(n, i, d);
    case KidEnd(i) =>
      KidEndKeeps(n, i, d);
      KidEndIds(n, i, d);
    case In(i, b) => InsideIds(n, i, b, d);
  }

  lemma {:induction false} InsideIds(n: Node, i: nat, b: Act, d: Deps)
    requires Inv(n) && Clean(n) && Enabled(n, In(i, b), d) && Internal(b)
    ensures BegunIds(Next(n, In(i, b), d).0) == BegunIds(n) + TakenBy(n, In(i, b), d)
    ensures DoneIds(n) <= DoneIds(Next(n, In(i, b), d).0)
    ensures Accounted(d, Next(n, In(i, b), d).1, DoneIds(Next(n, In(i, b), d).0))
    ensures forall x :: x in TakenBy(n, In(i, b), d) ==> !D.HasUnresolved(d, x)
    decreases b, 1
  {
    hide Local, BegunIds, DoneIds;
    StepIds(n.kids[i], b, d);
    var k := Next(n.kids[i], b, d).0;
    KidReplacedIds(n, i, k, TakenBy(n.kids[i], b, d));
  }

  /** The whole forest under one node that takes no part in it. */
  ghost function Top(f: Forest): Node {
    Node(0, Plain, Success, Idle, Ledger(false, New, false, false, 0, 0), Still, false, 0, 0, 0, false, false, f.roots)
  }

  /** Who has begun had all its dependees done; an entry is only gone when its dependee is done. */
  ghost predicate Gated(f: Forest, initial: Deps) {
    && Accounted(initial, f.deps, DoneIds(Top(f)))
    && forall p :: p in initial && p.0 in BegunIds(Top(f)) ==> p.1 in DoneIds(Top(f))
  }

  lemma GateOpens(f: Forest, initial: Deps, h: Forest, taken: set<nat>)
    requires Gated(f, initial)
    requires BegunIds(Top(h)) == BegunIds(Top(f)) + taken
    requires DoneIds(Top(f)) <= DoneIds(Top(h)) && Accounted(f.deps, h.deps, DoneIds(Top(h)))
    requires forall x :: x in taken ==> !D.HasUnresolved(f.deps, x)
    ensures Gated(h, initial)
  {
  }

  lemma RootReplacedIds(f: Forest, h: Forest, i: nat, n: Node, taken: set<nat>)
    requires i < |f.roots| && h.roots == f.roots[i := n]
    requires BegunIds(n) == BegunIds(f.roots[i]) + taken && DoneIds(f.roots[i]) <= DoneIds(n)
    ensures BegunIds(Top(h)) == BegunIds(Top(f)) + taken
    ensures DoneIds(Top(f)) <= DoneIds(Top(h)) && DoneIds(n) <= DoneIds(Top(h))
  {
    KidReplacedIds(Top(f), i, n, taken);
    assert Top(f).(kids := Top(f).kids[i := n]) == Top(h);
  }

  lemma GatedStep(f: Forest, g: GlobalAct, initial: Deps)
    requires ForestInv(f) && Gated(f, initial) && CanStep(f, g)
    ensures Gated(Step(f, g), initial)
  {
    hide Inv, Clean, BegunIds, DoneIds;
    var h := Step(f, g);
    match g
    case ComeBack => assert Top(h) == Top(f);
    case Submit(i) =>
      RelabelIds(f.roots[i], EnqueueElement(f.roots[i], false));
      RootReplacedIds(f, h, i, h.roots[i], {});
      GateOpens(f, initial, h, {});
    case Take(i) =>
      var r := StartNode(f.roots[i]);
      StartIds(f.roots[i]);
      RootReplacedIds(f, h, i, r, {r.id});
      GateOpens(f, initial, h, {r.id});
    case Inside(i, a) =>
      StepIds(f.roots[i], a, f.deps);
      RootReplacedIds(f, h, i, h.roots[i], TakenBy(f.roots[i], a, f.deps));
      GateOpens(f, initial, h, TakenBy(f.roots[i], a, f.deps));
    case Finish(i) =>
      RelabelIds(f.roots[i], h.roots[i]);
      RootReplacedIds(f, h, i, h.roots[i], {});
      GateOpens(f, initial, h, {});
  }

  lemma {:induction false} GatedRun(f: Forest, gs: seq<GlobalAct>, initial: Deps)
    requires ForestInv(f) && Gated(f, initial) && Possible(f, gs)
    ensures Gated(Reach(f, gs), initial)
    decreases |gs|
  {
    if gs != [] {
      GatedStep(f, gs[0], initial);
      ForestStepKeeps(f, gs[0]);
      GatedRun(Step(f, gs[0]), gs[1..], initial);
    }
  }

  lemma {:induction false} UntouchedHasNoIds(n: Node)
    requires Untouched(n)
    ensures BegunIds(n) == {}
    decreases n
  {
    forall i | 0 <= i < |n.kids| ensures BegunIds(n.kids[i]) == {} {
      UntouchedHasNoIds(n.kids[i]);
    }
  }

  lemma InitiallyGated(f: Forest)
    requires Initial(f)
    ensures Gated(f, f.deps)
  {
    forall i | 0 <= i < |f.roots| ensures BegunIds(f.roots[i]) == {} {
      UntouchedHasNoIds(f.roots[i]);
    }
  }

  // ---- Nodes and their ids ----

  ghost predicate Distinct(s: seq<nat>) {
    forall i, j :: 0 <= i < j < |s| ==> s[i] != s[j]
  }

  lemma {:induction false} NodeHasId(n: Node, x: Node)
    requires x in Nodes(n)
    ensures x.id in Flatten(PlanOf(n))
    decreases n
  {
    if x != n {
      var i :| 0 <= i < |n.kids| && x in Nodes(n.kids[i]);
      NodeHasId(n.kids[i], x);
      PartOfAll(PlanOf(n).parts, i, x.id);
    }
  }

  lemma {:induction false} PartOfAll(ps: seq<Plan>, i: nat, x: nat)
    requires i < |ps| && x in Flatten(ps[i])
    ensures x in FlattenAll(ps)
  {
    if i > 0 { PartOfAll(ps[1..], i - 1, x); }
  }

  /** Two different parts share no id. */
  lemma {:induction false} PartsApart(ps: seq<Plan>, i: nat, j: nat, x: nat, y: nat)
    requires i < j < |ps| && Distinct(FlattenAll(ps))
    requires x in Flatten(ps[i]) && y in Flatten(ps[j])
    ensures x != y
  {
    var a := Flatten(ps[0]);
    var b := FlattenAll(ps[1..]);
    assert FlattenAll(ps) == a + b;
    if i == 0 {
      PartOfAll(ps[1..], j - 1, y);
      var u :| 0 <= u < |a| && a[u] == x;
      var v :| 0 <= v < |b| && b[v] == y;
      assert (a + b)[u] == x && (a + b)[|a| + v] == y;
    } else {
      DistinctRight(a, b);
      PartsApart(ps[1..], i - 1, j - 1, x, y);
    }
  }

  lemma DistinctRight(a: seq<nat>, b: seq<nat>)
    requires Distinct(a + b)
    ensures Distinct(b) && Distinct(a)
  {
    forall i, j | 0 <= i < j < |b| ensures b[i] != b[j] {
      assert (a + b)[|a| + i] == b[i] && (a + b)[|a| + j] == b[j];
    }
    forall i, j | 0 <= i < j < |a| ensures a[i] != a[j] {
      assert (a + b)[i] == a[i] && (a + b)[j] == a[j];
    }
  }

  lemma {:induction false} PartDistinct(ps: seq<Plan>, i: nat)
    requires i < |ps| && Distinct(FlattenAll(ps))
    ensures Distinct(Flatten(ps[i]))
  {
    DistinctRight(Flatten(ps[0]), FlattenAll(ps[1..]));
    if i > 0 { PartDistinct(ps[1..], i - 1); }
  }

  lemma BelowHasOtherId(n: Node, x: Node)
    requires Distinct(Flatten(PlanOf(n))) && x in Nodes(n) && x != n
    ensures x.id != n.id
  {
    var p := PlanOf(n);
    var i :| 0 <= i < |n.kids| && x in Nodes(n.kids[i]);
    NodeHasId(n.kids[i], x);
    PartOfAll(p.parts, i, x.id);
    var u :| 0 <= u < |FlattenAll(p.parts)| && FlattenAll(p.parts)[u] == x.id;
    assert Flatten(p)[0] == n.id && Flatten(p)[1 + u] == x.id;
  }

  /** When no two nodes of a plan carry the same id, an id names one node. */
  lemma {:induction false} OneNodePerId(n: Node, x: Node, y: Node)
    requires Distinct(Flatten(PlanOf(n))) && x in Nodes(n) && y in Nodes(n) && x.id == y.id
    ensures x == y
    decreases n, 1
  {
    if x == n || y == n {
      if x != n { BelowHasOtherId(n, x); }
      if y != n { BelowHasOtherId(n, y); }
    } else {
      DistinctRight([n.id], FlattenAll(PlanOf(n).parts));
      OneNodePerIdBelow(n, x, y);
    }
  }

  lemma {:induction false} OneNodePerIdBelow(n: Node, x: Node, y: Node)
    requires Distinct(FlattenAll(PlanOf(n).parts)) && x in Nodes(n) && y in Nodes(n) && x.id == y.id
    requires x != n && y != n
    ensures x == y
    decreases n, 0
  {
    var ps := PlanOf(n).parts;
    var i :| 0 <= i < |n.kids| && x in Nodes(n.kids[i]);
    var j :| 0 <= j < |n.kids| && y in Nodes(n.kids[j]);
    NodeHasId(n.kids[i], x);
    NodeHasId(n.kids[j], y);
    if i < j { PartsApart(ps, i, j, x.id, y.id); }
    if j < i { PartsApart(ps, j, i, y.id, x.id); }
    PartDistinct(ps, i);
    OneNodePerId(n.kids[i], x, y);
  }

  /** No step changes the plan of the forest. */
  lemma {:induction false} RunPlan(f: Forest, gs: seq<GlobalAct>)
    requires Possible(f, gs)
    ensures PlanOf(Top(Reach(f, gs))) == PlanOf(Top(f))
    decreases |gs|
  {
    if gs != [] {
      var h := Step(f, gs[0]);
      RunPlan(h, gs[1..]);
      match gs[0]
      case ComeBack => assert Top(h) == Top(f);
      case Submit(i) => SamePlan(f.roots[i], h.roots[i]); SamePlan(Top(f), Top(h));
      case Take(i) => SamePlan(f.roots[i], h.roots[i]); SamePlan(Top(f), Top(h));
      case Inside(i, a) => StepPlan(f.roots[i], a, f.deps); SamePlan(Top(f), Top(h));
      case Finish(i) => SamePlan(f.roots[i], h.roots[i]); SamePlan(Top(f), Top(h));
    }
  }

  // ---- The theorem ----

  lemma {:induction false} RestsWhenNotInFlight(n: Node)
    requires Inv(n) && !InFlight(n) && !n.ph.InQueue?
    ensures Quiet(n)
    decreases n
  {
    forall i | 0 <= i < |n.kids| ensures Quiet(n.kids[i]) {
      if n.ph.Ended? {
        assert ClassOf(n.kids[i]) == Over || ClassOf(n.kids[i]) == Gone;
      } else {
        assert ClassOf(n.kids[i]) == Unborn;
      }
      RestsWhenNotInFlight(n.kids[i]);
    }
  }

  lemma {:induction false} BegunBelow(n: Node, x: Node)
    requires Inv(n) && x in Nodes(n) && Begun(x)
    ensures Begun(n) && x.id in BegunIds(n)
    decreases n
  {
    if x != n {
      var i :| 0 <= i < |n.kids| && x in Nodes(n.kids[i]);
      BegunBelow(n.kids[i], x);
      assert Begun(n.kids[i]) ==> ClassOf(n.kids[i]) != Unborn;
    }
  }

  lemma {:induction false} NodeIsGood(n: Node, x: Node)
    requires Inv(n) && x in Nodes(n)
    ensures Inv(x)
    decreases n
  {
    if x != n {
      var i :| 0 <= i < |n.kids| && x in Nodes(n.kids[i]);
      NodeIsGood(n.kids[i], x);
    }
  }

  lemma {:induction false} DoneHasNode(n: Node, b: nat) returns (x: Node)
    requires b in DoneIds(n)
    ensures x in Nodes(n) && x.id == b && Succeeded(x)
    decreases n
  {
    if Succeeded(n) && b == n.id {
      x := n;
    } else {
      var i :| 0 <= i < |n.kids| && b in DoneIds(n.kids[i]);
      x := DoneHasNode(n.kids[i], b);
    }
  }

  ghost predicate InForest(f: Forest, n: Node) {
    n in Nodes(Top(f)) && n != Top(f)
  }

  lemma BarrierHolds(h: Forest, initial: Deps, c: Node, x: Node, e: Node)
    requires ForestInv(h) && Gated(h, initial) && Distinct(FlattenAll(PlanOf(Top(h)).parts))
    requires InForest(h, c) && InForest(h, e) && (c.id, e.id) in initial
    requires x in Nodes(c) && Begun(x)
    ensures Succeeded(e) && Inv(e)
  {
    var j :| 0 <= j < |h.roots| && c in Nodes(h.roots[j]);
    NodeIsGood(h.roots[j], c);
    BegunBelow(c, x);
    BegunBelow(h.roots[j], c);
    assert c.id in BegunIds(Top(h));
    var y := DoneHasNode(Top(h), e.id);
    assert y != Top(h);
    OneNodePerIdBelow(Top(h), y, e);
    var k :| 0 <= k < |h.roots| && e in Nodes(h.roots[k]);
    NodeIsGood(h.roots[k], e);
  }

  lemma KidsRest(n: Node)
    requires Inv(n) && Finishing(n)
    ensures forall i :: 0 <= i < |n.kids| ==> Quiet(n.kids[i])
  {
    forall i | 0 <= i < |n.kids| ensures Quiet(n.kids[i]) {
      assert ClassOf(n.kids[i]) == Over || ClassOf(n.kids[i]) == Gone;
      RestsWhenNotInFlight(n.kids[i]);
    }
  }

  /** A collection is a barrier. If c depends on e from the start, then whenever c or any node
      inside c has begun, e has ended with success and everything inside e is at rest. */
  lemma CollectionsAreBarriers(f: Forest, gs: seq<GlobalAct>, c: Node, x: Node, e: Node)
    requires Initial(f) && Possible(f, gs) && Distinct(FlattenAll(PlanOf(Top(f)).parts))
    requires InForest(Reach(f, gs), c) && InForest(Reach(f, gs), e) && (c.id, e.id) in f.deps
    requires x in Nodes(c) && Begun(x)
    ensures Succeeded(e) && forall i :: 0 <= i < |e.kids| ==> Quiet(e.kids[i])
  {
    hide Inv, Clean, Untouched, ForestInv, Gated, Nodes, PlanOf;
    InitialIsGood(f);
    ForestRunKeeps(f, gs);
    InitiallyGated(f);
    GatedRun(f, gs, f.deps);
    RunPlan(f, gs);
    BarrierHolds(Reach(f, gs), f.deps, c, x, e);
    KidsRest(e);
  }
}
