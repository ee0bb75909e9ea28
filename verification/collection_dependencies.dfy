/** Collections with dependencies between any of their nodes come to their end as well, if everything
    succeeds and the dependencies agree with the order in which Sequences run. */
module CollectionDependencies {
  import opened JobStatus
  import opened CollectionLedger
  import opened CollectionTree
  import opened CollectionInvariant
  import opened CollectionForest
  import opened CollectionPlan
  import opened CollectionBarrier
  import opened CollectionProgress
  import opened SequenceOrder
  import D = DependencyMap

  // ---- Nobody waits for a node that has ended with success ----

  ghost predicate NoneWaits(d: Deps, done: set<nat>) {
    forall p :: p in d ==> p.1 !in done
  }

  ghost predicate Fewer(d: Deps, e: Deps) {
    forall p :: p in e ==> p in d
  }

  lemma DoneBelow(n: Node, i: nat)
    requires i < |n.kids|
    ensures DoneIds(n.kids[i]) <= DoneIds(n)
  {
  }

  lemma KidReplacedUpper(n: Node, i: nat, k: Node)
    requires i < |n.kids|
    ensures DoneIds(n.(kids := n.kids[i := k])) <= DoneIds(n) + DoneIds(k)
  {
    var m := n.(kids := n.kids[i := k]);
    forall x | x in DoneIds(m) ensures x in DoneIds(n) + DoneIds(k) {
      if !(Succeeded(m) && x == m.id) {
        var j :| 0 <= j < |m.kids| && x in DoneIds(m.kids[j]);
        assert j != i ==> x in DoneIds(n.kids[j]);
      }
    }
  }

  lemma FreeLeavesNone(d: Deps, id: nat, s: Status)
    ensures Fewer(d, Free(d, id, s)) && (s == Success ==> NoneWaits(Free(d, id, s), {id}))
  {
  }

  lemma PartCompletedFrees(n: Node, s: Status, d: Deps)
    ensures var (m, e) := PartCompleted(n, s, d);
      e == (if m.ph.Ending? then Free(d, n.id, m.led.status) else d) && m.id == n.id
      && (Succeeded(m) ==> m.ph.Ending?) && InFlight(m)
  {
  }

  /** A node that has just ended with success has let its dependents go. */
  lemma EndFrees(n: Node, m: Node, d: Deps, e: Deps)
    requires NoneWaits(d, DoneIds(n)) && DoneIds(m) <= DoneIds(n) + (if Succeeded(m) then {n.id} else {})
    requires e == if m.ph.Ending? then Free(d, n.id, m.led.status) else d
    requires Succeeded(m) ==> m.ph.Ending?
    ensures Fewer(d, e) && NoneWaits(e, DoneIds(m))
  {
    hide DoneIds;
    FreeLeavesNone(d, n.id, m.led.status);
  }

  lemma EndRunFrees(n: Node, d: Deps)
    requires Inv(n) && Clean(n) && n.ph.RunDone? && !Sweeping(n) && NoneWaits(d, DoneIds(n))
    ensures Fewer(d, Next(n, EndRun, d).1) && NoneWaits(Next(n, EndRun, d).1, DoneIds(Next(n, EndRun, d).0))
  {
    var (m, e) := Next(n, EndRun, d);
    if n.kind == Leaf {
      assert m.kids == n.kids;
    } else {
      EnqueueIds(n);
      PartCompletedIds(EnqueueElements(n), n.led.status, d);
      PartCompletedFrees(EnqueueElements(n), n.led.status, d);
    }
    AlikeIds(n, m);
    EndFrees(n, m, d, e);
  }

  lemma AfterWindowFrees(n: Node, d: Deps)
    requires n.ph.StopDone? && !Sweeping(n) && NoneWaits(d, DoneIds(n))
    ensures Fewer(d, Next(n, AfterWindow, d).1)
    ensures NoneWaits(Next(n, AfterWindow, d).1, DoneIds(Next(n, AfterWindow, d).0))
  {
    var (m, e) := Next(n, AfterWindow, d);
    AdvanceIds(SetStatus(n, n.ph.failure));
    AlikeIds(n, m);
    EndFrees(n, m, d, e);
  }

  lemma TakeKidFrees(n: Node, i: nat, d: Deps)
    requires Enabled(n, TakeKid(i), d) && n.ph.Open?
    ensures DoneIds(Next(n, TakeKid(i), d).0) <= DoneIds(n)
  {
    hide DoneIds, BegunIds;
    var k := StartNode(n.kids[i]);
    StartIds(n.kids[i]);
    DoneBelow(n, i);
    KidReplacedUpper(n, i, k);
    var m := n.(kids := n.kids[i := k]);
    RelabelIds(m, ElementStarted(m));
  }

  lemma KidEndFrees(n: Node, i: nat, d: Deps)
    requires Enabled(n, KidEnd(i), d) && n.ph.Open? && NoneWaits(d, DoneIds(n))
    ensures Fewer(d, Next(n, KidEnd(i), d).1)
    ensures NoneWaits(Next(n, KidEnd(i), d).1, DoneIds(Next(n, KidEnd(i), d).0))
  {
    hide DoneIds, BegunIds, PartCompleted, Free;
    var k := n.(kids := n.kids[i := n.kids[i].(ph := Ended)]);
    RelabelIds(n.kids[i], n.kids[i].(ph := Ended));
    AlikeIds(n, k);
    PartCompletedIds(k, n.kids[i].led.status, d);
    PartCompletedFrees(k, n.kids[i].led.status, d);
    AlikeIds(k, Next(n, KidEnd(i), d).0);
    EndFrees(k, Next(n, KidEnd(i), d).0, d, Next(n, KidEnd(i), d).1);
  }

  lemma {:induction false} StepFrees(n: Node, a: Act, d: Deps)
    requires Inv(n) && Clean(n) && Enabled(n, a, d) && Internal(a) && NoneWaits(d, DoneIds(n))
    ensures Fewer(d, Next(n, a, d).1) && NoneWaits(Next(n, a, d).1, DoneIds(Next(n, a, d).0))
    decreases a
  {
    hide Local, DoneIds, BegunIds;
    match a
    case FinishRun => RelabelIds(n, Next(n, a, d).0);
    case EndRun => EndRunFrees(n, d);
    case StopInWindow => RelabelIds(n, Next(n, a, d).0);
    case AfterWindow => AfterWindowFrees(n, d);
    case Sweep => SweepFrees(n, d);
    case TakeKid(i) =>
      TakeKidIsOpen(n, i, d);
      TakeKidFrees(n, i, d);
    case KidEnd(i) =>
      KidEndKeeps(n, i, d);
      KidEndFrees(n, i, d);
    case In(i, b) =>
      DoneBelow(n, i);
      StepFrees(n.kids[i], b, d);
      KidReplacedUpper(n, i, Next(n.kids[i], b, d).0);
  }

  lemma SweepFrees(n: Node, d: Deps)
    requires Inv(n) && Clean(n) && Sweeping(n) && NoneWaits(d, DoneIds(n))
    ensures Fewer(d, SweepOn(n, d).1) && NoneWaits(SweepOn(n, d).1, DoneIds(SweepOn(n, d).0))
  {
    hide DoneIds, BegunIds;
    SweepIsOwn(n);
    SweepFreesNothing(n, d);
    SweepAlikeIds(n, d);
    AlikeIds(n, SweepOn(n, d).0);
  }

  // ---- When all runs succeed ----

  /** Nothing has failed, and nothing was taken out of the queue. */
  ghost predicate Fine(n: Node) {
    && n.outcome == Success && !InWindow(n) && !n.ph.Withdrawn?
    && (n.ph.Open? ==> n.led.status == Running)
    && (Finishing(n) ==> n.led.status == Success)
    && forall i :: 0 <= i < |n.kids| ==> Fine(n.kids[i])
  }

  lemma PartCompletedFine(n: Node, d: Deps)
    requires !n.led.shouldAbort && n.outcome == Success && forall i :: 0 <= i < |n.kids| ==> Fine(n.kids[i])
    ensures Fine(PartCompleted(n, Success, d).0)
  {
    var m := PartCompleted(n, Success, d).0;
    AdvancedKidsFine(SetStatus(n, Running));
    assert m.kids == Advance(SetStatus(n, Running)).kids;
  }

  lemma AdvancedKidsFine(n: Node)
    requires forall i :: 0 <= i < |n.kids| ==> Fine(n.kids[i])
    ensures forall i :: 0 <= i < |Advance(n).kids| ==> Fine(Advance(n).kids[i])
  {
  }

  lemma {:induction false} StepFine(n: Node, a: Act, d: Deps)
    requires Inv(n) && Clean(n) && Fine(n) && Enabled(n, a, d) && Internal(a)
    ensures Fine(Next(n, a, d).0)
    decreases a
  {
    hide Local;
    match a
    case FinishRun =>
    case EndRun => EndRunFine(n, d);
    case Sweep => SweepIsOwn(n);
    case TakeKid(i) => TakeKidFine(n, i, d);
    case KidEnd(i) => KidEndFine(n, i, d);
    case In(i, b) =>
      StepFine(n.kids[i], b, d);
      ActsInFlight(n.kids[i], b, d);
      ParentFlies(n, i);
      var m := Next(n, a, d).0;
      assert forall j :: 0 <= j < |m.kids| ==> Fine(m.kids[j]);
  }

  lemma EndRunFine(n: Node, d: Deps)
    requires Inv(n) && Clean(n) && Fine(n) && n.ph.RunDone? && !Sweeping(n)
    ensures Fine(Next(n, EndRun, d).0)
  {
    assert n.led.status == Success;
    if n.kind != Leaf {
      var m := EnqueueElements(n);
      forall i | 0 <= i < |m.kids| ensures Fine(m.kids[i]) {
        assert Fine(n.kids[i]);
      }
      PartCompletedFine(m, d);
    }
  }

  lemma TakeKidFine(n: Node, i: nat, d: Deps)
    requires Fine(n) && Enabled(n, TakeKid(i), d)
    ensures Fine(Next(n, TakeKid(i), d).0)
  {
    var m := Next(n, TakeKid(i), d).0;
    assert Fine(n.kids[i]);
    assert Fine(StartNode(n.kids[i]));
    assert forall j :: 0 <= j < |m.kids| ==> Fine(m.kids[j]);
  }

  lemma KidEndFine(n: Node, i: nat, d: Deps)
    requires Inv(n) && Clean(n) && Fine(n) && Enabled(n, KidEnd(i), d)
    ensures Fine(Next(n, KidEnd(i), d).0)
  {
    assert Fine(n.kids[i]);
    var e := n.(kids := n.kids[i := n.kids[i].(ph := Ended)]);
    assert Fine(n.kids[i].(ph := Ended));
    PartCompletedFine(e, d);
  }

  // ---- Whole forests ----

  ghost predicate Sound(f: Forest) {
    ForestInv(f) && NoneWaits(f.deps, DoneIds(Top(f)))
  }

  ghost predicate Healthy(f: Forest) {
    Sound(f) && forall i :: 0 <= i < |f.roots| ==> Fine(f.roots[i])
  }

  lemma RootReplacedSound(f: Forest, h: Forest, i: nat)
    requires Sound(f) && ForestInv(h) && i < |f.roots| == |h.roots|
    requires h.roots == f.roots[i := h.roots[i]]
    requires Fewer(f.deps, h.deps) && NoneWaits(h.deps, DoneIds(h.roots[i]))
    ensures Sound(h)
  {
    hide ForestInv, DoneIds;
    KidReplacedUpper(Top(f), i, h.roots[i]);
    assert Top(f).(kids := Top(f).kids[i := h.roots[i]]) == Top(h);
  }

  lemma SoundStep(f: Forest, g: GlobalAct)
    requires Sound(f) && CanStep(f, g)
    ensures Sound(Step(f, g)) && Fewer(f.deps, Step(f, g).deps)
  {
    hide Inv, Clean, DoneIds, BegunIds, Holders, HoldersOf;
    ForestStepKeeps(f, g);
    if g.ComeBack? {
      assert Top(Step(f, g)) == Top(f);
    } else {
      DoneBelow(Top(f), g.i);
      RootFrees(f, g);
      RootReplacedSound(f, Step(f, g), g.i);
    }
  }

  lemma RootFrees(f: Forest, g: GlobalAct)
    requires ForestInv(f) && CanStep(f, g) && !g.ComeBack? && NoneWaits(f.deps, DoneIds(f.roots[g.i]))
    ensures var h := Step(f, g);
      && |h.roots| == |f.roots| && h.roots == f.roots[g.i := h.roots[g.i]] && Fewer(f.deps, h.deps)
      && NoneWaits(h.deps, DoneIds(h.roots[g.i]))
  {
    hide Inv, Clean, DoneIds, BegunIds;
    match g
    case Submit(i) => RelabelIds(f.roots[i], EnqueueElement(f.roots[i], false));
    case Take(i) => StartIds(f.roots[i]);
    case Inside(i, a) => StepFrees(f.roots[i], a, f.deps);
    case Finish(i) => RelabelIds(f.roots[i], f.roots[i].(ph := Ended));
  }

  lemma {:induction false} SoundRun(f: Forest, gs: seq<GlobalAct>)
    requires Sound(f) && Possible(f, gs)
    ensures Sound(Reach(f, gs)) && Fewer(f.deps, Reach(f, gs).deps)
    decreases |gs|
  {
    hide Sound;
    if gs != [] {
      SoundStep(f, gs[0]);
      SoundRun(Step(f, gs[0]), gs[1..]);
    }
  }

  lemma HealthyStep(f: Forest, g: GlobalAct)
    requires Healthy(f) && CanStep(f, g)
    ensures Healthy(Step(f, g))
  {
    hide Inv, Clean, DoneIds, Fine, Holders, HoldersOf;
    SoundStep(f, g);
    if g.ComeBack? {
    } else if g.Inside? {
      StepFine(f.roots[g.i], g.a, f.deps);
    } else {
      RelabelledFine(f.roots[g.i]);
    }
  }

  lemma RelabelledFine(n: Node)
    requires Fine(n)
    ensures n.ph.Idle? ==> Fine(EnqueueElement(n, false))
    ensures n.ph.InQueue? ==> Fine(StartNode(n))
    ensures n.ph.Ending? ==> Fine(n.(ph := Ended))
  {
  }

  lemma {:induction false} HealthyRun(f: Forest, gs: seq<GlobalAct>)
    requires Healthy(f) && Possible(f, gs)
    ensures Healthy(Reach(f, gs))
    decreases |gs|
  {
    hide Healthy;
    if gs != [] {
      HealthyStep(f, gs[0]);
      HealthyRun(Step(f, gs[0]), gs[1..]);
    }
  }

  lemma {:induction false} UntouchedIsNotDone(n: Node)
    requires Untouched(n)
    ensures DoneIds(n) == {}
    decreases n
  {
    forall i | 0 <= i < |n.kids| ensures DoneIds(n.kids[i]) == {} { UntouchedIsNotDone(n.kids[i]); }
  }

  lemma InitiallySound(f: Forest)
    requires Initial(f)
    ensures Sound(f)
  {
    InitialIsGood(f);
    forall i | 0 <= i < |f.roots| ensures DoneIds(f.roots[i]) == {} { UntouchedIsNotDone(f.roots[i]); }
  }

  lemma {:induction false} UntouchedIsFine(n: Node)
    requires Untouched(n) && AllSucceed(PlanOf(n))
    ensures Fine(n)
    decreases n
  {
    forall i | 0 <= i < |n.kids| ensures Fine(n.kids[i]) {
      assert PlanOf(n).parts[i] == PlanOf(n.kids[i]);
      UntouchedIsFine(n.kids[i]);
    }
  }

  lemma InitiallyHealthy(f: Forest)
    requires Initial(f) && forall i :: 0 <= i < |f.roots| ==> AllSucceed(PlanOf(f.roots[i]))
    ensures Healthy(f)
  {
    InitiallySound(f);
    forall i | 0 <= i < |f.roots| ensures Fine(f.roots[i]) { UntouchedIsFine(f.roots[i]); }
  }

  // ---- An order of starts and ends ----

  /** Numbers for the start and the end of every node: a composite starts before its elements and ends
      after them, and the elements of a Sequence come one after the other. */
  ghost predicate Fits(first: nat -> nat, last: nat -> nat, p: Plan) {
    && first(p.id) < last(p.id)
    && (forall i :: 0 <= i < |p.parts| ==>
      && first(p.id) < first(p.parts[i].id) && last(p.parts[i].id) < last(p.id)
      && Fits(first, last, p.parts[i]))
    && (p.kind == Sequential ==> forall i, j :: 0 <= i < j < |p.parts| ==> last(p.parts[i].id) < first(p.parts[j].id))
  }

  /** What a node of the forest waits for is in the forest and ends before the node starts. */
  ghost predicate FitsAll(first: nat -> nat, last: nat -> nat, f: Forest) {
    && (forall i :: 0 <= i < |f.roots| ==> Fits(first, last, PlanOf(f.roots[i])))
    && forall p :: p in f.deps && p.0 in FlattenAll(PlanOf(Top(f)).parts) ==>
      last(p.1) < first(p.0) && p.1 in FlattenAll(PlanOf(Top(f)).parts)
  }

  lemma {:induction false} NodeFits(first: nat -> nat, last: nat -> nat, n: Node, x: Node)
    requires Fits(first, last, PlanOf(n)) && x in Nodes(n)
    ensures Fits(first, last, PlanOf(x))
    decreases n
  {
    if x != n {
      var i :| 0 <= i < |n.kids| && x in Nodes(n.kids[i]);
      assert PlanOf(n).parts[i] == PlanOf(n.kids[i]);
      NodeFits(first, last, n.kids[i], x);
    }
  }

  lemma {:induction false} NodeIsFine(n: Node, x: Node)
    requires Inv(n) && Clean(n) && Fine(n) && x in Nodes(n)
    ensures Inv(x) && Clean(x) && Fine(x)
    decreases n
  {
    if x != n {
      var i :| 0 <= i < |n.kids| && x in Nodes(n.kids[i]);
      NodeIsFine(n.kids[i], x);
    }
  }

  /** Every node but the root is an element of a node. */
  lemma {:induction false} ParentOf(n: Node, x: Node) returns (y: Node, i: nat)
    requires x in Nodes(n) && x != n
    ensures y in Nodes(n) && i < |y.kids| && y.kids[i] == x
    decreases n
  {
    var j :| 0 <= j < |n.kids| && x in Nodes(n.kids[j]);
    if x == n.kids[j] {
      y, i := n, j;
    } else {
      y, i := ParentOf(n.kids[j], x);
    }
  }

  /** What a node can do, the tree around it can do. */
  lemma {:induction false} LiftStep(n: Node, x: Node, b: Act, d: Deps) returns (a: Act)
    requires x in Nodes(n) && Enabled(x, b, d) && Internal(b)
    ensures Enabled(n, a, d) && Internal(a)
    decreases n
  {
    if x == n {
      a := b;
    } else {
      var i :| 0 <= i < |n.kids| && x in Nodes(n.kids[i]);
      var c := LiftStep(n.kids[i], x, b, d);
      a := In(i, c);
    }
  }

  lemma {:induction false} IdHasNode(n: Node, b: nat) returns (x: Node)
    requires b in Flatten(PlanOf(n))
    ensures x in Nodes(n) && x.id == b
    decreases n
  {
    if b == n.id {
      x := n;
    } else {
      var i := PartWith(PlanOf(n).parts, b);
      x := IdHasNode(n.kids[i], b);
    }
  }

  lemma {:induction false} PartWith(ps: seq<Plan>, b: nat) returns (i: nat)
    requires b in FlattenAll(ps)
    ensures i < |ps| && b in Flatten(ps[i])
  {
    if b in Flatten(ps[0]) {
      i := 0;
    } else {
      i := PartWith(ps[1..], b);
      i := i + 1;
    }
  }

  lemma {:induction false} SucceededIsDone(n: Node, x: Node)
    requires x in Nodes(n) && Succeeded(x)
    ensures x.id in DoneIds(n)
    decreases n
  {
    if x != n {
      var i :| 0 <= i < |n.kids| && x in Nodes(n.kids[i]);
      SucceededIsDone(n.kids[i], x);
    }
  }

  // ---- A forest that cannot go on ----

  lemma NothingGoes(h: Forest, g: GlobalAct)
    requires Exhausted(h)
    ensures !CanStep(h, g)
  {
  }

  lemma StuckInside(h: Forest, x: Node, b: Act)
    requires Exhausted(h) && InForest(h, x) && Internal(b)
    ensures !Enabled(x, b, h.deps)
  {
    hide Nodes;
    RootOf(h, x);
    var j :| 0 <= j < |h.roots| && x in Nodes(h.roots[j]);
    if Enabled(x, b, h.deps) {
      var a := LiftStep(h.roots[j], x, b, h.deps);
      NothingGoes(h, Inside(j, a));
    }
  }

  lemma RootOf(h: Forest, x: Node)
    requires InForest(h, x)
    ensures exists j :: 0 <= j < |h.roots| && x in Nodes(h.roots[j])
  {
  }

  lemma InForestIsFine(h: Forest, x: Node)
    requires Healthy(h) && InForest(h, x)
    ensures Inv(x) && Clean(x) && Fine(x)
  {
    hide Nodes, Inv, Clean, Fine, DoneIds;
    RootOf(h, x);
    var j :| 0 <= j < |h.roots| && x in Nodes(h.roots[j]);
    NodeIsFine(h.roots[j], x);
  }

  lemma InForestFits(first: nat -> nat, last: nat -> nat, h: Forest, x: Node)
    requires FitsAll(first, last, h) && InForest(h, x)
    ensures Fits(first, last, PlanOf(x))
  {
    hide Nodes, Fits;
    RootOf(h, x);
    var j :| 0 <= j < |h.roots| && x in Nodes(h.roots[j]);
    NodeFits(first, last, h.roots[j], x);
  }

  lemma {:induction false} ElementInNodes(n: Node, y: Node, i: nat)
    requires y in Nodes(n) && i < |y.kids|
    ensures y.kids[i] in Nodes(n) && y.kids[i] != n
    decreases n
  {
    if y != n {
      var j :| 0 <= j < |n.kids| && y in Nodes(n.kids[j]);
      ElementInNodes(n.kids[j], y, i);
      NodesAreSmaller(n.kids[j], y.kids[i]);
    } else {
      assert n.kids[i] in Nodes(n.kids[i]);
    }
  }

  lemma {:induction false} NodesAreSmaller(n: Node, x: Node)
    requires x in Nodes(n)
    ensures x == n || x < n
    decreases n
  {
    if x != n {
      var i :| 0 <= i < |n.kids| && x in Nodes(n.kids[i]);
      NodesAreSmaller(n.kids[i], x);
    }
  }

  /** Everything numbered below N that should have happened has happened. */
  ghost predicate UpTo(first: nat -> nat, last: nat -> nat, h: Forest, N: nat) {
    forall x :: InForest(h, x) ==>
      && (first(x.id) < N ==> Begun(x))
      && (last(x.id) < N ==> x.ph.Ended?)
  }

  lemma WaitsForNothing(first: nat -> nat, last: nat -> nat, h: Forest, N: nat, x: Node)
    requires Healthy(h) && FitsAll(first, last, h) && UpTo(first, last, h, N) && InForest(h, x) && first(x.id) <= N
    ensures !D.HasUnresolved(h.deps, x.id)
  {
    hide Inv, Clean, Fine, Nodes, DoneIds, Fits;
    RootOf(h, x);
    var j :| 0 <= j < |h.roots| && x in Nodes(h.roots[j]);
    NodeHasId(h.roots[j], x);
    PartOfAll(PlanOf(Top(h)).parts, j, x.id);
    forall k | 0 <= k < |h.deps| ensures h.deps[k].0 != x.id {
      var p := h.deps[k];
      assert p in h.deps;
      if p.0 == x.id {
        var r := PartWith(PlanOf(Top(h)).parts, p.1);
        var e := IdHasNode(h.roots[r], p.1);
        RootInForest(h, r, e);
        InForestIsFine(h, e);
        EndedFine(e);
        SucceededIsDone(Top(h), e);
      }
    }
  }

  lemma EndedFine(e: Node)
    requires Fine(e) && e.ph.Ended?
    ensures Succeeded(e)
  {
  }

  lemma RootInForest(h: Forest, r: nat, e: Node)
    requires r < |h.roots| && e in Nodes(h.roots[r])
    ensures InForest(h, e)
  {
    NodesAreSmaller(h.roots[r], e);
  }

  lemma RootStarts(first: nat -> nat, last: nat -> nat, h: Forest, N: nat, r: nat)
    requires Healthy(h) && Exhausted(h) && r < |h.roots| && !D.HasUnresolved(h.deps, h.roots[r].id)
    ensures h.roots[r].ph.Ended? || (InFlight(h.roots[r]) && !h.roots[r].ph.Ending?)
  {
    var n := h.roots[r];
    assert !CanStep(h, Submit(r)) && !CanStep(h, Take(r)) && !CanStep(h, Finish(r));
  }

  lemma ElementsAreOver(y: Node)
    requires Inv(y) && Finishing(y)
    ensures forall i :: 0 <= i < |y.kids| ==> ClassOf(y.kids[i]) == Over || ClassOf(y.kids[i]) == Gone
  {
  }

  lemma FineAndBegun(y: Node)
    requires Inv(y) && Clean(y) && Fine(y) && y.ph.Ended?
    ensures forall i :: 0 <= i < |y.kids| ==> y.kids[i].ph.Ended?
  {
    ElementsAreOver(y);
    forall i | 0 <= i < |y.kids| ensures y.kids[i].ph.Ended? {
      assert Fine(y.kids[i]);
    }
  }

  /** A node in flight that cannot go on is an Open composite, or waits for its parent to notice its end. */
  lemma StuckPhases(h: Forest, y: Node)
    requires Healthy(h) && Exhausted(h) && InForest(h, y) && InFlight(y)
    ensures !Sweeping(y) && (y.ph.Ending? || (y.ph.Open? && y.kind != Leaf && !y.skipped))
  {
    hide Nodes, DoneIds;
    InForestIsFine(h, y);
    StuckInside(h, y, Sweep);
    StuckInside(h, y, FinishRun);
    StuckInside(h, y, EndRun);
  }

  lemma ElementStarts(first: nat -> nat, last: nat -> nat, h: Forest, N: nat, y: Node, i: nat)
    requires Healthy(h) && Exhausted(h) && FitsAll(first, last, h) && UpTo(first, last, h, N)
    requires InForest(h, y) && i < |y.kids| && first(y.kids[i].id) <= N
    ensures Begun(y.kids[i])
  {
    hide Nodes, DoneIds, Inv, Clean, Fine, Fits, PlanOf;
    var x := y.kids[i];
    ElementInNodes(Top(h), y, i);
    InForestFits(first, last, h, y);
    InForestIsFine(h, y);
    WaitsForNothing(first, last, h, N, x);
    StartsBefore(first, last, y, i);
    if y.ph.Ended? {
      FineAndBegun(y);
    } else {
      StuckPhases(h, y);
      StuckInside(h, y, TakeKid(i));
      if y.ph.Open? {
        OpenElement(first, last, h, N, y, i);
      } else {
        EndingElement(y, i);
      }
    }
  }

  lemma StartsBefore(first: nat -> nat, last: nat -> nat, y: Node, i: nat)
    requires Fits(first, last, PlanOf(y)) && i < |y.kids|
    ensures first(y.id) < first(y.kids[i].id) && last(y.kids[i].id) < last(y.id)
    ensures y.kind == Sequential ==> forall j :: 0 <= j < i ==> last(y.kids[j].id) < first(y.kids[i].id)
  {
    var p := PlanOf(y);
    assert forall j :: 0 <= j < |y.kids| ==> p.parts[j] == PlanOf(y.kids[j]);
  }

  lemma EndingElement(y: Node, i: nat)
    requires Inv(y) && Clean(y) && Fine(y) && y.ph.Ending? && i < |y.kids|
    ensures Begun(y.kids[i]) && y.kids[i].ph.Ended?
  {
    ElementsAreOver(y);
    assert Fine(y.kids[i]);
  }

  /** In an Open composite, an element whose number is up is not held back by a blocker. */
  lemma OpenElement(first: nat -> nat, last: nat -> nat, h: Forest, N: nat, y: Node, i: nat)
    requires Healthy(h) && UpTo(first, last, h, N) && InForest(h, y) && Inv(y) && Clean(y) && Fine(y)
    requires y.ph.Open? && !Sweeping(y) && i < |y.kids| && first(y.kids[i].id) <= N
    requires y.kind == Sequential ==> forall j :: 0 <= j < i ==> last(y.kids[j].id) < first(y.kids[i].id)
    requires !Takeable(y.kids[i], h.deps) && !D.HasUnresolved(h.deps, y.kids[i].id)
    ensures Begun(y.kids[i])
  {
    hide Nodes, DoneIds, Healthy;
    var x := y.kids[i];
    assert Fine(x) && ClassOf(x) != Unborn && ClassOf(x) != Gone;
    if x.ph.InQueue? {
      BlockedOne(y, i);
      PredecessorEnded(first, last, h, N, y, y.led.completed - 1, i);
    }
  }

  lemma PredecessorEnded(first: nat -> nat, last: nat -> nat, h: Forest, N: nat, y: Node, c: nat, i: nat)
    requires UpTo(first, last, h, N) && InForest(h, y) && c < i < |y.kids|
    requires last(y.kids[c].id) < first(y.kids[i].id) <= N
    ensures y.kids[c].ph.Ended?
  {
    hide Nodes;
    ElementInNodes(Top(h), y, c);
    assert InForest(h, y.kids[c]);
  }

  lemma BlockedOne(y: Node, i: nat)
    requires Inv(y) && Clean(y) && y.ph.Open? && i < |y.kids| && y.kids[i].ph.InQueue? && y.kids[i].blocked
    ensures y.kind == Sequential && 1 <= y.led.completed <= i && y.kids[y.led.completed - 1].ph != Ended
  {
    assert ClassOf(y.kids[i]) == Waiting;
  }

  /** A node whose elements have all ended cannot stay in flight. */
  lemma NodeEnds(first: nat -> nat, last: nat -> nat, h: Forest, x: Node)
    requires Healthy(h) && Exhausted(h) && InForest(h, x) && Begun(x)
    requires forall i :: 0 <= i < |x.kids| ==> x.kids[i].ph.Ended?
    ensures x.ph.Ended?
  {
    hide Nodes, DoneIds, Healthy, Exhausted;
    if InFlight(x) {
      InForestIsFine(h, x);
      StuckPhases(h, x);
      if x.ph.Open? { AllOver(x); } else { EndIsNoticed(h, x); }
    }
  }

  lemma AllOver(x: Node)
    requires Inv(x) && Clean(x) && x.ph.Open? && x.kind != Leaf
    ensures exists i :: 0 <= i < |x.kids| && !x.kids[i].ph.Ended?
  {
    CountZero(Waiting, x.kids);
    CountZero(Flying, x.kids);
  }

  /** Where nothing can go on, no end is left unnoticed. */
  lemma EndIsNoticed(h: Forest, x: Node)
    requires Exhausted(h) && InForest(h, x)
    ensures !x.ph.Ending?
  {
    hide Nodes, DoneIds;
    if x.ph.Ending? {
      var y, i := ParentOf(Top(h), x);
      if y == Top(h) {
        NothingGoes(h, Finish(i));
      } else {
        StuckInside(h, y, KidEnd(i));
        StuckInside(h, y, Sweep);
      }
    }
  }

  lemma {:induction false} AllUpTo(first: nat -> nat, last: nat -> nat, h: Forest, N: nat)
    requires Healthy(h) && Exhausted(h) && FitsAll(first, last, h)
    ensures UpTo(first, last, h, N)
  {
    hide Nodes, DoneIds, Inv, Clean, Fine, Fits, Healthy, Exhausted, PlanOf;
    if N > 0 {
      AllUpTo(first, last, h, N - 1);
      forall x | InForest(h, x) && first(x.id) < N ensures Begun(x) {
        NextStarts(first, last, h, N - 1, x);
      }
      forall x | InForest(h, x) && last(x.id) < N ensures x.ph.Ended? {
        NextEnds(first, last, h, N - 1, x);
      }
    }
  }

  lemma NextStarts(first: nat -> nat, last: nat -> nat, h: Forest, N: nat, x: Node)
    requires Healthy(h) && Exhausted(h) && FitsAll(first, last, h) && UpTo(first, last, h, N)
    requires InForest(h, x) && first(x.id) <= N
    ensures Begun(x)
  {
    hide Nodes, DoneIds, Inv, Clean, Fine, Fits, Healthy, Exhausted, PlanOf;
    var y, i := ParentOf(Top(h), x);
    if y == Top(h) {
      WaitsForNothing(first, last, h, N, x);
      RootStarts(first, last, h, N, i);
    } else {
      ElementStarts(first, last, h, N, y, i);
    }
  }

  lemma NextEnds(first: nat -> nat, last: nat -> nat, h: Forest, N: nat, x: Node)
    requires Healthy(h) && Exhausted(h) && FitsAll(first, last, h) && UpTo(first, last, h, N)
    requires InForest(h, x) && last(x.id) <= N
    ensures x.ph.Ended?
  {
    hide Nodes, DoneIds, Inv, Clean, Fine, Healthy, Exhausted, PlanOf;
    InForestFits(first, last, h, x);
    StartsFirst(first, last, x);
    hide Fits;
    forall i | 0 <= i < |x.kids| ensures x.kids[i].ph.Ended? {
      ElementInNodes(Top(h), x, i);
      StartsBefore(first, last, x, i);
      assert InForest(h, x.kids[i]);
    }
    NodeEnds(first, last, h, x);
  }

  lemma StartsFirst(first: nat -> nat, last: nat -> nat, x: Node)
    requires Fits(first, last, PlanOf(x))
    ensures first(x.id) < last(x.id)
  {
  }

  /** If all runs succeed, and starts and ends can be numbered so that dependees end before their
      dependents start, then every run is finite, and one that cannot go on has ended every tree with
      success: each composite exactly once. */
  lemma EveryRunCompletesInOrder(first: nat -> nat, last: nat -> nat, f: Forest, gs: seq<GlobalAct>)
    requires Initial(f) && Possible(f, gs) && FitsAll(first, last, f)
    requires forall i :: 0 <= i < |f.roots| ==> AllSucceed(PlanOf(f.roots[i]))
    ensures |gs| <= 2 * WorkOf(f.roots)
    ensures Exhausted(Reach(f, gs)) ==>
      && Reach(f, gs).active == 0
      && forall i :: 0 <= i < |Reach(f, gs).roots| ==>
        Succeeded(Reach(f, gs).roots[i]) && Quiet(Reach(f, gs).roots[i])
  {
    InitiallyHealthy(f);
    HealthyRun(f, gs);
    SoundRun(f, gs);
    RunIsBounded(f, gs);
    var h := Reach(f, gs);
    RunPlan(f, gs);
    StillFits(first, last, f, h);
    if Exhausted(h) {
      forall i | 0 <= i < |h.roots|
        ensures Succeeded(h.roots[i]) && Quiet(h.roots[i]) && Holders(h.roots[i]) == 0
      {
        RootEnds(first, last, h, i);
      }
      NoHolders(h.roots);
      assert !CanStep(h, ComeBack);
    }
  }

  lemma StillFits(first: nat -> nat, last: nat -> nat, f: Forest, h: Forest)
    requires FitsAll(first, last, f) && Fewer(f.deps, h.deps) && PlanOf(Top(h)) == PlanOf(Top(f))
    ensures FitsAll(first, last, h)
  {
    var p, q := PlanOf(Top(f)), PlanOf(Top(h));
    assert |p.parts| == |f.roots| && |q.parts| == |h.roots|;
    forall i | 0 <= i < |h.roots| ensures PlanOf(h.roots[i]) == PlanOf(f.roots[i]) {
      assert p.parts[i] == q.parts[i];
    }
  }

  lemma RootEnds(first: nat -> nat, last: nat -> nat, h: Forest, i: nat)
    requires Healthy(h) && Exhausted(h) && FitsAll(first, last, h) && i < |h.roots|
    ensures Succeeded(h.roots[i]) && Quiet(h.roots[i]) && Holders(h.roots[i]) == 0
  {
    hide DoneIds, Inv, Clean, Fine, Fits, Exhausted, PlanOf;
    var x := h.roots[i];
    assert x in Nodes(x);
    RootInForest(h, i, x);
    AllUpTo(first, last, h, last(x.id) + 1);
    InForestIsFine(h, x);
    EndedFine(x);
    RestsWhenNotInFlight(x);
    QuietHoldsNone(x);
  }
}
