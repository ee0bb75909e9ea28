/** The numbering of starts and ends that lets a forest complete is not only enough, it is needed: the
    times at which the nodes of a completed run begin and end are such a numbering. */
module CollectionOrder {
  import opened JobStatus
  import opened CollectionLedger
  import opened CollectionTree
  import opened CollectionInvariant
  import opened CollectionForest
  import opened CollectionPlan
  import opened CollectionBarrier
  import opened CollectionProgress
  import opened CollectionDependencies
  import opened CollectionWaiting
  import opened SequenceOrder
  import D = DependencyMap

  // ---- Times ----

  /** The number of steps before A holds in a run. */
  ghost function Time(f: Forest, gs: seq<GlobalAct>, A: Forest -> bool): nat
    requires Possible(f, gs)
    decreases |gs|
  {
    if A(f) || gs == [] then 0 else 1 + Time(Step(f, gs[0]), gs[1..], A)
  }

  /** A forest on its way from `initial` and `plan`, in which every run succeeds. */
  ghost predicate OnTheWay(h: Forest, initial: Deps, plan: Plan) {
    Healthy(h) && Gated(h, initial) && PlanOf(Top(h)) == plan && Distinct(FlattenAll(plan.parts))
  }

  lemma OnTheWayStep(h: Forest, g: GlobalAct, initial: Deps, plan: Plan)
    requires OnTheWay(h, initial, plan) && CanStep(h, g)
    ensures OnTheWay(Step(h, g), initial, plan)
  {
    hide ForestInv, Gated, NoneWaits, Fine;
    HealthyStep(h, g);
    GatedStep(h, g, initial);
    assert [g][1..] == [];
    assert Possible(Step(h, g), []);
    assert Possible(h, [g]) && Reach(h, [g]) == Step(h, g);
    RunPlan(h, [g]);
  }

  /** No step brings about B where A has not held before. */
  ghost predicate Precedes(A: Forest -> bool, B: Forest -> bool, initial: Deps, plan: Plan) {
    forall h, g :: OnTheWay(h, initial, plan) && CanStep(h, g) && !B(h) && B(Step(h, g)) ==> A(h)
  }

  lemma {:induction false} Earlier(f: Forest, gs: seq<GlobalAct>, A: Forest -> bool, B: Forest -> bool,
      initial: Deps, plan: Plan)
    requires OnTheWay(f, initial, plan) && Possible(f, gs) && !B(f) && B(Reach(f, gs))
    requires Precedes(A, B, initial, plan)
    ensures Time(f, gs, A) < Time(f, gs, B)
    decreases |gs|
  {
    hide OnTheWay;
    if gs != [] {
      var h := Step(f, gs[0]);
      OnTheWayStep(f, gs[0], initial, plan);
      if B(h) {
        assert A(f);
      } else {
        Earlier(h, gs[1..], A, B, initial, plan);
      }
    }
  }

  ghost function HasBegun(id: nat): Forest -> bool {
    (h: Forest) => id in BegunIds(Top(h))
  }

  ghost function HasEnded(id: nat): Forest -> bool {
    (h: Forest) => id in DoneIds(Top(h))
  }

  // ---- What a step makes begin, and what it makes end ----

  lemma {:induction false} TakenNode(n: Node, a: Act, d: Deps, id: nat) returns (x: Node)
    requires Enabled(n, a, d) && id in TakenBy(n, a, d)
    ensures x in Nodes(n) && x != n && x.id == id && Takeable(x, d)
    decreases a
  {
    if a.In? {
      x := TakenNode(n.kids[a.i], a.a, d, id);
      NodesAreSmaller(n.kids[a.i], x);
    } else {
      x := n.kids[a.i];
      SelfInNodes(x);
    }
  }

  /** Who begins in a step was takeable before. */
  lemma NewlyBegun(h: Forest, g: GlobalAct, id: nat) returns (x: Node)
    requires ForestInv(h) && CanStep(h, g) && id !in BegunIds(Top(h)) && id in BegunIds(Top(Step(h, g)))
    ensures InForest(h, x) && x.id == id && Takeable(x, h.deps)
  {
    hide Nodes, BegunIds, DoneIds, Inv, Clean;
    var m := Step(h, g);
    match g
    case ComeBack =>
    case Submit(i) =>
      RelabelIds(h.roots[i], m.roots[i]);
      RootReplacedIds(h, m, i, m.roots[i], {});
    case Take(i) =>
      StartIds(h.roots[i]);
      RootReplacedIds(h, m, i, m.roots[i], {h.roots[i].id});
      x := h.roots[i];
      SelfInNodes(x);
      RootInForest(h, i, x);
    case Inside(i, a) =>
      StepIds(h.roots[i], a, h.deps);
      RootReplacedIds(h, m, i, m.roots[i], TakenBy(h.roots[i], a, h.deps));
      x := TakenNode(h.roots[i], a, h.deps, id);
      RootInForest(h, i, x);
    case Finish(i) =>
      RelabelIds(h.roots[i], m.roots[i]);
      RootReplacedIds(h, m, i, m.roots[i], {});
  }

  /** The node that takes a step. */
  function Actor(n: Node, a: Act, d: Deps): nat
    requires Enabled(n, a, d)
  {
    match a
    case In(i, b) => Actor(n.kids[i], b, d)
    case _ => n.id
  }

  /** The only one who can end in a step is the one who takes it, and taking a job ends nobody. */
  ghost predicate EndsOnly(n: Node, a: Act, d: Deps)
    requires Enabled(n, a, d)
  {
    && DoneIds(Next(n, a, d).0) <= DoneIds(n) + {Actor(n, a, d)}
    && (TakenBy(n, a, d) != {} ==> DoneIds(Next(n, a, d).0) <= DoneIds(n))
  }

  lemma OwnStepEnds(n: Node, a: Act, d: Deps)
    requires Inv(n) && Clean(n) && Enabled(n, a, d) && Internal(a) && !a.In?
    ensures EndsOnly(n, a, d)
  {
    hide Inv, Clean, Local, DoneIds, BegunIds, PartCompleted, Free, Settle, SweepOn;
    var m := Next(n, a, d).0;
    match a
    case FinishRun => RelabelIds(n, m);
    case EndRun => EndRunEnds(n, d);
    case StopInWindow => RelabelIds(n, m);
    case AfterWindow => AfterWindowEnds(n, d);
    case Sweep => SweepEndsNobody(n, d);
    case TakeKid(i) =>
      SelfLocal(n);
      TakeKidIsOpen(n, i, d);
      TakeKidFrees(n, i, d);
    case KidEnd(i) =>
      KidEndKeeps(n, i, d);
      KidEndEnds(n, i, d);
  }

  lemma EndRunEnds(n: Node, d: Deps)
    requires Inv(n) && Clean(n) && n.ph.RunDone? && !Sweeping(n)
    ensures DoneIds(Next(n, EndRun, d).0) <= DoneIds(n) + {n.id}
  {
    var m := Next(n, EndRun, d).0;
    if n.kind == Leaf {
      assert m.kids == n.kids;
    } else {
      EnqueueIds(n);
      PartCompletedIds(EnqueueElements(n), n.led.status, d);
      PartCompletedFrees(EnqueueElements(n), n.led.status, d);
    }
    AlikeIds(n, m);
  }

  lemma AfterWindowEnds(n: Node, d: Deps)
    requires n.ph.StopDone? && !Sweeping(n)
    ensures DoneIds(Next(n, AfterWindow, d).0) <= DoneIds(n) + {n.id}
  {
    AdvanceIds(SetStatus(n, n.ph.failure));
    AlikeIds(n, Next(n, AfterWindow, d).0);
  }

  lemma SweepEndsNobody(n: Node, d: Deps)
    requires Inv(n) && Clean(n) && Sweeping(n)
    ensures DoneIds(SweepOn(n, d).0) <= DoneIds(n) + {n.id}
  {
    hide DoneIds, BegunIds;
    SweepIsOwn(n);
    SweepAlikeIds(n, d);
    AlikeIds(n, SweepOn(n, d).0);
  }

  lemma KidEndEnds(n: Node, i: nat, d: Deps)
    requires Enabled(n, KidEnd(i), d) && n.ph.Open?
    ensures DoneIds(Next(n, KidEnd(i), d).0) <= DoneIds(n) + {n.id}
  {
    hide DoneIds, BegunIds, PartCompleted, Free;
    var k := n.(kids := n.kids[i := n.kids[i].(ph := Ended)]);
    RelabelIds(n.kids[i], n.kids[i].(ph := Ended));
    AlikeIds(n, k);
    PartCompletedIds(k, n.kids[i].led.status, d);
    PartCompletedFrees(k, n.kids[i].led.status, d);
    AlikeIds(k, Next(n, KidEnd(i), d).0);
  }

  lemma {:induction false} StepEndsOnly(n: Node, a: Act, d: Deps)
    requires Inv(n) && Clean(n) && Enabled(n, a, d) && Internal(a)
    ensures EndsOnly(n, a, d)
    decreases a
  {
    if a.In? {
      StepEndsOnly(n.kids[a.i], a.a, d);
      InsideStep(n, a.i, a.a, d);
      hide Inv, Clean, DoneIds, Next;
      DoneBelow(n, a.i);
      KidReplacedUpper(n, a.i, Next(n.kids[a.i], a.a, d).0);
    } else {
      OwnStepEnds(n, a, d);
    }
  }

  /** A step ends one node at most, and none if it makes one begin. */
  lemma NewlyEnded(h: Forest, g: GlobalAct) returns (id: nat)
    requires ForestInv(h) && CanStep(h, g)
    ensures DoneIds(Top(Step(h, g))) <= DoneIds(Top(h)) + {id}
    ensures !(BegunIds(Top(Step(h, g))) <= BegunIds(Top(h))) ==> DoneIds(Top(Step(h, g))) <= DoneIds(Top(h))
  {
    hide BegunIds, DoneIds, Inv, Clean, Next;
    var m := Step(h, g);
    id := 0;
    match g
    case ComeBack => assert Top(m) == Top(h);
    case Submit(i) => RelabelIds(h.roots[i], m.roots[i]); RootEnds(h, m, i);
    case Take(i) => StartIds(h.roots[i]); RootEnds(h, m, i);
    case Inside(i, a) =>
      id := Actor(h.roots[i], a, h.deps);
      StepEndsOnly(h.roots[i], a, h.deps);
      StepIds(h.roots[i], a, h.deps);
      RootReplacedIds(h, m, i, m.roots[i], TakenBy(h.roots[i], a, h.deps));
      RootEnds(h, m, i);
    case Finish(i) => RelabelIds(h.roots[i], m.roots[i]); RootEnds(h, m, i);
  }

  lemma RootEnds(h: Forest, m: Forest, i: nat)
    requires i < |h.roots| == |m.roots| && m.roots == h.roots[i := m.roots[i]]
    ensures DoneIds(Top(m)) <= DoneIds(Top(h)) + DoneIds(m.roots[i]) && DoneIds(h.roots[i]) <= DoneIds(Top(h))
  {
    hide DoneIds;
    DoneBelow(Top(h), i);
    KidReplacedUpper(Top(h), i, m.roots[i]);
    assert Top(h).(kids := Top(h).kids[i := m.roots[i]]) == Top(m);
  }

  // ---- The same node at another time ----

  /** The node in the same place of another tree with the same plan. */
  lemma {:induction false} Twin(n: Node, m: Node, x: Node) returns (y: Node)
    requires PlanOf(n) == PlanOf(m) && x in Nodes(n)
    ensures y in Nodes(m) && PlanOf(y) == PlanOf(x) && (x != n ==> y != m)
    decreases n
  {
    if x == n {
      y := m;
      SelfInNodes(m);
    } else {
      var i :| 0 <= i < |n.kids| && x in Nodes(n.kids[i]);
      assert PlanOf(n).parts[i] == PlanOf(n.kids[i]) && PlanOf(m).parts[i] == PlanOf(m.kids[i]);
      y := Twin(n.kids[i], m.kids[i], x);
      NodesAreSmaller(m.kids[i], y);
    }
  }

  lemma OneNode(h: Forest, x: Node, y: Node)
    requires Distinct(FlattenAll(PlanOf(Top(h)).parts)) && InForest(h, x) && InForest(h, y) && x.id == y.id
    ensures x == y
  {
    OneNodePerIdBelow(Top(h), x, y);
  }

  lemma {:induction false} BegunIsCounted(n: Node, x: Node)
    requires x in Nodes(n) && Begun(x)
    ensures x.id in BegunIds(n)
    decreases n
  {
    if x != n {
      var i :| 0 <= i < |n.kids| && x in Nodes(n.kids[i]);
      BegunIsCounted(n.kids[i], x);
    }
  }

  lemma DoneInForest(h: Forest, id: nat) returns (x: Node)
    requires id in DoneIds(Top(h))
    ensures InForest(h, x) && x.id == id && Succeeded(x)
  {
    x := DoneHasNode(Top(h), id);
  }

  // ---- The order of a run ----

  /** A node begins before its elements do. */
  lemma BeginsInside(x: Node, i: nat, initial: Deps, plan: Plan, top: Node)
    requires PlanOf(top) == plan && x in Nodes(top) && x != top && i < |x.kids|
    ensures Precedes(HasBegun(x.id), HasBegun(x.kids[i].id), initial, plan)
  {
    var b := x.kids[i].id;
    forall h, g | OnTheWay(h, initial, plan) && CanStep(h, g) && !HasBegun(b)(h) && HasBegun(b)(Step(h, g))
      ensures HasBegun(x.id)(h)
    {
      var y := TwinElement(h, x, i, initial, plan, top);
      TakenElementOf(h, g, y, i, initial, plan);
      BegunIsCounted(Top(h), y);
    }
  }

  lemma TwinElement(h: Forest, x: Node, i: nat, initial: Deps, plan: Plan, top: Node) returns (y: Node)
    requires OnTheWay(h, initial, plan) && PlanOf(top) == plan && x in Nodes(top) && x != top && i < |x.kids|
    ensures InForest(h, y) && PlanOf(y) == PlanOf(x) && y.id == x.id && y.kind == x.kind
    ensures |y.kids| == |x.kids| && forall j :: 0 <= j < |x.kids| ==> y.kids[j].id == x.kids[j].id
  {
    hide Nodes, Healthy, Gated, FlattenAll;
    y := Twin(top, Top(h), x);
    assert |PlanOf(y).parts| == |PlanOf(x).parts|;
    forall j | 0 <= j < |x.kids| ensures y.kids[j].id == x.kids[j].id {
      assert PlanOf(y).parts[j] == PlanOf(x).parts[j];
    }
  }

  /** When an element begins, its composite is Open. */
  lemma TakenElementOf(h: Forest, g: GlobalAct, y: Node, i: nat, initial: Deps, plan: Plan)
    requires OnTheWay(h, initial, plan) && CanStep(h, g) && InForest(h, y) && i < |y.kids|
    requires y.kids[i].id !in BegunIds(Top(h)) && y.kids[i].id in BegunIds(Top(Step(h, g)))
    ensures y.ph.Open? && !Sweeping(y) && Takeable(y.kids[i], h.deps) && Inv(y) && Clean(y) && Fine(y)
  {
    hide Nodes, BegunIds, DoneIds, Inv, Clean, Fine, PlanOf;
    var z := NewlyBegun(h, g, y.kids[i].id);
    ElementInForest(h, y, i);
    OneNode(h, y.kids[i], z);
    InForestIsFine(h, y);
    QueuedInside(y, i);
  }

  lemma ElementInForest(h: Forest, y: Node, i: nat)
    requires InForest(h, y) && i < |y.kids|
    ensures InForest(h, y.kids[i])
  {
    ElementInNodes(Top(h), y, i);
  }

  lemma QueuedInside(y: Node, i: nat)
    requires Inv(y) && Clean(y) && Fine(y) && i < |y.kids| && y.kids[i].ph.InQueue?
    ensures y.ph.Open? && !Sweeping(y)
  {
    assert ClassOf(y.kids[i]) == Waiting;
  }

  /** In a Sequence, an element ends before a later one begins. */
  lemma EndsBeforeNext(x: Node, i: nat, j: nat, initial: Deps, plan: Plan, top: Node)
    requires PlanOf(top) == plan && x in Nodes(top) && x != top && i < j < |x.kids| && x.kind == Sequential
    ensures Precedes(HasEnded(x.kids[i].id), HasBegun(x.kids[j].id), initial, plan)
  {
    var a, b := x.kids[i].id, x.kids[j].id;
    forall h, g | OnTheWay(h, initial, plan) && CanStep(h, g) && !HasBegun(b)(h) && HasBegun(b)(Step(h, g))
      ensures HasEnded(a)(h)
    {
      var y := TwinElement(h, x, j, initial, plan, top);
      TakenElementOf(h, g, y, j, initial, plan);
      EarlierEnded(y, i, j, h.deps);
      ElementInForest(h, y, i);
      SucceededIsDone(Top(h), y.kids[i]);
    }
  }

  lemma EarlierEnded(y: Node, i: nat, j: nat, d: Deps)
    requires Inv(y) && Fine(y) && y.kind == Sequential && y.ph.Open? && i < j < |y.kids| && Takeable(y.kids[j], d)
    ensures Succeeded(y.kids[i])
  {
    assert Fine(y.kids[i]);
    assert ClassOf(y.kids[j]) == Waiting;
    assert ClassOf(y.kids[i]) == Over;
  }

  /** A node begins before it ends. */
  lemma BeginsBeforeEnd(x: Node, initial: Deps, plan: Plan)
    ensures Precedes(HasBegun(x.id), HasEnded(x.id), initial, plan)
  {
    forall h, g | OnTheWay(h, initial, plan) && CanStep(h, g) && !HasEnded(x.id)(h) && HasEnded(x.id)(Step(h, g))
      ensures HasBegun(x.id)(h)
    {
      hide Inv, Clean, BegunIds, DoneIds, Nodes;
      var m := Step(h, g);
      var id := NewlyEnded(h, g);
      var y := DoneInForest(m, x.id);
      BegunIsCounted(Top(m), y);
    }
  }

  /** The elements of a node end before it does. */
  lemma EndsInside(x: Node, i: nat, initial: Deps, plan: Plan, top: Node)
    requires PlanOf(top) == plan && x in Nodes(top) && x != top && i < |x.kids|
    ensures Precedes(HasEnded(x.kids[i].id), HasEnded(x.id), initial, plan)
  {
    var b := x.kids[i].id;
    forall h, g | OnTheWay(h, initial, plan) && CanStep(h, g) && !HasEnded(x.id)(h) && HasEnded(x.id)(Step(h, g))
      ensures HasEnded(b)(h)
    {
      hide Inv, Clean, BegunIds, DoneIds, Nodes, OnTheWay;
      var m := Step(h, g);
      OnTheWayStep(h, g, initial, plan);
      var id := NewlyEnded(h, g);
      var y := TwinElement(m, x, i, initial, plan, top);
      ElementsHaveEnded(m, y, i, initial, plan);
      assert id == x.id;
    }
  }

  lemma ElementsHaveEnded(m: Forest, y: Node, i: nat, initial: Deps, plan: Plan)
    requires OnTheWay(m, initial, plan) && InForest(m, y) && i < |y.kids| && y.id in DoneIds(Top(m))
    ensures y.kids[i].id in DoneIds(Top(m)) && y.kids[i].id != y.id
  {
    hide Inv, Clean, DoneIds, Nodes, PlanOf, Fine;
    var z := DoneInForest(m, y.id);
    OneNode(m, y, z);
    InForestIsFine(m, y);
    ElementInForest(m, y, i);
    ElementSucceeded(y, i);
    SucceededIsDone(Top(m), y.kids[i]);
    if y.kids[i].id == y.id { OneNode(m, y, y.kids[i]); }
  }

  lemma ElementSucceeded(y: Node, i: nat)
    requires Inv(y) && Clean(y) && Fine(y) && Succeeded(y) && i < |y.kids|
    ensures Succeeded(y.kids[i])
  {
    ElementsAreOver(y);
    assert Fine(y.kids[i]);
  }

  /** What a job waits for ends before the job begins. */
  lemma EndsBeforeDependent(p: (nat, nat), initial: Deps, plan: Plan)
    requires p in initial
    ensures Precedes(HasEnded(p.1), HasBegun(p.0), initial, plan)
  {
    forall h, g | OnTheWay(h, initial, plan) && CanStep(h, g) && !HasBegun(p.0)(h) && HasBegun(p.0)(Step(h, g))
      ensures HasEnded(p.1)(h)
    {
      hide Inv, Clean, BegunIds, DoneIds, Nodes;
      var x := NewlyBegun(h, g, p.0);
      StillWaits(h.deps, p);
    }
  }

  lemma StillWaits(d: Deps, p: (nat, nat))
    ensures p in d ==> D.HasUnresolved(d, p.0)
  {
    if p in d {
      var k :| 0 <= k < |d| && d[k] == p;
    }
  }

  // ---- The theorem ----

  ghost predicate AllEnded(h: Forest) {
    forall i :: 0 <= i < |h.roots| ==> Succeeded(h.roots[i])
  }

  lemma {:induction false} AllDone(n: Node)
    requires Inv(n) && Clean(n) && Fine(n) && Succeeded(n)
    ensures forall x :: x in Nodes(n) ==> Succeeded(x)
    decreases n
  {
    forall i | 0 <= i < |n.kids| ensures forall x :: x in Nodes(n.kids[i]) ==> Succeeded(x) {
      ElementSucceeded(n, i);
      AllDone(n.kids[i]);
    }
  }

  lemma EverythingDone(h: Forest, x: Node)
    requires Healthy(h) && AllEnded(h) && InForest(h, x)
    ensures x.id in BegunIds(Top(h)) && x.id in DoneIds(Top(h))
  {
    hide Nodes, Inv, Clean, Fine, DoneIds, BegunIds;
    RootOf(h, x);
    var j :| 0 <= j < |h.roots| && x in Nodes(h.roots[j]);
    AllDone(h.roots[j]);
    SucceededIsDone(Top(h), x);
    BegunIsCounted(Top(h), x);
  }

  ghost function BeginTime(f: Forest, gs: seq<GlobalAct>): nat -> nat
    requires Possible(f, gs)
  {
    (id: nat) => Time(f, gs, HasBegun(id))
  }

  ghost function EndTime(f: Forest, gs: seq<GlobalAct>): nat -> nat
    requires Possible(f, gs)
  {
    (id: nat) => Time(f, gs, HasEnded(id))
  }

  /** A run of the forest f that has ended every tree with success. */
  ghost predicate Completed(f: Forest, gs: seq<GlobalAct>, plan: Plan) {
    && Initial(f) && OnTheWay(f, f.deps, plan) && Possible(f, gs)
    && OnTheWay(Reach(f, gs), f.deps, plan) && AllEnded(Reach(f, gs))
  }

  lemma InTime(f: Forest, gs: seq<GlobalAct>, plan: Plan, A: Forest -> bool, id: nat)
    requires Completed(f, gs, plan) && id in FlattenAll(plan.parts)
    ensures Precedes(A, HasBegun(id), f.deps, plan) ==> Time(f, gs, A) < Time(f, gs, HasBegun(id))
    ensures Precedes(A, HasEnded(id), f.deps, plan) ==> Time(f, gs, A) < Time(f, gs, HasEnded(id))
  {
    hide OnTheWay, Precedes, Initial, FlattenAll;
    var h := Reach(f, gs);
    OfThePlan(f, plan);
    OfThePlan(h, plan);
    var r := PartWith(PlanOf(Top(h)).parts, id);
    var x := IdHasNode(h.roots[r], id);
    RootInForest(h, r, x);
    EverythingDone(h, x);
    NothingYet(f);
    if Precedes(A, HasBegun(id), f.deps, plan) { Earlier(f, gs, A, HasBegun(id), f.deps, plan); }
    if Precedes(A, HasEnded(id), f.deps, plan) { Earlier(f, gs, A, HasEnded(id), f.deps, plan); }
  }

  lemma OfThePlan(h: Forest, plan: Plan)
    requires OnTheWay(h, h.deps, plan) || exists d :: OnTheWay(h, d, plan)
    ensures Healthy(h) && PlanOf(Top(h)) == plan && Distinct(FlattenAll(plan.parts))
  {
  }

  lemma NothingYet(f: Forest)
    requires Initial(f)
    ensures BegunIds(Top(f)) == {} && DoneIds(Top(f)) == {}
  {
    forall i | 0 <= i < |f.roots| ensures BegunIds(f.roots[i]) == {} && DoneIds(f.roots[i]) == {} {
      UntouchedHasNoIds(f.roots[i]);
      UntouchedIsNotDone(f.roots[i]);
    }
  }

  lemma {:induction false} TimesFit(f: Forest, gs: seq<GlobalAct>, plan: Plan, x: Node)
    requires Completed(f, gs, plan) && InForest(f, x)
    ensures Fits(BeginTime(f, gs), EndTime(f, gs), PlanOf(x))
    decreases x
  {
    hide OnTheWay, Initial, Nodes, PlanOf, Precedes, Possible, Reach, AllEnded;
    var first, last := BeginTime(f, gs), EndTime(f, gs);
    OfThePlan(f, plan);
    IdInPlan(f, x);
    BeginsBeforeEnd(x, f.deps, plan);
    InTime(f, gs, plan, HasBegun(x.id), x.id);
    forall i | 0 <= i < |x.kids|
      ensures first(x.id) < first(x.kids[i].id) && last(x.kids[i].id) < last(x.id)
      ensures Fits(first, last, PlanOf(x.kids[i]))
    {
      ElementInForest(f, x, i);
      IdInPlan(f, x.kids[i]);
      BeginsInside(x, i, f.deps, plan, Top(f));
      InTime(f, gs, plan, HasBegun(x.id), x.kids[i].id);
      EndsInside(x, i, f.deps, plan, Top(f));
      InTime(f, gs, plan, HasEnded(x.kids[i].id), x.id);
      TimesFit(f, gs, plan, x.kids[i]);
    }
    if x.kind == Sequential {
      forall i, j | 0 <= i < j < |x.kids| ensures last(x.kids[i].id) < first(x.kids[j].id) {
        ElementInForest(f, x, j);
        IdInPlan(f, x.kids[j]);
        EndsBeforeNext(x, i, j, f.deps, plan, Top(f));
        InTime(f, gs, plan, HasEnded(x.kids[i].id), x.kids[j].id);
      }
    }
    FitsAtNode(first, last, x);
  }

  lemma FitsAtNode(first: nat -> nat, last: nat -> nat, x: Node)
    requires first(x.id) < last(x.id)
    requires forall i :: 0 <= i < |x.kids| ==>
      first(x.id) < first(x.kids[i].id) && last(x.kids[i].id) < last(x.id) && Fits(first, last, PlanOf(x.kids[i]))
    requires x.kind == Sequential ==> forall i, j :: 0 <= i < j < |x.kids| ==> last(x.kids[i].id) < first(x.kids[j].id)
    ensures Fits(first, last, PlanOf(x))
  {
    var p := PlanOf(x);
    assert |p.parts| == |x.kids|;
    forall i | 0 <= i < |p.parts| ensures p.parts[i] == PlanOf(x.kids[i]) && p.parts[i].id == x.kids[i].id {}
  }

  lemma IdInPlan(f: Forest, x: Node)
    requires InForest(f, x)
    ensures x.id in FlattenAll(PlanOf(Top(f)).parts)
  {
    hide Nodes;
    RootOf(f, x);
    var j :| 0 <= j < |f.roots| && x in Nodes(f.roots[j]);
    NodeHasId(f.roots[j], x);
    PartOfAll(PlanOf(Top(f)).parts, j, x.id);
  }

  lemma TimesFitAll(f: Forest, gs: seq<GlobalAct>, plan: Plan)
    requires Completed(f, gs, plan)
    ensures FitsAll(BeginTime(f, gs), EndTime(f, gs), f)
  {
    hide OnTheWay, Initial, PlanOf, Precedes, Possible, Reach, AllEnded, Fits, Nodes;
    OfThePlan(f, plan);
    forall i | 0 <= i < |f.roots| ensures Fits(BeginTime(f, gs), EndTime(f, gs), PlanOf(f.roots[i])) {
      SelfInNodes(f.roots[i]);
      RootInForest(f, i, f.roots[i]);
      TimesFit(f, gs, plan, f.roots[i]);
    }
    forall p | p in f.deps && p.0 in FlattenAll(plan.parts)
      ensures EndTime(f, gs)(p.1) < BeginTime(f, gs)(p.0) && p.1 in FlattenAll(plan.parts)
    {
      EndsBeforeDependent(p, f.deps, plan);
      InTime(f, gs, plan, HasEnded(p.1), p.0);
      DependeeIsThere(f, gs, plan, p);
    }
  }

  lemma DependeeIsThere(f: Forest, gs: seq<GlobalAct>, plan: Plan, p: (nat, nat))
    requires Completed(f, gs, plan) && p in f.deps && p.0 in FlattenAll(plan.parts)
    ensures p.1 in FlattenAll(plan.parts)
  {
    hide Initial, Possible, Reach, Nodes, DoneIds, BegunIds, Healthy;
    var h := Reach(f, gs);
    var r := PartWith(PlanOf(Top(h)).parts, p.0);
    var x := IdHasNode(h.roots[r], p.0);
    RootInForest(h, r, x);
    EverythingDone(h, x);
    var e := DoneInForest(h, p.1);
    IdInPlan(h, e);
  }

  /** Every run can be continued until nothing more can happen. */
  lemma {:induction false} RunsOut(f: Forest) returns (gs: seq<GlobalAct>)
    requires ForestInv(f)
    ensures Possible(f, gs) && Exhausted(Reach(f, gs))
    decreases if Effort(f) < 0 then 0 else Effort(f)
  {
    hide ForestInv, Effort;
    if Exhausted(f) {
      gs := [];
    } else {
      var g :| CanStep(f, g);
      ForestStepKeeps(f, g);
      ForestStepWork(f, g);
      EffortIsPositive(Step(f, g));
      var rest := RunsOut(Step(f, g));
      gs := [g] + rest;
      assert gs[1..] == rest;
    }
  }

  /** Starts and ends can be numbered in agreement with the trees, the Sequences and the dependencies. */
  ghost predicate HasOrder(f: Forest) {
    exists first: nat -> nat, last: nat -> nat :: FitsAll(first, last, f)
  }

  ghost predicate Completes(f: Forest, gs: seq<GlobalAct>) {
    Possible(f, gs) && AllEnded(Reach(f, gs))
  }

  lemma CompletedHasOrder(f: Forest, gs: seq<GlobalAct>)
    requires Initial(f) && Distinct(FlattenAll(PlanOf(Top(f)).parts)) && Completes(f, gs)
    requires forall i :: 0 <= i < |f.roots| ==> AllSucceed(PlanOf(f.roots[i]))
    ensures HasOrder(f)
  {
    hide Initial, ForestInv, FlattenAll, AllSucceed, PlanOf, Healthy, Gated, FitsAll, AllEnded;
    var plan := PlanOf(Top(f));
    InitiallyHealthy(f);
    InitiallyGated(f);
    HealthyRun(f, gs);
    HealthyIsSound(f);
    GatedRun(f, gs, f.deps);
    RunPlan(f, gs);
    TimesFitAll(f, gs, plan);
  }

  lemma HealthyIsSound(f: Forest)
    requires Healthy(f)
    ensures ForestInv(f)
  {
  }

  /** When nothing fails, such an order is all it takes, and it takes nothing less: if there is one, every
      run that cannot go on has ended every tree with success, and if there is none, no run does. */
  lemma CompletesExactlyWhen(f: Forest)
    requires Initial(f) && Distinct(FlattenAll(PlanOf(Top(f)).parts))
    requires forall i :: 0 <= i < |f.roots| ==> AllSucceed(PlanOf(f.roots[i]))
    ensures HasOrder(f) <==> forall gs :: Possible(f, gs) && Exhausted(Reach(f, gs)) ==> AllEnded(Reach(f, gs))
    ensures HasOrder(f) <==> exists gs :: Completes(f, gs)
  {
    hide Initial, ForestInv, FlattenAll, AllSucceed, PlanOf, FitsAll, Exhausted;
    InitialIsGood(f);
    var out := RunsOut(f);
    if HasOrder(f) {
      var first: nat -> nat, last: nat -> nat :| FitsAll(first, last, f);
      forall gs | Possible(f, gs) && Exhausted(Reach(f, gs)) ensures Completes(f, gs) {
        EveryRunCompletesInOrder(first, last, f, gs);
      }
      assert Completes(f, out);
    }
    if gs :| Completes(f, gs) { CompletedHasOrder(f, gs); }
    if AllEnded(Reach(f, out)) { assert Completes(f, out); }
  }
}
