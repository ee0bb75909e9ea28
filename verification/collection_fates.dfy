/** Dependencies that are never resolved: who never begins, and which collections never end, whatever else
    happens in the forest. */
module CollectionFates {
  import opened JobStatus
  import opened CollectionLedger
  import opened CollectionTree
  import opened CollectionInvariant
  import opened CollectionForest
  import opened CollectionPlan
  import opened CollectionBarrier
  import opened CollectionResults
  import opened CollectionLoss
  import opened CollectionDependencies
  import opened CollectionWaiting
  import D = DependencyMap

  // ---- Fates ----

  /** What can be said for ever about the nodes of an id: nothing, that they will not end with success,
      that they will never begin, or that they have begun and will never end. */
  datatype Fate = Unknown | Fails | Idles | Hangs

  /** Some dependency of `a` will never be resolved. */
  ghost predicate WaitsForEver(d: Deps, a: nat, fate: nat -> Fate) {
    exists p :: p in d && p.0 == a && fate(p.1) != Unknown
  }

  predicate HasFailed(n: Node) {
    (Finishing(n) && n.led.status != Success) || (n.kind == Leaf && n.outcome != Success)
  }

  /** `shut` says that the composite around n will never let it begin. */
  ghost predicate NeverBegins(n: Node, d: Deps, fate: nat -> Fate, shut: bool) {
    !Begun(n) && (shut || n.ph.Withdrawn? || WaitsForEver(d, n.id, fate))
  }

  /** Held up by an element that waits for ever. */
  ghost predicate Halted(n: Node, d: Deps, fate: nat -> Fate)
    decreases n, 0
  {
    && n.ph.Open?
    && exists i :: 0 <= i < |n.kids| && HaltedBy(n.kids[i], d, fate)
  }

  ghost predicate HaltedBy(k: Node, d: Deps, fate: nat -> Fate)
    decreases k, 1
  {
    (k.ph.InQueue? && !k.blocked && WaitsForEver(d, k.id, fate)) || Halted(k, d, fate)
  }

  ghost predicate Shuts(n: Node, d: Deps, fate: nat -> Fate, shut: bool) {
    NeverBegins(n, d, fate, shut) || (n.kind == Sequential && Halted(n, d, fate))
  }

  ghost predicate Bears(n: Node, d: Deps, fate: nat -> Fate, shut: bool) {
    match fate(n.id)
    case Unknown => true
    case Fails => HasFailed(n)
    case Idles => NeverBegins(n, d, fate, shut)
    case Hangs => Halted(n, d, fate)
  }

  /** Every node of a tree bears its fate. */
  ghost predicate AllBear(n: Node, d: Deps, fate: nat -> Fate, shut: bool) {
    && Bears(n, d, fate, shut)
    && forall i :: 0 <= i < |n.kids| ==> AllBear(n.kids[i], d, fate, Shuts(n, d, fate, shut))
  }

  /** No entry has gone that waits for a node with a fate. */
  ghost predicate KeepsWaits(d: Deps, e: Deps, fate: nat -> Fate) {
    forall p :: p in d && fate(p.1) != Unknown ==> p in e
  }

  lemma NotASuccess(n: Node, d: Deps, fate: nat -> Fate, shut: bool)
    requires Inv(n) && Bears(n, d, fate, shut) && fate(n.id) != Unknown
    ensures !Succeeded(n)
  {
  }

  lemma EndingIsStill(n: Node, a: Act, d: Deps)
    requires Inv(n) && Enabled(n, a, d) && Internal(a)
    ensures InFlight(n) && !n.ph.Ending?
  {
    ActsInFlight(n, a, d);
    if n.ph.Ending? {
      if a.In? {
        ActsInFlight(n.kids[a.i], a.a, d);
        ParentFlies(n, a.i);
      } else if n.kind != Leaf {
        NoneEnding(n);
      }
    }
  }

  /** In a Sequence the element that holds it up is alone. */
  lemma HoldsAlone(n: Node, i: nat, j: nat, d: Deps)
    requires Inv(n) && n.kind == Sequential && n.ph.Open? && i < |n.kids| && j < |n.kids|
    requires WaitsInQueue(n.kids[i], d) || InFlight(n.kids[i])
    requires (n.kids[j].ph.InQueue? && !n.kids[j].blocked) || InFlight(n.kids[j])
    ensures i == j
  {
    hide Count;
    CountZero(Flying, n.kids);
    assert ClassOf(n.kids[i]) == Waiting || ClassOf(n.kids[i]) == Flying;
    assert ClassOf(n.kids[j]) == Waiting || ClassOf(n.kids[j]) == Flying;
  }

  lemma SweepsInWindow(n: Node)
    requires Inv(n) && Clean(n) && n.ph.Open?
    ensures !Sweeping(n) && n.kind != Leaf && !n.skipped
  {
  }

  lemma TwoLeft(n: Node, i: nat, j: nat)
    requires Inv(n) && n.ph.Open? && !n.skipped && n.kind != Leaf && i < |n.kids| && j < |n.kids| && i != j
    requires n.kids[i].ph.InQueue? || InFlight(n.kids[i])
    requires InFlight(n.kids[j])
    ensures n.led.jobCounter >= 2
  {
    if InFlight(n.kids[i]) {
      OthersFly(n, i, j);
    } else {
      CountZero(Waiting, n.kids);
      CountZero(Flying, n.kids);
      assert ClassOf(n.kids[i]) == Waiting;
    }
  }

  /** The element that holds a composite up sees none of its steps, and they free nobody. */
  lemma HaltedStep(n: Node, a: Act, d: Deps, i: nat)
    requires Inv(n) && Clean(n) && n.ph.Open? && Enabled(n, a, d) && Internal(a) && !a.In?
    requires i < |n.kids| == |Next(n, a, d).0.kids| && (WaitsInQueue(n.kids[i], d) || n.kids[i].ph.Open?)
    ensures var (m, e) := Next(n, a, d);
      m.ph.Open? && e == d && m.kids[i] == n.kids[i] && n.kind != Sequential
  {
    SweepsInWindow(n);
    var j := a.i;
    assert j != i && (a.KidEnd? ==> InFlight(n.kids[j]));
    if n.kind == Sequential { HoldsAlone(n, i, j, d); }
    if a.KidEnd? { TwoLeft(n, i, j); }
    hide Inv, Clean, Free;
  }

  /** Entries leave the map only for a node that ends with success in this step. */
  lemma StepFreesOnly(n: Node, a: Act, d: Deps)
    requires Inv(n) && Clean(n) && Enabled(n, a, d) && Internal(a) && !a.In?
    ensures var (m, e) := Next(n, a, d); e == d || (Succeeded(m) && m.id == n.id && e == D.Resolved(d, n.id))
  {
    if a.Sweep? { SweepFreesNothing(n, d); }
    hide Inv, Clean;
  }

  lemma HeldByHalted(n: Node, d: Deps, fate: nat -> Fate)
    requires Halted(n, d, fate)
    ensures exists i :: (0 <= i < |n.kids| && HaltedBy(n.kids[i], d, fate)
                         && (WaitsInQueue(n.kids[i], d) || n.kids[i].ph.Open?))
  {
    var i :| 0 <= i < |n.kids| && HaltedBy(n.kids[i], d, fate);
    if !Halted(n.kids[i], d, fate) {
      var p :| p in d && p.0 == n.kids[i].id && fate(p.1) != Unknown;
    }
  }

  /** No step takes away what a node with a fate is waited for. */
  lemma {:induction false} StepKeepsWaits(n: Node, a: Act, d: Deps, fate: nat -> Fate, shut: bool)
    requires Inv(n) && Clean(n) && Enabled(n, a, d) && Internal(a) && AllBear(n, d, fate, shut)
    ensures KeepsWaits(d, Next(n, a, d).1, fate)
    decreases a
  {
    hide Inv, Clean, Next;
    if a.In? {
      ElementIsGood(n, a.i);
      StepKeepsWaits(n.kids[a.i], a.a, d, fate, Shuts(n, d, fate, shut));
      InsideStep(n, a.i, a.a, d);
    } else {
      StepFreesOnly(n, a, d);
      EndingIsStill(n, a, d);
      if Succeeded(Next(n, a, d).0) { FatedDoesNotSucceed(n, a, d, fate, shut); }
    }
  }

  lemma ElementIsGood(n: Node, i: nat)
    requires Inv(n) && Clean(n) && i < |n.kids|
    ensures Inv(n.kids[i]) && Clean(n.kids[i])
  {
  }

  lemma FatedDoesNotSucceed(n: Node, a: Act, d: Deps, fate: nat -> Fate, shut: bool)
    requires Inv(n) && Clean(n) && Enabled(n, a, d) && Internal(a) && !a.In? && AllBear(n, d, fate, shut)
    requires Succeeded(Next(n, a, d).0)
    ensures fate(n.id) == Unknown
  {
    hide Inv, Clean;
    EndingIsStill(n, a, d);
    SameNumber(n, a, d);
    if fate(n.id) == Hangs {
      HeldByHalted(n, d, fate);
      var i :| 0 <= i < |n.kids| && (WaitsInQueue(n.kids[i], d) || n.kids[i].ph.Open?);
      HaltedStep(n, a, d, i);
    } else if n.kind == Leaf {
      LeafOutcome(n, a, d);
    }
  }

  lemma LeafOutcome(n: Node, a: Act, d: Deps)
    requires Inv(n) && Enabled(n, a, d) && !a.In? && n.kind == Leaf && Succeeded(Next(n, a, d).0)
    ensures n.outcome == Success
  {
  }

  // ---- Fates are final ----

  lemma WaitsOn(d: Deps, e: Deps, a: nat, fate: nat -> Fate)
    requires KeepsWaits(d, e, fate) && WaitsForEver(d, a, fate)
    ensures WaitsForEver(e, a, fate) && D.HasUnresolved(d, a)
  {
    var p :| p in d && p.0 == a && fate(p.1) != Unknown;
    assert p in e;
  }

  lemma {:induction false} HaltedOn(n: Node, d: Deps, e: Deps, fate: nat -> Fate)
    requires KeepsWaits(d, e, fate) && Halted(n, d, fate)
    ensures Halted(n, e, fate)
    decreases n
  {
    var i :| 0 <= i < |n.kids| && HaltedBy(n.kids[i], d, fate);
    if Halted(n.kids[i], d, fate) {
      HaltedOn(n.kids[i], d, e, fate);
    } else {
      WaitsOn(d, e, n.kids[i].id, fate);
    }
    assert HaltedBy(n.kids[i], e, fate);
  }

  lemma {:induction false} BearOn(n: Node, d: Deps, e: Deps, fate: nat -> Fate, shut: bool, shut': bool)
    requires KeepsWaits(d, e, fate) && AllBear(n, d, fate, shut) && (shut ==> shut')
    ensures AllBear(n, e, fate, shut')
    decreases n
  {
    if WaitsForEver(d, n.id, fate) { WaitsOn(d, e, n.id, fate); }
    if Halted(n, d, fate) { HaltedOn(n, d, e, fate); }
    forall i | 0 <= i < |n.kids| ensures AllBear(n.kids[i], e, fate, Shuts(n, e, fate, shut')) {
      BearOn(n.kids[i], d, e, fate, Shuts(n, d, fate, shut), Shuts(n, e, fate, shut'));
    }
  }

  lemma {:induction false} HaltedStays(n: Node, a: Act, d: Deps, fate: nat -> Fate)
    requires Inv(n) && Clean(n) && Enabled(n, a, d) && Internal(a) && Halted(n, d, fate)
    requires KeepsWaits(d, Next(n, a, d).1, fate)
    ensures Halted(Next(n, a, d).0, Next(n, a, d).1, fate)
    decreases a
  {
    hide Inv, Clean, Next;
    var (m, e) := Next(n, a, d);
    HeldByHalted(n, d, fate);
    var i :| 0 <= i < |n.kids| && HaltedBy(n.kids[i], d, fate) && (WaitsInQueue(n.kids[i], d) || n.kids[i].ph.Open?);
    if a.In? {
      InsideStep(n, a.i, a.a, d);
      ElementIsGood(n, a.i);
      ActsInFlight(n.kids[a.i], a.a, d);
      if a.i == i {
        HaltedStays(n.kids[i], a.a, d, fate);
      } else if Halted(n.kids[i], d, fate) {
        HaltedOn(n.kids[i], d, e, fate);
      } else {
        WaitsOn(d, e, n.kids[i].id, fate);
      }
    } else {
      SameNumber(n, a, d);
      HaltedStep(n, a, d, i);
    }
    assert HaltedBy(m.kids[i], e, fate);
  }

  /** Two views of a node that differ in nothing a fate looks at, except that it may leave the queue. */
  predicate SameView(n: Node, m: Node) {
    && m.id == n.id && m.kind == n.kind && m.outcome == n.outcome && m.kids == n.kids
    && Begun(m) == Begun(n) && (n.ph.Withdrawn? ==> m.ph.Withdrawn?) && m.ph.Open? == n.ph.Open?
    && (Finishing(n) ==> Finishing(m) && m.led.status == n.led.status)
  }

  lemma SameFate(n: Node, m: Node, d: Deps, fate: nat -> Fate, shut: bool)
    requires AllBear(n, d, fate, shut) && SameView(n, m)
    ensures AllBear(m, d, fate, shut)
  {
    hide AllBear;
    AllBearUnfolds(n, d, fate, shut);
    AllBearUnfolds(m, d, fate, shut);
    forall i | 0 <= i < |n.kids| ensures AllBear(m.kids[i], d, fate, Shuts(m, d, fate, shut)) {
      BearOn(n.kids[i], d, d, fate, Shuts(n, d, fate, shut), Shuts(m, d, fate, shut));
    }
  }

  lemma AllBearUnfolds(n: Node, d: Deps, fate: nat -> Fate, shut: bool)
    ensures AllBear(n, d, fate, shut) <==>
      Bears(n, d, fate, shut) && forall i :: 0 <= i < |n.kids| ==> AllBear(n.kids[i], d, fate, Shuts(n, d, fate, shut))
  {
  }

  lemma ViewOn(n: Node, m: Node, k: Node)
    requires SameView(n, m) && (k == m || k == m.(blocked := false))
    ensures SameView(n, k)
  {
  }

  lemma EndRunView(n: Node, d: Deps, i: nat)
    requires Inv(n) && n.ph.RunDone? && !Sweeping(n) && n.kind != Leaf && i < |n.kids|
    ensures SameView(n.kids[i], Next(n, EndRun, d).0.kids[i])
  {
    assert ClassOf(n.kids[i]) == Unborn;
    var m := if n.led.shouldAbort then n.(skipped := true) else EnqueueElements(n);
    PartCompletedElement(m, n.led.status, d, i);
    ViewOn(n.kids[i], m.kids[i], Next(n, EndRun, d).0.kids[i]);
  }

  lemma KidEndView(n: Node, j: nat, d: Deps, i: nat)
    requires Enabled(n, KidEnd(j), d) && i < |n.kids|
    ensures SameView(n.kids[i], Next(n, KidEnd(j), d).0.kids[i])
  {
    var m := n.(kids := n.kids[j := n.kids[j].(ph := Ended)]);
    PartCompletedElement(m, n.kids[j].led.status, d, i);
    hide PartCompleted;
    ViewOn(n.kids[i], m.kids[i], Next(n, KidEnd(j), d).0.kids[i]);
  }

  lemma AfterWindowView(n: Node, d: Deps, i: nat)
    requires Enabled(n, AfterWindow, d) && i < |n.kids|
    ensures SameView(n.kids[i], Next(n, AfterWindow, d).0.kids[i])
  {
    AfterWindowElement(n, d, i);
    hide Next;
    ViewOn(n.kids[i], n.kids[i], Next(n, AfterWindow, d).0.kids[i]);
  }

  lemma SweepView(n: Node, d: Deps, i: nat)
    requires Sweeping(n) && i < |n.kids|
    ensures |SweepOn(n, d).0.kids| == |n.kids| && SameView(n.kids[i], SweepOn(n, d).0.kids[i])
  {
    WithdrawnView(n.kids[i]);
    hide Free, FinalCleanup, WithdrawElement, SameView;
  }

  lemma WithdrawnView(k: Node)
    ensures SameView(k, WithdrawElement(k)) && SameView(k, k) && SameView(k, k.(blocked := false))
  {
  }

  /** What a step of a composite does to its elements, but for the one it starts. */
  lemma ElementView(n: Node, a: Act, d: Deps, i: nat)
    requires Inv(n) && Enabled(n, a, d) && Internal(a) && !a.In? && a != TakeKid(i)
    requires i < |n.kids| == |Next(n, a, d).0.kids|
    ensures SameView(n.kids[i], Next(n, a, d).0.kids[i])
  {
    hide PartCompleted, SweepOn, Settle, SameView, Free, EnqueueElements;
    ViewOfSelf(n.kids[i]);
    match a
    case EndRun => if n.kind != Leaf { EndRunView(n, d, i); }
    case AfterWindow => AfterWindowView(n, d, i);
    case KidEnd(j) => KidEndView(n, j, d, i);
    case Sweep => SweepView(n, d, i);
    case _ =>
  }

  lemma ViewOfSelf(n: Node)
    ensures SameView(n, n)
  {
  }

  /** An element that starts was neither fated to wait nor shut in. */
  lemma StartedBears(k: Node, d: Deps, fate: nat -> Fate, shut: bool)
    requires AllBear(k, d, fate, shut) && Takeable(k, d) && !shut
    ensures AllBear(StartNode(k), d, fate, false)
  {
    hide AllBear;
    AllBearUnfolds(k, d, fate, shut);
    AllBearUnfolds(StartNode(k), d, fate, false);
    NothingUnresolved(k.id, d, fate);
  }

  lemma NothingUnresolved(a: nat, d: Deps, fate: nat -> Fate)
    requires !D.HasUnresolved(d, a)
    ensures !WaitsForEver(d, a, fate)
  {
    if WaitsForEver(d, a, fate) { WaitsOn(d, d, a, fate); }
  }

  /** A halted Sequence starts nobody. */
  lemma HaltedSequence(n: Node, d: Deps, fate: nat -> Fate, i: nat)
    requires Inv(n) && Clean(n) && n.kind == Sequential && Halted(n, d, fate) && i < |n.kids|
    ensures !Takeable(n.kids[i], d)
  {
    hide Inv, Clean;
    HeldByHalted(n, d, fate);
    var j :| 0 <= j < |n.kids| && HaltedBy(n.kids[j], d, fate) && (WaitsInQueue(n.kids[j], d) || n.kids[j].ph.Open?);
    if Takeable(n.kids[i], d) { HoldsAlone(n, j, i, d); }
  }

  /** A step keeps the fate of the node that takes it. */
  lemma OwnFate(n: Node, a: Act, d: Deps, fate: nat -> Fate, shut: bool)
    requires Inv(n) && Clean(n) && Enabled(n, a, d) && Internal(a) && AllBear(n, d, fate, shut)
    requires KeepsWaits(d, Next(n, a, d).1, fate)
    ensures var (m, e) := Next(n, a, d);
      Bears(m, e, fate, shut) && (Shuts(n, d, fate, shut) ==> Shuts(m, e, fate, shut))
  {
    hide Inv, Clean, Halted, Next;
    EndingIsStill(n, a, d);
    SameId(n, a, d);
    if Halted(n, d, fate) { HaltedStays(n, a, d, fate); }
  }

  lemma SameId(n: Node, a: Act, d: Deps)
    requires Enabled(n, a, d)
    ensures var m := Next(n, a, d).0; m.id == n.id && m.kind == n.kind && m.outcome == n.outcome
  {
  }

  lemma {:induction false} AllBearStays(n: Node, a: Act, d: Deps, fate: nat -> Fate, shut: bool)
    requires Inv(n) && Clean(n) && Enabled(n, a, d) && Internal(a) && AllBear(n, d, fate, shut)
    ensures AllBear(Next(n, a, d).0, Next(n, a, d).1, fate, shut)
    decreases a
  {
    hide Inv, Clean, Next, AllBear, Bears, Shuts, Halted;
    var (m, e) := Next(n, a, d);
    StepKeepsWaits(n, a, d, fate, shut);
    OwnFate(n, a, d, fate, shut);
    AllBearUnfolds(n, d, fate, shut);
    AllBearUnfolds(m, e, fate, shut);
    SameNumber(n, a, d);
    forall i | 0 <= i < |n.kids| ensures AllBear(m.kids[i], e, fate, Shuts(m, e, fate, shut)) {
      var s, t := Shuts(n, d, fate, shut), Shuts(m, e, fate, shut);
      if a.In? {
        InsideStep(n, a.i, a.a, d);
        if a.i == i {
          ElementIsGood(n, i);
          AllBearStays(n.kids[i], a.a, d, fate, s);
          BearOn(m.kids[i], e, e, fate, s, t);
        } else {
          BearOn(n.kids[i], d, e, fate, s, t);
        }
      } else {
        OwnStepBears(n, a, d, fate, shut, i);
        BearOn(m.kids[i], d, e, fate, s, t);
      }
    }
  }

  lemma OwnStepBears(n: Node, a: Act, d: Deps, fate: nat -> Fate, shut: bool, i: nat)
    requires Inv(n) && Clean(n) && Enabled(n, a, d) && Internal(a) && !a.In? && AllBear(n, d, fate, shut)
    requires i < |n.kids| == |Next(n, a, d).0.kids|
    ensures AllBear(Next(n, a, d).0.kids[i], d, fate, Shuts(n, d, fate, shut))
  {
    hide Inv, Clean, AllBear, Halted, Next;
    AllBearUnfolds(n, d, fate, shut);
    if a == TakeKid(i) {
      EndingIsStill(n, a, d);
      if n.kind == Sequential && Halted(n, d, fate) { HaltedSequence(n, d, fate, i); }
      StartedBears(n.kids[i], d, fate, Shuts(n, d, fate, shut));
      TakenElement(n, i, d);
    } else {
      ElementView(n, a, d, i);
      SameFate(n.kids[i], Next(n, a, d).0.kids[i], d, fate, Shuts(n, d, fate, shut));
    }
  }

  // ---- Whole forests ----

  ghost predicate Fated(f: Forest, fate: nat -> Fate) {
    forall i :: 0 <= i < |f.roots| ==> AllBear(f.roots[i], f.deps, fate, false)
  }

  lemma RootReplacedFated(f: Forest, h: Forest, i: nat, fate: nat -> Fate)
    requires Fated(f, fate) && i < |f.roots| == |h.roots| && h.roots == f.roots[i := h.roots[i]]
    requires KeepsWaits(f.deps, h.deps, fate) && AllBear(h.roots[i], h.deps, fate, false)
    ensures Fated(h, fate)
  {
    hide AllBear, KeepsWaits;
    forall j | 0 <= j < |h.roots| ensures AllBear(h.roots[j], h.deps, fate, false) {
      if j != i { BearOn(f.roots[j], f.deps, h.deps, fate, false, false); }
    }
  }

  lemma FatedStep(f: Forest, g: GlobalAct, fate: nat -> Fate)
    requires ForestInv(f) && Fated(f, fate) && CanStep(f, g)
    ensures Fated(Step(f, g), fate)
  {
    hide Inv, Clean, AllBear, Next, HoldersOf;
    var h := Step(f, g);
    match g
    case ComeBack =>
    case Submit(i) =>
      SameFate(f.roots[i], h.roots[i], f.deps, fate, false);
      RootReplacedFated(f, h, i, fate);
    case Take(i) =>
      StartedBears(f.roots[i], f.deps, fate, false);
      RootReplacedFated(f, h, i, fate);
    case Inside(i, a) =>
      StepKeepsWaits(f.roots[i], a, f.deps, fate, false);
      AllBearStays(f.roots[i], a, f.deps, fate, false);
      RootReplacedFated(f, h, i, fate);
    case Finish(i) =>
      SameFate(f.roots[i], h.roots[i], f.deps, fate, false);
      RootReplacedFated(f, h, i, fate);
  }

  lemma {:induction false} FatedRun(f: Forest, gs: seq<GlobalAct>, fate: nat -> Fate)
    requires ForestInv(f) && Fated(f, fate) && Possible(f, gs)
    ensures ForestInv(Reach(f, gs)) && Fated(Reach(f, gs), fate)
    decreases |gs|
  {
    hide ForestInv, Fated;
    if gs != [] {
      ForestStepKeeps(f, gs[0]);
      FatedStep(f, gs[0], fate);
      FatedRun(Step(f, gs[0]), gs[1..], fate);
    }
  }

  lemma {:induction false} NodeBears(n: Node, d: Deps, fate: nat -> Fate, shut: bool, x: Node) returns (s: bool)
    requires AllBear(n, d, fate, shut) && x in Nodes(n)
    ensures Bears(x, d, fate, s)
    decreases n
  {
    if x == n {
      s := shut;
    } else {
      var i :| 0 <= i < |n.kids| && x in Nodes(n.kids[i]);
      s := NodeBears(n.kids[i], d, fate, Shuts(n, d, fate, shut), x);
    }
  }

  lemma BearsInForest(h: Forest, fate: nat -> Fate, x: Node) returns (s: bool)
    requires Fated(h, fate) && InForest(h, x)
    ensures Bears(x, h.deps, fate, s)
  {
    hide Nodes, AllBear;
    RootOf(h, x);
    var j :| 0 <= j < |h.roots| && x in Nodes(h.roots[j]);
    s := NodeBears(h.roots[j], h.deps, fate, false, x);
  }

  lemma {:induction false} NothingBegunBelow(n: Node, x: Node)
    requires Inv(n) && !Begun(n) && x in Nodes(n)
    ensures !Begun(x)
  {
    if Begun(x) { BegunBelow(n, x); }
  }

  /** Fates are final. Whatever still happens in a forest, nodes with a fate do not end with success, those
      fated to idle never begin, with everything inside them, and those fated to hang never end. */
  lemma FatesAreFinal(h: Forest, gs: seq<GlobalAct>, fate: nat -> Fate, x: Node)
    requires ForestInv(h) && Fated(h, fate) && Possible(h, gs) && InForest(Reach(h, gs), x)
    ensures fate(x.id) != Unknown ==> !Succeeded(x)
    ensures fate(x.id) == Idles ==> forall y :: y in Nodes(x) ==> !Begun(y)
    ensures fate(x.id) == Hangs ==> x.ph.Open? && x.ends == 0
  {
    hide Nodes, Inv, Clean, ForestInv, Fated;
    FatedRun(h, gs, fate);
    InForestIsClean(Reach(h, gs), x);
    var s := BearsInForest(Reach(h, gs), fate, x);
    if fate(x.id) != Unknown { NotASuccess(x, Reach(h, gs).deps, fate, s); }
    if fate(x.id) == Idles {
      forall y | y in Nodes(x) ensures !Begun(y) { NothingBegunBelow(x, y); }
    }
    if x.ph.Open? { OpenHasNotEnded(x); }
  }

  lemma OpenHasNotEnded(n: Node)
    requires Inv(n) && n.ph.Open?
    ensures n.ends == 0
  {
  }

  // ---- Waiting for failures ----

  /** Nobody of this id will ever end with success: each has failed, or is a job whose run will. */
  ghost predicate Failure(h: Forest, id: nat) {
    forall e :: InForest(h, e) && e.id == id ==> HasFailed(e)
  }

  /** Each of these waits for another of them or for a failure, and none has begun. */
  ghost predicate Hopeless(h: Forest, s: set<nat>) {
    forall x :: InForest(h, x) && x.id in s ==> !Begun(x) && WaitsHopelessly(h, s, x.id)
  }

  ghost predicate WaitsHopelessly(h: Forest, s: set<nat>, a: nat) {
    exists p :: p in h.deps && p.0 == a && (p.1 in s || Failure(h, p.1))
  }

  /** Held up by an element of such an id. */
  ghost predicate HeldUpBy(n: Node, s: set<nat>) {
    && n.ph.Open?
    && exists i :: 0 <= i < |n.kids| && ((n.kids[i].ph.InQueue? && !n.kids[i].blocked && n.kids[i].id in s)
                                         || HeldUpBy(n.kids[i], s))
  }

  ghost function FateOf(h: Forest, s: set<nat>, hangs: set<nat>): nat -> Fate {
    (id: nat) =>
      if id in s then Idles else if id in hangs then Hangs else if Failure(h, id) then Fails else Unknown
  }

  lemma {:induction false} AllBearFromNodes(n: Node, d: Deps, fate: nat -> Fate, shut: bool)
    requires forall x :: x in Nodes(n) ==> Bears(x, d, fate, false)
    ensures AllBear(n, d, fate, shut)
    decreases n
  {
    SelfInNodes(n);
    forall i | 0 <= i < |n.kids| ensures AllBear(n.kids[i], d, fate, Shuts(n, d, fate, shut)) {
      assert forall x :: x in Nodes(n.kids[i]) ==> x in Nodes(n);
      AllBearFromNodes(n.kids[i], d, fate, Shuts(n, d, fate, shut));
    }
  }

  lemma {:induction false} HeldUpHalts(n: Node, d: Deps, s: set<nat>, fate: nat -> Fate)
    requires HeldUpBy(n, s) && forall x :: x in Nodes(n) && x.id in s ==> WaitsForEver(d, x.id, fate)
    ensures Halted(n, d, fate)
    decreases n
  {
    var i :| 0 <= i < |n.kids| && ((n.kids[i].ph.InQueue? && !n.kids[i].blocked && n.kids[i].id in s)
                                   || HeldUpBy(n.kids[i], s));
    assert forall x :: x in Nodes(n.kids[i]) ==> x in Nodes(n);
    SelfInNodes(n.kids[i]);
    if HeldUpBy(n.kids[i], s) { HeldUpHalts(n.kids[i], d, s, fate); }
    assert HaltedBy(n.kids[i], d, fate);
  }

  lemma HopelessWaits(h: Forest, s: set<nat>, hangs: set<nat>, a: nat)
    requires WaitsHopelessly(h, s, a)
    ensures WaitsForEver(h.deps, a, FateOf(h, s, hangs))
  {
    var p :| p in h.deps && p.0 == a && (p.1 in s || Failure(h, p.1));
    assert FateOf(h, s, hangs)(p.1) != Unknown;
  }

  lemma HopelessIsFated(h: Forest, s: set<nat>, hangs: set<nat>)
    requires Hopeless(h, s) && forall x :: InForest(h, x) && x.id in hangs ==> HeldUpBy(x, s)
    ensures Fated(h, FateOf(h, s, hangs))
  {
    hide Nodes, AllBear;
    var fate := FateOf(h, s, hangs);
    forall i | 0 <= i < |h.roots| ensures AllBear(h.roots[i], h.deps, fate, false) {
      forall x | x in Nodes(h.roots[i]) ensures Bears(x, h.deps, fate, false) {
        RootInForest(h, i, x);
        HopelessBears(h, s, hangs, x);
      }
      AllBearFromNodes(h.roots[i], h.deps, fate, false);
    }
  }

  lemma HopelessBears(h: Forest, s: set<nat>, hangs: set<nat>, x: Node)
    requires Hopeless(h, s) && InForest(h, x) && (x.id in hangs ==> HeldUpBy(x, s))
    ensures Bears(x, h.deps, FateOf(h, s, hangs), false)
  {
    hide InForest, WaitsHopelessly, Halted, WaitsForEver;
    var fate := FateOf(h, s, hangs);
    if x.id in s {
      HopelessWaits(h, s, hangs, x.id);
    } else if x.id in hangs {
      forall y | y in Nodes(x) && y.id in s ensures WaitsForEver(h.deps, y.id, fate) {
        BelowInForest(h, x, y);
        HopelessWaits(h, s, hangs, y.id);
      }
      HeldUpHalts(x, h.deps, s, fate);
    }
  }

  lemma {:induction false} NodesOfNodes(n: Node, x: Node, y: Node)
    requires x in Nodes(n) && y in Nodes(x)
    ensures y in Nodes(n)
    decreases n
  {
    if x != n {
      var i :| 0 <= i < |n.kids| && x in Nodes(n.kids[i]);
      NodesOfNodes(n.kids[i], x, y);
    }
  }

  lemma BelowInForest(h: Forest, x: Node, y: Node)
    requires InForest(h, x) && y in Nodes(x)
    ensures InForest(h, y)
  {
    hide Nodes;
    RootOf(h, x);
    var j :| 0 <= j < |h.roots| && x in Nodes(h.roots[j]);
    NodesOfNodes(h.roots[j], x, y);
    RootInForest(h, j, y);
  }

  /** Who waits, directly or through others, for a failure or for himself never begins, and nothing inside
      him does, whatever else happens. */
  lemma HopelessNeverBegin(h: Forest, gs: seq<GlobalAct>, s: set<nat>, x: Node, y: Node)
    requires ForestInv(h) && Possible(h, gs) && Hopeless(h, s)
    requires InForest(Reach(h, gs), x) && x.id in s && y in Nodes(x)
    ensures !Begun(y)
  {
    hide Hopeless, ForestInv, Fated, InForest, Nodes;
    HopelessIsFated(h, s, {});
    FatesAreFinal(h, gs, FateOf(h, s, {}), x);
  }

  /** And no composite that such an element holds up ever ends. */
  lemma HeldUpForGood(h: Forest, gs: seq<GlobalAct>, s: set<nat>, c: Node, x: Node)
    requires ForestInv(h) && Possible(h, gs) && Hopeless(h, s) && Distinct(FlattenAll(PlanOf(Top(h)).parts))
    requires InForest(h, c) && HeldUpBy(c, s) && InForest(Reach(h, gs), x) && x.id == c.id
    ensures x.ph.Open? && x.ends == 0
  {
    hide ForestInv, Fated, Nodes;
    forall y | InForest(h, y) && y.id in {c.id} ensures HeldUpBy(y, s) {
      OneNodePerIdBelow(Top(h), y, c);
    }
    HopelessIsFated(h, s, {c.id});
    FatesAreFinal(h, gs, FateOf(h, s, {c.id}), x);
    HeldUpHasBegun(h, s, c);
  }

  lemma HeldUpHasBegun(h: Forest, s: set<nat>, c: Node)
    requires Hopeless(h, s) && InForest(h, c) && HeldUpBy(c, s)
    ensures c.id !in s
  {
  }

  /** A job that waits for one that has ended without success never begins. */
  lemma FailureHoldsBack(f: Forest, gs: seq<GlobalAct>, more: seq<GlobalAct>, x: Node, e: Node, y: Node)
    requires Initial(f) && Possible(f, gs) && Possible(Reach(f, gs), more)
    requires Distinct(FlattenAll(PlanOf(Top(f)).parts))
    requires InForest(Reach(f, gs), x) && InForest(Reach(f, gs), e) && (x.id, e.id) in Reach(f, gs).deps
    requires Finishing(e) && !Succeeded(e)
    requires InForest(Reach(Reach(f, gs), more), y) && y.id == x.id
    ensures !Begun(y)
  {
    hide ForestInv, Nodes;
    var h := Reach(f, gs);
    InitialIsGood(f);
    ForestRunKeeps(f, gs);
    RunPlan(f, gs);
    forall z | InForest(h, z) && z.id == e.id ensures HasFailed(z) { OneNodePerIdBelow(Top(h), z, e); }
    assert Failure(h, e.id);
    assert WaitsHopelessly(h, {x.id}, x.id);
    forall z | InForest(h, z) && z.id in {x.id} ensures !Begun(z) {
      if Begun(z) { BegunWaitsForNothing(f, gs, z); }
    }
    SelfInNodes(y);
    HopelessNeverBegin(h, more, {x.id}, y, y);
  }
}
