/** The part of a tree that never changes: who its nodes are and how each own run will end. */
module CollectionPlan {
  import opened JobStatus
  import opened CollectionLedger
  import opened CollectionTree
  import opened CollectionInvariant

  datatype Plan = Plan(id: nat, kind: Kind, outcome: Status, parts: seq<Plan>)

  function PlanOf(n: Node): Plan {
    Plan(n.id, n.kind, n.outcome, seq(|n.kids|, i requires 0 <= i < |n.kids| => PlanOf(n.kids[i])))
  }

  /** The ids of a tree, each node before its elements and these in their order. */
  function Flatten(p: Plan): seq<nat>
    decreases p, 1
  {
    [p.id] + FlattenAll(p.parts)
  }

  function FlattenAll(ps: seq<Plan>): seq<nat>
    decreases ps, 0
  {
    if ps == [] then [] else Flatten(ps[0]) + FlattenAll(ps[1..])
  }

  lemma SamePlan(n: Node, m: Node)
    requires m.id == n.id && m.kind == n.kind && m.outcome == n.outcome && |m.kids| == |n.kids|
    requires forall i :: 0 <= i < |n.kids| ==> PlanOf(m.kids[i]) == PlanOf(n.kids[i])
    ensures PlanOf(m) == PlanOf(n)
  {
  }

  lemma SweepPlan(n: Node, d: Deps)
    ensures PlanOf(SweepOn(n, d).0) == PlanOf(n)
  {
    if Sweeping(n) && n.sweep.i < |n.kids| {
      var k := n.kids[n.sweep.i];
      SamePlan(k, WithdrawElement(k));
      SamePlan(k, k.(blocked := false));
    }
    SamePlan(n, SweepOn(n, d).0);
  }

  lemma EnqueuePlan(n: Node)
    ensures PlanOf(EnqueueElements(n)) == PlanOf(n)
  {
  }

  lemma AdvancePlan(n: Node)
    ensures PlanOf(Advance(n)) == PlanOf(n)
  {
  }

  lemma PartCompletedPlan(n: Node, s: Status, d: Deps)
    ensures PlanOf(PartCompleted(n, s, d).0) == PlanOf(n)
  {
    var m := SetStatus(n, UpdatedStatus(s));
    SamePlan(n, m);
    AdvancePlan(m);
    SamePlan(Advance(m), Settle(Advance(m), d).0);
    SamePlan(m, PartCompleted(n, s, d).0);
  }

  lemma KidPlan(n: Node, i: nat, k: Node)
    requires i < |n.kids| && PlanOf(k) == PlanOf(n.kids[i])
    ensures PlanOf(n.(kids := n.kids[i := k])) == PlanOf(n)
  {
  }

  /** No step changes the plan. */
  lemma {:induction false} StepPlan(n: Node, a: Act, d: Deps)
    requires Enabled(n, a, d) && Internal(a)
    ensures PlanOf(Next(n, a, d).0) == PlanOf(n)
    decreases a
  {
    var m := Next(n, a, d).0;
    match a
    case FinishRun => SamePlan(n, m);
    case EndRun =>
      var e := if n.kind == Leaf then n else if n.led.shouldAbort then n.(skipped := true) else EnqueueElements(n);
      SamePlan(n, n.(skipped := true));
      EnqueuePlan(n);
      PartCompletedPlan(e, n.led.status, d);
      SamePlan(n, n.(ph := Ending));
    case StopInWindow => SamePlan(n, m);
    case Sweep => SweepPlan(n, d);
    case AfterWindow =>
      var s := SetStatus(n, n.ph.failure);
      SamePlan(n, s);
      AdvancePlan(s);
      SamePlan(Advance(s), m);
    case TakeKid(i) =>
      SamePlan(n.kids[i], StartNode(n.kids[i]));
      KidPlan(n, i, StartNode(n.kids[i]));
      SamePlan(n.(kids := n.kids[i := StartNode(n.kids[i])]), m);
    case KidEnd(i) =>
      SamePlan(n.kids[i], n.kids[i].(ph := Ended));
      KidPlan(n, i, n.kids[i].(ph := Ended));
      PartCompletedPlan(n.(kids := n.kids[i := n.kids[i].(ph := Ended)]), n.kids[i].led.status, d);
    case In(i, b) =>
      StepPlan(n.kids[i], b, d);
      KidPlan(n, i, Next(n.kids[i], b, d).0);
  }
}
