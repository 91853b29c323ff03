/**
 * Execution plans: steps with dependencies and retry bounds, their validation,
 * and the deterministic topological order the reconciler walks.
 */
module Plans {
  import opened Prelude

  datatype StepStatus =
    | StepPending | StepRunning | StepSucceeded | StepFailed
    | StepBlocked | StepCancelling | StepCancelled

  datatype AttemptStatus =
    | Pending | Running | Succeeded | Failed | Lost | Blocked | Cancelling | Cancelled
  {
    predicate Terminal() {
      Succeeded? || Failed? || Lost? || Blocked? || Cancelled?
    }
  }

  datatype StepDependency = StepDependency(stepId: string, required: StepStatus)

  datatype RetryPolicy = RetryPolicy(maxAttempts: int, retryFailed: bool, retryLost: bool)
  {
    predicate Allows(status: AttemptStatus, attemptsSoFar: nat) {
      if attemptsSoFar >= maxAttempts then false
      else if status.Failed? then retryFailed
      else if status.Lost? then retryLost
      else false
    }
  }

  datatype PlanStep = PlanStep(stepId: string, dependencies: seq<StepDependency>, retryPolicy: RetryPolicy)

  datatype ExecutionPlan = ExecutionPlan(planId: string, steps: seq<PlanStep>)

  datatype PlanError =
    | EmptyPlanId | EmptyStepId | EmptyCapability | SelfDependency | EmptyRetryBound
    | DuplicateSteps | MissingDependency | CyclicDependencies

  function Ids(steps: seq<PlanStep>): set<string> {
    if steps == [] then {} else {steps[0].stepId} + Ids(steps[1..])
  }

  lemma {:induction false} IdsContain(steps: seq<PlanStep>, i: nat)
    requires i < |steps|
    ensures steps[i].stepId in Ids(steps)
  {
    if i > 0 { IdsContain(steps[1..], i - 1); }
  }

  lemma {:induction false} IdsWitness(steps: seq<PlanStep>, x: string) returns (i: nat)
    requires x in Ids(steps)
    ensures i < |steps| && steps[i].stepId == x
  {
    if steps[0].stepId == x { i := 0; }
    else { i := IdsWitness(steps[1..], x); i := i + 1; }
  }

  lemma {:induction false} IdsSnoc(steps: seq<PlanStep>, s: PlanStep)
    ensures Ids(steps + [s]) == Ids(steps) + {s.stepId}
  {
    if steps != [] {
      IdsSnoc(steps[1..], s);
      assert (steps + [s])[1..] == steps[1..] + [s];
    }
  }

  predicate UniqueIds(steps: seq<PlanStep>) {
    steps == [] || (steps[0].stepId !in Ids(steps[1..]) && UniqueIds(steps[1..]))
  }

  lemma {:induction false} UniqueAt(steps: seq<PlanStep>, i: nat, j: nat)
    requires UniqueIds(steps) && i < |steps| && j < |steps| && steps[i].stepId == steps[j].stepId
    ensures i == j
  {
    if i == 0 || j == 0 {
      if i > 0 { IdsContain(steps[1..], i - 1); }
      if j > 0 { IdsContain(steps[1..], j - 1); }
    } else {
      UniqueAt(steps[1..], i - 1, j - 1);
    }
  }

  /** The declared step with this identity, as ExecutionPlan.step looks it up. */
  function FindStep(steps: seq<PlanStep>, stepId: string): Option<PlanStep> {
    if steps == [] then None
    else if steps[0].stepId == stepId then Some(steps[0])
    else FindStep(steps[1..], stepId)
  }

  lemma {:induction false} FindStepCorrect(steps: seq<PlanStep>, stepId: string)
    ensures FindStep(steps, stepId).Some? <==> stepId in Ids(steps)
    ensures FindStep(steps, stepId).Some? ==>
              FindStep(steps, stepId).value in steps && FindStep(steps, stepId).value.stepId == stepId
  {
    if steps != [] { FindStepCorrect(steps[1..], stepId); }
  }

  lemma {:induction false} FindStepUnique(steps: seq<PlanStep>, i: nat)
    requires UniqueIds(steps) && i < |steps|
    ensures FindStep(steps, steps[i].stepId) == Some(steps[i])
  {
    if i > 0 {
      IdsContain(steps[1..], i - 1);
      FindStepUnique(steps[1..], i - 1);
    }
  }

  predicate Met(deps: seq<StepDependency>, completed: set<string>) {
    forall k | 0 <= k < |deps| :: deps[k].stepId in completed
  }

  predicate KnownDependencies(steps: seq<PlanStep>) {
    forall i | 0 <= i < |steps| :: Met(steps[i].dependencies, Ids(steps))
  }

  // ----- The ordering, round by round -----

  predicate Ready(step: PlanStep, remaining: set<string>, completed: set<string>) {
    step.stepId in remaining && Met(step.dependencies, completed)
  }

  function ReadySteps(steps: seq<PlanStep>, remaining: set<string>, completed: set<string>): seq<PlanStep> {
    if steps == [] then []
    else
      var rest := ReadySteps(steps[1..], remaining, completed);
      if Ready(steps[0], remaining, completed) then [steps[0]] + rest else rest
  }

  lemma {:induction false} ReadyIds(steps: seq<PlanStep>, remaining: set<string>, completed: set<string>)
    ensures Ids(ReadySteps(steps, remaining, completed)) <= remaining
    ensures forall s | s in ReadySteps(steps, remaining, completed) :: s in steps && Ready(s, remaining, completed)
  {
    if steps != [] {
      ReadyIds(steps[1..], remaining, completed);
      var rest := ReadySteps(steps[1..], remaining, completed);
      if Ready(steps[0], remaining, completed) {
        assert ([steps[0]] + rest)[1..] == rest;
      }
    }
  }

  lemma {:induction false} ReadyShrinks(steps: seq<PlanStep>, remaining: set<string>, completed: set<string>)
    requires ReadySteps(steps, remaining, completed) != []
    ensures |remaining - Ids(ReadySteps(steps, remaining, completed))| < |remaining|
  {
    var ready := ReadySteps(steps, remaining, completed);
    ReadyIds(steps, remaining, completed);
    IdsContain(ready, 0);
    SubsetSize(remaining - Ids(ready), remaining);
  }

  /** What the rest of the schedule adds to the steps already placed. */
  function Continue(placed: seq<PlanStep>, rest: Option<seq<PlanStep>>): Option<seq<PlanStep>> {
    match rest
    case None => None
    case Some(more) => Some(placed + more)
  }

  function OrderFrom(steps: seq<PlanStep>, remaining: set<string>, completed: set<string>): Option<seq<PlanStep>>
    decreases |remaining|
  {
    if remaining == {} then Some([])
    else
      var ready := ReadySteps(steps, remaining, completed);
      if ready == [] then None
      else
        ReadyShrinks(steps, remaining, completed);
        Continue(ready, OrderFrom(steps, remaining - Ids(ready), completed + Ids(ready)))
  }

  /** The declared steps in dependency order, or None when no order exists. */
  function Ordered(steps: seq<PlanStep>): Option<seq<PlanStep>> {
    OrderFrom(steps, Ids(steps), {})
  }

  lemma ContinueConcat(placed: seq<PlanStep>, ready: seq<PlanStep>, rest: Option<seq<PlanStep>>)
    ensures Continue(placed, Continue(ready, rest)) == Continue(placed + ready, rest)
  {
    if rest.Some? {
      assert placed + (ready + rest.value) == placed + ready + rest.value;
    }
  }

  lemma ContinueNothing(rest: Option<seq<PlanStep>>)
    ensures Continue([], rest) == rest
  {
    if rest.Some? {
      assert [] + rest.value == rest.value;
    }
  }

  /** One round moves the ready steps over, one at a time, in declared order. */
  method PlaceReady(ready: seq<PlanStep>, remaining0: set<string>, completed0: set<string>, ordered0: seq<PlanStep>)
    returns (remaining: set<string>, completed: set<string>, ordered: seq<PlanStep>)
    ensures ordered == ordered0 + ready
    ensures completed == completed0 + Ids(ready)
    ensures remaining == remaining0 - Ids(ready)
  {
    remaining, completed, ordered := remaining0, completed0, ordered0;
    for i := 0 to |ready|
      invariant ordered == ordered0 + ready[..i]
      invariant completed == completed0 + Ids(ready[..i])
      invariant remaining == remaining0 - Ids(ready[..i])
    {
      assert ready[..i + 1] == ready[..i] + [ready[i]];
      IdsSnoc(ready[..i], ready[i]);
      ordered := ordered + [ready[i]];
      completed := completed + {ready[i].stepId};
      remaining := remaining - {ready[i].stepId};
    }
    assert ready[..|ready|] == ready;
  }

  /** The scheduling loop: each round takes every ready step in declared order. */
  method OrderedSteps(plan: ExecutionPlan) returns (r: Result<seq<PlanStep>, PlanError>)
    requires UniqueIds(plan.steps)
    ensures Ordered(plan.steps).Some? ==> r == Ok(Ordered(plan.steps).value)
    ensures Ordered(plan.steps).None? ==> r == Err(CyclicDependencies)
  {
    var remaining := Ids(plan.steps);
    var completed: set<string> := {};
    var ordered: seq<PlanStep> := [];
    ContinueNothing(Ordered(plan.steps));
    while remaining != {}
      invariant Ordered(plan.steps) == Continue(ordered, OrderFrom(plan.steps, remaining, completed))
      decreases |remaining|
    {
      var ready := ReadySteps(plan.steps, remaining, completed);
      if ready == [] {
        return Err(CyclicDependencies);
      }
      ReadyShrinks(plan.steps, remaining, completed);
      ContinueConcat(ordered, ready, OrderFrom(plan.steps, remaining - Ids(ready), completed + Ids(ready)));
      remaining, completed, ordered := PlaceReady(ready, remaining, completed, ordered);
    }
    assert ordered + [] == ordered;
    return Ok(ordered);
  }

  // ----- What the order means -----

  /** Some step with identity x declares a dependency on y. */
  ghost predicate DependsOn(steps: seq<PlanStep>, x: string, y: string) {
    exists i, k :: 0 <= i < |steps| && 0 <= k < |steps[i].dependencies| &&
                   steps[i].stepId == x && steps[i].dependencies[k].stepId == y
  }

  ghost predicate IsWalk(steps: seq<PlanStep>, p: seq<string>) {
    forall i, j | 0 <= i < |p| && 0 <= j < |p| && j == i + 1 :: DependsOn(steps, p[i], p[j])
  }

  /** p is a closed walk along the dependency relation. */
  ghost predicate IsCycle(steps: seq<PlanStep>, p: seq<string>) {
    |p| > 0 && IsWalk(steps, p) && DependsOn(steps, p[|p| - 1], p[0])
  }

  ghost predicate Cyclic(steps: seq<PlanStep>) {
    exists p :: IsCycle(steps, p)
  }

  /** Every dependency of the i-th entry is met already or is an entry before it. */
  predicate MetBefore(order: seq<PlanStep>, completed: set<string>, i: nat)
    requires i <= |order|
  {
    i < |order| ==> Met(order[i].dependencies, completed + Ids(order[..i]))
  }

  predicate Topological(order: seq<PlanStep>) {
    forall i: nat | i < |order| :: MetBefore(order, {}, i)
  }

  /** The declared steps whose identity lies in the given set, in declared order. */
  function Members(steps: seq<PlanStep>, ids: set<string>): seq<PlanStep> {
    if steps == [] then []
    else
      var rest := Members(steps[1..], ids);
      if steps[0].stepId in ids then [steps[0]] + rest else rest
  }

  lemma {:induction false} MembersSplit(steps: seq<PlanStep>, ids: set<string>, part: set<string>)
    requires part <= ids
    ensures multiset(Members(steps, ids)) == multiset(Members(steps, part)) + multiset(Members(steps, ids - part))
  {
    if steps != [] {
      MembersSplit(steps[1..], ids, part);
    }
  }

  lemma {:induction false} MembersAll(steps: seq<PlanStep>, ids: set<string>)
    requires Ids(steps) <= ids
    ensures Members(steps, ids) == steps
  {
    if steps != [] {
      MembersAll(steps[1..], ids);
    }
  }

  lemma {:induction false} MembersNone(steps: seq<PlanStep>)
    ensures Members(steps, {}) == []
  {
    if steps != [] { MembersNone(steps[1..]); }
  }

  /** Members only looks at the identities the steps carry. */
  lemma {:induction false} MembersCongruent(steps: seq<PlanStep>, a: set<string>, b: set<string>)
    requires forall x | x in Ids(steps) :: x in a <==> x in b
    ensures Members(steps, a) == Members(steps, b)
  {
    if steps != [] {
      MembersCongruent(steps[1..], a, b);
    }
  }

  lemma {:induction false} ReadyWithin(steps: seq<PlanStep>, remaining: set<string>, completed: set<string>)
    ensures Ids(ReadySteps(steps, remaining, completed)) <= Ids(steps)
  {
    if steps != [] {
      ReadyWithin(steps[1..], remaining, completed);
      var rest := ReadySteps(steps[1..], remaining, completed);
      if Ready(steps[0], remaining, completed) {
        assert ([steps[0]] + rest)[1..] == rest;
      }
    }
  }

  lemma {:induction false} ReadyAreMembers(steps: seq<PlanStep>, remaining: set<string>, completed: set<string>)
    requires UniqueIds(steps)
    ensures var ready := ReadySteps(steps, remaining, completed);
            Members(steps, Ids(ready)) == ready
  {
    if steps != [] {
      ReadyAreMembers(steps[1..], remaining, completed);
      ReadyWithin(steps[1..], remaining, completed);
      var rest := ReadySteps(steps[1..], remaining, completed);
      if Ready(steps[0], remaining, completed) {
        assert ([steps[0]] + rest)[1..] == rest;
        MembersCongruent(steps[1..], Ids([steps[0]] + rest), Ids(rest));
      }
    }
  }

  lemma {:induction false} IdsConcat(a: seq<PlanStep>, b: seq<PlanStep>)
    ensures Ids(a + b) == Ids(a) + Ids(b)
  {
    if a == [] {
      assert [] + b == b;
    } else {
      IdsConcat(a[1..], b);
      assert (a + b)[1..] == a[1..] + b;
    }
  }

  lemma {:induction false} MetConcat(ready: seq<PlanStep>, rest: seq<PlanStep>, completed: set<string>, i: nat)
    requires i < |rest| && MetBefore(rest, completed + Ids(ready), i)
    ensures MetBefore(ready + rest, completed, |ready| + i)
  {
    assert (ready + rest)[..|ready| + i] == ready + rest[..i];
    IdsConcat(ready, rest[..i]);
    assert completed + Ids(ready) + Ids(rest[..i]) == completed + (Ids(ready) + Ids(rest[..i]));
  }

  lemma {:induction false} MetFirst(ready: seq<PlanStep>, rest: seq<PlanStep>, completed: set<string>, i: nat)
    requires i < |ready| && Met(ready[i].dependencies, completed)
    ensures MetBefore(ready + rest, completed, i)
  {
    assert (ready + rest)[i] == ready[i];
  }

  lemma {:induction false} RoundSound(steps: seq<PlanStep>, remaining: set<string>, completed: set<string>, rest: seq<PlanStep>)
    requires UniqueIds(steps)
    requires var ready := ReadySteps(steps, remaining, completed);
             && multiset(rest) == multiset(Members(steps, remaining - Ids(ready)))
             && forall i: nat | i < |rest| :: MetBefore(rest, completed + Ids(ready), i)
    ensures var order := ReadySteps(steps, remaining, completed) + rest;
            && multiset(order) == multiset(Members(steps, remaining))
            && forall i: nat | i < |order| :: MetBefore(order, completed, i)
  {
    var ready := ReadySteps(steps, remaining, completed);
    ReadyIds(steps, remaining, completed);
    ReadyAreMembers(steps, remaining, completed);
    MembersSplit(steps, remaining, Ids(ready));
    var order := ready + rest;
    forall i: nat | i < |order| ensures MetBefore(order, completed, i) {
      if i < |ready| {
        assert ready[i] in ready;
        MetFirst(ready, rest, completed, i);
      } else {
        MetConcat(ready, rest, completed, i - |ready|);
      }
    }
  }

  /** The rounds keep the multiset of steps and put dependencies first. */
  lemma {:induction false} OrderFromSound(steps: seq<PlanStep>, remaining: set<string>, completed: set<string>)
    requires UniqueIds(steps)
    requires OrderFrom(steps, remaining, completed).Some?
    ensures var order := OrderFrom(steps, remaining, completed).value;
            && multiset(order) == multiset(Members(steps, remaining))
            && forall i: nat | i < |order| :: MetBefore(order, completed, i)
    decreases |remaining|
  {
    if remaining == {} {
      MembersNone(steps);
    } else {
      var ready := ReadySteps(steps, remaining, completed);
      ReadyShrinks(steps, remaining, completed);
      OrderFromSound(steps, remaining - Ids(ready), completed + Ids(ready));
      RoundSound(steps, remaining, completed,
                 OrderFrom(steps, remaining - Ids(ready), completed + Ids(ready)).value);
    }
  }

  lemma {:induction false} NotReadyOnCycle(steps: seq<PlanStep>, s: PlanStep, y: string, remaining: set<string>, completed: set<string>)
    requires UniqueIds(steps) && s in steps && DependsOn(steps, s.stepId, y) && y !in completed
    ensures !Ready(s, remaining, completed)
  {
    var b, k :| 0 <= b < |steps| && 0 <= k < |steps[b].dependencies| &&
                steps[b].stepId == s.stepId && steps[b].dependencies[k].stepId == y;
    var a :| 0 <= a < |steps| && steps[a] == s;
    UniqueAt(steps, a, b);
  }

  lemma {:induction false} CycleStaysOut(steps: seq<PlanStep>, p: seq<string>, remaining: set<string>, completed: set<string>, i: nat)
    requires UniqueIds(steps) && IsCycle(steps, p) && i < |p|
    requires forall x | x in p :: x in remaining
    requires remaining !! completed
    ensures p[i] !in Ids(ReadySteps(steps, remaining, completed))
  {
    var ready := ReadySteps(steps, remaining, completed);
    if p[i] in Ids(ready) {
      ReadyIds(steps, remaining, completed);
      var a := IdsWitness(ready, p[i]);
      var y := if i < |p| - 1 then p[i + 1] else p[0];
      assert y in p;
      assert ready[a] in ready;
      NotReadyOnCycle(steps, ready[a], y, remaining, completed);
    }
  }

  /** A step on a cycle never becomes ready, so the schedule gets stuck. */
  lemma {:induction false} CycleBlocks(steps: seq<PlanStep>, p: seq<string>, remaining: set<string>, completed: set<string>)
    requires UniqueIds(steps) && IsCycle(steps, p)
    requires forall x | x in p :: x in remaining
    requires remaining !! completed
    ensures OrderFrom(steps, remaining, completed).None?
    decreases |remaining|
  {
    assert p[0] in remaining;
    var ready := ReadySteps(steps, remaining, completed);
    if ready != [] {
      forall x | x in p ensures x in remaining - Ids(ready) {
        var i :| 0 <= i < |p| && p[i] == x;
        CycleStaysOut(steps, p, remaining, completed, i);
      }
      ReadyShrinks(steps, remaining, completed);
      CycleBlocks(steps, p, remaining - Ids(ready), completed + Ids(ready));
    }
  }

  lemma {:induction false} WalkSnoc(steps: seq<PlanStep>, p: seq<string>, y: string)
    requires |p| > 0 && IsWalk(steps, p) && DependsOn(steps, p[|p| - 1], y)
    ensures IsWalk(steps, p + [y])
  {
    var q := p + [y];
    forall i, j | 0 <= i < |q| && 0 <= j < |q| && j == i + 1 ensures DependsOn(steps, q[i], q[j]) {
      assert q[i] == p[i];
      if j < |p| { assert q[j] == p[j]; }
    }
  }

  lemma {:induction false} WalkCloses(steps: seq<PlanStep>, p: seq<string>, k: nat)
    requires k < |p| && IsWalk(steps, p) && DependsOn(steps, p[|p| - 1], p[k])
    ensures IsCycle(steps, p[k..])
  {
    var c := p[k..];
    forall i, j | 0 <= i < |c| && 0 <= j < |c| && j == i + 1 ensures DependsOn(steps, c[i], c[j]) {
      assert c[i] == p[k + i] && c[j] == p[k + j];
    }
  }

  /** x has a dependency inside the set. */
  ghost predicate Stuck(steps: seq<PlanStep>, stuck: set<string>, x: string) {
    exists y :: y in stuck && DependsOn(steps, x, y)
  }

  ghost predicate AllStuck(steps: seq<PlanStep>, stuck: set<string>) {
    forall x {:trigger Stuck(steps, stuck, x)} | x in stuck :: Stuck(steps, stuck, x)
  }

  /** Every member of the set is visited by p or still left to visit. */
  ghost predicate Covered(stuck: set<string>, p: seq<string>, left: set<string>) {
    forall x | x in stuck :: x in p || x in left
  }

  lemma CoveredSnoc(stuck: set<string>, p: seq<string>, left: set<string>, y: string)
    requires Covered(stuck, p, left) && y in stuck && y !in p
    ensures y in left && Covered(stuck, p + [y], left - {y})
  {
    forall x | x in stuck ensures x in p + [y] || x in left - {y} {
      assert x in p || x in left;
    }
  }

  lemma PositionOf(p: seq<string>, y: string) returns (k: nat)
    requires y in p
    ensures k < |p| && p[k] == y
  {
    k :| 0 <= k < |p| && p[k] == y;
  }

  /** Following unmet dependencies inside a finite set must revisit a step. */
  lemma {:induction false} WalkFindsCycle(steps: seq<PlanStep>, stuck: set<string>, p: seq<string>, left: set<string>)
    requires AllStuck(steps, stuck)
    requires |p| > 0 && p[|p| - 1] in stuck && IsWalk(steps, p)
    requires Covered(stuck, p, left)
    ensures Cyclic(steps)
    decreases |left|
  {
    var last := p[|p| - 1];
    assert Stuck(steps, stuck, last);
    var y :| y in stuck && DependsOn(steps, last, y);
    if y in p {
      var k := PositionOf(p, y);
      WalkCloses(steps, p, k);
    } else {
      WalkSnoc(steps, p, y);
      CoveredSnoc(stuck, p, left, y);
      WalkFindsCycle(steps, stuck, p + [y], left - {y});
    }
  }

  lemma {:induction false} NotReadyWhenEmpty(steps: seq<PlanStep>, remaining: set<string>, completed: set<string>, i: nat)
    requires ReadySteps(steps, remaining, completed) == [] && i < |steps|
    ensures !Ready(steps[i], remaining, completed)
  {
    if i > 0 { NotReadyWhenEmpty(steps[1..], remaining, completed, i - 1); }
  }

  lemma {:induction false} UnmetDependency(steps: seq<PlanStep>, remaining: set<string>, completed: set<string>, x: string)
    requires KnownDependencies(steps)
    requires remaining + completed == Ids(steps)
    requires ReadySteps(steps, remaining, completed) == [] && x in remaining
    ensures Stuck(steps, remaining, x)
  {
    var i := IdsWitness(steps, x);
    NotReadyWhenEmpty(steps, remaining, completed, i);
    var k :| 0 <= k < |steps[i].dependencies| && steps[i].dependencies[k].stepId !in completed;
    assert Met(steps[i].dependencies, Ids(steps));
    assert DependsOn(steps, x, steps[i].dependencies[k].stepId);
  }

  lemma {:induction false} NothingReady(steps: seq<PlanStep>, remaining: set<string>, completed: set<string>)
    requires KnownDependencies(steps)
    requires remaining + completed == Ids(steps)
    requires ReadySteps(steps, remaining, completed) == []
    ensures AllStuck(steps, remaining)
  {
    forall x {:trigger Stuck(steps, remaining, x)} | x in remaining ensures Stuck(steps, remaining, x) {
      UnmetDependency(steps, remaining, completed, x);
    }
  }

  lemma {:induction false} StuckIsCyclic(steps: seq<PlanStep>, remaining: set<string>, completed: set<string>)
    requires KnownDependencies(steps)
    requires remaining + completed == Ids(steps)
    requires OrderFrom(steps, remaining, completed).None?
    ensures Cyclic(steps)
    decreases |remaining|
  {
    var ready := ReadySteps(steps, remaining, completed);
    if ready != [] {
      ReadyShrinks(steps, remaining, completed);
      ReadyIds(steps, remaining, completed);
      StuckIsCyclic(steps, remaining - Ids(ready), completed + Ids(ready));
    } else {
      NothingReady(steps, remaining, completed);
      var x :| x in remaining;
      assert IsWalk(steps, [x]);
      assert Covered(remaining, [x], remaining);
      WalkFindsCycle(steps, remaining, [x], remaining);
    }
  }

  lemma {:induction false} CycleInside(steps: seq<PlanStep>, p: seq<string>, x: string)
    requires IsCycle(steps, p) && x in p
    ensures x in Ids(steps)
  {
    var i :| 0 <= i < |p| && p[i] == x;
    var y := if i < |p| - 1 then p[i + 1] else p[0];
    assert DependsOn(steps, x, y);
    var b :| 0 <= b < |steps| && steps[b].stepId == x;
    IdsContain(steps, b);
  }

  /**
   * ordered_steps on unique identities and known dependencies: it fails exactly on a
   * dependency cycle, and otherwise returns a permutation with dependencies first.
   */
  lemma {:induction false} OrderedStepsCorrect(steps: seq<PlanStep>)
    requires UniqueIds(steps) && KnownDependencies(steps)
    ensures Ordered(steps).None? <==> Cyclic(steps)
    ensures Ordered(steps).Some? ==>
              && multiset(Ordered(steps).value) == multiset(steps)
              && Topological(Ordered(steps).value)
  {
    if Ordered(steps).None? {
      StuckIsCyclic(steps, Ids(steps), {});
    } else {
      OrderFromSound(steps, Ids(steps), {});
      MembersAll(steps, Ids(steps));
      if Cyclic(steps) {
        var p :| IsCycle(steps, p);
        forall x | x in p ensures x in Ids(steps) {
          CycleInside(steps, p, x);
        }
        CycleBlocks(steps, p, Ids(steps), {});
      }
    }
  }

  // ----- Construction -----

  /** ExecutionPlan's own validation, in the order the constructor performs it. */
  function CreatePlan(planId: string, steps: seq<PlanStep>): Result<ExecutionPlan, PlanError> {
    if planId == "" then Err(EmptyPlanId)
    else if !UniqueIds(steps) then Err(DuplicateSteps)
    else if !KnownDependencies(steps) then Err(MissingDependency)
    else if Ordered(steps).None? then Err(CyclicDependencies)
    else Ok(ExecutionPlan(planId, steps))
  }

  lemma {:induction false} CreatePlanIff(planId: string, steps: seq<PlanStep>)
    ensures CreatePlan(planId, steps).Ok? <==>
            planId != "" && UniqueIds(steps) && KnownDependencies(steps) && !Cyclic(steps)
    ensures CreatePlan(planId, steps).Ok? ==> CreatePlan(planId, steps).value == ExecutionPlan(planId, steps)
    ensures UniqueIds(steps) && KnownDependencies(steps) && planId != "" && Cyclic(steps) ==>
              CreatePlan(planId, steps) == Err(CyclicDependencies)
  {
    if UniqueIds(steps) && KnownDependencies(steps) {
      OrderedStepsCorrect(steps);
    }
  }

  predicate DependsOnItself(s: PlanStep) {
    exists k | 0 <= k < |s.dependencies| :: s.dependencies[k].stepId == s.stepId
  }

  /** What a plan document holds of a step; the scheduler never looks at its capability. */
  datatype StepData = StepData(step: PlanStep, capability: string)

  /** One step's own validation: its retry policy is built first. */
  function CreateStep(s: StepData): Result<PlanStep, PlanError> {
    if s.step.retryPolicy.maxAttempts < 1 then Err(EmptyRetryBound)
    else if s.step.stepId == "" then Err(EmptyStepId)
    else if s.capability == "" then Err(EmptyCapability)
    else if DependsOnItself(s.step) then Err(SelfDependency)
    else Ok(s.step)
  }

  function StepsOf(data: seq<StepData>): (steps: seq<PlanStep>)
    ensures |steps| == |data| && forall i | 0 <= i < |data| :: steps[i] == data[i].step
  {
    if data == [] then [] else [data[0].step] + StepsOf(data[1..])
  }

  /** The steps of a stored plan are built in their order; the first bad one raises. */
  function CreateSteps(data: seq<StepData>): Result<seq<PlanStep>, PlanError> {
    if data == [] then Ok([])
    else match CreateStep(data[0])
      case Err(e) => Err(e)
      case Ok(first) =>
        match CreateSteps(data[1..])
        case Err(e) => Err(e)
        case Ok(rest) => Ok([first] + rest)
  }

  /** What a plan document holds becomes a plan object, or raises. */
  function BuildPlan(planId: string, data: seq<StepData>): Result<ExecutionPlan, PlanError> {
    match CreateSteps(data)
    case Err(e) => Err(e)
    case Ok(steps) => CreatePlan(planId, steps)
  }

  /** The fields of a step are filled in. */
  predicate Named(s: StepData) {
    s.step.retryPolicy.maxAttempts >= 1 && s.step.stepId != "" && s.capability != ""
  }

  predicate StepsAreSound(data: seq<StepData>) {
    forall i | 0 <= i < |data| :: Named(data[i]) && !DependsOnItself(data[i].step)
  }

  lemma {:induction false} StepsCreatedIff(data: seq<StepData>)
    ensures CreateSteps(data).Ok? <==> StepsAreSound(data)
    ensures CreateSteps(data).Ok? ==> CreateSteps(data).value == StepsOf(data)
  {
    if data != [] {
      StepsCreatedIff(data[1..]);
      assert data == [data[0]] + data[1..];
      assert forall i | 0 < i < |data| :: data[i] == data[1..][i - 1];
      assert forall i | 0 <= i < |data| - 1 :: data[1..][i] == data[i + 1];
      assert StepsAreSound(data) <==> CreateStep(data[0]).Ok? && StepsAreSound(data[1..]);
    }
  }

  /** A step that depends on itself is a cycle of one. */
  lemma SelfDependencyIsCycle(steps: seq<PlanStep>, i: nat)
    requires i < |steps| && DependsOnItself(steps[i])
    ensures Cyclic(steps)
  {
    assert IsCycle(steps, [steps[i].stepId]);
  }

  /**
   * A plan object exists exactly for a non-empty id and steps with names, capabilities
   * and retry bounds of at least one, unique identities, and known, acyclic dependencies;
   * it is then the valid plan of those steps.
   */
  lemma {:induction false} PlanAcceptedIff(planId: string, data: seq<StepData>)
    ensures BuildPlan(planId, data).Ok? <==>
            && planId != "" && (forall i | 0 <= i < |data| :: Named(data[i]))
            && UniqueIds(StepsOf(data)) && KnownDependencies(StepsOf(data)) && !Cyclic(StepsOf(data))
    ensures BuildPlan(planId, data).Ok? ==>
              && BuildPlan(planId, data).value == ExecutionPlan(planId, StepsOf(data))
              && ValidPlan(ExecutionPlan(planId, StepsOf(data)))
    ensures planId != "" && StepsAreSound(data) && UniqueIds(StepsOf(data)) && KnownDependencies(StepsOf(data))
            && Cyclic(StepsOf(data)) ==>
              BuildPlan(planId, data) == Err(CyclicDependencies)
  {
    StepsCreatedIff(data);
    CreatePlanIff(planId, StepsOf(data));
    if i :| 0 <= i < |data| && DependsOnItself(data[i].step) {
      SelfDependencyIsCycle(StepsOf(data), i);
    }
    forall i | 0 <= i < |data| ensures StepsOf(data)[i].retryPolicy.maxAttempts == data[i].step.retryPolicy.maxAttempts {}
  }

  predicate ValidPlan(plan: ExecutionPlan) {
    && UniqueIds(plan.steps)
    && KnownDependencies(plan.steps)
    && Ordered(plan.steps).Some?
    && forall i | 0 <= i < |plan.steps| :: plan.steps[i].retryPolicy.maxAttempts >= 1
  }

  /** Every dependency of every step waits for success, as the compiled training plan declares. */
  predicate RequiresSuccess(plan: ExecutionPlan) {
    forall i | 0 <= i < |plan.steps| :: AllRequireSuccess(plan.steps[i].dependencies)
  }

  predicate AllRequireSuccess(deps: seq<StepDependency>) {
    forall k | 0 <= k < |deps| :: deps[k].required == StepSucceeded
  }
}
