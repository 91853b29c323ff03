/**
 * The order of a plan pinned down: by depth in the dependency relation, and in declared
 * order within one depth; and what each refused plan is refused for.
 */
module PlanLaws {
  import opened Prelude
  import opened Plans

  // ----- Depth -----

  /** A walk of k dependencies starts at x. */
  ghost predicate Deep(steps: seq<PlanStep>, x: string, k: nat) {
    exists p: seq<string> :: |p| == k + 1 && p[0] == x && IsWalk(steps, p)
  }

  /** The longest walk from x has this many dependencies. */
  ghost predicate DepthIs(steps: seq<PlanStep>, x: string, k: nat) {
    Deep(steps, x, k) && !Deep(steps, x, k + 1)
  }

  lemma {:induction false} DeepDown(steps: seq<PlanStep>, x: string, k: nat)
    requires Deep(steps, x, k + 1)
    ensures Deep(steps, x, k)
  {
    var p: seq<string> :| |p| == k + 2 && p[0] == x && IsWalk(steps, p);
    var q := p[..k + 1];
    forall i, j | 0 <= i < |q| && 0 <= j < |q| && j == i + 1 ensures DependsOn(steps, q[i], q[j]) {
      assert q[i] == p[i] && q[j] == p[j];
    }
    assert IsWalk(steps, q);
  }

  lemma {:induction false} DeepUp(steps: seq<PlanStep>, x: string, y: string, k: nat)
    requires DependsOn(steps, x, y) && Deep(steps, y, k)
    ensures Deep(steps, x, k + 1)
  {
    var p: seq<string> :| |p| == k + 1 && p[0] == y && IsWalk(steps, p);
    var q := [x] + p;
    forall i, j | 0 <= i < |q| && 0 <= j < |q| && j == i + 1 ensures DependsOn(steps, q[i], q[j]) {
      if i > 0 { assert q[i] == p[i - 1] && q[j] == p[j - 1]; }
    }
    assert IsWalk(steps, q);
  }

  lemma {:induction false} DeepStep(steps: seq<PlanStep>, x: string, k: nat) returns (y: string)
    requires Deep(steps, x, k + 1)
    ensures DependsOn(steps, x, y) && Deep(steps, y, k)
  {
    var p: seq<string> :| |p| == k + 2 && p[0] == x && IsWalk(steps, p);
    y := p[1];
    var q := p[1..];
    forall i, j | 0 <= i < |q| && 0 <= j < |q| && j == i + 1 ensures DependsOn(steps, q[i], q[j]) {
      assert q[i] == p[i + 1] && q[j] == p[j + 1];
    }
    assert IsWalk(steps, q);
  }

  // ----- One round is one depth -----

  /** Before the n-th round what is left is exactly what has a walk of n dependencies. */
  ghost predicate LeftIsDeep(steps: seq<PlanStep>, remaining: set<string>, completed: set<string>, n: nat) {
    && remaining + completed == Ids(steps) && remaining !! completed
    && (forall x | x in remaining :: Deep(steps, x, n)) && (forall x | x in completed :: !Deep(steps, x, n))
  }

  /** A ready step depends on steps placed before, so it has no longer walk. */
  lemma {:induction false} ReadyIsShallow(steps: seq<PlanStep>, s: PlanStep, remaining: set<string>, completed: set<string>, n: nat)
    requires UniqueIds(steps) && s in steps && Ready(s, remaining, completed)
    requires forall x | x in completed :: !Deep(steps, x, n)
    ensures !Deep(steps, s.stepId, n + 1)
  {
    if Deep(steps, s.stepId, n + 1) {
      var y := DeepStep(steps, s.stepId, n);
      NotReadyOnCycle(steps, s, y, remaining, completed);
    }
  }

  /** A step that stays behind waits for another that does. */
  lemma {:induction false} LeftGoesDeeper(steps: seq<PlanStep>, x: string, remaining: set<string>, completed: set<string>, n: nat)
    requires UniqueIds(steps) && KnownDependencies(steps) && LeftIsDeep(steps, remaining, completed, n)
    requires x in remaining && x !in Ids(ReadySteps(steps, remaining, completed))
    ensures Deep(steps, x, n + 1)
  {
    var i := IdsWitness(steps, x);
    if Met(steps[i].dependencies, completed) {
      ReadyHas(steps, remaining, completed, i);
    } else {
      var k :| 0 <= k < |steps[i].dependencies| && steps[i].dependencies[k].stepId !in completed;
      assert Met(steps[i].dependencies, Ids(steps));
      assert DependsOn(steps, x, steps[i].dependencies[k].stepId);
      DeepUp(steps, x, steps[i].dependencies[k].stepId, n);
    }
  }

  lemma {:induction false} ReadyHas(steps: seq<PlanStep>, remaining: set<string>, completed: set<string>, i: nat)
    requires i < |steps| && Ready(steps[i], remaining, completed)
    ensures steps[i].stepId in Ids(ReadySteps(steps, remaining, completed))
  {
    var rest := ReadySteps(steps[1..], remaining, completed);
    if i > 0 { ReadyHas(steps[1..], remaining, completed, i - 1); }
    if Ready(steps[0], remaining, completed) { assert ([steps[0]] + rest)[1..] == rest; }
  }

  lemma {:induction false} RoundDeepens(steps: seq<PlanStep>, remaining: set<string>, completed: set<string>, n: nat)
    requires UniqueIds(steps) && KnownDependencies(steps) && LeftIsDeep(steps, remaining, completed, n)
    ensures var placed := Ids(ReadySteps(steps, remaining, completed));
            && placed <= remaining && (forall x | x in placed :: DepthIs(steps, x, n))
            && LeftIsDeep(steps, remaining - placed, completed + placed, n + 1)
  {
    var ready := ReadySteps(steps, remaining, completed);
    ReadyIds(steps, remaining, completed);
    forall x | x in Ids(ready) ensures DepthIs(steps, x, n) {
      var a := IdsWitness(ready, x);
      assert ready[a] in ready;
      ReadyIsShallow(steps, ready[a], remaining, completed, n);
    }
    forall x | x in remaining - Ids(ready) ensures Deep(steps, x, n + 1) {
      LeftGoesDeeper(steps, x, remaining, completed, n);
    }
    forall x | x in completed ensures !Deep(steps, x, n + 1) {
      if Deep(steps, x, n + 1) { DeepDown(steps, x, n); }
    }
  }

  // ----- Declared order within a round -----

  ghost predicate DeclaredBefore(steps: seq<PlanStep>, a: PlanStep, b: PlanStep) {
    exists i, j :: 0 <= i < j < |steps| && steps[i] == a && steps[j] == b
  }

  lemma DeclaredBehind(steps: seq<PlanStep>, a: PlanStep, b: PlanStep)
    requires steps != [] && DeclaredBefore(steps[1..], a, b)
    ensures DeclaredBefore(steps, a, b)
  {
    var i, j :| 0 <= i < j < |steps| - 1 && steps[1..][i] == a && steps[1..][j] == b;
    assert steps[i + 1] == a && steps[j + 1] == b;
  }

  lemma {:induction false} ReadyInOrder(steps: seq<PlanStep>, remaining: set<string>, completed: set<string>, i: nat, j: nat)
    requires i < j < |ReadySteps(steps, remaining, completed)|
    ensures DeclaredBefore(steps, ReadySteps(steps, remaining, completed)[i], ReadySteps(steps, remaining, completed)[j])
  {
    var rest := ReadySteps(steps[1..], remaining, completed);
    if Ready(steps[0], remaining, completed) {
      if i == 0 {
        ReadyIds(steps[1..], remaining, completed);
        assert rest[j - 1] in steps[1..];
        var k :| 0 <= k < |steps| - 1 && steps[1..][k] == rest[j - 1];
        assert steps[0] == ReadySteps(steps, remaining, completed)[0] && steps[k + 1] == rest[j - 1];
      } else {
        ReadyInOrder(steps[1..], remaining, completed, i - 1, j - 1);
        DeclaredBehind(steps, rest[i - 1], rest[j - 1]);
      }
    } else {
      ReadyInOrder(steps[1..], remaining, completed, i, j);
      DeclaredBehind(steps, rest[i], rest[j]);
    }
  }

  // ----- The canonical order -----

  /** Of two steps in the order the first is less deep, or as deep and declared before. */
  ghost predicate Sorted(steps: seq<PlanStep>, order: seq<PlanStep>, depths: seq<nat>) {
    && |depths| == |order|
    && (forall i | 0 <= i < |order| :: DepthIs(steps, order[i].stepId, depths[i]))
    && forall i, j | 0 <= i < j < |order| ::
         depths[i] < depths[j] || (depths[i] == depths[j] && DeclaredBefore(steps, order[i], order[j]))
  }

  predicate AtLeast(depths: seq<nat>, n: nat) {
    forall i | 0 <= i < |depths| :: depths[i] >= n
  }

  lemma {:induction false} RoundSorts(steps: seq<PlanStep>, ready: seq<PlanStep>, rest: seq<PlanStep>, later: seq<nat>, n: nat)
    returns (depths: seq<nat>)
    requires forall i | 0 <= i < |ready| :: DepthIs(steps, ready[i].stepId, n)
    requires forall i, j | 0 <= i < j < |ready| :: DeclaredBefore(steps, ready[i], ready[j])
    requires Sorted(steps, rest, later) && AtLeast(later, n + 1)
    ensures Sorted(steps, ready + rest, depths) && AtLeast(depths, n)
  {
    hide DepthIs, DeclaredBefore;
    depths := seq(|ready|, _ => n) + later;
  }

  lemma {:induction false} ReadySorted(steps: seq<PlanStep>, remaining: set<string>, completed: set<string>, n: nat)
    requires UniqueIds(steps) && KnownDependencies(steps) && LeftIsDeep(steps, remaining, completed, n)
    ensures var ready := ReadySteps(steps, remaining, completed);
            && (forall i | 0 <= i < |ready| :: DepthIs(steps, ready[i].stepId, n))
            && (forall i, j | 0 <= i < j < |ready| :: DeclaredBefore(steps, ready[i], ready[j]))
            && LeftIsDeep(steps, remaining - Ids(ready), completed + Ids(ready), n + 1)
  {
    var ready := ReadySteps(steps, remaining, completed);
    RoundDeepens(steps, remaining, completed, n);
    hide LeftIsDeep, DepthIs, DeclaredBefore, ReadySteps;
    forall i | 0 <= i < |ready| ensures DepthIs(steps, ready[i].stepId, n) {
      IdsContain(ready, i);
    }
    forall i, j | 0 <= i < j < |ready| ensures DeclaredBefore(steps, ready[i], ready[j]) {
      ReadyInOrder(steps, remaining, completed, i, j);
    }
  }

  lemma {:induction false} OrderFromSorted(steps: seq<PlanStep>, remaining: set<string>, completed: set<string>, n: nat) returns (depths: seq<nat>)
    requires UniqueIds(steps) && KnownDependencies(steps) && LeftIsDeep(steps, remaining, completed, n)
    requires OrderFrom(steps, remaining, completed).Some?
    ensures Sorted(steps, OrderFrom(steps, remaining, completed).value, depths) && AtLeast(depths, n)
    decreases |remaining|
  {
    if remaining == {} {
      depths := [];
    } else {
      hide Sorted, AtLeast, LeftIsDeep, DepthIs, DeclaredBefore, UniqueIds, KnownDependencies;
      var ready := ReadySteps(steps, remaining, completed);
      ReadyShrinks(steps, remaining, completed);
      ReadySorted(steps, remaining, completed, n);
      var later := OrderFromSorted(steps, remaining - Ids(ready), completed + Ids(ready), n + 1);
      depths := RoundSorts(steps, ready, OrderFrom(steps, remaining - Ids(ready), completed + Ids(ready)).value, later, n);
    }
  }

  /**
   * The order is a function of the dependency relation and the declared order alone: steps
   * come by the length of their longest dependency chain, and within one length as declared.
   */
  lemma {:induction false} OrderIsCanonical(steps: seq<PlanStep>) returns (depths: seq<nat>)
    requires UniqueIds(steps) && KnownDependencies(steps) && Ordered(steps).Some?
    ensures Sorted(steps, Ordered(steps).value, depths)
  {
    forall x | x in Ids(steps) ensures Deep(steps, x, 0) {
      assert |[x]| == 1 && [x][0] == x && IsWalk(steps, [x]);
    }
    depths := OrderFromSorted(steps, Ids(steps), {}, 0);
  }

  // ----- What a plan is refused for -----

  /** What is wrong with one step, its retry bound first. */
  predicate Faulty(s: StepData, error: PlanError) {
    match error
    case EmptyRetryBound => s.step.retryPolicy.maxAttempts < 1
    case EmptyStepId => s.step.retryPolicy.maxAttempts >= 1 && s.step.stepId == ""
    case EmptyCapability => s.step.retryPolicy.maxAttempts >= 1 && s.step.stepId != "" && s.capability == ""
    case SelfDependency =>
      s.step.retryPolicy.maxAttempts >= 1 && s.step.stepId != "" && s.capability != "" && DependsOnItself(s.step)
    case _ => false
  }

  predicate SoundUpTo(data: seq<StepData>, n: nat)
    requires n <= |data|
  {
    forall i | 0 <= i < n :: Named(data[i]) && !DependsOnItself(data[i].step)
  }

  lemma {:induction false} FirstFault(data: seq<StepData>) returns (i: nat)
    requires CreateSteps(data).Err?
    ensures i < |data| && SoundUpTo(data, i) && Faulty(data[i], CreateSteps(data).error)
  {
    if CreateStep(data[0]).Err? {
      i := 0;
    } else {
      var k := FirstFault(data[1..]);
      i := k + 1;
      assert forall j | 0 < j <= i :: data[j] == data[1..][j - 1];
    }
  }

  /** Two steps of a plan have different identities. */
  predicate AllDiffer(steps: seq<PlanStep>) {
    forall i, j | 0 <= i < j < |steps| :: steps[i].stepId != steps[j].stepId
  }

  lemma {:induction false} UniqueIsDiffering(steps: seq<PlanStep>)
    ensures UniqueIds(steps) <==> AllDiffer(steps)
  {
    if steps != [] {
      UniqueIsDiffering(steps[1..]);
      assert forall i | 0 < i < |steps| :: steps[i] == steps[1..][i - 1];
      if UniqueIds(steps) {
        forall i, j | 0 <= i < j < |steps| ensures steps[i].stepId != steps[j].stepId {
          if steps[i].stepId == steps[j].stepId { UniqueAt(steps, i, j); }
        }
      }
      if AllDiffer(steps) {
        if steps[0].stepId in Ids(steps[1..]) {
          var k := IdsWitness(steps[1..], steps[0].stepId);
          assert false;
        }
        forall i, j | 0 <= i < j < |steps| - 1 ensures steps[1..][i].stepId != steps[1..][j].stepId {
          assert steps[i + 1].stepId != steps[j + 1].stepId;
        }
      }
    }
  }

  /**
   * Why a plan is refused: for what is first wrong with its first unsound step, else for
   * an empty id, else for two steps of one identity, else for a dependency on no step, else
   * for a cycle.
   */
  lemma {:induction false} RefusedFor(planId: string, data: seq<StepData>)
    requires BuildPlan(planId, data).Err?
    ensures var error := BuildPlan(planId, data).error;
            if !StepsAreSound(data) then exists i: nat | i < |data| :: SoundUpTo(data, i) && Faulty(data[i], error)
            else if planId == "" then error == EmptyPlanId
            else if !AllDiffer(StepsOf(data)) then error == DuplicateSteps
            else if !KnownDependencies(StepsOf(data)) then error == MissingDependency
            else Cyclic(StepsOf(data)) && error == CyclicDependencies
  {
    StepsCreatedIff(data);
    UniqueIsDiffering(StepsOf(data));
    if !StepsAreSound(data) {
      var i := FirstFault(data);
    } else if UniqueIds(StepsOf(data)) && KnownDependencies(StepsOf(data)) {
      OrderedStepsCorrect(StepsOf(data));
    }
  }
}
