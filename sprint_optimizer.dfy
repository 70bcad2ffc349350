/** Sprint planning: capacity, greedy task selection under a utilization target, assignment and
    the feasibility verdict (src/sprint_planner/sprint_optimizer.py). */
module Optimizer {
  import opened Reals
  import opened Tasks
  import opened TeamMembers
  import opened Assignments
  import opened Features
  import opened Sprints
  import opened Assigner

  /** The share of the team's hours that task selection may fill. */
  const UtilizationTarget: real := 0.85

  /** Hours of the tasks at the given positions. */
  function Effort(ts: seq<Task>, ps: seq<nat>): real
    requires AllBelow(ps, |ts|)
  {
    if ps == [] then 0.0 else Effort(ts, ps[..|ps| - 1]) + ts[ps[|ps| - 1]].estimatedHours
  }

  lemma EffortAppend(ts: seq<Task>, ps: seq<nat>, p: nat)
    requires AllBelow(ps, |ts|) && p < |ts|
    ensures AllBelow(ps + [p], |ts|) && Effort(ts, ps + [p]) == Effort(ts, ps) + ts[p].estimatedHours
  {
    assert (ps + [p])[..|ps|] == ps;
  }

  /** The effort only depends on the hours of the tasks. */
  lemma {:induction false} EffortDependsOnHours(ts: seq<Task>, ts': seq<Task>, ps: seq<nat>)
    requires |ts| == |ts'| && AllBelow(ps, |ts|)
    requires forall q :: 0 <= q < |ts| ==> ts[q].estimatedHours == ts'[q].estimatedHours
    ensures Effort(ts, ps) == Effort(ts', ps)
  {
    if ps != [] {
      EffortDependsOnHours(ts, ts', ps[..|ps| - 1]);
    }
  }

  /** The greedy scan over positions in the given order: a task is taken when the effort taken
      so far plus its hours is still within the limit; nothing is revisited. */
  function Select(ts: seq<Task>, order: seq<nat>, limit: real): (sel: seq<nat>)
    requires AllBelow(order, |ts|)
    ensures AllBelow(sel, |ts|) && |sel| <= |order|
    ensures sel == [] || Effort(ts, sel) <= limit
  {
    if order == [] then []
    else
      var s := Select(ts, order[..|order| - 1], limit);
      var p := order[|order| - 1];
      if Effort(ts, s) + ts[p].estimatedHours <= limit then
        EffortAppend(ts, s, p);
        s + [p]
      else s
  }

  /** The scan positions at which the greedy scan took a task. */
  function TakenAt(ts: seq<Task>, order: seq<nat>, limit: real): (idx: seq<nat>)
    requires AllBelow(order, |ts|)
    ensures |idx| == |Select(ts, order, limit)|
  {
    if order == [] then []
    else
      var init := order[..|order| - 1];
      var idx := TakenAt(ts, init, limit);
      if Effort(ts, Select(ts, init, limit)) + ts[order[|order| - 1]].estimatedHours <= limit then idx + [|order| - 1]
      else idx
  }

  /** sel is the subsequence of order at the increasing positions idx. */
  predicate Embeds(idx: seq<nat>, sel: seq<nat>, order: seq<nat>)
  {
    && |idx| == |sel|
    && (forall i :: 0 <= i < |idx| ==> idx[i] < |order| && sel[i] == order[idx[i]])
    && (forall i, j :: 0 <= i < j < |idx| ==> idx[i] < idx[j])
  }

  /** An embedding into a prefix is one into the whole, and the last element can join it. */
  lemma EmbedsExtend(idx: seq<nat>, sel: seq<nat>, order: seq<nat>)
    requires order != [] && Embeds(idx, sel, order[..|order| - 1])
    ensures Embeds(idx, sel, order)
    ensures Embeds(idx + [|order| - 1], sel + [order[|order| - 1]], order)
  {
  }

  /** The selection is a subsequence of the scanned order: the task taken i-th sits at the i-th
      taken scan position, and those positions increase. */
  lemma {:induction false} SelectIsSubsequence(ts: seq<Task>, order: seq<nat>, limit: real)
    requires AllBelow(order, |ts|)
    ensures Embeds(TakenAt(ts, order, limit), Select(ts, order, limit), order)
  {
    if order != [] {
      var init := order[..|order| - 1];
      SelectIsSubsequence(ts, init, limit);
      EmbedsExtend(TakenAt(ts, init, limit), Select(ts, init, limit), order);
    }
  }

  /** With non-negative hours, the effort taken never shrinks as the scan goes on. */
  lemma {:induction false} SelectedEffortGrows(ts: seq<Task>, order: seq<nat>, limit: real, k: nat)
    requires AllBelow(order, |ts|) && k <= |order|
    requires forall q :: 0 <= q < |order| ==> ts[order[q]].estimatedHours >= 0.0
    ensures AllBelow(order[..k], |ts|)
    ensures Effort(ts, Select(ts, order[..k], limit)) <= Effort(ts, Select(ts, order, limit))
    decreases |order| - k
  {
    if k < |order| {
      var next := order[..k + 1];
      SelectedEffortGrows(ts, order, limit, k + 1);
      assert next[..k] == order[..k];
      var s := Select(ts, order[..k], limit);
      if Effort(ts, s) + ts[order[k]].estimatedHours <= limit {
        EffortAppend(ts, s, order[k]);
      }
    } else {
      assert order[..k] == order;
    }
  }

  /** Greedy maximality: with non-negative hours, a task the scan passed over would still push the
      final effort above the limit. */
  lemma SkippedTaskDoesNotFit(ts: seq<Task>, order: seq<nat>, limit: real, k: nat)
    requires AllBelow(order, |ts|) && k < |order|
    requires forall q :: 0 <= q < |order| ==> ts[order[q]].estimatedHours >= 0.0
    requires AllBelow(order[..k + 1], |ts|) && AllBelow(order[..k], |ts|)
    requires Select(ts, order[..k + 1], limit) == Select(ts, order[..k], limit)
    ensures Effort(ts, Select(ts, order, limit)) + ts[order[k]].estimatedHours > limit
  {
    var next := order[..k + 1];
    assert next[..k] == order[..k];
    SelectedEffortGrows(ts, order, limit, k);
  }

  function Square(x: real): (y: real)
    ensures y >= 0.0
  {
    if x >= 0.0 then x * x else (-x) * (-x)
  }

  /** Squared distances of the values from m. */
  function SquaredDeviations(xs: seq<real>, m: real): (ds: seq<real>)
    ensures |ds| == |xs|
    ensures forall i :: 0 <= i < |ds| ==> ds[i] >= 0.0
  {
    seq(|xs|, i requires 0 <= i < |xs| => Square(xs[i] - m))
  }

  /** Population variance, 0 for no values. The source compares its square root with 0.3;
      the model compares the variance with 0.09. */
  function Variance(xs: seq<real>): (v: real)
    ensures v >= 0.0
  {
    if xs == [] then 0.0
    else
      var ds := SquaredDeviations(xs, Mean(xs));
      MeanNonNegative(ds);
      Mean(ds)
  }

  /** A team whose members are all equally loaded has no spread. */
  lemma EqualValuesHaveNoVariance(xs: seq<real>, c: real)
    requires xs != []
    requires forall i :: 0 <= i < |xs| ==> xs[i] == c
    ensures Variance(xs) == 0.0
  {
    MeanOfConstant(xs, c);
    var ds := SquaredDeviations(xs, c);
    MeanOfConstant(ds, 0.0);
  }

  /** Example: one idle member and one fully booked one give variance 0.25, a spread of 0.5. */
  lemma IdleAndFullVariance()
    ensures Variance([0.0, 1.0]) == 0.25
  {
    var xs := [0.0, 1.0];
    assert xs[..1] == [0.0] && [0.0][..0] == [];
    assert Mean(xs) == 0.5;
    var ds := SquaredDeviations(xs, 0.5);
    assert ds == [0.25, 0.25];
    assert ds[..1] == [0.25] && [0.25][..0] == [];
  }

  /** The members' workload utilizations, in list order. */
  function Utilizations(ms: seq<TeamMember>): (us: seq<real>)
    ensures |us| == |ms|
  {
    seq(|ms|, j requires 0 <= j < |ms| => WorkloadUtilization(ms[j]))
  }

  /** Planned effort over capacity, 0 without capacity. */
  function Utilization(effort: real, capacity: real): real
  {
    if capacity > 0.0 then effort / capacity else 0.0
  }

  datatype Verdict = Verdict(feasible: bool, risk: RiskLevel)

  /** The feasibility ladder: no assignment at all is critical; otherwise high above 95%
      utilization, medium above 85% or for a spread of workloads above 0.3, low otherwise. */
  function AssessFeasibility(ts: seq<Task>, sel: seq<nat>, ms: seq<TeamMember>, made: seq<Assignment>): (v: Verdict)
    requires AllBelow(sel, |ts|)
    ensures v.risk == CriticalRisk <==> made == []
    ensures !v.feasible <==> v.risk == CriticalRisk || v.risk == HighRisk
    ensures v.risk == HighRisk <==> made != [] && Utilization(Effort(ts, sel), TotalHours(ms)) > 0.95
    ensures v.risk == LowRisk <==>
      made != [] && Utilization(Effort(ts, sel), TotalHours(ms)) <= 0.85 && Variance(Utilizations(ms)) <= 0.09
  {
    if made == [] then Verdict(false, CriticalRisk)
    else
      var workloadVariance := Variance(Utilizations(ms));
      var utilization := Utilization(Effort(ts, sel), TotalHours(ms));
      if utilization > 0.95 then Verdict(false, HighRisk)
      else if utilization > 0.85 then Verdict(true, MediumRisk)
      else if workloadVariance > 0.09 then Verdict(true, MediumRisk)
      else Verdict(true, LowRisk)
  }

  /** Selecting against the target share of a capacity keeps the utilization of that capacity
      at or below the target. */
  lemma SelectionStaysUnderTarget(ts: seq<Task>, order: seq<nat>, capacity: real)
    requires AllBelow(order, |ts|)
    ensures Utilization(Effort(ts, Select(ts, order, capacity * UtilizationTarget)), capacity) <= UtilizationTarget
  {
    var sel := Select(ts, order, capacity * UtilizationTarget);
    var e := Effort(ts, sel);
    assert sel == [] ==> e == 0.0;
    assert e <= capacity * UtilizationTarget || capacity <= 0.0;
    UtilizationWithin(e, capacity, UtilizationTarget);
  }

  lemma UtilizationWithin(e: real, c: real, share: real)
    requires share >= 0.0 && (c > 0.0 ==> e <= c * share)
    ensures Utilization(e, c) <= share
  {
    if c > 0.0 {
      RatioAtMost(e, c, share);
    }
  }

  /** Once the utilization is within the target, the verdict is never high risk, never medium
      for utilization, and infeasible only when nothing was assigned. */
  lemma UnderTargetIsNeverOverloaded(ts: seq<Task>, sel: seq<nat>, ms: seq<TeamMember>, made: seq<Assignment>)
    requires AllBelow(sel, |ts|)
    requires Utilization(Effort(ts, sel), TotalHours(ms)) <= UtilizationTarget
    ensures var v := AssessFeasibility(ts, sel, ms, made);
      && v.risk != HighRisk
      && (v.risk == MediumRisk ==> Variance(Utilizations(ms)) > 0.09)
      && (!v.feasible ==> v.risk == CriticalRisk)
  {
  }

  /** Any assignment run over the positions of a plan whose effort is within the target share of
      the capacity is never judged high risk, is judged medium risk only for an uneven spread of
      the workload, and is infeasible only when nothing was assigned. */
  lemma AssignedUnderTargetIsNeverOverloaded(ts: seq<Task>, ms: seq<TeamMember>, vs: seq<nat>, sel: seq<nat>, now: real)
    requires AllBelow(vs, |ts|) && HoursKnown(ms) && AllBelow(sel, |ts|)
    requires Utilization(Effort(ts, sel), TotalHours(ms)) <= UtilizationTarget
    ensures var r := Run(ts, ms, vs, now);
      var v := AssessFeasibility(r.tasks, sel, r.members, r.made);
      && v.risk != HighRisk
      && (v.risk == MediumRisk ==> Variance(Utilizations(r.members)) > 0.09)
      && (!v.feasible ==> v.risk == CriticalRisk)
  {
    AssignmentKeepsHours(ts, ms, vs, sel, now);
    var r := Run(ts, ms, vs, now);
    UnderTargetIsNeverOverloaded(r.tasks, sel, r.members, r.made);
  }

  /** End to end, for the plan PlanSprint records: tasks selected against the capacity, in
      whatever order they were scanned, and then assigned in whatever order, are never judged
      high risk, are judged medium risk only for an uneven spread of the workload (never for the
      utilization), and are infeasible only when nothing could be assigned. */
  lemma PlannedSprintIsNeverOverloaded(ts: seq<Task>, ms: seq<TeamMember>, order: seq<nat>, vs: seq<nat>, now: real)
    requires AllBelow(order, |ts|) && AllBelow(vs, |ts|) && HoursKnown(ms)
    ensures var sel := Select(ts, order, TotalHours(ms) * UtilizationTarget);
      var r := Run(ts, ms, vs, now);
      var v := AssessFeasibility(r.tasks, sel, r.members, r.made);
      && v.risk != HighRisk
      && (v.risk == MediumRisk ==> Variance(Utilizations(r.members)) > 0.09)
      && (!v.feasible ==> v.risk == CriticalRisk)
  {
    var sel := Select(ts, order, TotalHours(ms) * UtilizationTarget);
    SelectionStaysUnderTarget(ts, order, TotalHours(ms));
    AssignedUnderTargetIsNeverOverloaded(ts, ms, vs, sel, now);
  }

  /** Assigning tasks changes neither the planned effort nor the capacity. */
  lemma AssignmentKeepsHours(ts: seq<Task>, ms: seq<TeamMember>, vs: seq<nat>, sel: seq<nat>, now: real)
    requires AllBelow(vs, |ts|) && HoursKnown(ms) && AllBelow(sel, |ts|)
    ensures var r := Run(ts, ms, vs, now);
      && |r.tasks| == |ts| && Effort(r.tasks, sel) == Effort(ts, sel)
      && TotalHours(r.members) == TotalHours(ms)
  {
    var r := Run(ts, ms, vs, now);
    RunFrame(ts, ms, vs, now);
    EffortDependsOnHours(ts, r.tasks, sel);
    TotalHoursDependsOnHours(ms, r.members);
  }

  /** The capacity only depends on the members' hours. */
  lemma {:induction false} TotalHoursDependsOnHours(ms: seq<TeamMember>, ms': seq<TeamMember>)
    requires |ms| == |ms'|
    requires forall j :: 0 <= j < |ms| ==> ms[j].totalHoursAvailable == ms'[j].totalHoursAvailable
    ensures TotalHours(ms) == TotalHours(ms')
  {
    if ms != [] {
      TotalHoursDependsOnHours(ms[..|ms| - 1], ms'[..|ms'| - 1]);
    }
  }

  class SprintOptimizer {
    /** The assigner the optimizer delegates to; its history spans every plan. */
    const taskAssigner: TaskAssigner

    constructor ()
      ensures fresh(taskAssigner) && taskAssigner.assignments == []
    {
      taskAssigner := new TaskAssigner();
    }

    /** The tasks at positions `ids`, most urgent first, that fit under the target share of the
        capacity when scanned. */
    method SelectTasksForSprint(tasks: array<Task>, ids: seq<nat>, capacity: real, now: real)
      returns (selected: seq<nat>)
      requires AllBelow(ids, tasks.Length)
      ensures selected == Select(tasks[..], VisitOrder(tasks[..], ids, now), capacity * UtilizationTarget)
    {
      var sortedTasks := VisitOrder(tasks[..], ids, now);
      selected := GreedyScan(tasks, sortedTasks, capacity * UtilizationTarget);
    }

    /** The greedy scan with its running total of effort. */
    method GreedyScan(tasks: array<Task>, sortedTasks: seq<nat>, limit: real) returns (selected: seq<nat>)
      requires AllBelow(sortedTasks, tasks.Length)
      ensures selected == Select(tasks[..], sortedTasks, limit)
    {
      selected := [];
      var totalEffort := 0.0;
      for k := 0 to |sortedTasks|
        invariant AllBelow(sortedTasks[..k], tasks.Length)
        invariant selected == Select(tasks[..], sortedTasks[..k], limit)
        invariant totalEffort == Effort(tasks[..], selected)
      {
        assert sortedTasks[..k + 1][..k] == sortedTasks[..k];
        var task := tasks[sortedTasks[k]];
        if totalEffort + task.estimatedHours <= limit {
          EffortAppend(tasks[..], selected, sortedTasks[k]);
          selected := selected + [sortedTasks[k]];
          totalEffort := totalEffort + task.estimatedHours;
        }
      }
      assert sortedTasks[..|sortedTasks|] == sortedTasks;
    }

    /** Plans a sprint: selects tasks within capacity, assigns them, and records the count and the
        feasibility verdict on the sprint, whose other fields stay as they were. */
    method PlanSprint(sprint: Sprint, tasks: array<Task>, ids: seq<nat>, members: array<TeamMember>, now: real)
      returns (selected: seq<nat>)
      requires AllBelow(ids, tasks.Length) && HoursKnown(members[..])
      modifies sprint`isFeasible, sprint`riskLevel, sprint`plannedTasks, taskAssigner, tasks, members
      ensures selected == Select(old(tasks[..]), VisitOrder(old(tasks[..]), ids, now),
                                 TotalHours(old(members[..])) * UtilizationTarget)
      ensures var r := Run(old(tasks[..]), old(members[..]), VisitOrder(old(tasks[..]), selected, now), now);
        && tasks[..] == r.tasks && members[..] == r.members
        && taskAssigner.assignments == old(taskAssigner.assignments) + r.made
        && Verdict(sprint.isFeasible, sprint.riskLevel) == AssessFeasibility(r.tasks, selected, r.members, r.made)
      ensures sprint.plannedTasks == |selected|
    {
      var capacity := TotalHours(members[..]);
      selected := SelectTasksForSprint(tasks, ids, capacity, now);
      var assignments := taskAssigner.AssignTasks(tasks, members, selected, now);
      var verdict := AssessFeasibility(tasks[..], selected, members[..], assignments);
      sprint.isFeasible, sprint.riskLevel := verdict.feasible, verdict.risk;
      sprint.plannedTasks := |selected|;
    }
  }
}
