/** Post-sprint feedback: estimation accuracy, member and task metrics, the history of sprints
    and the profile updates that feed back into scoring (src/learning/feedback_loop.py). */
module Feedback {
  import opened Wrappers
  import opened Reals
  import opened Tasks
  import opened TeamMembers
  import opened Assignments

  /** One estimate set against the hours actually spent. */
  datatype ErrorEntry = ErrorEntry(estimated: real, actual: real, error: real, errorPercent: real)

  datatype AccuracyMetrics = AccuracyMetrics(estimatedVsActual: seq<ErrorEntry>, predictionError: real)

  datatype MemberMetrics = MemberMetrics(finalWorkload: real, reliability: real)

  datatype TaskMetrics = TaskMetrics(totalTasks: nat, completed: nat, delayed: nat, completionRate: real, delayRate: real)

  /** One entry of the feedback history; `timestamp` is the time it was collected. */
  datatype SprintFeedback = SprintFeedback(
    timestamp: real,
    assignmentsCompleted: nat,
    totalAssignments: nat,
    accuracyMetrics: AccuracyMetrics,
    memberFeedback: map<string, MemberMetrics>,
    taskFeedback: TaskMetrics)

  datatype Insights = Insights(sprintsCompleted: nat, averageCompletionRate: real, averagePredictionError: real)

  /** The error of an estimate, absolute and as a percentage of the estimate (0 for an estimate
      that is not positive). */
  function ErrorEntryOf(estimated: real, actual: real): (e: ErrorEntry)
    ensures e.estimated == estimated && e.actual == actual
    ensures e.error >= 0.0 && (e.error == 0.0 <==> estimated == actual)
    ensures e.error == estimated - actual || e.error == actual - estimated
    ensures estimated <= 0.0 ==> e.errorPercent == 0.0
    ensures estimated > 0.0 ==> e.errorPercent * estimated == e.error * 100.0
  {
    var error := Abs(estimated - actual);
    ErrorEntry(estimated, actual, error, if estimated > 0.0 then (error / estimated) * 100.0 else 0.0)
  }

  /** The entries for the assignments whose actual hours are known, in list order. */
  function ErrorEntries(assignments: seq<Assignment>): (es: seq<ErrorEntry>)
    ensures |es| <= |assignments|
  {
    if assignments == [] then []
    else
      var a := assignments[|assignments| - 1];
      var init := ErrorEntries(assignments[..|assignments| - 1]);
      if a.actualHours.Some? then init + [ErrorEntryOf(a.estimatedHours, a.actualHours.value)] else init
  }

  /** The assignment has its actual hours known. */
  predicate Tracked(a: Assignment)
  {
    a.actualHours.Some?
  }

  /** The entries come from the tracked assignments only: none exactly when no assignment is
      tracked, and each entry is the error of a tracked assignment. */
  lemma {:induction false} ErrorEntriesAreTheTracked(assignments: seq<Assignment>)
    ensures ErrorEntries(assignments) == [] <==> forall i :: 0 <= i < |assignments| ==> !Tracked(assignments[i])
    ensures forall k :: 0 <= k < |ErrorEntries(assignments)| ==>
      exists i :: (0 <= i < |assignments| && Tracked(assignments[i])
        && ErrorEntries(assignments)[k] == ErrorEntryOf(assignments[i].estimatedHours, assignments[i].actualHours.value))
  {
    if assignments != [] {
      var init := assignments[..|assignments| - 1];
      ErrorEntriesAreTheTracked(init);
      var es0 := ErrorEntries(init);
      forall k | 0 <= k < |es0|
        ensures exists i :: (0 <= i < |assignments| && Tracked(assignments[i])
          && es0[k] == ErrorEntryOf(assignments[i].estimatedHours, assignments[i].actualHours.value))
      {
        var i :| 0 <= i < |init| && Tracked(init[i])
          && es0[k] == ErrorEntryOf(init[i].estimatedHours, init[i].actualHours.value);
        assert init[i] == assignments[i];
      }
      if !Tracked(assignments[|assignments| - 1]) {
        assert forall i :: 0 <= i < |init| ==> init[i] == assignments[i];
      }
    }
  }

  /** The number of assignments whose actual hours are known. */
  function CountTracked(assignments: seq<Assignment>): (n: nat)
    ensures n <= |assignments|
  {
    if assignments == [] then 0
    else CountTracked(assignments[..|assignments| - 1]) + (if Tracked(assignments[|assignments| - 1]) then 1 else 0)
  }

  /** No tracked assignment is missed: there is one entry per tracked assignment, and the error
      of each tracked assignment is among the entries. */
  lemma {:induction false} ErrorEntriesCoverTheTracked(assignments: seq<Assignment>)
    ensures |ErrorEntries(assignments)| == CountTracked(assignments)
    ensures forall i :: 0 <= i < |assignments| && Tracked(assignments[i]) ==>
      ErrorEntryOf(assignments[i].estimatedHours, assignments[i].actualHours.value) in ErrorEntries(assignments)
  {
    if assignments != [] {
      var init := assignments[..|assignments| - 1];
      ErrorEntriesCoverTheTracked(init);
      forall i | 0 <= i < |assignments| - 1 && Tracked(assignments[i])
        ensures ErrorEntryOf(assignments[i].estimatedHours, assignments[i].actualHours.value) in ErrorEntries(assignments)
      {
        assert init[i] == assignments[i];
      }
    }
  }

  function Errors(entries: seq<ErrorEntry>): (errs: seq<real>)
    ensures |errs| == |entries|
  {
    seq(|entries|, k requires 0 <= k < |entries| => entries[k].error)
  }

  /** The mean absolute error over the entries, 0 without entries. */
  function PredictionError(entries: seq<ErrorEntry>): real
  {
    if entries == [] then 0.0 else Mean(Errors(entries))
  }

  /** The prediction error is never negative and is at most any bound on the individual errors
      of the tracked assignments. */
  lemma PredictionErrorWithin(assignments: seq<Assignment>, bound: real)
    requires forall i :: 0 <= i < |assignments| && Tracked(assignments[i]) ==>
      Abs(assignments[i].estimatedHours - assignments[i].actualHours.value) <= bound
    ensures PredictionError(ErrorEntries(assignments)) >= 0.0
    ensures ErrorEntries(assignments) != [] ==> PredictionError(ErrorEntries(assignments)) <= bound
  {
    var es := ErrorEntries(assignments);
    if es != [] {
      ErrorEntriesAreTheTracked(assignments);
      var errs := Errors(es);
      forall k | 0 <= k < |errs| ensures 0.0 <= errs[k] <= bound {
        var i :| 0 <= i < |assignments| && Tracked(assignments[i])
          && es[k] == ErrorEntryOf(assignments[i].estimatedHours, assignments[i].actualHours.value);
      }
      MeanBounds(errs, 0.0, bound);
    }
  }

  /** Exact estimates have no prediction error. */
  lemma ExactEstimatesHaveNoError(assignments: seq<Assignment>)
    requires forall i :: 0 <= i < |assignments| && Tracked(assignments[i]) ==>
      assignments[i].estimatedHours == assignments[i].actualHours.value
    ensures PredictionError(ErrorEntries(assignments)) == 0.0
  {
    PredictionErrorWithin(assignments, 0.0);
  }

  /** The accuracy metrics of a list of assignments. */
  function Accuracy(assignments: seq<Assignment>): (r: AccuracyMetrics)
    ensures |r.estimatedVsActual| == CountTracked(assignments)
    ensures r.estimatedVsActual == [] <==> forall i :: 0 <= i < |assignments| ==> !Tracked(assignments[i])
    ensures r.estimatedVsActual == [] ==> r.predictionError == 0.0
  {
    ErrorEntriesCoverTheTracked(assignments);
    ErrorEntriesAreTheTracked(assignments);
    var entries := ErrorEntries(assignments);
    AccuracyMetrics(entries, PredictionError(entries))
  }

  /** Assignments finished, that is with a completion time. */
  function CountCompleted(assignments: seq<Assignment>): (n: nat)
    ensures n <= |assignments|
  {
    if assignments == [] then 0
    else CountCompleted(assignments[..|assignments| - 1]) + (if assignments[|assignments| - 1].completedAt.Some? then 1 else 0)
  }

  /** Each member's id mapped to its utilization and reliability; the later of two members with
      the same id wins. */
  function MemberMetricsMap(ms: seq<TeamMember>): map<string, MemberMetrics>
  {
    if ms == [] then map[]
    else
      var m := ms[|ms| - 1];
      MemberMetricsMap(ms[..|ms| - 1])[m.id := MemberMetrics(WorkloadUtilization(m), m.reliabilityScore)]
  }

  /** Every member's id is a key, and the last member of an id gives its metrics. */
  lemma {:induction false} MemberMetricsCover(ms: seq<TeamMember>, j: nat)
    requires j < |ms|
    ensures ms[j].id in MemberMetricsMap(ms)
    ensures (forall k :: j < k < |ms| ==> ms[k].id != ms[j].id) ==>
      MemberMetricsMap(ms)[ms[j].id] == MemberMetrics(WorkloadUtilization(ms[j]), ms[j].reliabilityScore)
  {
    var init := ms[..|ms| - 1];
    if j < |init| {
      MemberMetricsCover(init, j);
      assert init[j] == ms[j];
      if forall k :: j < k < |ms| ==> ms[k].id != ms[j].id {
        assert ms[|ms| - 1].id != ms[j].id;
      }
    }
  }

  /** Every key is a member's id, with that member's metrics. */
  lemma {:induction false} MemberMetricsFrom(ms: seq<TeamMember>, id: string)
    requires id in MemberMetricsMap(ms)
    ensures exists j :: (0 <= j < |ms| && ms[j].id == id
      && MemberMetricsMap(ms)[id] == MemberMetrics(WorkloadUtilization(ms[j]), ms[j].reliabilityScore))
  {
    var init := ms[..|ms| - 1];
    if id == ms[|ms| - 1].id {
      assert ms[|ms| - 1].id == id;
    } else {
      MemberMetricsFrom(init, id);
      var j :| 0 <= j < |init| && init[j].id == id
        && MemberMetricsMap(init)[id] == MemberMetrics(WorkloadUtilization(init[j]), init[j].reliabilityScore);
      assert ms[j] == init[j];
    }
  }

  function CountStatus(ts: seq<Task>, s: TaskStatus): (n: nat)
    ensures n <= |ts|
  {
    if ts == [] then 0 else CountStatus(ts[..|ts| - 1], s) + (if ts[|ts| - 1].status == s then 1 else 0)
  }

  /** No task is both completed and delayed. */
  lemma {:induction false} CompletedAndDelayedAreDisjoint(ts: seq<Task>)
    ensures CountStatus(ts, Completed) + CountStatus(ts, Delayed) <= |ts|
  {
    if ts != [] {
      CompletedAndDelayedAreDisjoint(ts[..|ts| - 1]);
    }
  }

  /** A count as a percentage of the total, 0 of no total. */
  function Rate(count: nat, total: nat): real
  {
    if total > 0 then (count as real / total as real) * 100.0 else 0.0
  }

  /** Percentages of parts that fit in the total lie in [0,100] and add up to at most 100. */
  lemma RatesOfParts(c: nat, d: nat, total: nat)
    requires c + d <= total
    ensures 0.0 <= Rate(c, total) <= 100.0 && 0.0 <= Rate(d, total) <= 100.0
    ensures Rate(c, total) + Rate(d, total) <= 100.0
  {
    if total > 0 {
      var t := total as real;
      RatioAtMost(c as real, t, 1.0);
      RatioAtMost(d as real, t, 1.0);
      RatioAtMost(c as real + d as real, t, 1.0);
      SumOfRatios(c as real, d as real, t);
    }
  }

  function TaskMetricsOf(ts: seq<Task>): TaskMetrics
  {
    var total := |ts|;
    var completed := CountStatus(ts, Completed);
    var delayed := CountStatus(ts, Delayed);
    TaskMetrics(total, completed, delayed, Rate(completed, total), Rate(delayed, total))
  }

  /** Completion and delay rates lie in [0,100], add up to at most 100, and are 0 without tasks. */
  lemma TaskRatesInRange(ts: seq<Task>)
    ensures var m := TaskMetricsOf(ts);
      && 0.0 <= m.completionRate <= 100.0 && 0.0 <= m.delayRate <= 100.0
      && m.completionRate + m.delayRate <= 100.0
      && (ts == [] ==> m.completionRate == 0.0 && m.delayRate == 0.0)
      && m.completed + m.delayed <= m.totalTasks == |ts|
  {
    CompletedAndDelayedAreDisjoint(ts);
    RatesOfParts(CountStatus(ts, Completed), CountStatus(ts, Delayed), |ts|);
  }

  /** The feedback collected at time `now`. */
  function FeedbackOf(assignments: seq<Assignment>, ms: seq<TeamMember>, ts: seq<Task>, now: real): SprintFeedback
  {
    SprintFeedback(now, CountCompleted(assignments), |assignments|, Accuracy(assignments),
                   MemberMetricsMap(ms), TaskMetricsOf(ts))
  }

  /** What every collected entry satisfies. */
  predicate WellFormed(f: SprintFeedback)
  {
    && f.assignmentsCompleted <= f.totalAssignments
    && 0.0 <= f.taskFeedback.completionRate <= 100.0
    && f.accuracyMetrics.predictionError >= 0.0
  }

  /** Every collected entry is well formed. */
  lemma FeedbackIsWellFormed(assignments: seq<Assignment>, ms: seq<TeamMember>, ts: seq<Task>, now: real)
    ensures WellFormed(FeedbackOf(assignments, ms, ts, now))
  {
    TaskRatesInRange(ts);
    PredictionErrorWithin(assignments, MaxTrackedError(assignments));
  }

  /** The largest absolute error among the tracked assignments, 0 if none. */
  function MaxTrackedError(assignments: seq<Assignment>): (b: real)
    ensures b >= 0.0
    ensures forall i :: 0 <= i < |assignments| && Tracked(assignments[i]) ==>
      Abs(assignments[i].estimatedHours - assignments[i].actualHours.value) <= b
  {
    if assignments == [] then 0.0
    else
      var a := assignments[|assignments| - 1];
      var b0 := MaxTrackedError(assignments[..|assignments| - 1]);
      assert forall i :: 0 <= i < |assignments| - 1 ==> assignments[..|assignments| - 1][i] == assignments[i];
      if Tracked(a) then Max(b0, Abs(a.estimatedHours - a.actualHours.value)) else b0
  }

  /** Reliability after a task: up 0.05 when on time, capped at 1; down 0.1 when late, floored at 0. */
  function NextReliability(r: real, wasOnTime: bool): real
  {
    if wasOnTime then Min(r + 0.05, 1.0) else Max(r - 0.1, 0.0)
  }

  /** Reliability stays in [0,1]; being on time never lowers it and being late never raises it. */
  lemma NextReliabilityInRange(r: real, wasOnTime: bool)
    requires 0.0 <= r <= 1.0
    ensures 0.0 <= NextReliability(r, wasOnTime) <= 1.0
    ensures wasOnTime ==> NextReliability(r, wasOnTime) >= r
    ensures !wasOnTime ==> NextReliability(r, wasOnTime) <= r
    ensures wasOnTime && r <= 0.95 ==> NextReliability(r, wasOnTime) == r + 0.05
    ensures !wasOnTime && r >= 0.1 ==> NextReliability(r, wasOnTime) == r - 0.1
  {
  }

  const SmoothingFactor: real := 0.3

  /** The average completion time after a task: the actual hours for a member without history,
      otherwise an exponential moving average weighting the new value by 0.3. */
  function NextAverageTime(average: real, actual: real): real
  {
    if average == 0.0 then actual else SmoothingFactor * actual + (1.0 - SmoothingFactor) * average
  }

  /** The new average lies between the old average and the actual hours, and moves 30% of the way. */
  lemma NextAverageTimeBetween(average: real, actual: real)
    ensures average == 0.0 ==> NextAverageTime(average, actual) == actual
    ensures Min(average, actual) <= NextAverageTime(average, actual) <= Max(average, actual)
    ensures average != 0.0 ==> NextAverageTime(average, actual) - average == 0.3 * (actual - average)
  {
  }

  /** The history of feedback entries, oldest first. */
  class FeedbackLoop {
    var historicalData: seq<SprintFeedback>

    predicate Valid()
      reads this
    {
      forall k :: 0 <= k < |historicalData| ==> WellFormed(historicalData[k])
    }

    constructor ()
      ensures historicalData == [] && Valid()
    {
      historicalData := [];
    }

    /** The accuracy metrics of the assignments, built in one pass over them. */
    method CalculateAccuracy(assignments: seq<Assignment>) returns (metrics: AccuracyMetrics)
      ensures metrics == Accuracy(assignments)
    {
      var entries: seq<ErrorEntry> := [];
      for i := 0 to |assignments|
        invariant entries == ErrorEntries(assignments[..i])
      {
        assert assignments[..i + 1][..i] == assignments[..i];
        var a := assignments[i];
        if a.actualHours.Some? {
          entries := entries + [ErrorEntryOf(a.estimatedHours, a.actualHours.value)];
        }
      }
      assert assignments[..|assignments|] == assignments;
      var predictionError := 0.0;
      if entries != [] {
        predictionError := Mean(Errors(entries));
      }
      metrics := AccuracyMetrics(entries, predictionError);
    }

    /** Collects the feedback of a finished sprint and appends it to the history. */
    method CollectSprintFeedback(assignments: seq<Assignment>, ms: seq<TeamMember>, ts: seq<Task>, now: real)
      returns (feedback: SprintFeedback)
      requires Valid()
      modifies this
      ensures feedback == FeedbackOf(assignments, ms, ts, now)
      ensures historicalData == old(historicalData) + [feedback]
      ensures Valid()
    {
      var accuracy := CalculateAccuracy(assignments);
      feedback := SprintFeedback(now, CountCompleted(assignments), |assignments|, accuracy,
                                 MemberMetricsMap(ms), TaskMetricsOf(ts));
      FeedbackIsWellFormed(assignments, ms, ts, now);
      historicalData := historicalData + [feedback];
    }

    /** Updates the profile of the member in slot j after a task; nothing else changes. */
    method UpdateMemberProfile(members: array<TeamMember>, j: nat, actualCompletionHours: real, wasOnTime: bool)
      requires j < members.Length
      modifies members
      ensures members[..] == old(members[..])[j := old(members[j]).(
        averageTaskCompletionTime := NextAverageTime(old(members[j]).averageTaskCompletionTime, actualCompletionHours),
        reliabilityScore := NextReliability(old(members[j]).reliabilityScore, wasOnTime))]
    {
      var member := members[j];
      if member.averageTaskCompletionTime == 0.0 {
        member := member.(averageTaskCompletionTime := actualCompletionHours);
      } else {
        var alpha := 0.3;
        member := member.(averageTaskCompletionTime :=
          alpha * actualCompletionHours + (1.0 - alpha) * member.averageTaskCompletionTime);
      }
      if wasOnTime {
        member := member.(reliabilityScore := Min(member.reliabilityScore + 0.05, 1.0));
      } else {
        member := member.(reliabilityScore := Max(member.reliabilityScore - 0.1, 0.0));
      }
      members[j] := member;
    }

    /** Averages over the history, or nothing before the first sprint. */
    function GetLearningInsights(): (r: Option<Insights>)
      reads this
      ensures r.None? <==> historicalData == []
      ensures r.Some? ==> r.value.sprintsCompleted == |historicalData|
    {
      if historicalData == [] then None
      else Some(Insights(|historicalData|, Mean(CompletionRates(historicalData)), Mean(PredictionErrors(historicalData))))
    }

    /** Over a history of collected entries the average completion rate is a percentage and the
        average prediction error is not negative. */
    lemma InsightsInRange()
      requires Valid() && historicalData != []
      ensures var r := GetLearningInsights();
        && 0.0 <= r.value.averageCompletionRate <= 100.0
        && r.value.averagePredictionError >= 0.0
    {
      MeanBounds(CompletionRates(historicalData), 0.0, 100.0);
      MeanNonNegative(PredictionErrors(historicalData));
    }
  }

  function CompletionRates(h: seq<SprintFeedback>): (rs: seq<real>)
    ensures |rs| == |h|
  {
    seq(|h|, k requires 0 <= k < |h| => h[k].taskFeedback.completionRate)
  }

  function PredictionErrors(h: seq<SprintFeedback>): (es: seq<real>)
    ensures |es| == |h|
  {
    seq(|h|, k requires 0 <= k < |h| => h[k].accuracyMetrics.predictionError)
  }
}
