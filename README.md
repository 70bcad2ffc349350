# Agile sprint planner — a verified Dafny model

This project models the planning core of the agile AI sprint planner:

- the task, team member, sprint and assignment records;
- the feature extractor that scores how well a member fits a task;
- the greedy task assigner;
- the sprint optimizer, which selects tasks within capacity and judges feasibility;
- the feedback loop, which measures a finished sprint and updates member profiles.

How the model is laid out:

- **Tasks and members.** They are datatypes. The assigner and the optimizer update them in
  place in an `array<Task>` and an `array<TeamMember>`.
- **Lists of tasks.** A list of tasks handed to the assigner or the optimizer is a sequence of
  positions into the task array. A task the assigner binds is therefore the same task the
  optimizer selected, as in the original, where both lists hold the same objects.
- **Objects with state.** The sprint, the assigner (with its history of assignments), the
  optimizer and the feedback loop (with its history of feedback) are classes.
- **One planning run.** Each run is also described by functions on values:
  - `Assigner.Step` is one pass of the assignment loop;
  - `Assigner.Run` is the whole loop;
  - `Optimizer.Select` is the greedy selection;
  - `Optimizer.AssessFeasibility` is the risk ladder.

  The methods are proved to compute exactly these. The properties the source promises are
  proved as lemmas about these functions.
- **The clock.** It is the parameter `now`, in seconds. Whole days until a deadline are
  `floor((deadline - now) / 86400)`, as a Python time difference's `days` is.

Modules:

- `Reals`: sums, means, min/max;
- `Tasks`, `TeamMembers`, `Sprints`, `Assignments`: the records;
- `Features`: the feature extractor;
- `UrgencyOrder`: the stable descending sort by urgency;
- `Assigner`: the task assigner;
- `Optimizer`: the sprint optimizer;
- `Feedback`: the feedback loop;
- `Wrappers`: `Option`.

Points where the code behaves in a way one might not expect, and the model follows it:

- The assigner never sets a task's status to ASSIGNED. It only sets `assigned_to`.
- A skill required twice counts twice in the skill-compatibility mean.
- `success_rate` is `sprint_progress` again. Its last line (src/data_model/sprint.py:52) is
  unreachable.
- The empty-scores guard of the skill match (backend/src/feature_engine/feature_extractor.py:27-28)
  cannot be reached either.
- The variance helper of the optimizer returns the standard deviation and compares it with 0.3.
  The model compares the variance with 0.09, which is the same test for a non-negative variance.

## Model

| member | source | states |
|---|---|---|
| `Tasks.NewTask` | src/data_model/task.py:19-45 | a new task is pending, unassigned and without actual hours; it is valid exactly when complexity is in [0,1] and the estimate is positive |
| `Tasks.NewTaskAtDefaultPriority` | src/data_model/task.py:31 | a task created without a priority is MEDIUM, and otherwise a new task as above |
| `Tasks.DaysBetween` | src/data_model/task.py:58 | the whole days between two times, rounded down: that many days fit in the difference, one more does not |
| `Tasks.DeadlineUrgency` | src/data_model/task.py:58-67 | urgency is 1.0 exactly when the deadline is due or past, 0.9 exactly for 1 to 3 days, 0.7 exactly for 4 to 7 days, and 0.3 exactly when more than 7 days remain |
| `Tasks.DeadlineUrgencyAntitone` | src/data_model/task.py:60-67 | a later deadline is never more urgent |
| `Tasks.UrgencyScore` | src/data_model/task.py:47-67 | 1.0 exactly when less than a day is left (or the deadline has passed), 0.3 exactly when at least 8 days are left |
| `Tasks.IsAssigned` | src/data_model/task.py:69-71 | no contract of its own: the assignee is set; `Assigner.StepBindsFreshTask` and `Assigner.RunAssignsEachTaskOnce` state how the assigner changes it |
| `Tasks.PriorityWeight` | src/data_model/task.py:73-81 | the weight lies in [0.3,1] and is 1 exactly for CRITICAL |
| `Tasks.PriorityWeightStrictlyIncreasing` | src/data_model/task.py:73-81 | LOW < MEDIUM < HIGH < CRITICAL gives strictly increasing weights |
| `TeamMembers.NewTeamMember` | src/data_model/team_member.py:10-30 | the defaults: no workload, 85% cap, reliability 0.8, velocity 1, available, not on leave; utilization 0 and every hour free |
| `TeamMembers.AvailableHours` | src/data_model/team_member.py:33-35 | the free and the bound hours make up the total; free hours are not negative exactly when the workload is within the total |
| `TeamMembers.WorkloadUtilization` | src/data_model/team_member.py:37-41 | 0 without hours, otherwise workload over hours, and above 1 for an overloaded member (no clamp) |
| `TeamMembers.AvailableHoursIsUnusedShare` | src/data_model/team_member.py:33-41 | the available hours are the total times the unused share |
| `TeamMembers.CanTakeTask` | src/data_model/team_member.py:43-46 | never true for an unavailable member; for an available member with positive hours, true exactly when workload plus the task fits under the cap |
| `TeamMembers.CanTakeTaskIgnoresLeave` | src/data_model/team_member.py:43-46 | being on leave does not change the answer |
| `Sprints.Sprint.constructor` | src/data_model/sprint.py:5-33 | a new sprint lasts 14 days, plans nothing, is feasible at medium risk and in planning, with progress 0 |
| `Sprints.Sprint.SprintProgress` | src/data_model/sprint.py:39-44 | 0 without planned tasks, otherwise completed over planned; within [0,1] when completed is at most planned |
| `Sprints.Sprint.SuccessRate` | src/data_model/sprint.py:46-52 | equals the progress, so failed tasks play no part; within [0,1] likewise |
| `Sprints.Sprint.DaysRemaining` | src/data_model/sprint.py:35-37 | the whole days left, rounded down: that many days fit in the time to the end, one more does not |
| `Sprints.ProgressExamples` | src/data_model/sprint.py:39-52 | 3 of 10 is progress 0.3; 8 of 10 is a success rate 0.8 |
| `Sprints.FreshSprintDaysRemaining` | src/data_model/sprint.py:35-37 | a 14-day sprint looked at during its first day has 13 or 14 days left |
| `Features.SkillMapKeeps` | backend/src/feature_engine/feature_extractor.py:18 | every skill name is a key of the skill map, and the last skill of a name gives its proficiency |
| `Features.SkillMapFrom` | backend/src/feature_engine/feature_extractor.py:18 | every key of the skill map comes from a skill with that name and proficiency |
| `Features.SkillMap` | backend/src/feature_engine/feature_extractor.py:18 | no contract of its own: `Features.SkillMapKeeps` and `Features.SkillMapFrom` state its keys and values |
| `Features.SkillScores` | backend/src/feature_engine/feature_extractor.py:18-25 | one score per required skill, repeats included |
| `Features.SkillTaskCompatibility` | backend/src/feature_engine/feature_extractor.py:15-16 | no required skills gives 1.0 |
| `Features.SkillTaskCompatibilityInRange` | backend/src/feature_engine/feature_extractor.py:18-31 | with proficiencies in [0,1] the match lies in [0,1] |
| `Features.NoSharedSkillMeansZero` | backend/src/feature_engine/feature_extractor.py:21-31 | a member with none of the required skills matches with 0 |
| `Features.WorkloadUtilizationRatio` | backend/src/feature_engine/feature_extractor.py:34-41 | 0 without hours, otherwise the utilization clamped to at most 1; not negative for a non-negative workload and positive hours |
| `Features.QuarterLoaded` | backend/src/feature_engine/feature_extractor.py:39-41 | 10 bound hours of 40 give 0.25 |
| `Features.PerformanceReliabilityIndex` | backend/src/feature_engine/feature_extractor.py:44-49 | the reliability score passes through unchanged |
| `Features.TaskUrgencyFactor` | backend/src/feature_engine/feature_extractor.py:52-61 | 60% deadline urgency plus 40% priority weight lies in [0.3,1] |
| `Features.UrgencyFactorOrder` | backend/src/feature_engine/feature_extractor.py:52-61 | on the same day a higher priority is strictly more urgent; at the same priority an earlier deadline is at least as urgent |
| `Features.TotalHoursNonNegative` | backend/src/feature_engine/feature_extractor.py:69 | members with non-negative hours give a non-negative capacity |
| `Features.TotalHours` | src/sprint_planner/sprint_optimizer.py:55-57 | no contract of its own: `Features.TotalHoursNonNegative`, `Features.SprintCapacityScore` and `Optimizer.TotalHoursDependsOnHours` state it |
| `Features.TotalWorkload` | backend/src/feature_engine/feature_extractor.py:73-74 | no contract of its own: `Features.SprintCapacityScore` states it |
| `Features.SprintCapacityScore` | backend/src/feature_engine/feature_extractor.py:64-75 | total is the sum of hours; available plus the sum of workloads is the total; the ratio is 0 without capacity and otherwise the workload share |
| `Features.TwoIdleMembersCapacity` | backend/src/feature_engine/feature_extractor.py:69-75 | two idle 40-hour members: capacity 80, 80 free, ratio 0 |
| `Features.ComputeAssignmentScore` | backend/src/feature_engine/feature_extractor.py:78-114 | for any weights the score lies in [0,1], equals the weighted sum when that is in range, and is 1 above it |
| `Features.WeightedSum` | backend/src/feature_engine/feature_extractor.py:107-112 | no contract of its own: `Features.ComputeAssignmentScore` clamps it and `Features.DefaultScoreIsUnclamped` bounds it for the default weights |
| `Features.DefaultScoreIsUnclamped` | backend/src/feature_engine/feature_extractor.py:97-114 | with the default weights and well-formed member data the clamp never changes the weighted sum |
| `UrgencyOrder.Insert` | src/decision_engine/task_assigner.py:30-34 | inserting a position adds it to the list: one longer, the same elements plus the new one |
| `UrgencyOrder.InsertKeepsOrder` | src/decision_engine/task_assigner.py:30-34 | inserting a new position into a sorted list keeps it sorted by key descending, ties by position |
| `UrgencyOrder.SortFrom` | src/decision_engine/task_assigner.py:30-34 | the positions from `lo` on, each once, in sorted order |
| `UrgencyOrder.SortedPositions` | src/decision_engine/task_assigner.py:30-34 | every position exactly once, in sorted order |
| `UrgencyOrder.SortedPositionsIsStableSort` | src/decision_engine/task_assigner.py:30-34 | no position repeats, keys never increase along the order, and equal keys keep their list order |
| `Assigner.ScreenMeans` | src/decision_engine/task_assigner.py:70-92 | a member is a candidate exactly when eligible (available, not on leave, within the cap with the task, skill match at least 0.3), with its score and skill match |
| `Assigner.Eligible` | src/decision_engine/task_assigner.py:70-83 | no contract of its own: the four filters; `Assigner.ScreenMeans` and `Assigner.WinnerIsBestEligible` state their role |
| `Assigner.Screen` | src/decision_engine/task_assigner.py:70-92 | no contract of its own: `Assigner.ScreenMeans` states it |
| `Assigner.Candidates` | src/decision_engine/task_assigner.py:68-92 | the candidate list only names members already scanned |
| `Assigner.CandidatesSound` | src/decision_engine/task_assigner.py:68-92 | each candidate carries the score and skill match of an accepted member |
| `Assigner.FirstMax` | src/decision_engine/task_assigner.py:97-98 | the picked candidate is in the list |
| `Assigner.FirstMaxIsFirstMaximum` | src/decision_engine/task_assigner.py:97-98 | the picked candidate has the highest score and every earlier one scores strictly lower, as Python's `max` picks |
| `Assigner.Winner` | src/decision_engine/task_assigner.py:68-98 | a winner is an accepted member of the list |
| `Assigner.WinnerIsFirstBest` | src/decision_engine/task_assigner.py:68-98 | no winner exactly when all are rejected; otherwise the winner has the top score and is the first with it |
| `Assigner.FirstMaxIsWinner` | src/decision_engine/task_assigner.py:68-98 | building the candidate list and taking its first maximum picks the winning screening |
| `Assigner.WinnerIndex` | src/decision_engine/task_assigner.py:59-98 | a winner is a member of the team |
| `Assigner.WinnerIsBestEligible` | src/decision_engine/task_assigner.py:59-98 | nobody wins exactly when nobody is eligible; the winner is eligible, scores highest among the eligible, and is the first to do so |
| `Assigner.MakeAssignment` | src/decision_engine/task_assigner.py:100-116 | the record names the task, the member and the task's hours; the skill match, the composite score (in [0,1]), one minus the clamped utilization, the urgency factor (in [0.3,1]), and a reasoning of skill match, unclamped utilization, reliability and urgency, all taken before the bind; nothing tracked yet |
| `Assigner.AssignmentQualityIsScore` | backend/src/data_model/assignment.py:29-31 | the quality of an assignment the scan makes is the winner's composite score, so it lies in [0,1] |
| `Assigner.Score` | src/decision_engine/task_assigner.py:85-86 | no contract of its own: `Features.ComputeAssignmentScore` with the default weights; `Features.DefaultScoreIsUnclamped` states it |
| `Assigner.BestCandidate` | src/decision_engine/task_assigner.py:59-118 | no assignment exactly when there is no winner; otherwise one for the task, naming the winner |
| `Assigner.FirstWithId` | src/decision_engine/task_assigner.py:52 | the first member with the id |
| `Assigner.FirstWithIdFindsOwner` | src/decision_engine/task_assigner.py:52 | with unique ids the lookup finds the member itself |
| `Assigner.Step` | src/decision_engine/task_assigner.py:38-54 | one pass keeps the sizes and the hours-known condition |
| `Assigner.StepAppends` | src/decision_engine/task_assigner.py:49-50 | a pass appends its assignment to whatever was made before |
| `Assigner.StepEffect` | src/decision_engine/task_assigner.py:38-54 | an assigned task, or one nobody can take, changes nothing; otherwise the task names the winner, only the winner's workload grows by the task's hours, and its assignment is appended |
| `Assigner.Run` | src/decision_engine/task_assigner.py:38-54 | the loop keeps the sizes and the hours-known condition |
| `Assigner.RunFrame` | src/decision_engine/task_assigner.py:38-54 | only assignees and workloads change; assigned or unvisited tasks keep theirs; at most one assignment per visited task |
| `Assigner.RunAccounting` | src/decision_engine/task_assigner.py:49-54 | each workload is the starting workload plus the hours assigned to that member |
| `Assigner.StepRespectsCap` | src/decision_engine/task_assigner.py:75-78 | a pass leaves a workload unchanged or keeps it within that member's cap |
| `Assigner.RunRespectsCap` | src/decision_engine/task_assigner.py:75-78 | after the loop every changed workload is within its member's cap |
| `Assigner.IdleTeamStaysWithinHours` | src/decision_engine/task_assigner.py:75-78 | idle members capped at most 100% are never bound more hours than they have; a member without hours, who must then be unavailable or on leave, is bound none |
| `Assigner.StepBindsFreshTask` | src/decision_engine/task_assigner.py:39-54 | assigned tasks stay assigned; a pass appends nothing, or one assignment for a task that had no assignee and now has one |
| `Assigner.RunAssignsEachTaskOnce` | src/decision_engine/task_assigner.py:38-54 | with unique task ids the assignments name distinct tasks, each of them now assigned |
| `Assigner.UrgencyKeys` | src/decision_engine/task_assigner.py:30-34 | one urgency key per listed task |
| `Assigner.VisitOrder` | src/decision_engine/task_assigner.py:30-34 | the loop visits as many positions as listed, all in the task array |
| `Assigner.VisitOrderFollowsUrgency` | src/decision_engine/task_assigner.py:30-34 | every listed task is visited once, urgency never increases along the visit, and equal urgencies keep list order |
| `Assigner.TaskAssigner.constructor` | src/decision_engine/task_assigner.py:12-14 | a new assigner has no assignments |
| `Assigner.TaskAssigner.ScreenMember` | src/decision_engine/task_assigner.py:70-92 | the early-exit checks of one member give its screening |
| `Assigner.TaskAssigner.FindBestCandidate` | src/decision_engine/task_assigner.py:59-118 | the candidate loop and `max` produce the best candidate's assignment |
| `Assigner.TaskAssigner.FindMemberIndex` | src/decision_engine/task_assigner.py:52 | the lookup finds the first member with the id |
| `Assigner.TaskAssigner.AssignOne` | src/decision_engine/task_assigner.py:39-54 | the arrays and the new assignment are those of one pass |
| `Assigner.TaskAssigner.AssignTasks` | src/decision_engine/task_assigner.py:16-57 | the arrays and the returned assignments are those of the whole loop over the urgency order, and the history grows by exactly them |
| `Optimizer.EffortDependsOnHours` | src/sprint_planner/sprint_optimizer.py:105 | the planned effort depends only on the tasks' hours |
| `Optimizer.Effort` | src/sprint_planner/sprint_optimizer.py:105 | no contract of its own: `Optimizer.EffortDependsOnHours`, `Optimizer.Select` and `Optimizer.SelectionStaysUnderTarget` state it |
| `Optimizer.Utilization` | src/sprint_planner/sprint_optimizer.py:105-107 | no contract of its own: `Optimizer.SelectionStaysUnderTarget` and `Optimizer.AssessFeasibility` state it |
| `Optimizer.Select` | src/sprint_planner/sprint_optimizer.py:68-83 | the selection takes positions of the task array, no more than scanned, and its effort is within the limit |
| `Optimizer.TakenAt` | src/sprint_planner/sprint_optimizer.py:78-81 | one scan position per selected task |
| `Optimizer.SelectIsSubsequence` | src/sprint_planner/sprint_optimizer.py:72-81 | the selection is the subsequence of the urgency order at increasing scan positions |
| `Optimizer.SelectedEffortGrows` | src/sprint_planner/sprint_optimizer.py:78-81 | with non-negative hours the effort taken never shrinks along the scan |
| `Optimizer.SkippedTaskDoesNotFit` | src/sprint_planner/sprint_optimizer.py:78-81 | with non-negative hours a task the scan passed over would still push the final effort above the limit |
| `Optimizer.Variance` | src/sprint_planner/sprint_optimizer.py:125-132 | the variance is never negative |
| `Optimizer.Utilizations` | src/sprint_planner/sprint_optimizer.py:101 | one unclamped utilization per member, in member order |
| `Optimizer.EqualValuesHaveNoVariance` | src/sprint_planner/sprint_optimizer.py:125-132 | equally loaded members have variance 0 |
| `Optimizer.IdleAndFullVariance` | src/sprint_planner/sprint_optimizer.py:125-132 | utilizations 0 and 1 give variance 0.25 |
| `Optimizer.AssessFeasibility` | src/sprint_planner/sprint_optimizer.py:85-123 | critical exactly when nothing was assigned; high exactly above 95% utilization; low exactly at most 85% and variance at most 0.09; infeasible exactly when high or critical |
| `Optimizer.SelectionStaysUnderTarget` | src/sprint_planner/sprint_optimizer.py:79-81 | selecting against 85% of a capacity keeps the utilization at or below 85% |
| `Optimizer.UnderTargetIsNeverOverloaded` | src/sprint_planner/sprint_optimizer.py:109-121 | within the target the verdict is never high, medium only for a workload spread, and infeasible only when critical |
| `Optimizer.AssignmentKeepsHours` | src/sprint_planner/sprint_optimizer.py:105-106 | assigning changes neither the planned effort nor the capacity |
| `Optimizer.AssignedUnderTargetIsNeverOverloaded` | src/sprint_planner/sprint_optimizer.py:38-49 | a plan within the target, whatever the assigner then does, is never high risk, medium only for a workload spread, and infeasible only when critical |
| `Optimizer.PlannedSprintIsNeverOverloaded` | src/sprint_planner/sprint_optimizer.py:29-49 | select against the capacity, assign, judge: never high risk, medium only for a workload spread (never for the utilization), and infeasible only when nothing was assigned |
| `Optimizer.TotalHoursDependsOnHours` | src/sprint_planner/sprint_optimizer.py:55-57 | the capacity depends only on the members' hours |
| `Optimizer.SprintOptimizer.constructor` | src/sprint_planner/sprint_optimizer.py:11-13 | a new optimizer owns a new assigner without assignments |
| `Optimizer.SprintOptimizer.SelectTasksForSprint` | src/sprint_planner/sprint_optimizer.py:59-83 | the greedy selection over the urgency order against 85% of the capacity |
| `Optimizer.SprintOptimizer.GreedyScan` | src/sprint_planner/sprint_optimizer.py:78-81 | the loop with its running total computes the greedy selection |
| `Optimizer.SprintOptimizer.PlanSprint` | src/sprint_planner/sprint_optimizer.py:15-53 | selection against the summed capacity, the arrays and history after assigning it, the verdict recorded on the sprint, and the planned count; no other sprint field changes |
| `Feedback.ErrorEntryOf` | src/learning/feedback_loop.py:42-49 | the error is the absolute difference, 0 exactly for an exact estimate; the percentage is 0 for a non-positive estimate, otherwise error over estimate times 100 |
| `Feedback.ErrorEntries` | src/learning/feedback_loop.py:41-49 | at most one entry per assignment |
| `Feedback.ErrorEntriesAreTheTracked` | src/learning/feedback_loop.py:41-49 | no entries exactly when no assignment has actual hours; each entry is the error of one that has |
| `Feedback.CountTracked` | src/learning/feedback_loop.py:41-42 | the assignments with actual hours are at most all assignments |
| `Feedback.ErrorEntriesCoverTheTracked` | src/learning/feedback_loop.py:41-49 | one entry per assignment with actual hours, and the error of each such assignment is among the entries |
| `Feedback.PredictionError` | src/learning/feedback_loop.py:51-53 | no contract of its own: `Feedback.PredictionErrorWithin`, `Feedback.ExactEstimatesHaveNoError` and `Feedback.Accuracy` state it |
| `Feedback.PredictionErrorWithin` | src/learning/feedback_loop.py:51-53 | the prediction error is not negative and at most any bound on the individual errors |
| `Feedback.ExactEstimatesHaveNoError` | src/learning/feedback_loop.py:51-53 | exact estimates give prediction error 0 |
| `Feedback.Accuracy` | src/learning/feedback_loop.py:34-55 | one entry per assignment with actual hours, none exactly when no assignment has them, and then a prediction error of 0 |
| `Feedback.CountCompleted` | src/learning/feedback_loop.py:24-25 | completed assignments are at most all assignments |
| `Feedback.MemberMetricsCover` | src/learning/feedback_loop.py:57-65 | every member id is a key, and the last member of an id gives its utilization and reliability |
| `Feedback.MemberMetricsFrom` | src/learning/feedback_loop.py:57-65 | every key is a member's id with that member's metrics |
| `Feedback.MemberMetricsMap` | src/learning/feedback_loop.py:57-65 | no contract of its own: `Feedback.MemberMetricsCover` and `Feedback.MemberMetricsFrom` state its keys and values |
| `Feedback.CountStatus` | src/learning/feedback_loop.py:69-71 | a status count is at most the number of tasks |
| `Feedback.CompletedAndDelayedAreDisjoint` | src/learning/feedback_loop.py:70-71 | completed plus delayed tasks are at most all tasks |
| `Feedback.RatesOfParts` | src/learning/feedback_loop.py:77-78 | rates of parts of a total lie in [0,100] and add up to at most 100 |
| `Feedback.Rate` | src/learning/feedback_loop.py:77-78 | no contract of its own: `Feedback.RatesOfParts` states it |
| `Feedback.TaskRatesInRange` | src/learning/feedback_loop.py:67-79 | completion and delay rates lie in [0,100], add up to at most 100, and are 0 without tasks |
| `Feedback.TaskMetricsOf` | src/learning/feedback_loop.py:67-79 | no contract of its own: `Feedback.TaskRatesInRange` states it |
| `Feedback.FeedbackOf` | src/learning/feedback_loop.py:13-32 | no contract of its own: `Feedback.FeedbackIsWellFormed` states it |
| `Feedback.FeedbackIsWellFormed` | src/learning/feedback_loop.py:22-29 | completed assignments at most the total, completion rate in [0,100], prediction error not negative |
| `Feedback.NextReliabilityInRange` | src/learning/feedback_loop.py:100-103 | reliability stays in [0,1], up 0.05 when on time and down 0.1 when late away from the bounds; on time never lowers it, late never raises it |
| `Feedback.NextReliability` | src/learning/feedback_loop.py:100-103 | no contract of its own: `Feedback.NextReliabilityInRange` states it |
| `Feedback.NextAverageTimeBetween` | src/learning/feedback_loop.py:89-97 | the first value is taken as is; later the average lies between old and actual and moves 30% of the way |
| `Feedback.NextAverageTime` | src/learning/feedback_loop.py:89-97 | no contract of its own: `Feedback.NextAverageTimeBetween` states it |
| `Feedback.FeedbackLoop.constructor` | src/learning/feedback_loop.py:10-11 | the history starts empty |
| `Feedback.FeedbackLoop.CalculateAccuracy` | src/learning/feedback_loop.py:34-55 | the loop builds the entries of the tracked assignments and their mean error |
| `Feedback.FeedbackLoop.CollectSprintFeedback` | src/learning/feedback_loop.py:13-32 | returns the sprint's feedback and appends exactly it to the history, keeping every entry well formed |
| `Feedback.FeedbackLoop.UpdateMemberProfile` | src/learning/feedback_loop.py:81-103 | only the member's average completion time and reliability change, to their next values |
| `Feedback.FeedbackLoop.GetLearningInsights` | src/learning/feedback_loop.py:105-120 | nothing exactly when the history is empty; otherwise the number of sprints is the history length |
| `Feedback.FeedbackLoop.InsightsInRange` | src/learning/feedback_loop.py:110-118 | over collected entries the average completion rate is in [0,100] and the average prediction error is not negative |
| `Feedback.CompletionRates` | src/learning/feedback_loop.py:112-114 | one completion rate per history entry; `Feedback.FeedbackLoop.InsightsInRange` bounds their mean |
| `Feedback.PredictionErrors` | src/learning/feedback_loop.py:115-117 | one prediction error per history entry; `Feedback.FeedbackLoop.InsightsInRange` bounds their mean |

## Left out

- I/O, the HTTP API, logging, settings and the user interface are not part of this model.
- Wall-clock reads (`datetime.utcnow`) become the parameter `now`. The task's time-zone stripping
  is left out: deadlines are taken as already comparable. Each read of the clock in the source
  is one `now` per operation here.
- uuid generation for assignment ids and the `assigned_at` default are left out: they are
  random or clock values.
- The task's `title`, `description`, `depends_on`, `blocks`, `created_at` and `sprint_id`,
  and the member's `name`, `email`, `leave_start` and `leave_end`, play no part in any
  operation modelled and are not fields of the `Task` and `TeamMember` datatypes. The sprint
  keeps its `name` and `created_at` (`createdAt`), which its constructor sets.
- The unused `constraints` argument of the assigner, and the unused `sprint` argument of the
  feasibility assessment and of `sprint_capacity_score`, are left out.
- `get_assignment_reasoning` builds a display string and is left out.
- Pydantic's runtime validation is not modelled. Its field bounds appear as the predicates
  `ValidTask` and `ValidSkill`, and are required only where a property depends on them.
- Floating point is modelled as exact reals. The square root of the variance (the
  standard deviation) compared with 0.3 becomes a comparison of the variance with 0.09, the
  same test for a non-negative variance.
- `Assigner.VisitOrderFollowsUrgency`: with exact reals some urgency keys tie that differ in
  floating point, so the urgency sort (src/decision_engine/task_assigner.py:30-34,
  src/sprint_planner/sprint_optimizer.py:72-76) can order tasks differently from the model.
  A task due today at HIGH and one due in 1 to 3 days at CRITICAL both have key 0.94 here,
  but 0.94 and 0.9400000000000001 in floating point. A task due in 1 to 3 days at LOW and one
  due in 4 to 7 days at MEDIUM both have 0.66 here, but 0.66 and 0.6599999999999999 in floating
  point, so the source visits the LOW task first. The model keeps list order on such ties and the source puts the larger float first.
  That can change which task is visited first, and so which task gets the capacity or a scarce
  member. The model's ties are those of exact arithmetic.
- The candidate scan and `can_take_task` divide by a member's hours without a guard; a member
  with no hours crashes the source. The model requires those hours to be non-zero
  (`HoursKnown`, `CanTakeTask`) in place of modelling the exception.
- A task listed twice is visited twice, as in the source. The properties that depend on unique
  task ids (`StepBindsFreshTask`, `RunAssignsEachTaskOnce`) or unique member ids
  (`FirstWithIdFindsOwner`, `StepEffect`, `RunAccounting`, `StepRespectsCap`, `RunRespectsCap`,
  `IdleTeamStaysWithinHours`) require them.
- `SortedPositions` gives the stable sort as insertion sort on positions. Python's sort
  algorithm itself is not modelled, only its result.
- `Optimizer.SkippedTaskDoesNotFit`: the greedy-maximality property is proved for non-negative
  hours only. The scan itself handles any hours.
- The feedback records are values in the history, whereas the source keeps dictionaries. The
  `timestamp` of an entry is the `now` passed in.
- `Feedback.FeedbackLoop.GetLearningInsights`: the source returns an empty dictionary for an
  empty history; the model returns `None`.
