/** The record produced for each bind of a task to a member (backend/src/data_model/assignment.py). */
module Assignments {
  import opened Wrappers

  /** The per-feature reasons recorded with an assignment. */
  datatype Reasoning = Reasoning(skillMatch: real, workload: real, reliability: real, urgency: real)

  /** `startedAt`, `completedAt` and `actualHours` are filled in later by execution tracking. */
  datatype Assignment = Assignment(
    taskId: string,
    memberId: string,
    estimatedHours: real,
    skillCompatibilityScore: real,
    workloadPenalty: real,
    urgencyBoost: real,
    finalScore: real,
    startedAt: Option<real>,
    completedAt: Option<real>,
    actualHours: Option<real>,
    reasoning: Reasoning)

  function AssignmentQuality(a: Assignment): real
  {
    a.finalScore
  }
}
