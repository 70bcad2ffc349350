/** A sprint and its progress measures (src/data_model/sprint.py). */
module Sprints {
  import Tasks

  datatype RiskLevel = LowRisk | MediumRisk | HighRisk | CriticalRisk

  datatype SprintStatus = Planning | InProgress | Completed

  class Sprint {
    var id: string
    var name: string
    var startDate: real
    var endDate: real
    var durationDays: int
    var teamMembers: seq<string>
    var totalSprintCapacity: real
    var taskIds: seq<string>
    var plannedTasks: int
    var completedTasks: int
    var failedTasks: int
    var riskLevel: RiskLevel
    var isFeasible: bool
    var createdAt: real
    var status: SprintStatus

    /** A new sprint with the defaults of the record: 14 days, nothing planned, medium risk. */
    constructor (id: string, name: string, startDate: real, endDate: real, teamMembers: seq<string>,
                 createdAt: real)
      ensures this.id == id && this.name == name && this.teamMembers == teamMembers
      ensures this.startDate == startDate && this.endDate == endDate && this.createdAt == createdAt
      ensures durationDays == 14 && totalSprintCapacity == 0.0 && taskIds == []
      ensures plannedTasks == 0 && completedTasks == 0 && failedTasks == 0
      ensures riskLevel == MediumRisk && isFeasible && status == Planning
      ensures SprintProgress() == 0.0
    {
      this.id := id;
      this.name := name;
      this.startDate := startDate;
      this.endDate := endDate;
      this.durationDays := 14;
      this.teamMembers := teamMembers;
      this.totalSprintCapacity := 0.0;
      this.taskIds := [];
      this.plannedTasks := 0;
      this.completedTasks := 0;
      this.failedTasks := 0;
      this.riskLevel := MediumRisk;
      this.isFeasible := true;
      this.createdAt := createdAt;
      this.status := Planning;
    }

    /** Whole days from `now` to the end of the sprint, rounded down. */
    function DaysRemaining(now: real): (d: int)
      reads this
      ensures d as real * Tasks.SecondsPerDay <= endDate - now < (d + 1) as real * Tasks.SecondsPerDay
    {
      Tasks.DaysBetween(now, endDate)
    }

    /** Completed over planned tasks, 0 when nothing is planned. */
    function SprintProgress(): (p: real)
      reads this
      ensures plannedTasks == 0 ==> p == 0.0
      ensures plannedTasks != 0 ==> p * plannedTasks as real == completedTasks as real
      ensures 0 <= completedTasks <= plannedTasks ==> 0.0 <= p <= 1.0
    {
      var total := plannedTasks;
      if total == 0 then 0.0 else completedTasks as real / total as real
    }

    /** The success rate is the progress again: failed tasks play no part in it. */
    function SuccessRate(): (r: real)
      reads this
      ensures r == SprintProgress()
      ensures 0 <= completedTasks <= plannedTasks ==> 0.0 <= r <= 1.0
    {
      var total := plannedTasks;
      if total == 0 then 0.0 else completedTasks as real / total as real
    }
  }

  /** Example: ten planned and three done is 30% progress; eight done of ten is an 80% success rate. */
  lemma ProgressExamples(s: Sprint)
    requires s.plannedTasks == 10
    ensures s.completedTasks == 3 ==> s.SprintProgress() == 0.3
    ensures s.completedTasks == 8 ==> s.SuccessRate() == 0.8
  {
  }

  /** A fourteen-day sprint looked at within its first day has 13 or 14 days left. */
  lemma {:induction false} FreshSprintDaysRemaining(s: Sprint, now: real)
    requires s.endDate == s.startDate + 14.0 * Tasks.SecondsPerDay
    requires s.startDate <= now <= s.startDate + Tasks.SecondsPerDay
    ensures 13 <= s.DaysRemaining(now) <= 14
  {
    var q := (s.endDate - now) / Tasks.SecondsPerDay;
    assert 13.0 <= q <= 14.0;
  }
}
