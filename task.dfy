/** Tasks of a sprint: priority, deadline urgency and assignment state (src/data_model/task.py). */
module Tasks {
  import opened Wrappers

  datatype Priority = Low | Medium | High | Critical

  datatype TaskStatus = Pending | Assigned | InProgress | Completed | Delayed

  /** A task. `deadline` is a point in time in seconds, already stripped of its time zone;
      `assignedTo` holds the id of the team member the task is bound to. */
  datatype Task = Task(
    id: string,
    requiredSkills: seq<string>,
    complexity: real,
    estimatedHours: real,
    priority: Priority,
    deadline: real,
    assignedTo: Option<string>,
    status: TaskStatus,
    actualHours: Option<real>)

  const SecondsPerDay: real := 86400.0

  /** Whole days from `from` to `to`, rounded down, as the `days` of a time difference is. */
  function DaysBetween(from: real, to: real): (d: int)
    ensures d as real * SecondsPerDay <= to - from < (d + 1) as real * SecondsPerDay
  {
    ((to - from) / SecondsPerDay).Floor
  }

  /** The field bounds of a task: complexity in [0,1] and a positive estimate. */
  predicate ValidTask(t: Task)
  {
    0.0 <= t.complexity <= 1.0 && t.estimatedHours > 0.0
  }

  /** A task as it is created: pending and assigned to nobody. */
  function NewTask(id: string, requiredSkills: seq<string>, complexity: real, estimatedHours: real,
                   priority: Priority, deadline: real): (t: Task)
    ensures !IsAssigned(t) && t.status == Pending && t.actualHours == None
    ensures t.id == id && t.requiredSkills == requiredSkills && t.priority == priority
    ensures t.complexity == complexity && t.estimatedHours == estimatedHours && t.deadline == deadline
    ensures ValidTask(t) <==> 0.0 <= complexity <= 1.0 && estimatedHours > 0.0
  {
    Task(id, requiredSkills, complexity, estimatedHours, priority, deadline, None, Pending, None)
  }

  /** A task created without a priority gets MEDIUM. */
  function NewTaskAtDefaultPriority(id: string, requiredSkills: seq<string>, complexity: real,
                                    estimatedHours: real, deadline: real): (t: Task)
    ensures t.priority == Medium
    ensures !IsAssigned(t) && t.status == Pending && t.actualHours == None
    ensures t.id == id && t.requiredSkills == requiredSkills && t.deadline == deadline
    ensures t.complexity == complexity && t.estimatedHours == estimatedHours
    ensures ValidTask(t) <==> 0.0 <= complexity <= 1.0 && estimatedHours > 0.0
  {
    NewTask(id, requiredSkills, complexity, estimatedHours, Medium, deadline)
  }

  predicate IsAssigned(t: Task)
  {
    t.assignedTo.Some?
  }

  /** Deadline urgency: a step function of the whole days left. */
  function DeadlineUrgency(days: int): (u: real)
    ensures u == 1.0 || u == 0.9 || u == 0.7 || u == 0.3
    ensures u == 1.0 <==> days <= 0
    ensures u == 0.9 <==> 1 <= days <= 3
    ensures u == 0.7 <==> 4 <= days <= 7
    ensures u == 0.3 <==> days > 7
  {
    if days <= 0 then 1.0
    else if days <= 3 then 0.9
    else if days <= 7 then 0.7
    else 0.3
  }

  /** The urgency of a task at time `now`. */
  function UrgencyScore(t: Task, now: real): (u: real)
    ensures u == 1.0 <==> t.deadline - now < SecondsPerDay
    ensures u == 0.3 <==> t.deadline - now >= 8.0 * SecondsPerDay
  {
    DeadlineUrgency(DaysBetween(now, t.deadline))
  }

  /** A later deadline is never more urgent. */
  lemma DeadlineUrgencyAntitone(d1: int, d2: int)
    requires d1 <= d2
    ensures DeadlineUrgency(d2) <= DeadlineUrgency(d1)
  {
  }

  /** The position of a priority in the order LOW < MEDIUM < HIGH < CRITICAL. */
  function Rank(p: Priority): nat
  {
    match p
    case Low => 0
    case Medium => 1
    case High => 2
    case Critical => 3
  }

  function PriorityWeight(p: Priority): (w: real)
    ensures 0.3 <= w <= 1.0
    ensures w == 1.0 <==> p == Critical
  {
    match p
    case Low => 0.3
    case Medium => 0.6
    case High => 0.85
    case Critical => 1.0
  }

  /** The priority table is strictly increasing in priority order. */
  lemma PriorityWeightStrictlyIncreasing(p: Priority, q: Priority)
    requires Rank(p) < Rank(q)
    ensures PriorityWeight(p) < PriorityWeight(q)
  {
  }
}
