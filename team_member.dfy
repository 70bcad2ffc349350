/** Team members, their skills and their capacity (src/data_model/team_member.py). */
module TeamMembers {

  datatype Skill = Skill(name: string, proficiency: real)

  /** A team member. The hours are those of one sprint; `currentWorkload` is the hours already bound. */
  datatype TeamMember = TeamMember(
    id: string,
    skills: seq<Skill>,
    totalHoursAvailable: real,
    currentWorkload: real,
    maxWorkloadPercent: real,
    averageTaskCompletionTime: real,
    sprintVelocity: real,
    reliabilityScore: real,
    availability: bool,
    onLeave: bool)

  const DefaultMaxWorkloadPercent: real := 0.85
  const DefaultReliabilityScore: real := 0.8

  predicate ValidSkill(s: Skill)
  {
    0.0 <= s.proficiency <= 1.0
  }

  predicate ProficienciesInRange(m: TeamMember)
  {
    forall i :: 0 <= i < |m.skills| ==> ValidSkill(m.skills[i])
  }

  /** A member as created with every default left in place. */
  function NewTeamMember(id: string, skills: seq<Skill>, totalHoursAvailable: real): (m: TeamMember)
    ensures m.id == id && m.skills == skills && m.totalHoursAvailable == totalHoursAvailable
    ensures m.currentWorkload == 0.0 && m.averageTaskCompletionTime == 0.0
    ensures m.maxWorkloadPercent == 0.85 && m.reliabilityScore == 0.8 && m.sprintVelocity == 1.0
    ensures m.availability && !m.onLeave
    ensures WorkloadUtilization(m) == 0.0 && AvailableHours(m) == totalHoursAvailable
  {
    TeamMember(id, skills, totalHoursAvailable, 0.0, DefaultMaxWorkloadPercent, 0.0, 1.0,
               DefaultReliabilityScore, true, false)
  }

  function AvailableHours(m: TeamMember): (h: real)
    ensures h + m.currentWorkload == m.totalHoursAvailable
    ensures h >= 0.0 <==> m.currentWorkload <= m.totalHoursAvailable
  {
    m.totalHoursAvailable - m.currentWorkload
  }

  /** Bound hours over total hours, 0 for a member with no hours; not clamped above 1. */
  function WorkloadUtilization(m: TeamMember): (u: real)
    ensures m.totalHoursAvailable == 0.0 ==> u == 0.0
    ensures m.totalHoursAvailable != 0.0 ==> u * m.totalHoursAvailable == m.currentWorkload
    ensures m.currentWorkload > m.totalHoursAvailable > 0.0 ==> u > 1.0
  {
    if m.totalHoursAvailable == 0.0 then 0.0 else m.currentWorkload / m.totalHoursAvailable
  }

  /** The remaining hours are the unused share of the total. */
  lemma AvailableHoursIsUnusedShare(m: TeamMember)
    requires m.totalHoursAvailable != 0.0
    ensures AvailableHours(m) == m.totalHoursAvailable * (1.0 - WorkloadUtilization(m))
  {
  }

  /** Whether the member may take `estimatedHours` more. The source divides without a guard. */
  function CanTakeTask(m: TeamMember, estimatedHours: real): (ok: bool)
    requires m.totalHoursAvailable != 0.0
    ensures !m.availability ==> !ok
    ensures m.availability && m.totalHoursAvailable > 0.0 ==>
      (ok <==> m.currentWorkload + estimatedHours <= m.maxWorkloadPercent * m.totalHoursAvailable)
  {
    var newUtilization := (m.currentWorkload + estimatedHours) / m.totalHoursAvailable;
    assert newUtilization * m.totalHoursAvailable == m.currentWorkload + estimatedHours;
    newUtilization <= m.maxWorkloadPercent && m.availability
  }

  /** Being on leave plays no part in `CanTakeTask`. */
  lemma CanTakeTaskIgnoresLeave(m: TeamMember, estimatedHours: real)
    requires m.totalHoursAvailable != 0.0
    ensures CanTakeTask(m.(onLeave := !m.onLeave), estimatedHours) == CanTakeTask(m, estimatedHours)
  {
  }
}
