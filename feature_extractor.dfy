/** Normalised scoring signals and the composite assignment score
    (backend/src/feature_engine/feature_extractor.py). */
module Features {
  import opened Reals
  import opened Tasks
  import opened TeamMembers

  /** Skill i is the last one of that name, so it is the one a name-keyed map keeps. */
  predicate LastOfName(skills: seq<Skill>, i: nat)
    requires i < |skills|
  {
    forall j :: i < j < |skills| ==> skills[j].name != skills[i].name
  }

  /** The member's skills keyed by name; on a repeated name the later skill wins. */
  function SkillMap(skills: seq<Skill>): map<string, real>
  {
    if skills == [] then map[]
    else
      var last := skills[|skills| - 1];
      SkillMap(skills[..|skills| - 1])[last.name := last.proficiency]
  }

  /** Every skill's name is a key, and the last skill of a name gives that key's value. */
  lemma {:induction false} SkillMapKeeps(skills: seq<Skill>, i: nat)
    requires i < |skills|
    ensures skills[i].name in SkillMap(skills)
    ensures LastOfName(skills, i) ==> SkillMap(skills)[skills[i].name] == skills[i].proficiency
  {
    var init := skills[..|skills| - 1];
    if i < |init| {
      SkillMapKeeps(init, i);
      assert init[i] == skills[i];
      if LastOfName(skills, i) {
        assert skills[|skills| - 1].name != skills[i].name;
      }
    }
  }

  /** Every key of the skill map is the name of one of the skills, with that skill's proficiency. */
  lemma {:induction false} SkillMapFrom(skills: seq<Skill>, n: string)
    requires n in SkillMap(skills)
    ensures exists i :: 0 <= i < |skills| && skills[i].name == n && SkillMap(skills)[n] == skills[i].proficiency
  {
    var init := skills[..|skills| - 1];
    var last := skills[|skills| - 1];
    if n == last.name {
      assert skills[|skills| - 1].name == n;
    } else {
      SkillMapFrom(init, n);
      var i :| 0 <= i < |init| && init[i].name == n && SkillMap(init)[n] == init[i].proficiency;
      assert skills[i] == init[i];
    }
  }

  function Proficiency(skillMap: map<string, real>, name: string): real
  {
    if name in skillMap then skillMap[name] else 0.0
  }

  /** One score per required skill, repeats included; 0 for a skill the member lacks. */
  function SkillScores(m: TeamMember, t: Task): (scores: seq<real>)
    ensures |scores| == |t.requiredSkills|
  {
    var skillMap := SkillMap(m.skills);
    seq(|t.requiredSkills|, i requires 0 <= i < |t.requiredSkills| => Proficiency(skillMap, t.requiredSkills[i]))
  }

  /** Skill match of a member for a task: 1 when nothing is required, otherwise the mean score. */
  function SkillTaskCompatibility(m: TeamMember, t: Task): (c: real)
    ensures t.requiredSkills == [] ==> c == 1.0
  {
    if t.requiredSkills == [] then 1.0
    else
      var scores := SkillScores(m, t);
      if scores == [] then 0.0
      else Mean(scores)
  }

  /** With proficiencies in [0,1] the skill match is in [0,1]. */
  lemma SkillTaskCompatibilityInRange(m: TeamMember, t: Task)
    requires ProficienciesInRange(m)
    ensures 0.0 <= SkillTaskCompatibility(m, t) <= 1.0
  {
    if t.requiredSkills != [] {
      var scores := SkillScores(m, t);
      var skillMap := SkillMap(m.skills);
      forall i | 0 <= i < |scores| ensures 0.0 <= scores[i] <= 1.0 {
        var n := t.requiredSkills[i];
        if n in skillMap {
          SkillMapFrom(m.skills, n);
          var k :| 0 <= k < |m.skills| && m.skills[k].name == n && skillMap[n] == m.skills[k].proficiency;
          assert ValidSkill(m.skills[k]);
        }
      }
      MeanBounds(scores, 0.0, 1.0);
    }
  }

  /** A member holding none of the required skills matches with 0. */
  lemma {:induction false} NoSharedSkillMeansZero(m: TeamMember, t: Task)
    requires t.requiredSkills != []
    requires forall i, k :: 0 <= i < |t.requiredSkills| && 0 <= k < |m.skills| ==> m.skills[k].name != t.requiredSkills[i]
    ensures SkillTaskCompatibility(m, t) == 0.0
  {
    var scores := SkillScores(m, t);
    forall i | 0 <= i < |scores| ensures scores[i] == 0.0 {
      if t.requiredSkills[i] in SkillMap(m.skills) {
        SkillMapFrom(m.skills, t.requiredSkills[i]);
      }
    }
    MeanOfConstant(scores, 0.0);
  }

  /** Utilization clamped to at most 1, and 0 for a member with no hours. */
  function WorkloadUtilizationRatio(m: TeamMember): (r: real)
    ensures r <= 1.0
    ensures m.totalHoursAvailable == 0.0 ==> r == 0.0
    ensures m.currentWorkload >= 0.0 && m.totalHoursAvailable > 0.0 ==> r >= 0.0
    ensures r == Min(WorkloadUtilization(m), 1.0)
  {
    if m.totalHoursAvailable == 0.0 then 0.0
    else Min(m.currentWorkload / m.totalHoursAvailable, 1.0)
  }

  /** Example: ten bound hours of forty is a ratio of one quarter. */
  lemma QuarterLoaded(m: TeamMember)
    requires m.totalHoursAvailable == 40.0 && m.currentWorkload == 10.0
    ensures WorkloadUtilizationRatio(m) == 0.25
  {
  }

  /** Reliability is taken as it stands. */
  function PerformanceReliabilityIndex(m: TeamMember): (r: real)
    ensures r == m.reliabilityScore
  {
    m.reliabilityScore
  }

  /** Urgency of a task: 60% deadline urgency and 40% priority weight. */
  function TaskUrgencyFactor(t: Task, now: real): (u: real)
    ensures 0.3 <= u <= 1.0
  {
    0.6 * UrgencyScore(t, now) + 0.4 * PriorityWeight(t.priority)
  }

  /** Of two tasks due on the same day, the higher priority is strictly more urgent;
      of two of the same priority, the earlier deadline is at least as urgent. */
  lemma UrgencyFactorOrder(t1: Task, t2: Task, now: real)
    ensures DaysBetween(now, t1.deadline) == DaysBetween(now, t2.deadline) && Rank(t1.priority) < Rank(t2.priority)
      ==> TaskUrgencyFactor(t1, now) < TaskUrgencyFactor(t2, now)
    ensures DaysBetween(now, t1.deadline) <= DaysBetween(now, t2.deadline) && t1.priority == t2.priority
      ==> TaskUrgencyFactor(t2, now) <= TaskUrgencyFactor(t1, now)
  {
    if Rank(t1.priority) < Rank(t2.priority) {
      PriorityWeightStrictlyIncreasing(t1.priority, t2.priority);
    }
    if DaysBetween(now, t1.deadline) <= DaysBetween(now, t2.deadline) {
      DeadlineUrgencyAntitone(DaysBetween(now, t1.deadline), DaysBetween(now, t2.deadline));
    }
  }

  function TotalHours(ms: seq<TeamMember>): real
  {
    if ms == [] then 0.0 else TotalHours(ms[..|ms| - 1]) + ms[|ms| - 1].totalHoursAvailable
  }

  function TotalWorkload(ms: seq<TeamMember>): real
  {
    if ms == [] then 0.0 else TotalWorkload(ms[..|ms| - 1]) + ms[|ms| - 1].currentWorkload
  }

  /** Members with non-negative hours give a non-negative total. */
  lemma {:induction false} TotalHoursNonNegative(ms: seq<TeamMember>)
    requires forall i :: 0 <= i < |ms| ==> ms[i].totalHoursAvailable >= 0.0
    ensures TotalHours(ms) >= 0.0
  {
    if ms != [] {
      TotalHoursNonNegative(ms[..|ms| - 1]);
    }
  }

  datatype CapacityMetrics = CapacityMetrics(totalCapacity: real, availableCapacity: real, utilizationRatio: real)

  /** Team capacity: total hours, hours still free, and bound over total (0 without capacity). */
  function SprintCapacityScore(ms: seq<TeamMember>): (c: CapacityMetrics)
    ensures c.totalCapacity == TotalHours(ms)
    ensures c.availableCapacity + TotalWorkload(ms) == c.totalCapacity
    ensures c.totalCapacity <= 0.0 ==> c.utilizationRatio == 0.0
    ensures c.totalCapacity > 0.0 ==> c.utilizationRatio * c.totalCapacity == TotalWorkload(ms)
  {
    var total := TotalHours(ms);
    CapacityMetrics(
      total,
      total - TotalWorkload(ms),
      if total > 0.0 then TotalWorkload(ms) / total else 0.0)
  }

  /** Example: two idle members of forty hours give 80 hours in all, 80 free, utilization 0. */
  lemma TwoIdleMembersCapacity(m1: TeamMember, m2: TeamMember)
    requires m1.totalHoursAvailable == 40.0 && m2.totalHoursAvailable == 40.0
    requires m1.currentWorkload == 0.0 && m2.currentWorkload == 0.0
    ensures SprintCapacityScore([m1, m2]) == CapacityMetrics(80.0, 80.0, 0.0)
  {
    assert [m1, m2][..1] == [m1];
    assert [m1][..0] == [];
    assert TotalHours([m1]) == 40.0 && TotalWorkload([m1]) == 0.0;
    assert TotalHours([m1, m2]) == 80.0 && TotalWorkload([m1, m2]) == 0.0;
  }

  datatype Weights = Weights(skill: real, workload: real, reliability: real, urgency: real)

  const DefaultWeights: Weights := Weights(0.4, 0.3, 0.2, 0.1)

  /** The weighted sum of the four features before clamping. */
  function WeightedSum(m: TeamMember, t: Task, now: real, w: Weights): real
  {
    var workloadPenalty := 1.0 - Min(WorkloadUtilizationRatio(m), 1.0);
    w.skill * SkillTaskCompatibility(m, t)
      + w.workload * workloadPenalty
      + w.reliability * PerformanceReliabilityIndex(m)
      + w.urgency * TaskUrgencyFactor(t, now)
  }

  /** The composite score: the weighted sum clamped to [0,1], whatever the weights. */
  function ComputeAssignmentScore(m: TeamMember, t: Task, now: real, w: Weights): (s: real)
    ensures 0.0 <= s <= 1.0
    ensures 0.0 <= WeightedSum(m, t, now, w) <= 1.0 ==> s == WeightedSum(m, t, now, w)
    ensures WeightedSum(m, t, now, w) > 1.0 ==> s == 1.0
  {
    Max(0.0, Min(WeightedSum(m, t, now, w), 1.0))
  }

  /** With the default weights and well-formed member data the clamp never bites. */
  lemma DefaultScoreIsUnclamped(m: TeamMember, t: Task, now: real)
    requires ProficienciesInRange(m)
    requires 0.0 <= m.reliabilityScore <= 1.0
    requires m.currentWorkload >= 0.0 && m.totalHoursAvailable >= 0.0
    ensures ComputeAssignmentScore(m, t, now, DefaultWeights) == WeightedSum(m, t, now, DefaultWeights)
  {
    SkillTaskCompatibilityInRange(m, t);
    var r := WorkloadUtilizationRatio(m);
    assert 0.0 <= r <= 1.0;
  }
}
