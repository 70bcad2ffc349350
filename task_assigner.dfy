/** The greedy task assigner (src/decision_engine/task_assigner.py).
    Tasks and members live in arrays that `AssignTasks` updates in place; a list of tasks handed
    to the assigner is a list of positions into the task array. The functions below describe one
    planning run on values; the methods are proved to compute exactly that. */
module Assigner {
  import opened Wrappers
  import opened Reals
  import opened Tasks
  import opened TeamMembers
  import opened Assignments
  import opened Features
  import UrgencyOrder

  /** The hard minimum skill match of a candidate. */
  const MinSkillScore: real := 0.3

  /** The scan divides by the hours of every member that is available and not on leave. */
  predicate HoursKnown(ms: seq<TeamMember>)
  {
    forall i :: 0 <= i < |ms| ==> (ms[i].availability && !ms[i].onLeave ==> ms[i].totalHoursAvailable != 0.0)
  }

  predicate UniqueIds(ms: seq<TeamMember>)
  {
    forall i, j :: 0 <= i < j < |ms| ==> ms[i].id != ms[j].id
  }

  /** The filters of the candidate scan: available, not on leave, within the workload cap once
      the task is added, and skilled enough. */
  predicate Eligible(m: TeamMember, t: Task)
    requires m.availability && !m.onLeave ==> m.totalHoursAvailable != 0.0
  {
    && m.availability && !m.onLeave
    && (m.currentWorkload + t.estimatedHours) / m.totalHoursAvailable <= m.maxWorkloadPercent
    && SkillTaskCompatibility(m, t) >= MinSkillScore
  }

  function Score(m: TeamMember, t: Task, now: real): real
  {
    ComputeAssignmentScore(m, t, now, DefaultWeights)
  }

  /** What the scan makes of one member: passed over, or a candidate with its two scores. */
  datatype Screening = Rejected | Accepted(score: real, skillScore: real)

  function Screen(m: TeamMember, t: Task, now: real): Screening
    requires m.availability && !m.onLeave ==> m.totalHoursAvailable != 0.0
  {
    if Eligible(m, t) then Accepted(Score(m, t, now), SkillTaskCompatibility(m, t)) else Rejected
  }

  /** The screening of every member, in list order. */
  function Screens(ms: seq<TeamMember>, t: Task, now: real): (ss: seq<Screening>)
    requires HoursKnown(ms)
    ensures |ss| == |ms|
  {
    seq(|ms|, j requires 0 <= j < |ms| => Screen(ms[j], t, now))
  }

  datatype Candidate = Candidate(member: nat, score: real, skillScore: real)

  /** The candidate list after the scan has looked at the first n screenings. */
  function Candidates(ss: seq<Screening>, n: nat): (cs: seq<Candidate>)
    requires n <= |ss|
    ensures forall k :: 0 <= k < |cs| ==> cs[k].member < n
  {
    if n == 0 then []
    else
      var cs := Candidates(ss, n - 1);
      match ss[n - 1]
      case Rejected => cs
      case Accepted(score, skill) => cs + [Candidate(n - 1, score, skill)]
  }

  /** Every entry of the candidate list is an accepted member with the scores it was accepted with. */
  lemma {:induction false} CandidatesSound(ss: seq<Screening>, n: nat, k: nat)
    requires n <= |ss| && k < |Candidates(ss, n)|
    ensures var c := Candidates(ss, n)[k]; ss[c.member] == Accepted(c.score, c.skillScore)
  {
    var cs := Candidates(ss, n - 1);
    if ss[n - 1].Accepted? && k < |cs| {
      assert Candidates(ss, n)[k] == cs[k];
      CandidatesSound(ss, n - 1, k);
    } else if ss[n - 1].Rejected? {
      CandidatesSound(ss, n - 1, k);
    }
  }

  /** Position of the first candidate with the highest score, as a max over the list keeps. */
  function FirstMax(cs: seq<Candidate>): (b: nat)
    requires cs != []
    ensures b < |cs|
  {
    if |cs| == 1 then 0
    else
      var b := FirstMax(cs[..|cs| - 1]);
      if cs[|cs| - 1].score > cs[b].score then |cs| - 1 else b
  }

  /** The first maximum has the highest score, and every candidate before it a lower one. */
  lemma {:induction false} FirstMaxIsFirstMaximum(cs: seq<Candidate>)
    requires cs != []
    ensures forall k :: 0 <= k < |cs| ==> cs[k].score <= cs[FirstMax(cs)].score
    ensures forall k :: 0 <= k < FirstMax(cs) ==> cs[k].score < cs[FirstMax(cs)].score
  {
    if |cs| > 1 {
      var init := cs[..|cs| - 1];
      FirstMaxIsFirstMaximum(init);
      assert forall k :: 0 <= k < |init| ==> init[k] == cs[k];
    }
  }

  /** The position of the winning screening, scanning in list order and replacing the current
      winner only on a strictly higher score. */
  function Winner(ss: seq<Screening>): (w: Option<nat>)
    ensures w.Some? ==> w.value < |ss| && ss[w.value].Accepted?
  {
    if ss == [] then None
    else
      var init := ss[..|ss| - 1];
      var w := Winner(init);
      assert w.Some? ==> init[w.value] == ss[w.value];
      match ss[|ss| - 1]
      case Rejected => w
      case Accepted(score, _) =>
        if w.None? || score > ss[w.value].score then Some(|ss| - 1) else w
  }

  /** Nobody wins exactly when nobody was accepted; otherwise the winner has the highest score,
      and the earliest among those. */
  lemma {:induction false} WinnerIsFirstBest(ss: seq<Screening>)
    ensures Winner(ss).None? <==> forall j :: 0 <= j < |ss| ==> ss[j].Rejected?
    ensures Winner(ss).Some? ==> forall j :: 0 <= j < |ss| && ss[j].Accepted? ==> ss[j].score <= ss[Winner(ss).value].score
    ensures Winner(ss).Some? ==> forall j :: 0 <= j < Winner(ss).value && ss[j].Accepted? ==> ss[j].score < ss[Winner(ss).value].score
  {
    if ss != [] {
      var init := ss[..|ss| - 1];
      WinnerIsFirstBest(init);
      assert forall j :: 0 <= j < |init| ==> init[j] == ss[j];
    }
  }

  /** Taking the first maximum of the candidate list picks the winning screening. */
  lemma {:induction false} FirstMaxIsWinner(ss: seq<Screening>, n: nat)
    requires n <= |ss|
    ensures var cs := Candidates(ss, n);
      && (cs == [] <==> Winner(ss[..n]).None?)
      && (cs != [] ==> Winner(ss[..n]) == Some(cs[FirstMax(cs)].member))
  {
    if n > 0 {
      FirstMaxIsWinner(ss, n - 1);
      var cs0 := Candidates(ss, n - 1);
      var w0 := Winner(ss[..n - 1]);
      WinnerOfPrefix(ss, n);
      if ss[n - 1].Rejected? {
        assert Candidates(ss, n) == cs0;
      } else if cs0 == [] {
        assert Candidates(ss, n) == [Candidate(n - 1, ss[n - 1].score, ss[n - 1].skillScore)];
      } else {
        var b0 := FirstMax(cs0);
        CandidatesSound(ss, n - 1, b0);
        FirstMaxIsWinnerStep(ss, n, cs0, b0, w0.value);
      }
    }
  }

  /** The winner of the first n screenings, from the winner of the first n - 1. */
  lemma WinnerOfPrefix(ss: seq<Screening>, n: nat)
    requires 0 < n <= |ss|
    ensures ss[..n][..n - 1] == ss[..n - 1]
    ensures var w0 := Winner(ss[..n - 1]);
      Winner(ss[..n]) ==
        match ss[n - 1]
        case Rejected => w0
        case Accepted(score, _) =>
          if w0.None? || score > ss[w0.value].score then Some(n - 1) else w0
  {
    var pre := ss[..n];
    assert pre[..n - 1] == ss[..n - 1];
    assert pre[n - 1] == ss[n - 1];
    var w0 := Winner(ss[..n - 1]);
    assert w0.Some? ==> pre[w0.value] == ss[w0.value];
  }

  /** The induction step of FirstMaxIsWinner when the newest screening is accepted behind others. */
  lemma FirstMaxIsWinnerStep(ss: seq<Screening>, n: nat, cs0: seq<Candidate>, b0: nat, w0: nat)
    requires 0 < n <= |ss| && ss[n - 1].Accepted?
    requires cs0 == Candidates(ss, n - 1) && cs0 != [] && b0 == FirstMax(cs0)
    requires Winner(ss[..n - 1]) == Some(w0) && w0 == cs0[b0].member
    requires ss[w0] == Accepted(cs0[b0].score, cs0[b0].skillScore)
    requires ss[..n][..n - 1] == ss[..n - 1]
    ensures Winner(ss[..n]) == Some(Candidates(ss, n)[FirstMax(Candidates(ss, n))].member)
  {
    var cs := Candidates(ss, n);
    assert cs == cs0 + [Candidate(n - 1, ss[n - 1].score, ss[n - 1].skillScore)];
    assert cs[..|cs| - 1] == cs0;
    assert cs[b0] == cs0[b0];
  }


  /** The member that wins the task. */
  function WinnerIndex(t: Task, ms: seq<TeamMember>, now: real): (w: Option<nat>)
    requires HoursKnown(ms)
    ensures w.Some? ==> w.value < |ms|
  {
    Winner(Screens(ms, t, now))
  }

  /** A screening records exactly the filters and the scores of the candidate scan. */
  lemma ScreenMeans(m: TeamMember, t: Task, now: real)
    requires m.availability && !m.onLeave ==> m.totalHoursAvailable != 0.0
    ensures Screen(m, t, now).Accepted? <==> Eligible(m, t)
    ensures Eligible(m, t) ==> Screen(m, t, now).score == Score(m, t, now)
    ensures Eligible(m, t) ==> Screen(m, t, now).skillScore == SkillTaskCompatibility(m, t)
  {
  }

  /** Nobody wins exactly when no member is eligible; otherwise the winner is an eligible member
      with the highest score, and the earliest in the list among those. */
  lemma WinnerIsBestEligible(t: Task, ms: seq<TeamMember>, now: real)
    requires HoursKnown(ms)
    ensures var w := WinnerIndex(t, ms, now);
      && (w.None? <==> forall j :: 0 <= j < |ms| ==> !Eligible(ms[j], t))
      && (w.Some? ==> Eligible(ms[w.value], t))
      && (w.Some? ==> forall j :: 0 <= j < |ms| && Eligible(ms[j], t) ==> Score(ms[j], t, now) <= Score(ms[w.value], t, now))
      && (w.Some? ==> forall j :: 0 <= j < w.value && Eligible(ms[j], t) ==> Score(ms[j], t, now) < Score(ms[w.value], t, now))
  {
    var ss := Screens(ms, t, now);
    WinnerIsFirstBest(ss);
    forall j | 0 <= j < |ms|
      ensures (ss[j].Accepted? <==> Eligible(ms[j], t)) && (Eligible(ms[j], t) ==> ss[j].score == Score(ms[j], t, now))
    {
      ScreenMeans(ms[j], t, now);
    }
  }

  /** The record of binding task t to member m, with every score taken before the bind. */
  function MakeAssignment(t: Task, m: TeamMember, now: real): (a: Assignment)
    ensures a.taskId == t.id && a.memberId == m.id && a.estimatedHours == t.estimatedHours
    ensures a.skillCompatibilityScore == SkillTaskCompatibility(m, t)
    ensures a.finalScore == Score(m, t, now) && 0.0 <= a.finalScore <= 1.0
    ensures a.workloadPenalty == 1.0 - WorkloadUtilizationRatio(m) && 0.0 <= a.workloadPenalty
    ensures m.currentWorkload >= 0.0 && m.totalHoursAvailable > 0.0 ==> a.workloadPenalty <= 1.0
    ensures a.urgencyBoost == TaskUrgencyFactor(t, now) && 0.3 <= a.urgencyBoost <= 1.0
    ensures a.reasoning.urgency == a.urgencyBoost
    ensures a.reasoning.reliability == m.reliabilityScore
    ensures a.reasoning.skillMatch == a.skillCompatibilityScore
    ensures a.reasoning.workload == WorkloadUtilization(m)
    ensures a.startedAt.None? && a.completedAt.None? && a.actualHours.None?
  {
    var skill := SkillTaskCompatibility(m, t);
    var urgency := TaskUrgencyFactor(t, now);
    Assignment(
      t.id, m.id, t.estimatedHours,
      skill,
      1.0 - WorkloadUtilizationRatio(m),
      urgency,
      Score(m, t, now),
      None, None, None,
      Reasoning(skill, WorkloadUtilization(m), m.reliabilityScore, urgency))
  }

  /** The quality of an assignment the scan makes is the winner's composite score, so it lies in [0,1]. */
  lemma AssignmentQualityIsScore(t: Task, m: TeamMember, now: real)
    ensures AssignmentQuality(MakeAssignment(t, m, now)) == Score(m, t, now)
    ensures 0.0 <= AssignmentQuality(MakeAssignment(t, m, now)) <= 1.0
  {
  }

  /** What the candidate scan returns for one task: the winner's assignment, if anyone wins. */
  function BestCandidate(t: Task, ms: seq<TeamMember>, now: real): (b: Option<Assignment>)
    requires HoursKnown(ms)
    ensures b.None? <==> WinnerIndex(t, ms, now).None?
    ensures b.Some? ==> b.value.taskId == t.id && b.value.memberId == ms[WinnerIndex(t, ms, now).value].id
  {
    match WinnerIndex(t, ms, now)
    case None => None
    case Some(w) => Some(MakeAssignment(t, ms[w], now))
  }

  /** The first member with the given id: where the source looks the winner up. */
  function FirstWithId(ms: seq<TeamMember>, id: string): (k: nat)
    requires exists j :: 0 <= j < |ms| && ms[j].id == id
    ensures k < |ms| && ms[k].id == id
    ensures forall j :: 0 <= j < k ==> ms[j].id != id
  {
    if ms[0].id == id then 0
    else
      var j :| 0 <= j < |ms| && ms[j].id == id;
      assert ms[1..][j - 1].id == id;
      1 + FirstWithId(ms[1..], id)
  }

  datatype PlanState = PlanState(tasks: seq<Task>, members: seq<TeamMember>, made: seq<Assignment>)

  /** One iteration of the assignment loop on task position p. */
  function Step(st: PlanState, p: nat, now: real): (r: PlanState)
    requires p < |st.tasks| && HoursKnown(st.members)
    ensures |r.tasks| == |st.tasks| && |r.members| == |st.members| && HoursKnown(r.members)
  {
    var t := st.tasks[p];
    if IsAssigned(t) then st
    else
      match BestCandidate(t, st.members, now)
      case None => st
      case Some(a) =>
        var k := FirstWithId(st.members, a.memberId);
        var m := st.members[k];
        PlanState(
          st.tasks[p := t.(assignedTo := Some(a.memberId))],
          st.members[k := m.(currentWorkload := m.currentWorkload + t.estimatedHours)],
          st.made + [a])
  }

  /** The assignments made so far do not affect what a step does; it appends at most one. */
  lemma StepAppends(st: PlanState, p: nat, now: real)
    requires p < |st.tasks| && HoursKnown(st.members)
    ensures var r0 := Step(PlanState(st.tasks, st.members, []), p, now);
      Step(st, p, now) == PlanState(r0.tasks, r0.members, st.made + r0.made)
  {
  }

  predicate AllBelow(vs: seq<nat>, n: nat)
  {
    forall k :: 0 <= k < |vs| ==> vs[k] < n
  }

  /** The state after the loop has visited the task positions vs in order. */
  function Run(ts: seq<Task>, ms: seq<TeamMember>, vs: seq<nat>, now: real): (r: PlanState)
    requires AllBelow(vs, |ts|) && HoursKnown(ms)
    ensures |r.tasks| == |ts| && |r.members| == |ms| && HoursKnown(r.members)
    decreases |vs|
  {
    if vs == [] then PlanState(ts, ms, [])
    else Step(Run(ts, ms, vs[..|vs| - 1], now), vs[|vs| - 1], now)
  }

  predicate UniqueTaskIds(ts: seq<Task>)
  {
    forall i, j :: 0 <= i < j < |ts| ==> ts[i].id != ts[j].id
  }

  /** With unique member ids the lookup by id finds the winner itself. */
  lemma FirstWithIdFindsOwner(ms: seq<TeamMember>, w: nat)
    requires UniqueIds(ms) && w < |ms|
    ensures FirstWithId(ms, ms[w].id) == w
  {
  }

  /** What one pass of the loop does. An assigned task, or one nobody can take, changes nothing.
      Otherwise the task now names the winner, the winner's workload (and no one else's) grows
      by the task's hours, and the winner's assignment is appended. */
  lemma StepEffect(st: PlanState, p: nat, now: real)
    requires p < |st.tasks| && HoursKnown(st.members) && UniqueIds(st.members)
    ensures var t := st.tasks[p];
      var w := WinnerIndex(t, st.members, now);
      Step(st, p, now) ==
        if IsAssigned(t) || w.None? then st
        else
          var m := st.members[w.value];
          PlanState(
            st.tasks[p := t.(assignedTo := Some(m.id))],
            st.members[w.value := m.(currentWorkload := m.currentWorkload + t.estimatedHours)],
            st.made + [MakeAssignment(t, m, now)])
  {
    var w := WinnerIndex(st.tasks[p], st.members, now);
    if w.Some? {
      FirstWithIdFindsOwner(st.members, w.value);
    }
  }

  /** The loop only ever touches a task's assignee and a member's workload; a task that was
      already assigned, or that is not in the visited list, keeps its assignee; and every pass
      appends at most one assignment. */
  lemma {:induction false} RunFrame(ts: seq<Task>, ms: seq<TeamMember>, vs: seq<nat>, now: real)
    requires AllBelow(vs, |ts|) && HoursKnown(ms)
    ensures var r := Run(ts, ms, vs, now);
      && (forall q :: 0 <= q < |ts| ==> r.tasks[q] == ts[q].(assignedTo := r.tasks[q].assignedTo))
      && (forall q :: 0 <= q < |ts| && (IsAssigned(ts[q]) || q !in vs) ==> r.tasks[q] == ts[q])
      && (forall j :: 0 <= j < |ms| ==> r.members[j] == ms[j].(currentWorkload := r.members[j].currentWorkload))
      && |r.made| <= |vs|
    decreases |vs|
  {
    if vs != [] {
      var init := vs[..|vs| - 1];
      assert AllBelow(init, |ts|);
      RunFrame(ts, ms, init, now);
    }
  }

  /** Hours bound to the member with the given id by a list of assignments. */
  function HoursFor(made: seq<Assignment>, id: string): real
  {
    if made == [] then 0.0
    else HoursFor(made[..|made| - 1], id) + (if made[|made| - 1].memberId == id then made[|made| - 1].estimatedHours else 0.0)
  }

  /** With unique member ids, each member's workload is its starting workload plus the hours of
      the assignments made to it. */
  lemma {:induction false} RunAccounting(ts: seq<Task>, ms: seq<TeamMember>, vs: seq<nat>, now: real)
    requires AllBelow(vs, |ts|) && HoursKnown(ms) && UniqueIds(ms)
    ensures var r := Run(ts, ms, vs, now);
      forall j :: 0 <= j < |ms| ==> r.members[j].currentWorkload == ms[j].currentWorkload + HoursFor(r.made, ms[j].id)
    decreases |vs|
  {
    if vs != [] {
      var init := vs[..|vs| - 1];
      var r0 := Run(ts, ms, init, now);
      RunAccounting(ts, ms, init, now);
      RunFrame(ts, ms, init, now);
      assert UniqueIds(r0.members);
      StepEffect(r0, vs[|vs| - 1], now);
      var r := Step(r0, vs[|vs| - 1], now);
      if |r.made| > |r0.made| {
        assert r.made[..|r.made| - 1] == r0.made;
      }
    }
  }

  /** A pass that changes a member's workload keeps it within that member's cap. */
  lemma StepRespectsCap(st: PlanState, p: nat, now: real, j: nat)
    requires p < |st.tasks| && HoursKnown(st.members) && UniqueIds(st.members) && j < |st.members|
    ensures var m := st.members[j];
      var m' := Step(st, p, now).members[j];
      m'.currentWorkload == m.currentWorkload
      || (m.totalHoursAvailable != 0.0 && m'.currentWorkload / m.totalHoursAvailable <= m.maxWorkloadPercent)
  {
    StepEffect(st, p, now);
    var t := st.tasks[p];
    var w := WinnerIndex(t, st.members, now);
    if !IsAssigned(t) && w.Some? && w.value == j {
      WinnerIsBestEligible(t, st.members, now);
    }
  }

  /** A member whose workload the run has changed is within its workload cap: the cap check is
      made against the workload as it stands when each task is bound. */
  lemma {:induction false} RunRespectsCap(ts: seq<Task>, ms: seq<TeamMember>, vs: seq<nat>, now: real)
    requires AllBelow(vs, |ts|) && HoursKnown(ms) && UniqueIds(ms)
    ensures var r := Run(ts, ms, vs, now);
      forall j :: 0 <= j < |ms| ==>
        r.members[j].currentWorkload == ms[j].currentWorkload
        || (ms[j].totalHoursAvailable != 0.0
            && r.members[j].currentWorkload / ms[j].totalHoursAvailable <= ms[j].maxWorkloadPercent)
    decreases |vs|
  {
    if vs != [] {
      var init := vs[..|vs| - 1];
      var r0 := Run(ts, ms, init, now);
      RunRespectsCap(ts, ms, init, now);
      RunFrame(ts, ms, init, now);
      assert UniqueIds(r0.members);
      forall j | 0 <= j < |ms|
        ensures var m' := Step(r0, vs[|vs| - 1], now).members[j];
          m'.currentWorkload == ms[j].currentWorkload
          || (ms[j].totalHoursAvailable != 0.0
              && m'.currentWorkload / ms[j].totalHoursAvailable <= ms[j].maxWorkloadPercent)
      {
        StepRespectsCap(r0, vs[|vs| - 1], now, j);
      }
    }
  }

  /** Starting from idle members whose cap is at most 100%, nobody is bound more hours than
      they have; a member with no hours, who can only be unavailable or on leave, gets none. */
  lemma IdleTeamStaysWithinHours(ts: seq<Task>, ms: seq<TeamMember>, vs: seq<nat>, now: real)
    requires AllBelow(vs, |ts|) && UniqueIds(ms) && HoursKnown(ms)
    requires forall j :: 0 <= j < |ms| ==>
      ms[j].currentWorkload == 0.0 && ms[j].totalHoursAvailable >= 0.0 && ms[j].maxWorkloadPercent <= 1.0
    ensures var r := Run(ts, ms, vs, now);
      forall j :: 0 <= j < |ms| ==> HoursFor(r.made, ms[j].id) <= ms[j].totalHoursAvailable
  {
    var r := Run(ts, ms, vs, now);
    RunAccounting(ts, ms, vs, now);
    RunRespectsCap(ts, ms, vs, now);
    forall j | 0 <= j < |ms| ensures HoursFor(r.made, ms[j].id) <= ms[j].totalHoursAvailable {
      if r.members[j].currentWorkload != 0.0 {
        RatioAtMostOne(r.members[j].currentWorkload, ms[j].totalHoursAvailable, ms[j].maxWorkloadPercent);
      }
    }
  }

  /** The ids of the tasks that have an assignee. */
  function AssignedIds(ts: seq<Task>): set<string>
  {
    set q | 0 <= q < |ts| && IsAssigned(ts[q]) :: ts[q].id
  }

  /** A pass keeps every assigned task assigned and either appends nothing, or appends one
      assignment for the visited task, which had no assignee before and has one after. */
  lemma StepBindsFreshTask(st: PlanState, p: nat, now: real)
    requires p < |st.tasks| && HoursKnown(st.members) && UniqueTaskIds(st.tasks)
    ensures var r := Step(st, p, now);
      && AssignedIds(st.tasks) <= AssignedIds(r.tasks)
      && (r.made == st.made
          || (|r.made| == |st.made| + 1 && r.made[..|st.made|] == st.made
              && r.made[|st.made|].taskId == st.tasks[p].id
              && st.tasks[p].id !in AssignedIds(st.tasks) && st.tasks[p].id in AssignedIds(r.tasks)))
  {
    var r := Step(st, p, now);
    var t := st.tasks[p];
    if !IsAssigned(t) && BestCandidate(t, st.members, now).Some? {
      assert r.tasks == st.tasks[p := t.(assignedTo := r.tasks[p].assignedTo)];
      forall x | x in AssignedIds(st.tasks) ensures x in AssignedIds(r.tasks) {
        var q :| 0 <= q < |st.tasks| && IsAssigned(st.tasks[q]) && st.tasks[q].id == x;
        assert q != p && r.tasks[q] == st.tasks[q];
      }
      assert IsAssigned(r.tasks[p]) && r.tasks[p].id == t.id;
      assert r.made[..|st.made|] == st.made;
    }
  }

  /** With unique task ids, one run binds each task at most once: the assignments name distinct
      tasks, and every task they name is assigned at the end. */
  lemma {:induction false} RunAssignsEachTaskOnce(ts: seq<Task>, ms: seq<TeamMember>, vs: seq<nat>, now: real)
    requires AllBelow(vs, |ts|) && HoursKnown(ms) && UniqueTaskIds(ts)
    ensures var r := Run(ts, ms, vs, now);
      && (forall i, j :: 0 <= i < j < |r.made| ==> r.made[i].taskId != r.made[j].taskId)
      && (forall i :: 0 <= i < |r.made| ==> r.made[i].taskId in AssignedIds(r.tasks))
    decreases |vs|
  {
    if vs != [] {
      var init := vs[..|vs| - 1];
      var r0 := Run(ts, ms, init, now);
      RunAssignsEachTaskOnce(ts, ms, init, now);
      RunFrame(ts, ms, init, now);
      assert UniqueTaskIds(r0.tasks) by {
        forall i, j | 0 <= i < j < |ts| ensures r0.tasks[i].id != r0.tasks[j].id {
          assert r0.tasks[i].id == ts[i].id && r0.tasks[j].id == ts[j].id;
        }
      }
      StepBindsFreshTask(r0, vs[|vs| - 1], now);
      var r := Step(r0, vs[|vs| - 1], now);
      if r.made != r0.made {
        forall i | 0 <= i < |r0.made| ensures r.made[i] == r0.made[i] {
          assert r.made[..|r0.made|][i] == r.made[i];
        }
      }
    }
  }

  function UrgencyKeys(ts: seq<Task>, ids: seq<nat>, now: real): (keys: seq<real>)
    requires AllBelow(ids, |ts|)
    ensures |keys| == |ids|
  {
    seq(|ids|, i requires 0 <= i < |ids| => TaskUrgencyFactor(ts[ids[i]], now))
  }

  /** The task positions in the order the loop visits them: the list sorted by urgency. */
  function VisitOrder(ts: seq<Task>, ids: seq<nat>, now: real): (vs: seq<nat>)
    requires AllBelow(ids, |ts|)
    ensures |vs| == |ids| && AllBelow(vs, |ts|)
  {
    var order := UrgencyOrder.SortedPositions(UrgencyKeys(ts, ids, now));
    seq(|order|, k requires 0 <= k < |order| => ids[order[k]])
  }

  /** The loop visits each list entry once, in non-increasing urgency, equal urgencies in list order. */
  lemma VisitOrderFollowsUrgency(ts: seq<Task>, ids: seq<nat>, now: real)
    requires AllBelow(ids, |ts|)
    ensures var vs := VisitOrder(ts, ids, now);
      forall a, b :: 0 <= a < b < |vs| ==> TaskUrgencyFactor(ts[vs[a]], now) >= TaskUrgencyFactor(ts[vs[b]], now)
    ensures var order := UrgencyOrder.SortedPositions(UrgencyKeys(ts, ids, now));
      && (forall k :: 0 <= k < |order| ==> VisitOrder(ts, ids, now)[k] == ids[order[k]])
      && (forall q :: 0 <= q < |ids| ==> q in order)
      && (forall a, b :: 0 <= a < b < |order| ==> order[a] != order[b])
      && (forall a, b :: 0 <= a < b < |order| && TaskUrgencyFactor(ts[ids[order[a]]], now) == TaskUrgencyFactor(ts[ids[order[b]]], now)
            ==> order[a] < order[b])
  {
    var keys := UrgencyKeys(ts, ids, now);
    var order := UrgencyOrder.SortedPositions(keys);
    UrgencyOrder.SortedPositionsIsStableSort(keys);
  }

  class TaskAssigner {
    /** Every assignment this engine has produced, across calls. */
    var assignments: seq<Assignment>

    constructor ()
      ensures assignments == []
    {
      assignments := [];
    }

    /** The hard constraints and the scores of one member, checked in the scan's order. */
    method ScreenMember(member: TeamMember, task: Task, now: real) returns (s: Screening)
      requires member.availability && !member.onLeave ==> member.totalHoursAvailable != 0.0
      ensures s == Screen(member, task, now)
    {
      if !member.availability || member.onLeave {
        return Rejected;
      }
      var newUtilization := (member.currentWorkload + task.estimatedHours) / member.totalHoursAvailable;
      if newUtilization > member.maxWorkloadPercent {
        return Rejected;
      }
      var skillScore := SkillTaskCompatibility(member, task);
      if skillScore < MinSkillScore {
        return Rejected;
      }
      var score := ComputeAssignmentScore(member, task, now, DefaultWeights);
      return Accepted(score, skillScore);
    }

    /** The candidate scan of one task over the members as they stand. */
    method FindBestCandidate(task: Task, members: array<TeamMember>, now: real) returns (best: Option<Assignment>)
      requires HoursKnown(members[..])
      ensures best == BestCandidate(task, members[..], now)
    {
      ghost var ss := Screens(members[..], task, now);
      var candidates: seq<Candidate> := [];
      for i := 0 to members.Length
        invariant candidates == Candidates(ss, i)
      {
        var member := members[i];
        assert member == members[..][i];
        var s := ScreenMember(member, task, now);
        assert s == ss[i];
        if s.Accepted? {
          candidates := candidates + [Candidate(i, s.score, s.skillScore)];
        }
      }
      FirstMaxIsWinner(ss, |ss|);
      assert ss[..|ss|] == ss;
      if candidates == [] {
        return None;
      }
      var b := FirstMax(candidates);
      best := Some(MakeAssignment(task, members[candidates[b].member], now));
    }

    /** The lookup of the winner by id. */
    method FindMemberIndex(members: array<TeamMember>, id: string) returns (k: nat)
      requires exists j :: 0 <= j < members.Length && members[j].id == id
      ensures k == FirstWithId(members[..], id)
    {
      k := 0;
      while members[k].id != id
        invariant k < members.Length
        invariant forall j :: 0 <= j < k ==> members[j].id != id
        decreases members.Length - k
      {
        k := k + 1;
      }
      ghost var f := FirstWithId(members[..], id);
      assert members[..][f].id == id;
    }

    /** One pass of the assignment loop: an unassigned task at position p goes to its best
        candidate, whose workload grows by the task's hours. */
    method AssignOne(tasks: array<Task>, members: array<TeamMember>, p: nat, now: real)
      returns (a: Option<Assignment>)
      requires p < tasks.Length && HoursKnown(members[..])
      modifies tasks, members
      ensures var r := Step(PlanState(old(tasks[..]), old(members[..]), []), p, now);
        tasks[..] == r.tasks && members[..] == r.members && (if a.Some? then [a.value] else []) == r.made
    {
      ghost var st := PlanState(tasks[..], members[..], []);
      var task := tasks[p];
      assert task == st.tasks[p];
      if IsAssigned(task) {
        return None;
      }
      a := FindBestCandidate(task, members, now);
      if a.Some? {
        assert members[..][WinnerIndex(task, members[..], now).value].id == a.value.memberId;
        var w := FindMemberIndex(members, a.value.memberId);
        members[w] := members[w].(currentWorkload := members[w].currentWorkload + task.estimatedHours);
        tasks[p] := task.(assignedTo := Some(a.value.memberId));
      }
    }

    /** Assigns the tasks at positions `ids`, most urgent first, binding each unassigned task to its
        best candidate before looking at the next; records the new assignments in the history. */
    method AssignTasks(tasks: array<Task>, members: array<TeamMember>, ids: seq<nat>, now: real)
      returns (made: seq<Assignment>)
      requires AllBelow(ids, tasks.Length)
      requires HoursKnown(members[..])
      modifies this, tasks, members
      ensures var r := Run(old(tasks[..]), old(members[..]), VisitOrder(old(tasks[..]), ids, now), now);
        tasks[..] == r.tasks && members[..] == r.members && made == r.made
      ensures assignments == old(assignments) + made
    {
      ghost var ts0, ms0 := tasks[..], members[..];
      var sortedTasks := VisitOrder(tasks[..], ids, now);
      made := [];
      var k := 0;
      while k < |sortedTasks|
        invariant 0 <= k <= |sortedTasks|
        invariant HoursKnown(members[..]) && assignments == old(assignments)
        invariant Run(ts0, ms0, sortedTasks[..k], now) == PlanState(tasks[..], members[..], made)
      {
        assert sortedTasks[..k + 1][..k] == sortedTasks[..k];
        ghost var st := PlanState(tasks[..], members[..], made);
        var a := AssignOne(tasks, members, sortedTasks[k], now);
        if a.Some? {
          made := made + [a.value];
        }
        StepAppends(st, sortedTasks[k], now);
        k := k + 1;
      }
      assert sortedTasks[..k] == sortedTasks;
      assignments := assignments + made;
    }
  }
}
