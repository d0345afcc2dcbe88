/** The goals page's decisions: the status filter, a goal's progress
    percentage, and the quick-stats counts. */
module GoalsPage {
  import opened Wrappers
  import opened Seqs
  import opened GoalStore
  import opened Rounding

  /** The filter test: 'active' keeps the goals not achieved, 'completed'
      the achieved ones, and 'all' or any other value keeps every goal. */
  predicate Shown(filter: string, g: Goal) {
    if filter == "all" then true
    else if filter == "active" then !g.row.isAchieved
    else if filter == "completed" then g.row.isAchieved
    else true
  }

  /** `filteredGoals`: the goals that pass the filter, in store order. */
  function FilteredGoals(goals: seq<Goal>, filter: string): (r: seq<Goal>)
    ensures filter == "active" ==>
      (forall i :: 0 <= i < |r| ==> !r[i].row.isAchieved && r[i] in goals) &&
      (forall i :: 0 <= i < |goals| && !goals[i].row.isAchieved ==> goals[i] in r)
    ensures filter == "completed" ==>
      (forall i :: 0 <= i < |r| ==> r[i].row.isAchieved && r[i] in goals) &&
      (forall i :: 0 <= i < |goals| && goals[i].row.isAchieved ==> goals[i] in r)
    ensures filter != "active" && filter != "completed" ==> r == goals
  {
    Filter(goals, (g: Goal) => Shown(filter, g))
  }

  /** The filter keeps the goals in store order: filtering a list made of
      two parts gives the first part's survivors before the second's, and a
      single goal is kept exactly when it passes the test. */
  lemma {:induction false} FilteredGoalsKeepsOrder(front: seq<Goal>, back: seq<Goal>, filter: string, one: Goal)
    ensures FilteredGoals(front + back, filter) == FilteredGoals(front, filter) + FilteredGoals(back, filter)
    ensures FilteredGoals([one], filter) == if Shown(filter, one) then [one] else []
  {
    FilterAppend(front, back, (g: Goal) => Shown(filter, g));
  }

  /** The 'active' and 'completed' views split the goals: every goal is in
      exactly one of them, so their sizes add up to the number of goals. */
  lemma {:induction false} ActiveCompletedPartition(goals: seq<Goal>)
    ensures |FilteredGoals(goals, "active")| + |FilteredGoals(goals, "completed")| == |goals|
    ensures multiset(FilteredGoals(goals, "active")) + multiset(FilteredGoals(goals, "completed")) == multiset(goals)
  {
    FilterPartition(goals, (g: Goal) => Shown("active", g), (g: Goal) => Shown("completed", g));
  }

  /** `getProgressPercentage`: 0 for a goal without skills, otherwise
      `Math.round(completed / count * 100)`, the whole number nearest to
      the exact share of completed skills, in percent. */
  function ProgressPercentage(g: Goal): (p: int)
    ensures g.skillsCount == 0 ==> p == 0
    ensures g.skillsCount > 0 ==>
      var exact := (g.completedSkills as real) / (g.skillsCount as real) * 100.0;
      (p as real) <= exact + 0.5 < (p as real) + 1.0
  {
    if g.skillsCount == 0 then 0
    else Round((g.completedSkills as real) / (g.skillsCount as real) * 100.0)
  }

  /** With no more completed skills than skills, the percentage lies in
      [0, 100]; it is 100 when every skill is completed and 0 when none is. */
  lemma PercentageBounds(g: Goal)
    requires g.completedSkills <= g.skillsCount
    ensures 0 <= ProgressPercentage(g) <= 100
    ensures g.skillsCount > 0 && g.completedSkills == g.skillsCount ==> ProgressPercentage(g) == 100
    ensures g.completedSkills == 0 ==> ProgressPercentage(g) == 0
  {
    if g.skillsCount > 0 {
      var n, c := g.skillsCount as real, g.completedSkills as real;
      var share := c / n;
      assert share * n == c;
      ShareAtMostOne(share, c, n);
      RoundMonotone(0.0, share * 100.0);
      RoundMonotone(share * 100.0, 100.0);
      RoundWhole(0);
      RoundWhole(100);
    }
  }

  /** A share `c / n` of a part no larger than the whole lies in [0, 1],
      and is 1 exactly for the whole. */
  lemma ShareAtMostOne(share: real, c: real, n: real)
    requires n > 0.0 && 0.0 <= c <= n && share * n == c
    ensures 0.0 <= share <= 1.0
    ensures c == n ==> share == 1.0
    ensures c == 0.0 ==> share == 0.0
  {
    ScaleSides(share, n);
  }

  /** The quick-stats cards. */
  datatype Stats = Stats(total: nat, completed: nat, inProgress: nat)

  /** The quick stats, shown only when there is at least one goal: the
      total, the achieved goals (`goals.filter(g => g.is_achieved)`) and the
      goals still in progress; the last two add up to the total. */
  function QuickStats(goals: seq<Goal>): (r: Option<Stats>)
    ensures r.Some? <==> |goals| > 0
    ensures r.Some? ==> r.value.total == |goals|
    ensures r.Some? ==> r.value.completed == |FilteredGoals(goals, "completed")|
    ensures r.Some? ==> r.value.inProgress == |FilteredGoals(goals, "active")|
    ensures r.Some? ==> r.value.completed + r.value.inProgress == r.value.total
    ensures r.Some? && r.value.completed == 0 ==> forall i :: 0 <= i < |goals| ==> !goals[i].row.isAchieved
  {
    if |goals| == 0 then None
    else
      ActiveCompletedPartition(goals);
      Some(Stats(|goals|, |FilteredGoals(goals, "completed")|, |FilteredGoals(goals, "active")|))
  }
}
