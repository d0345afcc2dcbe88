/** The dashboard's layout decisions: active and completed goals, how many
    of each are shown, the 'View All Goals' link and the empty state. */
module Dashboard {
  import opened Seqs
  import opened GoalStore
  import opened GoalsPage

  /** The goals not yet achieved, in store order. */
  function Active(goals: seq<Goal>): seq<Goal> {
    FilteredGoals(goals, "active")
  }

  /** The achieved goals, in store order. */
  function Achieved(goals: seq<Goal>): seq<Goal> {
    FilteredGoals(goals, "completed")
  }

  /** What the dashboard shows. */
  datatype Layout = Layout(
    emptyState: bool,
    activeSection: bool,
    activeShown: seq<Goal>,
    viewAll: bool,
    completedSection: bool,
    completedShown: seq<Goal>)

  /** The dashboard for a goal list: the empty-state card when no goal is
      active, otherwise the active section with the first three active
      goals and the 'View All Goals' link when more exist; the completed
      section with the first two achieved goals when any exists. */
  function Arrange(goals: seq<Goal>): (l: Layout)
    ensures l.emptyState <==> |Active(goals)| == 0
    ensures l.activeSection <==> !l.emptyState
    ensures l.activeShown <= Active(goals)
    ensures |l.activeShown| == if |Active(goals)| < 3 then |Active(goals)| else 3
    ensures l.viewAll <==> |Active(goals)| > 3
    ensures l.viewAll <==> |l.activeShown| < |Active(goals)|
    ensures l.completedSection <==> |Achieved(goals)| > 0
    ensures l.completedShown <= Achieved(goals)
    ensures |l.completedShown| == if |Achieved(goals)| < 2 then |Achieved(goals)| else 2
  {
    var active := Active(goals);
    var done := Achieved(goals);
    Layout(|active| == 0, |active| > 0, Take(active, 3), |active| > 3, |done| > 0, Take(done, 2))
  }

  /** Every goal appears in exactly one of the two sections' sources, and
      the shown active goals are never achieved while the shown completed
      ones always are. */
  lemma {:induction false} SectionsPartition(goals: seq<Goal>)
    ensures |Active(goals)| + |Achieved(goals)| == |goals|
    ensures multiset(Active(goals)) + multiset(Achieved(goals)) == multiset(goals)
    ensures forall i :: 0 <= i < |Arrange(goals).activeShown| ==> !Arrange(goals).activeShown[i].row.isAchieved
    ensures forall i :: 0 <= i < |Arrange(goals).completedShown| ==> Arrange(goals).completedShown[i].row.isAchieved
  {
    ActiveCompletedPartition(goals);
    var l := Arrange(goals);
    forall i | 0 <= i < |l.activeShown|
      ensures !l.activeShown[i].row.isAchieved
    {
      assert l.activeShown[i] == Active(goals)[i];
    }
    forall i | 0 <= i < |l.completedShown|
      ensures l.completedShown[i].row.isAchieved
    {
      assert l.completedShown[i] == Achieved(goals)[i];
    }
  }

  /** Achieved goals never affect the empty state or the active section:
      adding any number of them leaves both as they were. */
  lemma {:induction false} EmptyStateIgnoresAchieved(goals: seq<Goal>, more: seq<Goal>)
    requires forall i :: 0 <= i < |more| ==> more[i].row.isAchieved
    ensures Arrange(goals + more).emptyState == Arrange(goals).emptyState
    ensures Arrange(goals + more).activeShown == Arrange(goals).activeShown
  {
    FilterAppend(goals, more, (g: Goal) => Shown("active", g));
    assert |Active(more)| == 0;
    assert Active(goals + more) == Active(goals);
  }
}
