/** The Goal store (`useGoals`): the permissive family. It falls back to two
    seed goals, applies every change locally even when the remote call
    fails, and never rethrows. */
module GoalStore {
  import opened Wrappers
  import opened Seqs
  import opened Schema
  import opened Session
  import opened Store

  /** A goal as listed: its row and the two counts derived from its skills. */
  datatype Goal = Goal(row: GoalRow, skillsCount: nat, completedSkills: nat)

  /** An entry of the `skills:skills(id, status)` join. */
  datatype SkillRef = SkillRef(id: string, status: string)

  /** A row of the fetch query: the goal and its joined skills, if any. */
  datatype FetchedGoal = FetchedGoal(row: GoalRow, skills: Option<seq<SkillRef>>)

  /** The two demo goals shown whenever there is no usable session. */
  const SeedGoals: seq<Goal> := [
    Goal(GoalRow("1", "demo-user", "Senior Software Engineer Role",
                 "Land a senior software engineering position at a top tech company",
                 Some("2024-12-31"), Some(16), false, None,
                 "2024-10-01T00:00:00Z", "2024-10-01T00:00:00Z"), 3, 1),
    Goal(GoalRow("2", "demo-user", "Full-Stack Developer",
                 "Become proficient in both frontend and backend development",
                 Some("2024-11-30"), Some(12), false, None,
                 "2024-09-15T00:00:00Z", "2024-09-15T00:00:00Z"), 4, 0)
  ]

  predicate IsDone(s: SkillRef) {
    s.status == "done"
  }

  /** The counts a fetched goal gets: all its joined skills, and those
      of them that are done. */
  function WithStats(f: FetchedGoal): (g: Goal)
    ensures g.row == f.row
    ensures f.skills.None? ==> g.skillsCount == 0 && g.completedSkills == 0
    ensures f.skills.Some? ==> g.skillsCount == |f.skills.value|
    ensures f.skills.Some? ==> g.completedSkills == Count(f.skills.value, IsDone)
    ensures g.completedSkills <= g.skillsCount
  {
    match f.skills
    case None => Goal(f.row, 0, 0)
    case Some(refs) => Goal(f.row, |refs|, Count(refs, IsDone))
  }

  /** `fetchGoals`. Without a configured, authenticated session (or with no
      user object) the seed goals are shown; a remote error also falls back
      to the seed goals; a success with `null` data gives an empty list.
      The `error` field is never set on these paths. */
  function Fetch(s: State<Goal>, v: View, reply: Result<Option<seq<FetchedGoal>>>): (r: State<Goal>)
    ensures r.error == s.error
    ensures !(v.configured && v.authenticated) ==> r.items == SeedGoals
    ensures v.user.None? ==> r.items == SeedGoals
    ensures CanPersist(v) && reply.Err? ==> r.items == SeedGoals
    ensures CanPersist(v) && reply == Ok(None) ==> r.items == []
    ensures CanPersist(v) && reply.Ok? && reply.value.Some? ==>
      |r.items| == |reply.value.value| &&
      forall i :: 0 <= i < |r.items| ==> r.items[i] == WithStats(reply.value.value[i])
  {
    if !v.configured || (!v.authenticated && v.configured) then s.(items := SeedGoals)
    else if v.configured && v.user.Some? then
      match reply
      case Err(_) => s.(items := SeedGoals)
      case Ok(None) => s.(items := [])
      case Ok(Some(rows)) => s.(items := seq(|rows|, i requires 0 <= i < |rows| => WithStats(rows[i])))
    else s.(items := SeedGoals)
  }

  /** The server's answer to the fetch query: the goal rows whose
      `user_id` equals the given user. */
  function Select(table: seq<FetchedGoal>, userId: string): seq<FetchedGoal> {
    Filter(table, (f: FetchedGoal) => f.row.userId == userId)
  }

  /** Owner isolation: when the server answers the query the store sends,
      every fetched goal belongs to the signed-in user. */
  lemma FetchIsolated(s: State<Goal>, v: View, table: seq<FetchedGoal>)
    requires CanPersist(v)
    ensures forall g :: g in Fetch(s, v, Ok(Some(Select(table, v.user.value.id)))).items ==>
      g.row.userId == v.user.value.id
  {
    var rows := Select(table, v.user.value.id);
    var items := Fetch(s, v, Ok(Some(rows))).items;
    forall g | g in items
      ensures g.row.userId == v.user.value.id
    {
      var i :| 0 <= i < |items| && items[i] == g;
      assert g.row == rows[i].row;
    }
  }

  /** What the caller passes to `createGoal`; an empty string stands for a
      missing or empty field. */
  datatype GoalDraft = GoalDraft(
    title: string,
    description: string,
    targetDate: Option<string>,
    durationWeeks: Option<int>)

  /** The insert sent to `goals`. */
  datatype GoalInsert = GoalInsert(
    userId: string,
    title: string,
    description: string,
    targetDate: Option<string>,
    durationWeeks: Option<int>)

  /** The insert `createGoal` sends: none unless the gate is open, and then
      with the signed-in user and the draft's fields or their defaults. */
  function InsertRequest(v: View, d: GoalDraft): (q: Option<GoalInsert>)
    ensures q.Some? <==> CanPersist(v)
    ensures q.Some? ==> q.value.userId == v.user.value.id
    ensures q.Some? ==> q.value.title == OrElse(d.title, "New Goal")
    ensures q.Some? ==> q.value.description == d.description
    ensures q.Some? ==> q.value.targetDate == NonEmpty(d.targetDate)
    ensures q.Some? ==> q.value.durationWeeks == NonZero(d.durationWeeks)
  {
    if CanPersist(v) then
      Some(GoalInsert(v.user.value.id, OrElse(d.title, "New Goal"), d.description,
                      NonEmpty(d.targetDate), NonZero(d.durationWeeks)))
    else None
  }

  /** The goal `createGoal` builds locally. `localId` is `Date.now()` and
      `now` the current ISO time; without a user the owner is 'demo-user'. */
  function LocalGoal(v: View, d: GoalDraft, localId: string, now: string): (g: Goal)
    ensures g.row.id == localId
    ensures g.row.title != "" && (d.title != "" ==> g.row.title == d.title)
    ensures d.title == "" ==> g.row.title == "New Goal"
    ensures g.row.description == d.description
    ensures !g.row.isAchieved && g.row.achievementNotes.None?
    ensures g.skillsCount == 0 && g.completedSkills == 0
    ensures g.row.createdAt == now && g.row.updatedAt == now
    ensures v.user.None? ==> g.row.userId == "demo-user"
    ensures v.user.Some? && v.user.value.id != "" ==> g.row.userId == v.user.value.id
  {
    var owner := if v.user.Some? then OrElse(v.user.value.id, "demo-user") else "demo-user";
    Goal(GoalRow(localId, owner, OrElse(d.title, "New Goal"), d.description,
                 NonEmpty(d.targetDate), NonZero(d.durationWeeks), false, None, now, now), 0, 0)
  }

  /** `createGoal`. Every path puts exactly one goal at the front and
      returns it: the inserted row (with zero counts) when the gate is open
      and the insert succeeds, the local goal otherwise. Nothing is
      rethrown and `error` is untouched. */
  function Create(s: State<Goal>, v: View, d: GoalDraft, localId: string, now: string,
                  reply: Result<GoalRow>): (r: Step<Goal, Goal>)
    ensures r.state.error == s.error
    ensures r.state.items == [r.result] + s.items
    ensures |r.state.items| == |s.items| + 1
    ensures CanPersist(v) && reply.Ok? ==> r.result == Goal(reply.value, 0, 0)
    ensures !(CanPersist(v) && reply.Ok?) ==> r.result == LocalGoal(v, d, localId, now)
  {
    var local := LocalGoal(v, d, localId, now);
    if CanPersist(v) then
      match reply
      case Ok(row) =>
        var g := Goal(row, 0, 0);
        Step(s.(items := [g] + s.items), g)
      case Err(_) => Step(s.(items := [local] + s.items), local)
    else Step(s.(items := [local] + s.items), local)
  }

  /** The fields an update may carry. */
  datatype GoalPatch = GoalPatch(
    title: Option<string>,
    description: Option<string>,
    targetDate: Option<Option<string>>,
    durationWeeks: Option<Option<int>>,
    isAchieved: Option<bool>,
    achievementNotes: Option<Option<string>>)

  /** `{ ...row, ...updates, updated_at: now }`: the patch's fields win,
      `updated_at` is stamped, everything else is kept. */
  function Merge(row: GoalRow, p: GoalPatch, now: string): (m: GoalRow)
    ensures m.id == row.id && m.userId == row.userId && m.createdAt == row.createdAt
    ensures m.updatedAt == now
    ensures m.title == p.title.GetOr(row.title)
    ensures m.description == p.description.GetOr(row.description)
    ensures m.targetDate == p.targetDate.GetOr(row.targetDate)
    ensures m.durationWeeks == p.durationWeeks.GetOr(row.durationWeeks)
    ensures m.isAchieved == p.isAchieved.GetOr(row.isAchieved)
    ensures m.achievementNotes == p.achievementNotes.GetOr(row.achievementNotes)
  {
    row.(title := p.title.GetOr(row.title),
         description := p.description.GetOr(row.description),
         targetDate := p.targetDate.GetOr(row.targetDate),
         durationWeeks := p.durationWeeks.GetOr(row.durationWeeks),
         isAchieved := p.isAchieved.GetOr(row.isAchieved),
         achievementNotes := p.achievementNotes.GetOr(row.achievementNotes),
         updatedAt := now)
  }

  /** What `updateGoal` returns: the server's row, or `{ id, ...updatedData }`. */
  datatype Updated = Confirmed(row: GoalRow) | Local(id: string, patch: GoalPatch, updatedAt: string)

  /** The filters `updateGoal` and `deleteGoal` send: the id and the user. */
  function MutationScope(v: View, id: string): (sc: Option<Scope>)
    ensures sc.Some? <==> CanPersist(v)
    ensures sc.Some? ==> sc.value.id == id && sc.value.owner == Some(v.user.value.id)
    ensures forall rowId: string, rowOwner: string ::
      sc.Some? && Matches(sc.value, rowId, rowOwner) ==> rowId == id && rowOwner == v.user.value.id
  {
    OwnedScope(v, id)
  }

  /** `updateGoal`. Only goals with the given id change, the length and the
      order are kept, and the counts survive. With an open gate and a
      successful reply the server row is merged in; on a remote error or
      without the gate the patch is merged locally with `updated_at`
      stamped. Nothing is rethrown. */
  function Update(s: State<Goal>, v: View, id: string, p: GoalPatch, now: string,
                  reply: Result<GoalRow>): (r: Step<Goal, Updated>)
    ensures r.state.error == s.error
    ensures |r.state.items| == |s.items|
    ensures forall i :: 0 <= i < |s.items| && s.items[i].row.id != id ==> r.state.items[i] == s.items[i]
    ensures forall i :: 0 <= i < |s.items| ==>
      r.state.items[i].skillsCount == s.items[i].skillsCount &&
      r.state.items[i].completedSkills == s.items[i].completedSkills
    ensures CanPersist(v) && reply.Ok? ==>
      r.result == Confirmed(reply.value) &&
      forall i :: 0 <= i < |s.items| && s.items[i].row.id == id ==> r.state.items[i].row == reply.value
    ensures !(CanPersist(v) && reply.Ok?) ==>
      r.result == Local(id, p, now) &&
      forall i :: 0 <= i < |s.items| && s.items[i].row.id == id ==>
        r.state.items[i].row == Merge(s.items[i].row, p, now) && r.state.items[i].row.updatedAt == now
  {
    if CanPersist(v) && reply.Ok? then
      var items := ReplaceWhere(s.items, (g: Goal) => g.row.id == id, (g: Goal) => g.(row := reply.value));
      Step(s.(items := items), Confirmed(reply.value))
    else
      var items := ReplaceWhere(s.items, (g: Goal) => g.row.id == id, (g: Goal) => g.(row := Merge(g.row, p, now)));
      Step(s.(items := items), Local(id, p, now))
  }

  /** `deleteGoal`. The goal is removed locally whatever the remote outcome
      (and whether or not a delete was sent); every other goal stays, in the
      same relative order, and `error` is untouched. */
  function Delete(s: State<Goal>, v: View, id: string, reply: Result<()>): (r: State<Goal>)
    ensures r.error == s.error
    ensures forall i :: 0 <= i < |r.items| ==> r.items[i].row.id != id && r.items[i] in s.items
    ensures forall i :: 0 <= i < |s.items| && s.items[i].row.id != id ==> s.items[i] in r.items
    ensures (forall i :: 0 <= i < |s.items| ==> s.items[i].row.id != id) ==> r.items == s.items
  {
    s.(items := Filter(s.items, (g: Goal) => g.row.id != id))
  }

  /** Deleting the goal just created, by its id, gives back the list the
      create started from when no earlier goal had that id, whatever the
      session and the remote outcomes. */
  lemma {:induction false} DeleteUndoesCreate(s: State<Goal>, v: View, d: GoalDraft, localId: string,
                                              now: string, reply: Result<GoalRow>, removed: Result<()>)
    requires var id := Create(s, v, d, localId, now, reply).result.row.id;
      forall i :: 0 <= i < |s.items| ==> s.items[i].row.id != id
    ensures var c := Create(s, v, d, localId, now, reply);
      Delete(c.state, v, c.result.row.id, removed) == s
  {
    var c := Create(s, v, d, localId, now, reply);
    var id := c.result.row.id;
    FilterAppend([c.result], s.items, (g: Goal) => g.row.id != id);
    assert Filter([c.result], (g: Goal) => g.row.id != id) == [];
  }

  /** Applying the same local update (the path taken on a failed reply,
      with or without a session) twice is the same as applying it once:
      the patch's fields and the stamp simply land again. */
  lemma LocalUpdateIdempotent(s: State<Goal>, v: View, id: string, p: GoalPatch, now: string, failed: string)
    ensures var once := Update(s, v, id, p, now, Err(failed)).state;
      Update(once, v, id, p, now, Err(failed)).state == once
  {
    var once := Update(s, v, id, p, now, Err(failed)).state;
    var twice := Update(once, v, id, p, now, Err(failed)).state;
    assert forall i :: 0 <= i < |twice.items| ==> twice.items[i] == once.items[i];
  }

  /** The local deletion depends neither on the session nor on the reply. */
  lemma DeleteIgnoresRemote(s: State<Goal>, v1: View, v2: View, id: string, a: Result<()>, b: Result<()>)
    ensures Delete(s, v1, id, a) == Delete(s, v2, id, b)
  {
  }

  /** Deleting from a list split in two deletes from each part: the goals
      that remain keep their relative order. */
  lemma {:induction false} DeleteKeepsOrder(front: seq<Goal>, back: seq<Goal>, err: Option<string>, v: View, id: string,
                                            reply: Result<()>, one: Goal)
    ensures Delete(State(front + back, err), v, id, reply).items ==
            Delete(State(front, err), v, id, reply).items + Delete(State(back, err), v, id, reply).items
    ensures Delete(State([one], err), v, id, reply).items == if one.row.id == id then [] else [one]
  {
    FilterAppend(front, back, (g: Goal) => g.row.id != id);
  }
}
