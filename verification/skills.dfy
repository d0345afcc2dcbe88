/** The Skill store (`useSkills`): permissive like the Goal store, and it
    reads no session at all. Its only switch is whether a backend client
    exists; it sends no `user_id` filter on fetch, update or delete. */
module SkillStore {
  import opened Wrappers
  import opened Seqs
  import opened Schema
  import opened Store

  /** The three demo skills. */
  const SeedSkills: seq<SkillRow> := [
    SkillRow("1", None, None, "React Hooks",
             "Learning advanced React hooks patterns and custom hooks", "in_progress",
             Some("2024-12-31"), "Focusing on useContext and useReducer patterns",
             "2024-10-01T00:00:00Z", "2024-10-15T00:00:00Z", "2024-10-15T00:00:00Z"),
    SkillRow("2", None, None, "Node.js Performance",
             "Understanding Node.js performance optimization techniques", "not_started",
             Some("2024-11-30"), "",
             "2024-10-05T00:00:00Z", "2024-10-05T00:00:00Z", "2024-10-05T00:00:00Z"),
    SkillRow("3", None, None, "TypeScript Advanced Types",
             "Mastering conditional types, mapped types, and template literals", "done",
             Some("2024-10-20"), "Completed the official TypeScript handbook",
             "2024-09-15T00:00:00Z", "2024-10-20T00:00:00Z", "2024-10-20T00:00:00Z")
  ]

  /** `fetchSkills`. With a client the reply decides: rows on success,
      an empty list for `null` data, the seed skills on an error. Without a
      client the seed skills. */
  function Fetch(s: State<SkillRow>, configured: bool, reply: Result<Option<seq<SkillRow>>>): (r: State<SkillRow>)
    ensures r.error == s.error
    ensures !configured ==> r.items == SeedSkills
    ensures configured && reply.Err? ==> r.items == SeedSkills
    ensures configured && reply == Ok(None) ==> r.items == []
    ensures configured && reply.Ok? && reply.value.Some? ==> r.items == reply.value.value
  {
    if configured then
      match reply
      case Ok(data) => s.(items := data.GetOr([]))
      case Err(_) => s.(items := SeedSkills)
    else s.(items := SeedSkills)
  }

  /** The fetch sends no owner filter: whatever the server returns is
      listed, including another user's skill. */
  lemma FetchHasNoOwnerFilter(s: State<SkillRow>, mine: SkillRow, theirs: SkillRow)
    requires mine.userId.Some? && theirs.userId.Some? && mine.userId != theirs.userId
    ensures theirs in Fetch(s, true, Ok(Some([mine, theirs]))).items
  {
  }

  /** What the caller passes to `createSkill`; "" stands for missing. */
  datatype SkillDraft = SkillDraft(title: string, description: string, targetDate: Option<string>)

  /** The skill `createSkill` builds; it is also the insert payload, so the
      insert carries neither `user_id` nor `goal_id`. */
  function NewSkill(d: SkillDraft, localId: string, now: string): (k: SkillRow)
    ensures k.id == localId
    ensures k.title == OrElse(d.title, "New Skill") && k.title != ""
    ensures k.description == d.description
    ensures k.status == "not_started" && k.notes == ""
    ensures k.targetDate == NonEmpty(d.targetDate)
    ensures k.userId.None? && k.goalId.None?
    ensures k.createdAt == now && k.updatedAt == now && k.lastReviewedAt == now
  {
    SkillRow(localId, None, None, OrElse(d.title, "New Skill"), d.description, "not_started",
             NonEmpty(d.targetDate), "", now, now, now)
  }

  /** `createSkill`. Exactly one skill goes to the front on every path: the
      inserted row when a client exists and the insert succeeds, the local
      skill otherwise. Nothing is rethrown. */
  function Create(s: State<SkillRow>, configured: bool, d: SkillDraft, localId: string, now: string,
                  reply: Result<SkillRow>): (r: Step<SkillRow, SkillRow>)
    ensures r.state.error == s.error
    ensures r.state.items == [r.result] + s.items
    ensures configured && reply.Ok? ==> r.result == reply.value
    ensures !(configured && reply.Ok?) ==> r.result == NewSkill(d, localId, now)
    ensures !(configured && reply.Ok?) ==> r.result.status == "not_started" && r.result.notes == ""
  {
    var local := NewSkill(d, localId, now);
    if configured && reply.Ok? then Step(s.(items := [reply.value] + s.items), reply.value)
    else Step(s.(items := [local] + s.items), local)
  }

  /** The fields an update may carry. */
  datatype SkillPatch = SkillPatch(
    title: Option<string>,
    description: Option<string>,
    status: Option<string>,
    targetDate: Option<Option<string>>,
    notes: Option<string>)

  /** `{ ...skill, ...updates, updated_at: now, last_reviewed_at: now }`:
      every update counts as a review. */
  function Merge(k: SkillRow, p: SkillPatch, now: string): (m: SkillRow)
    ensures m.id == k.id && m.userId == k.userId && m.goalId == k.goalId && m.createdAt == k.createdAt
    ensures m.updatedAt == now && m.lastReviewedAt == now
    ensures m.title == p.title.GetOr(k.title)
    ensures m.description == p.description.GetOr(k.description)
    ensures m.status == p.status.GetOr(k.status)
    ensures m.targetDate == p.targetDate.GetOr(k.targetDate)
    ensures m.notes == p.notes.GetOr(k.notes)
  {
    k.(title := p.title.GetOr(k.title),
       description := p.description.GetOr(k.description),
       status := p.status.GetOr(k.status),
       targetDate := p.targetDate.GetOr(k.targetDate),
       notes := p.notes.GetOr(k.notes),
       updatedAt := now,
       lastReviewedAt := now)
  }

  /** What `updateSkill` returns: the server's row, or `{ id, ...updatedData }`. */
  datatype Updated = Confirmed(row: SkillRow) | Local(id: string, patch: SkillPatch, stamped: string)

  /** The filter `updateSkill` and `deleteSkill` send: the id only. */
  function MutationScope(configured: bool, id: string): (sc: Option<Scope>)
    ensures sc.Some? <==> configured
    ensures forall rowId: string, rowOwner: string ::
      sc.Some? && rowId == id ==> Matches(sc.value, rowId, rowOwner)
  {
    if configured then Some(Scope(id, None)) else None
  }

  /** `updateSkill`. Only the skills with this id change and the length is
      kept. A successful reply replaces the skill wholesale with the server
      row; on a remote error or without a client the patch is merged in with
      both `updated_at` and `last_reviewed_at` stamped. */
  function Update(s: State<SkillRow>, configured: bool, id: string, p: SkillPatch, now: string,
                  reply: Result<SkillRow>): (r: Step<SkillRow, Updated>)
    ensures r.state.error == s.error
    ensures |r.state.items| == |s.items|
    ensures forall i :: 0 <= i < |s.items| && s.items[i].id != id ==> r.state.items[i] == s.items[i]
    ensures configured && reply.Ok? ==>
      r.result == Confirmed(reply.value) &&
      forall i :: 0 <= i < |s.items| && s.items[i].id == id ==> r.state.items[i] == reply.value
    ensures !(configured && reply.Ok?) ==>
      r.result == Local(id, p, now) &&
      forall i :: 0 <= i < |s.items| && s.items[i].id == id ==>
        r.state.items[i] == Merge(s.items[i], p, now) &&
        r.state.items[i].updatedAt == now && r.state.items[i].lastReviewedAt == now
  {
    if configured && reply.Ok? then
      Step(s.(items := ReplaceWhere(s.items, (k: SkillRow) => k.id == id, (k: SkillRow) => reply.value)),
           Confirmed(reply.value))
    else
      Step(s.(items := ReplaceWhere(s.items, (k: SkillRow) => k.id == id, (k: SkillRow) => Merge(k, p, now))),
           Local(id, p, now))
  }

  /** `deleteSkill`: removed locally whatever the remote outcome. */
  function Delete(s: State<SkillRow>, configured: bool, id: string, reply: Result<()>): (r: State<SkillRow>)
    ensures r.error == s.error
    ensures forall i :: 0 <= i < |r.items| ==> r.items[i].id != id && r.items[i] in s.items
    ensures forall i :: 0 <= i < |s.items| && s.items[i].id != id ==> s.items[i] in r.items
    ensures (forall i :: 0 <= i < |s.items| ==> s.items[i].id != id) ==> r.items == s.items
  {
    s.(items := Filter(s.items, (k: SkillRow) => k.id != id))
  }

  /** The surviving skills keep their order: deleting from two parts gives
      the survivors of each part, first part first, and a single skill is
      dropped exactly when it carries the id. */
  lemma {:induction false} DeleteKeepsOrder(front: seq<SkillRow>, back: seq<SkillRow>, err: Option<string>,
                                            configured: bool, id: string, reply: Result<()>, one: SkillRow)
    ensures Delete(State(front + back, err), configured, id, reply).items ==
            Delete(State(front, err), configured, id, reply).items + Delete(State(back, err), configured, id, reply).items
    ensures Delete(State([one], err), configured, id, reply).items == if one.id == id then [] else [one]
  {
    FilterAppend(front, back, (k: SkillRow) => k.id != id);
  }

  /** Deleting the skill just created, by its id, gives back the list the
      create started from when no earlier skill had that id, whatever the
      remote outcomes of both calls. */
  lemma {:induction false} DeleteUndoesCreate(s: State<SkillRow>, configured: bool, d: SkillDraft,
                                              localId: string, now: string, reply: Result<SkillRow>,
                                              removed: Result<()>)
    requires var id := Create(s, configured, d, localId, now, reply).result.id;
      forall i :: 0 <= i < |s.items| ==> s.items[i].id != id
    ensures var c := Create(s, configured, d, localId, now, reply);
      Delete(c.state, configured, c.result.id, removed) == s
  {
    var c := Create(s, configured, d, localId, now, reply);
    var id := c.result.id;
    FilterAppend([c.result], s.items, (k: SkillRow) => k.id != id);
    assert Filter([c.result], (k: SkillRow) => k.id != id) == [];
  }

  /** Applying the same local update (the path taken on a failed reply,
      with or without a client) twice is the same as applying it once: the
      patch's fields and the two stamps simply land again. */
  lemma LocalUpdateIdempotent(s: State<SkillRow>, configured: bool, id: string, p: SkillPatch, now: string,
                               failed: string)
    ensures var once := Update(s, configured, id, p, now, Err(failed)).state;
      Update(once, configured, id, p, now, Err(failed)).state == once
  {
    var once := Update(s, configured, id, p, now, Err(failed)).state;
    var twice := Update(once, configured, id, p, now, Err(failed)).state;
    assert forall i :: 0 <= i < |twice.items| ==> twice.items[i] == once.items[i];
  }
}
