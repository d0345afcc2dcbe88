/** The Skill Content store (`useSkillContent(skillId)`): strict, with the
    same gate, scoping and ordering as the Topic store, over `skill_content`
    rows (a 'text' or a 'topic' entry of a skill's learning plan). */
module ContentStore {
  import opened Wrappers
  import opened Seqs
  import opened Schema
  import opened Session
  import opened Store
  import opened Ordering
  import StrictStore

  const CreateDenied := "Must be authenticated to create content"
  const UpdateDenied := "Must be authenticated to update content"
  const DeleteDenied := "Must be authenticated to delete content"
  const ReorderDenied := "Must be authenticated to reorder content"

  /** `fetchContent` (the `refetch` the hook returns). With the gate closed
      the list is emptied; with no skill id it is left as it is; a remote
      error empties it and records the message; a success lists the rows
      returned, `null` data as none. */
  function Fetch(s: State<ContentRow>, v: View, skillId: Option<string>,
                 reply: Result<Option<seq<ContentRow>>>): (r: State<ContentRow>)
    ensures !CanPersist(v) ==> r.items == [] && r.error == s.error
    ensures CanPersist(v) && !Present(skillId) ==> r == s
    ensures CanPersist(v) && Present(skillId) && reply.Err? ==> r.items == [] && r.error == Some(reply.message)
    ensures CanPersist(v) && Present(skillId) && reply.Ok? ==>
      r.items == reply.value.GetOr([]) && r.error == s.error
  {
    StrictStore.Fetch(s, v, skillId, reply, (c: ContentRow) => c)
  }

  /** The hook's effect: with no skill id the list is emptied unfetched. */
  function Load(s: State<ContentRow>, v: View, skillId: Option<string>,
                reply: Result<Option<seq<ContentRow>>>): (r: State<ContentRow>)
    ensures !Present(skillId) || !CanPersist(v) ==> r.items == [] && r.error == s.error
    ensures Present(skillId) ==> r == Fetch(s, v, skillId, reply)
  {
    StrictStore.Load(s, v, skillId, reply, (c: ContentRow) => c)
  }

  /** The server's answer to the fetch query: this user's rows of this skill. */
  function Select(table: seq<ContentRow>, userId: string, skillId: string): seq<ContentRow> {
    Filter(table, (c: ContentRow) => c.userId == userId && c.skillId == skillId)
  }

  /** Owner and scope isolation of the fetch. */
  lemma FetchIsolated(s: State<ContentRow>, v: View, skillId: string, table: seq<ContentRow>)
    requires CanPersist(v) && skillId != ""
    ensures var items := Fetch(s, v, Some(skillId), Ok(Some(Select(table, v.user.value.id, skillId)))).items;
      forall i :: 0 <= i < |items| ==> items[i].userId == v.user.value.id && items[i].skillId == skillId
  {
  }

  /** What the caller passes to `createContent`; "" stands for missing. */
  datatype ContentDraft = ContentDraft(kind: string, title: string, content: string)

  /** The insert sent to `skill_content`. */
  datatype ContentInsert = ContentInsert(
    userId: string, skillId: string, kind: string, title: string, content: string, orderIndex: int)

  /** The insert `createContent` sends after the order lookup: none unless
      the gate is open and a skill id is set; otherwise a row of this user
      and skill of type 'text' and titled 'New Content' unless the draft
      says otherwise, with empty content by default, at the next index. */
  function InsertRequest(v: View, skillId: Option<string>, d: ContentDraft,
                         lookup: Option<seq<Option<int>>>): (q: Option<ContentInsert>)
    ensures q.Some? <==> CanPersist(v) && Present(skillId)
    ensures q.Some? ==> q.value.userId == v.user.value.id && q.value.skillId == skillId.value
    ensures q.Some? ==> q.value.kind == OrElse(d.kind, "text") && q.value.kind != ""
    ensures q.Some? ==> q.value.title == OrElse(d.title, "New Content") && q.value.title != ""
    ensures q.Some? ==> q.value.content == d.content
    ensures q.Some? ==> q.value.orderIndex == NextIndex(lookup)
  {
    if CanPersist(v) && Present(skillId) then
      Some(ContentInsert(v.user.value.id, skillId.value, OrElse(d.kind, "text"),
                         OrElse(d.title, "New Content"), d.content, NextIndex(lookup)))
    else None
  }

  /** `createContent`. Refused unless the gate is open and a skill id is
      set; a failed insert is rethrown; the inserted row is appended. */
  function Create(s: State<ContentRow>, v: View, skillId: Option<string>, reply: Result<ContentRow>): (r: Step<ContentRow, Result<ContentRow>>)
    ensures !(CanPersist(v) && Present(skillId)) ==>
      r.state.items == s.items && r.state.error == Some(CreateDenied) && r.result == Err(CreateDenied)
    ensures CanPersist(v) && Present(skillId) && reply.Err? ==>
      r.state.items == s.items && r.state.error == Some(reply.message) && r.result == reply
    ensures CanPersist(v) && Present(skillId) && reply.Ok? ==>
      r.state.items == s.items + [reply.value] && r.state.error == s.error && r.result == reply
  {
    StrictStore.Create(s, CanPersist(v) && Present(skillId), CreateDenied, reply)
  }

  /** `updateContent`. Refused with the gate closed; a remote error is
      rethrown; on success `{ ...item, ...data[0] }` puts the server row in
      place of every item with that id (a full row overrides every field)
      and leaves the rest. */
  function Update(s: State<ContentRow>, v: View, id: string, reply: Result<ContentRow>): (r: Step<ContentRow, Result<ContentRow>>)
    ensures !CanPersist(v) ==>
      r.state.items == s.items && r.state.error == Some(UpdateDenied) && r.result == Err(UpdateDenied)
    ensures CanPersist(v) && reply.Err? ==>
      r.state.items == s.items && r.state.error == Some(reply.message) && r.result == Err(reply.message)
    ensures CanPersist(v) && reply.Ok? ==>
      r.result == reply && r.state.error == s.error && |r.state.items| == |s.items| &&
      forall i :: 0 <= i < |s.items| ==>
        r.state.items[i] == (if s.items[i].id == id then reply.value else s.items[i])
  {
    StrictStore.Update(s, v, UpdateDenied, (c: ContentRow) => c.id == id, reply,
                       (c: ContentRow, row: ContentRow) => row)
  }

  /** The same confirmed row received twice leaves the blocks as after the
      first time, provided it is the row of the block it updates. */
  lemma {:induction false} UpdateIdempotent(s: State<ContentRow>, v: View, id: string, updated: ContentRow)
    requires CanPersist(v) && updated.id == id
    ensures var once := Update(s, v, id, Ok(updated)).state;
      Update(once, v, id, Ok(updated)).state == once
  {
    StrictStore.UpdateIdempotent(s, v, UpdateDenied, (c: ContentRow) => c.id == id, updated,
                                 (c: ContentRow, row: ContentRow) => row);
  }

  /** `deleteContent`. Refused with the gate closed; a remote error is
      rethrown; on success the rows with that id are dropped and the
      others stay, in order. */
  function Delete(s: State<ContentRow>, v: View, id: string, reply: Result<()>): (r: Step<ContentRow, Result<()>>)
    ensures !CanPersist(v) ==>
      r.state.items == s.items && r.state.error == Some(DeleteDenied) && r.result == Err(DeleteDenied)
    ensures CanPersist(v) && reply.Err? ==>
      r.state.items == s.items && r.state.error == Some(reply.message) && r.result == Err(reply.message)
    ensures CanPersist(v) && reply.Ok? ==>
      r.result == Ok(()) && r.state.error == s.error &&
      (forall i :: 0 <= i < |r.state.items| ==> r.state.items[i].id != id && r.state.items[i] in s.items) &&
      (forall i :: 0 <= i < |s.items| && s.items[i].id != id ==> s.items[i] in r.state.items)
  {
    StrictStore.Delete(s, v, DeleteDenied, (c: ContentRow) => c.id == id, reply)
  }

  /** The surviving entries keep their order: deleting from two parts
      gives the survivors of each part, first part first, and a confirmed
      delete drops a single entry exactly when it carries the id. */
  lemma {:induction false} DeleteKeepsOrder(front: seq<ContentRow>, back: seq<ContentRow>, err: Option<string>, v: View,
                                            id: string, reply: Result<()>, one: ContentRow)
    ensures Delete(State(front + back, err), v, id, reply).state.items ==
            Delete(State(front, err), v, id, reply).state.items + Delete(State(back, err), v, id, reply).state.items
    ensures CanPersist(v) && reply.Ok? ==>
      Delete(State([one], err), v, id, reply).state.items == if one.id == id then [] else [one]
  {
    StrictStore.DeleteKeepsOrder(front, back, err, v, DeleteDenied, (c: ContentRow) => c.id == id, reply, one);
  }

  /** A successful create followed by a successful delete of the new
      row's id gives back the list it started from, provided no earlier
      row had that id. */
  lemma {:induction false} DeleteUndoesCreate(s: State<ContentRow>, v: View, skillId: string, item: ContentRow)
    requires CanPersist(v) && skillId != ""
    requires forall i :: 0 <= i < |s.items| ==> s.items[i].id != item.id
    ensures Delete(Create(s, v, Some(skillId), Ok(item)).state, v, item.id, Ok(())).state == s
  {
    StrictStore.DeleteUndoesCreate(s, v, CreateDenied, DeleteDenied, (c: ContentRow) => c.id == item.id, item);
  }

  /** The writes `reorderContent` sends: position `i` gets `order_index` i. */
  function ReorderWrites(v: View, given: seq<ContentRow>): (w: seq<Write>)
    ensures !CanPersist(v) ==> w == []
    ensures CanPersist(v) ==> |w| == |given|
    ensures CanPersist(v) ==> forall i :: 0 <= i < |given| ==> w[i] == Write(given[i].id, i)
  {
    if CanPersist(v) then Writes(seq(|given|, i requires 0 <= i < |given| => given[i].id)) else []
  }

  /** `reorderContent`. Refused with the gate closed; otherwise the list
      becomes the given sequence as passed. */
  function Reorder(s: State<ContentRow>, v: View, given: seq<ContentRow>): (r: Step<ContentRow, Result<()>>)
    ensures !CanPersist(v) ==>
      r.state.items == s.items && r.state.error == Some(ReorderDenied) && r.result == Err(ReorderDenied)
    ensures CanPersist(v) ==> r.state.items == given && r.state.error == s.error && r.result == Ok(())
  {
    StrictStore.Reorder(s, v, ReorderDenied, given)
  }
}
