/** The Note store (`useNotes(topicId)`): strict, scoped to one topic and
    ordered by creation time; it has no reorder. */
module NoteStore {
  import opened Wrappers
  import opened Seqs
  import opened Schema
  import opened Session
  import opened Store
  import StrictStore

  const CreateDenied := "Must be authenticated to create notes"
  const UpdateDenied := "Must be authenticated to update notes"
  const DeleteDenied := "Must be authenticated to delete notes"

  /** `fetchNotes` (the `refetch` the hook returns). With the gate closed
      the list is emptied; with no topic id it is left as it is; a remote
      error empties it and records the message; a success lists the rows
      returned, `null` data as none. */
  function Fetch(s: State<NoteRow>, v: View, topicId: Option<string>,
                 reply: Result<Option<seq<NoteRow>>>): (r: State<NoteRow>)
    ensures !CanPersist(v) ==> r.items == [] && r.error == s.error
    ensures CanPersist(v) && !Present(topicId) ==> r == s
    ensures CanPersist(v) && Present(topicId) && reply.Err? ==> r.items == [] && r.error == Some(reply.message)
    ensures CanPersist(v) && Present(topicId) && reply.Ok? ==>
      r.items == reply.value.GetOr([]) && r.error == s.error
  {
    StrictStore.Fetch(s, v, topicId, reply, (n: NoteRow) => n)
  }

  /** The hook's effect: with no topic id the list is emptied unfetched. */
  function Load(s: State<NoteRow>, v: View, topicId: Option<string>,
                reply: Result<Option<seq<NoteRow>>>): (r: State<NoteRow>)
    ensures !Present(topicId) || !CanPersist(v) ==> r.items == [] && r.error == s.error
    ensures Present(topicId) ==> r == Fetch(s, v, topicId, reply)
  {
    StrictStore.Load(s, v, topicId, reply, (n: NoteRow) => n)
  }

  /** The server's answer to the fetch query: this user's notes of this topic. */
  function Select(table: seq<NoteRow>, userId: string, topicId: string): seq<NoteRow> {
    Filter(table, (n: NoteRow) => n.userId == userId && n.topicId == topicId)
  }

  /** Owner and scope isolation of the fetch. */
  lemma FetchIsolated(s: State<NoteRow>, v: View, topicId: string, table: seq<NoteRow>)
    requires CanPersist(v) && topicId != ""
    ensures var items := Fetch(s, v, Some(topicId), Ok(Some(Select(table, v.user.value.id, topicId)))).items;
      forall i :: 0 <= i < |items| ==> items[i].userId == v.user.value.id && items[i].topicId == topicId
  {
  }

  /** The insert sent to `notes`. */
  datatype NoteInsert = NoteInsert(userId: string, topicId: string, content: string)

  /** The insert `createNote` sends: none unless the gate is open and a
      topic id is set; otherwise a note of this user and topic whose
      content is the draft's, or 'New note' when that is empty. */
  function InsertRequest(v: View, topicId: Option<string>, content: string): (q: Option<NoteInsert>)
    ensures q.Some? <==> CanPersist(v) && Present(topicId)
    ensures q.Some? ==> q.value.userId == v.user.value.id && q.value.topicId == topicId.value
    ensures q.Some? ==> q.value.content == OrElse(content, "New note") && q.value.content != ""
  {
    if CanPersist(v) && Present(topicId) then
      Some(NoteInsert(v.user.value.id, topicId.value, OrElse(content, "New note")))
    else None
  }

  /** `createNote`. Refused unless the gate is open and a topic id is set;
      a failed insert is rethrown; the inserted row is appended. */
  function Create(s: State<NoteRow>, v: View, topicId: Option<string>, reply: Result<NoteRow>): (r: Step<NoteRow, Result<NoteRow>>)
    ensures !(CanPersist(v) && Present(topicId)) ==>
      r.state.items == s.items && r.state.error == Some(CreateDenied) && r.result == Err(CreateDenied)
    ensures CanPersist(v) && Present(topicId) && reply.Err? ==>
      r.state.items == s.items && r.state.error == Some(reply.message) && r.result == reply
    ensures CanPersist(v) && Present(topicId) && reply.Ok? ==>
      r.state.items == s.items + [reply.value] && r.state.error == s.error && r.result == reply
  {
    StrictStore.Create(s, CanPersist(v) && Present(topicId), CreateDenied, reply)
  }

  /** `updateNote`. Refused with the gate closed; a remote error is
      rethrown; on success every note with that id is replaced wholesale by
      the server row, and the others stay. */
  function Update(s: State<NoteRow>, v: View, id: string, reply: Result<NoteRow>): (r: Step<NoteRow, Result<NoteRow>>)
    ensures !CanPersist(v) ==>
      r.state.items == s.items && r.state.error == Some(UpdateDenied) && r.result == Err(UpdateDenied)
    ensures CanPersist(v) && reply.Err? ==>
      r.state.items == s.items && r.state.error == Some(reply.message) && r.result == Err(reply.message)
    ensures CanPersist(v) && reply.Ok? ==>
      r.result == reply && r.state.error == s.error && |r.state.items| == |s.items| &&
      forall i :: 0 <= i < |s.items| ==>
        r.state.items[i] == (if s.items[i].id == id then reply.value else s.items[i])
  {
    StrictStore.Update(s, v, UpdateDenied, (n: NoteRow) => n.id == id, reply,
                       (n: NoteRow, row: NoteRow) => row)
  }

  /** The same confirmed row received twice leaves the notes as after the
      first time, provided it is the row of the note it updates. */
  lemma {:induction false} UpdateIdempotent(s: State<NoteRow>, v: View, id: string, updated: NoteRow)
    requires CanPersist(v) && updated.id == id
    ensures var once := Update(s, v, id, Ok(updated)).state;
      Update(once, v, id, Ok(updated)).state == once
  {
    StrictStore.UpdateIdempotent(s, v, UpdateDenied, (n: NoteRow) => n.id == id, updated,
                                 (n: NoteRow, row: NoteRow) => row);
  }

  /** `deleteNote`. Refused with the gate closed; a remote error is
      rethrown; on success the notes with that id are dropped and the
      others stay, in order. */
  function Delete(s: State<NoteRow>, v: View, id: string, reply: Result<()>): (r: Step<NoteRow, Result<()>>)
    ensures !CanPersist(v) ==>
      r.state.items == s.items && r.state.error == Some(DeleteDenied) && r.result == Err(DeleteDenied)
    ensures CanPersist(v) && reply.Err? ==>
      r.state.items == s.items && r.state.error == Some(reply.message) && r.result == Err(reply.message)
    ensures CanPersist(v) && reply.Ok? ==>
      r.result == Ok(()) && r.state.error == s.error &&
      (forall i :: 0 <= i < |r.state.items| ==> r.state.items[i].id != id && r.state.items[i] in s.items) &&
      (forall i :: 0 <= i < |s.items| && s.items[i].id != id ==> s.items[i] in r.state.items)
  {
    StrictStore.Delete(s, v, DeleteDenied, (n: NoteRow) => n.id == id, reply)
  }

  /** The surviving entries keep their order: deleting from two parts
      gives the survivors of each part, first part first, and a confirmed
      delete drops a single entry exactly when it carries the id. */
  lemma {:induction false} DeleteKeepsOrder(front: seq<NoteRow>, back: seq<NoteRow>, err: Option<string>, v: View,
                                            id: string, reply: Result<()>, one: NoteRow)
    ensures Delete(State(front + back, err), v, id, reply).state.items ==
            Delete(State(front, err), v, id, reply).state.items + Delete(State(back, err), v, id, reply).state.items
    ensures CanPersist(v) && reply.Ok? ==>
      Delete(State([one], err), v, id, reply).state.items == if one.id == id then [] else [one]
  {
    StrictStore.DeleteKeepsOrder(front, back, err, v, DeleteDenied, (n: NoteRow) => n.id == id, reply, one);
  }

  /** A successful create followed by a successful delete of the new note's
      id gives back the list it started from, provided no note had that id. */
  lemma {:induction false} DeleteUndoesCreate(s: State<NoteRow>, v: View, topicId: string, row: NoteRow)
    requires CanPersist(v) && topicId != ""
    requires forall i :: 0 <= i < |s.items| ==> s.items[i].id != row.id
    ensures Delete(Create(s, v, Some(topicId), Ok(row)).state, v, row.id, Ok(())).state == s
  {
    StrictStore.DeleteUndoesCreate(s, v, CreateDenied, DeleteDenied, (n: NoteRow) => n.id == row.id, row);
  }
}
