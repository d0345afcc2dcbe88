/** The Topic store (`useTopics(skillId)`): strict. Gated on a configured,
    authenticated session with a user, scoped to one skill, ordered by
    `order_index`; failures are recorded and rethrown. */
module TopicStore {
  import opened Wrappers
  import opened Seqs
  import opened Schema
  import opened Session
  import opened Store
  import opened Ordering
  import StrictStore

  /** A topic as listed: its row and the number of its notes. */
  datatype Topic = Topic(row: TopicRow, notesCount: nat)

  /** A row of the fetch query: the topic and its joined notes, if any. */
  datatype FetchedTopic = FetchedTopic(row: TopicRow, notes: Option<seq<NoteRow>>)

  const CreateDenied := "Must be authenticated to create topics"
  const UpdateDenied := "Must be authenticated to update topics"
  const DeleteDenied := "Must be authenticated to delete topics"
  const ReorderDenied := "Must be authenticated to reorder topics"

  /** `{ ...topic, notes_count: topic.notes?.length || 0 }`. */
  function WithNotesCount(f: FetchedTopic): (t: Topic)
    ensures t.row == f.row
    ensures f.notes.Some? ==> t.notesCount == |f.notes.value|
    ensures f.notes.None? ==> t.notesCount == 0
  {
    Topic(f.row, if f.notes.Some? then |f.notes.value| else 0)
  }

  /** `fetchTopics` (the `refetch` the hook returns). With the gate closed
      the list is emptied; with no skill id it is left as it is; a remote
      error empties it and records the message (there is no seed data);
      a success lists the returned topics, each with its notes counted. */
  function Fetch(s: State<Topic>, v: View, skillId: Option<string>,
                 reply: Result<Option<seq<FetchedTopic>>>): (r: State<Topic>)
    ensures !CanPersist(v) ==> r.items == [] && r.error == s.error
    ensures CanPersist(v) && !Present(skillId) ==> r == s
    ensures CanPersist(v) && Present(skillId) && reply.Err? ==> r.items == [] && r.error == Some(reply.message)
    ensures CanPersist(v) && Present(skillId) && reply.Ok? ==>
      r.error == s.error &&
      |r.items| == |reply.value.GetOr([])| &&
      forall i :: 0 <= i < |r.items| ==>
        r.items[i].row == reply.value.GetOr([])[i].row &&
        r.items[i].notesCount == (if reply.value.GetOr([])[i].notes.Some? then |reply.value.GetOr([])[i].notes.value| else 0)
  {
    StrictStore.Fetch(s, v, skillId, reply, WithNotesCount)
  }

  /** The hook's effect on a change of session or skill id: with no skill
      id the list is emptied without a fetch. */
  function Load(s: State<Topic>, v: View, skillId: Option<string>,
                reply: Result<Option<seq<FetchedTopic>>>): (r: State<Topic>)
    ensures !Present(skillId) || !CanPersist(v) ==> r.items == [] && r.error == s.error
    ensures Present(skillId) ==> r == Fetch(s, v, skillId, reply)
  {
    StrictStore.Load(s, v, skillId, reply, WithNotesCount)
  }

  /** The server's answer to the fetch query: the topics of this user and
      this skill. */
  function Select(table: seq<FetchedTopic>, userId: string, skillId: string): seq<FetchedTopic> {
    Filter(table, (f: FetchedTopic) => f.row.userId == userId && f.row.skillId == skillId)
  }

  /** Owner and scope isolation: answered by the server, the fetch lists
      only topics of the signed-in user under the requested skill. */
  lemma FetchIsolated(s: State<Topic>, v: View, skillId: string, table: seq<FetchedTopic>)
    requires CanPersist(v) && skillId != ""
    ensures var items := Fetch(s, v, Some(skillId), Ok(Some(Select(table, v.user.value.id, skillId)))).items;
      forall i :: 0 <= i < |items| ==> items[i].row.userId == v.user.value.id && items[i].row.skillId == skillId
  {
    var rows := Select(table, v.user.value.id, skillId);
    var items := Fetch(s, v, Some(skillId), Ok(Some(rows))).items;
    forall i | 0 <= i < |items|
      ensures items[i].row.userId == v.user.value.id && items[i].row.skillId == skillId
    {
      assert items[i].row == rows[i].row;
    }
  }

  /** What the caller passes to `createTopic`; "" stands for missing. */
  datatype TopicDraft = TopicDraft(title: string, description: string)

  /** The insert sent to `topics`. */
  datatype TopicInsert = TopicInsert(
    userId: string, skillId: string, title: string, description: string,
    status: string, orderIndex: int)

  /** The insert `createTopic` sends after the order lookup: none unless
      the gate is open and a skill id is set; otherwise a 'not_started'
      topic of this user and skill, titled 'New Topic' when no title is
      given, at the next order index. */
  function InsertRequest(v: View, skillId: Option<string>, d: TopicDraft,
                         lookup: Option<seq<Option<int>>>): (q: Option<TopicInsert>)
    ensures q.Some? <==> CanPersist(v) && Present(skillId)
    ensures q.Some? ==> q.value.userId == v.user.value.id && q.value.skillId == skillId.value
    ensures q.Some? ==> q.value.status == "not_started"
    ensures q.Some? ==> q.value.title == OrElse(d.title, "New Topic") && q.value.description == d.description
    ensures q.Some? ==> q.value.orderIndex == NextIndex(lookup)
  {
    if CanPersist(v) && Present(skillId) then
      Some(TopicInsert(v.user.value.id, skillId.value, OrElse(d.title, "New Topic"), d.description,
                       "not_started", NextIndex(lookup)))
    else None
  }

  /** The server stored exactly the inserted fields. */
  predicate Stores(q: TopicInsert, row: TopicRow) {
    row.userId == q.userId && row.skillId == q.skillId && row.title == q.title &&
    row.description == Some(q.description) && row.status == q.status &&
    row.orderIndex == Some(q.orderIndex)
  }

  /** `createTopic`. Refused unless the gate is open and a skill id is set;
      a failed insert is rethrown; otherwise the inserted row is appended
      at the end with a notes count of 0. The list changes on no other path. */
  function Create(s: State<Topic>, v: View, skillId: Option<string>, reply: Result<TopicRow>): (r: Step<Topic, Result<Topic>>)
    ensures !(CanPersist(v) && Present(skillId)) ==>
      r.state.items == s.items && r.state.error == Some(CreateDenied) && r.result == Err(CreateDenied)
    ensures CanPersist(v) && Present(skillId) && reply.Err? ==>
      r.state.items == s.items && r.state.error == Some(reply.message) && r.result == Err(reply.message)
    ensures CanPersist(v) && Present(skillId) && reply.Ok? ==>
      r.state.items == s.items + [Topic(reply.value, 0)] && r.state.error == s.error &&
      r.result == Ok(Topic(reply.value, 0))
  {
    var made := match reply case Ok(row) => Ok(Topic(row, 0)) case Err(msg) => Err(msg);
    StrictStore.Create(s, CanPersist(v) && Present(skillId), CreateDenied, made)
  }

  /** When the server stores what was sent, the appended topic is a
      'not_started' topic with the draft's title (or 'New Topic'), no
      notes, and an order index above every index already in the skill. */
  lemma CreateAppendsRequested(s: State<Topic>, v: View, skillId: string, d: TopicDraft,
                               existing: seq<int>, row: TopicRow)
    requires CanPersist(v) && skillId != ""
    requires Stores(InsertRequest(v, Some(skillId), d, TopAnswer(existing)).value, row)
    ensures var r := Create(s, v, Some(skillId), Ok(row));
      |r.state.items| == |s.items| + 1 &&
      r.state.items[|s.items|].row.status == "not_started" &&
      r.state.items[|s.items|].row.title == OrElse(d.title, "New Topic") &&
      r.state.items[|s.items|].notesCount == 0 &&
      r.state.items[|s.items|].row.orderIndex.Some? &&
      forall k :: 0 <= k < |existing| ==> existing[k] < r.state.items[|s.items|].row.orderIndex.value
  {
    NextIndexFresh(existing);
  }

  /** The fields an update may carry. */
  datatype TopicPatch = TopicPatch(title: Option<string>, description: Option<string>, status: Option<string>)

  /** `updateTopic`. Refused with the gate closed; a remote error is
      rethrown and the list kept; on success the server row is merged into
      the topics with that id (their notes count survives) and nothing else
      changes. The update sent is `Store.UpdateRequest`. */
  function Update(s: State<Topic>, v: View, id: string, reply: Result<TopicRow>): (r: Step<Topic, Result<TopicRow>>)
    ensures !CanPersist(v) ==>
      r.state.items == s.items && r.state.error == Some(UpdateDenied) && r.result == Err(UpdateDenied)
    ensures CanPersist(v) && reply.Err? ==>
      r.state.items == s.items && r.state.error == Some(reply.message) && r.result == Err(reply.message)
    ensures CanPersist(v) && reply.Ok? ==>
      r.result == reply && r.state.error == s.error && |r.state.items| == |s.items| &&
      forall i :: 0 <= i < |s.items| ==>
        if s.items[i].row.id == id
        then r.state.items[i] == Topic(reply.value, s.items[i].notesCount)
        else r.state.items[i] == s.items[i]
  {
    StrictStore.Update(s, v, UpdateDenied, (t: Topic) => t.row.id == id, reply,
                       (t: Topic, row: TopicRow) => t.(row := row))
  }

  /** The same confirmed row received twice leaves the topics as after the
      first time, provided it is the row of the topic it updates. */
  lemma {:induction false} UpdateIdempotent(s: State<Topic>, v: View, id: string, updated: TopicRow)
    requires CanPersist(v) && updated.id == id
    ensures var once := Update(s, v, id, Ok(updated)).state;
      Update(once, v, id, Ok(updated)).state == once
  {
    StrictStore.UpdateIdempotent(s, v, UpdateDenied, (t: Topic) => t.row.id == id, updated,
                                 (t: Topic, row: TopicRow) => t.(row := row));
  }

  /** `deleteTopic`. Refused with the gate closed; a remote error is
      rethrown and the list kept; on success the topics with that id are
      dropped and every other one stays, in order. */
  function Delete(s: State<Topic>, v: View, id: string, reply: Result<()>): (r: Step<Topic, Result<()>>)
    ensures !CanPersist(v) ==>
      r.state.items == s.items && r.state.error == Some(DeleteDenied) && r.result == Err(DeleteDenied)
    ensures CanPersist(v) && reply.Err? ==>
      r.state.items == s.items && r.state.error == Some(reply.message) && r.result == Err(reply.message)
    ensures CanPersist(v) && reply.Ok? ==>
      r.result == Ok(()) && r.state.error == s.error &&
      (forall i :: 0 <= i < |r.state.items| ==> r.state.items[i].row.id != id && r.state.items[i] in s.items) &&
      (forall i :: 0 <= i < |s.items| && s.items[i].row.id != id ==> s.items[i] in r.state.items)
  {
    StrictStore.Delete(s, v, DeleteDenied, (t: Topic) => t.row.id == id, reply)
  }

  /** The surviving entries keep their order: deleting from two parts
      gives the survivors of each part, first part first, and a confirmed
      delete drops a single entry exactly when it carries the id. */
  lemma {:induction false} DeleteKeepsOrder(front: seq<Topic>, back: seq<Topic>, err: Option<string>, v: View,
                                            id: string, reply: Result<()>, one: Topic)
    ensures Delete(State(front + back, err), v, id, reply).state.items ==
            Delete(State(front, err), v, id, reply).state.items + Delete(State(back, err), v, id, reply).state.items
    ensures CanPersist(v) && reply.Ok? ==>
      Delete(State([one], err), v, id, reply).state.items == if one.row.id == id then [] else [one]
  {
    StrictStore.DeleteKeepsOrder(front, back, err, v, DeleteDenied, (t: Topic) => t.row.id == id, reply, one);
  }

  /** A successful create followed by a successful delete of the new
      topic's id gives back the list it started from, provided no earlier
      topic had that id. */
  lemma {:induction false} DeleteUndoesCreate(s: State<Topic>, v: View, skillId: string, item: Topic)
    requires CanPersist(v) && skillId != ""
    requires item.notesCount == 0
    requires forall i :: 0 <= i < |s.items| ==> s.items[i].row.id != item.row.id
    ensures Delete(Create(s, v, Some(skillId), Ok(item.row)).state, v, item.row.id, Ok(())).state == s
  {
    StrictStore.DeleteUndoesCreate(s, v, CreateDenied, DeleteDenied, (t: Topic) => t.row.id == item.row.id, item);
  }

  /** The writes `reorderTopics` sends: position `i` of the given list gets
      `order_index` i; nothing is sent with the gate closed. */
  function ReorderWrites(v: View, given: seq<Topic>): (w: seq<Write>)
    ensures !CanPersist(v) ==> w == []
    ensures CanPersist(v) ==> |w| == |given|
    ensures CanPersist(v) ==> forall i :: 0 <= i < |given| ==> w[i] == Write(given[i].row.id, i)
  {
    if CanPersist(v) then Writes(seq(|given|, i requires 0 <= i < |given| => given[i].row.id)) else []
  }

  /** `reorderTopics`. Refused with the gate closed; otherwise the writes'
      results are ignored and the list becomes the given sequence as passed
      (its entries keep their old `order_index` fields). */
  function Reorder(s: State<Topic>, v: View, given: seq<Topic>): (r: Step<Topic, Result<()>>)
    ensures !CanPersist(v) ==>
      r.state.items == s.items && r.state.error == Some(ReorderDenied) && r.result == Err(ReorderDenied)
    ensures CanPersist(v) ==> r.state.items == given && r.state.error == s.error && r.result == Ok(())
  {
    StrictStore.Reorder(s, v, ReorderDenied, given)
  }
}
