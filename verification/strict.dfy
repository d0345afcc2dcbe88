/** The shape shared by the strict stores (Topics, Content, Notes): every
    operation checks the session gate, a failure records its message in
    `error` and is rethrown, the list changes only after a remote success,
    a failed fetch leaves an empty list, and new rows are appended. */
module StrictStore {
  import opened Wrappers
  import opened Seqs
  import opened Session
  import opened Store

  /** The fetch. With the gate closed the list is emptied; with no parent id
      nothing changes; a remote error empties the list and records the
      message; a success lists the returned rows (`null` data as none),
      each turned into an item by `toItem`, in the order received. */
  function Fetch<R, T>(s: State<T>, v: View, parent: Option<string>,
                       reply: Result<Option<seq<R>>>, toItem: R -> T): (r: State<T>)
    ensures !CanPersist(v) ==> r == s.(items := [])
    ensures CanPersist(v) && !Present(parent) ==> r == s
    ensures CanPersist(v) && Present(parent) && reply.Err? ==> r == State([], Some(reply.message))
    ensures CanPersist(v) && Present(parent) && reply.Ok? ==>
      r.error == s.error &&
      |r.items| == |reply.value.GetOr([])| &&
      forall i :: 0 <= i < |r.items| ==> r.items[i] == toItem(reply.value.GetOr([])[i])
  {
    if !CanPersist(v) then s.(items := [])
    else if !Present(parent) then s
    else
      match reply
      case Err(msg) => State([], Some(msg))
      case Ok(data) =>
        var rows := data.GetOr([]);
        s.(items := seq(|rows|, i requires 0 <= i < |rows| => toItem(rows[i])))
  }

  /** The effect that runs whenever the session or the parent id changes:
      without a parent id the list is emptied and nothing is fetched. */
  function Load<R, T>(s: State<T>, v: View, parent: Option<string>,
                      reply: Result<Option<seq<R>>>, toItem: R -> T): (r: State<T>)
    ensures !Present(parent) ==> r == s.(items := [])
    ensures !CanPersist(v) ==> r.items == []
    ensures Present(parent) ==> r == Fetch(s, v, parent, reply, toItem)
  {
    if !Present(parent) then s.(items := []) else Fetch(s, v, parent, reply, toItem)
  }

  /** The create. Refused (`denied` is thrown) unless `allowed`; a remote
      error is rethrown; on success the returned item is appended at the end. */
  function Create<T>(s: State<T>, allowed: bool, denied: string, reply: Result<T>): (r: Step<T, Result<T>>)
    ensures !allowed ==> r.state == s.(error := Some(denied)) && r.result == Err(denied)
    ensures allowed && reply.Err? ==> r.state == s.(error := Some(reply.message)) && r.result == reply
    ensures allowed && reply.Ok? ==>
      r.state == s.(items := s.items + [reply.value]) && r.result == reply
  {
    if !allowed then Throw(s, denied)
    else
      match reply
      case Err(msg) => Throw(s, msg)
      case Ok(item) => Step(s.(items := s.items + [item]), Ok(item))
  }

  /** The update. Refused with the gate closed; a remote error is rethrown
      and the list kept; on success the server row is merged (by `merge`)
      into every item that `hit` selects, and the row is returned. */
  function Update<T, R>(s: State<T>, v: View, denied: string, hit: T -> bool,
                        reply: Result<R>, merge: (T, R) -> T): (r: Step<T, Result<R>>)
    ensures !CanPersist(v) ==> r.state == s.(error := Some(denied)) && r.result == Err(denied)
    ensures CanPersist(v) && reply.Err? ==> r.state == s.(error := Some(reply.message)) && r.result == Err(reply.message)
    ensures CanPersist(v) && reply.Ok? ==>
      r.result == reply && r.state.error == s.error &&
      |r.state.items| == |s.items| &&
      forall i :: 0 <= i < |s.items| ==>
        r.state.items[i] == if hit(s.items[i]) then merge(s.items[i], reply.value) else s.items[i]
  {
    if !CanPersist(v) then Throw(s, denied)
    else
      match reply
      case Err(msg) => Throw(s, msg)
      case Ok(row) => Step(s.(items := ReplaceWhere(s.items, (x: T) => hit(x), (x: T) => merge(x, row))), Ok(row))
  }

  /** Receiving the same confirmed row twice changes nothing the first
      time did not, when the merge is idempotent and keeps a merged item
      selected. */
  lemma {:induction false} UpdateIdempotent<T, R>(s: State<T>, v: View, denied: string, hit: T -> bool,
                                                  row: R, merge: (T, R) -> T)
    requires CanPersist(v)
    requires forall x: T :: hit(x) ==> hit(merge(x, row)) && merge(merge(x, row), row) == merge(x, row)
    ensures var once := Update(s, v, denied, hit, Ok(row), merge).state;
      Update(once, v, denied, hit, Ok(row), merge).state == once
  {
    var once := Update(s, v, denied, hit, Ok(row), merge).state;
    var twice := Update(once, v, denied, hit, Ok(row), merge).state;
    forall i | 0 <= i < |twice.items|
      ensures twice.items[i] == once.items[i]
    {
      if hit(s.items[i]) {
        assert once.items[i] == merge(s.items[i], row);
      } else {
        assert once.items[i] == s.items[i];
      }
    }
  }

  /** The delete. Refused with the gate closed; a remote error is rethrown
      and the list kept; on success every item `hit` selects is dropped and
      the others stay, in order. */
  function Delete<T>(s: State<T>, v: View, denied: string, hit: T -> bool, reply: Result<()>): (r: Step<T, Result<()>>)
    ensures !CanPersist(v) ==> r.state == s.(error := Some(denied)) && r.result == Err(denied)
    ensures CanPersist(v) && reply.Err? ==> r.state == s.(error := Some(reply.message)) && r.result == Err(reply.message)
    ensures CanPersist(v) && reply.Ok? ==>
      r.result == Ok(()) && r.state.error == s.error &&
      (forall i :: 0 <= i < |r.state.items| ==> !hit(r.state.items[i]) && r.state.items[i] in s.items) &&
      (forall i :: 0 <= i < |s.items| && !hit(s.items[i]) ==> s.items[i] in r.state.items)
  {
    if !CanPersist(v) then Throw(s, denied)
    else
      match reply
      case Err(msg) => Throw(s, msg)
      case Ok(_) => Step(s.(items := Filter(s.items, (x: T) => !hit(x))), Ok(()))
  }

  /** The delete keeps the survivors in their order: deleting from a list
      made of two parts gives the survivors of the first part followed by
      those of the second, and a confirmed delete drops a single item
      exactly when `hit` selects it. Together these fix the result. */
  lemma {:induction false} DeleteKeepsOrder<T>(front: seq<T>, back: seq<T>, err: Option<string>, v: View,
                                               denied: string, hit: T -> bool, reply: Result<()>, one: T)
    ensures Delete(State(front + back, err), v, denied, hit, reply).state.items ==
            Delete(State(front, err), v, denied, hit, reply).state.items +
            Delete(State(back, err), v, denied, hit, reply).state.items
    ensures CanPersist(v) && reply.Ok? ==>
      Delete(State([one], err), v, denied, hit, reply).state.items == if hit(one) then [] else [one]
  {
    if CanPersist(v) && reply.Ok? {
      FilterAppend(front, back, (x: T) => !hit(x));
    }
  }

  /** An empty parent id counts as none: the list is emptied and nothing
      is fetched. */
  lemma EmptyParentIsAbsent<R, T>(s: State<T>, v: View, reply: Result<Option<seq<R>>>, toItem: R -> T)
    ensures Load(s, v, Some(""), reply, toItem) == s.(items := [])
  {
  }

  /** Deleting the id of the item just created gives back the list the
      create started from, when no earlier item carried that id. */
  lemma {:induction false} DeleteUndoesCreate<T>(s: State<T>, v: View, created: string, deleted: string,
                                                 hit: T -> bool, item: T)
    requires CanPersist(v) && hit(item)
    requires forall i :: 0 <= i < |s.items| ==> !hit(s.items[i])
    ensures Delete(Create(s, true, created, Ok(item)).state, v, deleted, hit, Ok(())).state == s
  {
    var keep := (x: T) => !hit(x);
    FilterAppend(s.items, [item], keep);
    assert Filter([item], keep) == [];
  }

  /** The reorder. Refused with the gate closed; otherwise the per-row
      writes are sent and their results ignored, and the list becomes the
      given sequence exactly as passed. */
  function Reorder<T>(s: State<T>, v: View, denied: string, given: seq<T>): (r: Step<T, Result<()>>)
    ensures !CanPersist(v) ==> r.state == s.(error := Some(denied)) && r.result == Err(denied)
    ensures CanPersist(v) ==> r.state == s.(items := given) && r.result == Ok(())
  {
    if !CanPersist(v) then Throw(s, denied) else Step(s.(items := given), Ok(()))
  }
}
