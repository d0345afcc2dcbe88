/** What every entity store has in common: an ordered list of records and
    the last error message, the result of one operation, and the filters
    an update or delete puts on the remote rows. */
module Store {
  import opened Wrappers
  import opened Session

  /** The `items` and `error` a store exposes (`loading` is not modelled). */
  datatype State<T> = State(items: seq<T>, error: Option<string>)

  /** The store after one operation, and what the operation returned. */
  datatype Step<T, R> = Step(state: State<T>, result: R)

  /** The `.eq('id', id)` filter of an update or delete, with the
      `.eq('user_id', owner)` filter when the store adds one. */
  datatype Scope = Scope(id: string, owner: Option<string>)

  /** A remote row with this id and owner is touched by the filters. */
  predicate Matches(sc: Scope, rowId: string, rowOwner: string) {
    rowId == sc.id && (sc.owner.Some? ==> rowOwner == sc.owner.value)
  }

  /** The filters a gated store sends: the id and the signed-in user, and
      nothing at all when the gate is closed. */
  function OwnedScope(v: View, id: string): (sc: Option<Scope>)
    ensures sc.Some? <==> CanPersist(v)
    ensures sc.Some? ==> sc.value.id == id && sc.value.owner == Some(v.user.value.id)
    ensures forall rowId: string, rowOwner: string ::
      sc.Some? && Matches(sc.value, rowId, rowOwner) ==> rowOwner == v.user.value.id
  {
    if CanPersist(v) then Some(Scope(id, Some(v.user.value.id))) else None
  }

  /** An update as sent: its filters, the caller's fields and the
      `updated_at` stamp added to them. */
  datatype Request<P> = Request(scope: Scope, fields: P, updatedAt: string)

  /** The update a gated store sends: nothing when the gate is closed,
      otherwise the caller's fields stamped with `now` and scoped to the id
      and the signed-in user. */
  function UpdateRequest<P>(v: View, id: string, fields: P, now: string): (q: Option<Request<P>>)
    ensures q.Some? <==> CanPersist(v)
    ensures q.Some? ==> q.value.fields == fields && q.value.updatedAt == now
    ensures q.Some? ==> q.value.scope == Scope(id, Some(v.user.value.id))
  {
    match OwnedScope(v, id)
    case Some(sc) => Some(Request(sc, fields, now))
    case None => None
  }

  /** A strict-store operation that throws: the message is recorded in
      `error`, the list is untouched, and the caller sees the error. */
  function Throw<T, R>(s: State<T>, msg: string): Step<T, Result<R>> {
    Step(State(s.items, Some(msg)), Err(msg))
  }
}
