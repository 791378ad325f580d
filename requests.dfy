/** The pending-request table `pending_requests` seen as a value: each request
    id maps to the state of its waiter, a one-shot flag (the `asyncio.Event`)
    and a response slot (the `storage` dict's "response" key). The class
    `Bot.Relay` keeps the table as objects; its ghost field `table` is this value. */
module Requests {
  import opened Wire

  datatype Slot = Slot(isSet: bool, response: Option<Frame>)

  type Table = map<RequestId, Slot>

  /** A fresh waiter: flag clear, slot empty. */
  const Empty := Slot(false, None)

  /** `pending_requests[request_id] = (event, storage)`: inserts a fresh
      waiter, silently replacing whatever `id` held before. */
  function Register(t: Table, id: RequestId): (r: Table)
    ensures r.Keys == t.Keys + {id}
    ensures r[id] == Empty
    ensures forall k :: k in t && k != id ==> r[k] == t[k]
  {
    t[id := Empty]
  }

  /** `storage['response'] = data; event.set()` for a pending id; nothing at
      all for an id that is not pending. */
  function Resolve(t: Table, id: RequestId, response: Frame): (r: Table)
    ensures r.Keys == t.Keys
    ensures id in t ==> r[id] == Slot(true, Some(response))
    ensures forall k :: k in t && k != id ==> r[k] == t[k]
    ensures id !in t ==> r == t
  {
    if id in t then t[id := Slot(true, Some(response))] else t
  }

  /** `pending_requests.pop(request_id, None)`: drops the id if present. */
  function Remove(t: Table, id: RequestId): (r: Table)
    ensures r.Keys == t.Keys - {id}
    ensures forall k :: k in r ==> r[k] == t[k]
  {
    t - {id}
  }

  /** Registering a new id and popping it again restores the table. */
  lemma RegisterThenRemove(t: Table, id: RequestId)
    requires id !in t
    ensures Remove(Register(t, id), id) == t
  {
    assert Remove(Register(t, id), id).Keys == t.Keys;
  }

  /** A response that arrives after its id was popped changes nothing. */
  lemma ResolveAfterRemove(t: Table, id: RequestId, response: Frame)
    ensures Resolve(Remove(t, id), id, response) == Remove(t, id)
  {
  }

  /** Registering an id that is already pending wipes that entry's flag and
      slot, even when it had been resolved. */
  lemma RegisterOverwrites(t: Table, id: RequestId, response: Frame)
    requires id in t
    ensures Register(Resolve(t, id, response), id)[id] == Empty
    ensures Register(Resolve(t, id, response), id).Keys == t.Keys
  {
  }

  /** Resolving one id and popping another can be done in either order. */
  lemma ResolveRemoveCommute(t: Table, id: RequestId, other: RequestId, response: Frame)
    requires other != id
    ensures Remove(Resolve(t, other, response), id) == Resolve(Remove(t, id), other, response)
  {
  }

  /** A second response for the same id replaces the first one in the slot. */
  lemma ResolveTwiceKeepsLast(t: Table, id: RequestId, first: Frame, second: Frame)
    ensures Resolve(Resolve(t, id, first), id, second) == Resolve(t, id, second)
  {
  }
}
