/**
  The listener registry that both registries inherit: a map from id to the
  listeners registered under it, where an id is present only while it has
  at least one listener.
 */
module Observable {
  import opened Types
  import Lists

  type Subscriptions = map<Identifier, seq<Listener>>

  /** Every id present has at least one listener. */
  predicate WellFormed(subs: Subscriptions) {
    forall id :: id in subs ==> subs[id] != []
  }

  /** The listeners of `id`, none when it is absent. */
  function ListenersOf(subs: Subscriptions, id: Identifier): seq<Listener> {
    if id in subs then subs[id] else []
  }

  /** `subscribe(id, listener)`: the listener is appended under `id`; nothing else changes. */
  function Subscribe(subs: Subscriptions, id: Identifier, l: Listener): (r: Subscriptions)
    ensures r.Keys == subs.Keys + {id}
    ensures r[id] == ListenersOf(subs, id) + [l]
    ensures forall k :: k in subs && k != id ==> r[k] == subs[k]
    ensures WellFormed(subs) ==> WellFormed(r)
  {
    subs[id := ListenersOf(subs, id) + [l]]
  }

  /**
    The `unsubscribe` closure: one registration of the listener under `id`
    is removed, and `id` disappears with its last listener.
   */
  function Unsubscribe(subs: Subscriptions, id: Identifier, l: Listener): (r: Subscriptions)
    ensures r.Keys <= subs.Keys
    ensures id in r ==> r[id] == Lists.RemoveFirst(subs[id], l)
    ensures id in subs && id !in r <==> id in subs && Lists.RemoveFirst(subs[id], l) == []
    ensures forall k :: k in subs && k != id ==> k in r && r[k] == subs[k]
    ensures WellFormed(subs) ==> WellFormed(r)
  {
    if id !in subs then subs
    else
      var rest := Lists.RemoveFirst(subs[id], l);
      if rest == [] then subs - {id} else subs[id := rest]
  }

  /** Unsubscribing a fresh registration restores the registry exactly. */
  lemma UnsubscribeUndoesSubscribe(subs: Subscriptions, id: Identifier, l: Listener)
    requires WellFormed(subs)
    requires l !in ListenersOf(subs, id)
    ensures Unsubscribe(Subscribe(subs, id, l), id, l) == subs
  {
    Lists.RemoveFirstOfAppended(ListenersOf(subs, id), l);
  }

  /** Removing the only listener of an id removes the id. */
  lemma LastListenerRemovesId(subs: Subscriptions, id: Identifier, l: Listener)
    requires id in subs && subs[id] == [l]
    ensures id !in Unsubscribe(subs, id, l)
  {
  }
}
