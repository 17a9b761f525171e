/** `ServiceCollection`: a registry from service identifier to instance or descriptor. */
module Collection {
  import opened Values

  datatype ServiceCollection = ServiceCollection(entries: map<ServiceId, Entry>)

  const Empty: ServiceCollection := ServiceCollection(map[])

  /** `get`: the stored entry, or `undefined` for an id never set. */
  function Get(c: ServiceCollection, id: ServiceId): (e: Entry)
    ensures id in c.entries ==> e == c.entries[id]
    ensures id !in c.entries ==> e == Miss
  {
    if id in c.entries then c.entries[id] else Miss
  }

  /** `has`: whether the id was ever set, whatever value it holds. */
  predicate Has(c: ServiceCollection, id: ServiceId)
  {
    id in c.entries
  }

  /**
   * `set`: stores `e` under `id` and returns what `get(id)` returned before
   * (`undefined` on the first set).
   */
  function Set(c: ServiceCollection, id: ServiceId, e: Entry): (r: (ServiceCollection, Entry))
    ensures Get(r.0, id) == e && Has(r.0, id)
    ensures r.1 == Get(c, id)
    ensures forall other :: other != id ==> Get(r.0, other) == Get(c, other) && (Has(r.0, other) <==> Has(c, other))
  {
    (ServiceCollection(c.entries[id := e]), Get(c, id))
  }

  /** The constructor: applies `entries` in order, so a later duplicate id wins. */
  function FromEntries(entries: seq<(ServiceId, Entry)>): (c: ServiceCollection)
    ensures forall id :: Has(c, id) <==> exists i :: 0 <= i < |entries| && entries[i].0 == id
    decreases |entries|
  {
    if |entries| == 0 then Empty
    else Set(FromEntries(entries[..|entries| - 1]), entries[|entries| - 1].0, entries[|entries| - 1].1).0
  }

  /** The index of the last pair in `entries` whose id is `id`, if any. */
  function LastIndexOf(entries: seq<(ServiceId, Entry)>, id: ServiceId): (i: int)
    ensures -1 <= i < |entries|
    ensures i >= 0 ==> entries[i].0 == id
    ensures forall j :: i < j < |entries| ==> entries[j].0 != id
    decreases |entries|
  {
    if |entries| == 0 then -1
    else if entries[|entries| - 1].0 == id then |entries| - 1
    else LastIndexOf(entries[..|entries| - 1], id)
  }

  /** After construction each id holds the entry of its last occurrence; an absent id is a miss. */
  lemma {:induction false} FromEntriesLastWins(entries: seq<(ServiceId, Entry)>, id: ServiceId)
    ensures var i := LastIndexOf(entries, id);
            Get(FromEntries(entries), id) == (if i >= 0 then entries[i].1 else Miss)
    decreases |entries|
  {
    if |entries| > 0 {
      var init := entries[..|entries| - 1];
      if entries[|entries| - 1].0 != id {
        FromEntriesLastWins(init, id);
      }
    }
  }

  /** A set followed by a get of the same id yields the stored entry; `has` is then true, even for a null value. */
  lemma SetThenGet(c: ServiceCollection, id: ServiceId, e: Entry)
    ensures var (c', prev) := Set(c, id, e);
            Get(c', id) == e && Has(c', id) && prev == Get(c, id)
  {
  }

  /** A second `set` returns what the first one stored. */
  lemma SetReturnsPrevious(c: ServiceCollection, id: ServiceId, e1: Entry, e2: Entry)
    requires !Has(c, id)
    ensures var (c1, prev1) := Set(c, id, e1);
            var (_, prev2) := Set(c1, id, e2);
            prev1 == Miss && prev2 == e1
  {
  }
}
