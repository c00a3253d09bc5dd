/**
 * The registry of confirmed subscriptions: a collection with a unique index on the id and a
 * range-queryable index on the expiration.
 */
module Registry {
  import opened Base
  import opened Subscriptions

  /** The stored subscriptions, keyed by their id. */
  datatype Registry = Registry(byId: map<string, Subscription>) {

    /** The unique-id index: each entry is stored under its own id. */
    predicate Valid() {
      forall id :: id in byId ==> byId[id].id == id
    }

    /** Every stored subscription. */
    function Stored(): set<Subscription> {
      byId.Values
    }
  }

  function Empty(): (r: Registry)
    ensures r.Valid() && r.Stored() == {}
  {
    Registry(map[])
  }

  /** Zero or one subscription; when the registry is valid, the one found carries `id`. */
  function GetById(r: Registry, id: string): (o: Option<Subscription>)
    ensures o.Some? <==> id in r.byId
    ensures o.Some? ==> o.value in r.Stored()
    ensures r.Valid() && o.Some? ==> o.value in r.Stored() && o.value.id == id
    ensures r.Valid() ==> (o.None? <==> forall s :: s in r.Stored() ==> s.id != id)
  {
    if id in r.byId then Some(r.byId[id]) else None
  }

  /** In a valid registry no two stored subscriptions share an id. */
  lemma UniqueIds(r: Registry, a: Subscription, b: Subscription)
    requires r.Valid() && a in r.Stored() && b in r.Stored() && a.id == b.id
    ensures a == b
  {
  }

  /** Upsert: `s` replaces whatever was stored under its id. */
  function Add(r: Registry, s: Subscription): (r': Registry)
    ensures r.Valid() ==> r'.Valid()
    ensures GetById(r', s.id) == Some(s)
    ensures forall id :: id != s.id ==> GetById(r', id) == GetById(r, id)
  {
    Registry(r.byId[s.id := s])
  }

  /**
   * Remove the subscription stored under `id`; `removed` tells whether there was one.
   */
  function Remove(r: Registry, id: string): (res: (Registry, bool))
    ensures res.1 <==> GetById(r, id).Some?
    ensures GetById(res.0, id).None?
    ensures forall other :: other != id ==> GetById(res.0, other) == GetById(r, other)
    ensures !res.1 ==> res.0 == r
    ensures r.Valid() ==> res.0.Valid()
  {
    if id in r.byId then (Registry(r.byId - {id}), true) else (r, false)
  }

  /**
   * All stored subscriptions expiring strictly before `t`, each listed once, in no particular
   * order.
   */
  method GetExpiresBefore(r: Registry, t: int) returns (found: seq<Subscription>)
    ensures NoDuplicates(found)
    ensures forall s :: s in found <==> s in r.Stored() && s.expiration < t
  {
    found := [];
    var todo := r.byId.Keys;
    while todo != {}
      invariant todo <= r.byId.Keys
      invariant NoDuplicates(found)
      invariant forall s :: s in found ==> s in r.Stored() && s.expiration < t
      invariant forall s :: s in found ==> exists id :: id in r.byId.Keys - todo && r.byId[id] == s
      invariant forall id :: id in r.byId.Keys - todo && r.byId[id].expiration < t ==> r.byId[id] in found
      decreases todo
    {
      var id :| id in todo;
      var s := r.byId[id];
      if s.expiration < t && s !in found {
        found := found + [s];
      }
      todo := todo - {id};
    }
  }
}
