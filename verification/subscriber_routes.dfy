/**
 * The `/subscribers` routes (src/routes/Subscriber.rs), prefix
 * `Subscriber`. A subscriber belongs to a data container and has no
 * children, so deleting one cascades nowhere.
 */
module SubscriberRoutes {
  import opened Base
  import opened Keys
  import Redis
  import opened Entities
  import opened Db
  import opened Accessor

  /** create_subscriber: insert under the fresh id; a missing data container is the caller's error. */
  function CreateSubscriber(s: State, newId: Id, containerId: Id, notificationUrl: string, stamp: Timestamp, insertFails: bool): (r: Step<Subscriber>)
    requires IsNanoId(newId)
    ensures r.state.now == s.now
    ensures r.outcome.Ok? <==> !insertFails && newId !in s.store.subscribers && containerId in s.store.containers
    ensures r.outcome.Ok? ==>
      && r.outcome.value == Subscriber(newId, containerId, notificationUrl, stamp)
      && r.state.store == s.store.(subscribers := s.store.subscribers[newId := r.outcome.value])
      && Cached(r.state, SubscriberKind, newId) == Some(SubscriberRow(r.outcome.value))
      && r.state.cache[Key(SubscriberKind, newId)].expiresAt == s.now + Redis.TTL
      && Redis.SameExcept(s.cache, r.state.cache, Key(SubscriberKind, newId))
    ensures r.outcome == BadRequest("Can't find data container") <==>
      !insertFails && newId !in s.store.subscribers && containerId !in s.store.containers
    ensures r.outcome == InternalError("Query failed") <==> insertFails || newId in s.store.subscribers
    ensures !r.outcome.Ok? ==> r.state == s
  {
    var subscriber := Subscriber(newId, containerId, notificationUrl, stamp);
    match InsertSubscriber(s.store, subscriber, insertFails)
    case DbOk(st) =>
      Step(Remember(s.(store := st), SubscriberKind, subscriber.id, SubscriberRow(subscriber)), Ok(subscriber))
    case DbErr(ForeignKeyViolation) => Step(s, BadRequest("Can't find data container"))
    case DbErr(_) => Step(s, InternalError("Query failed"))
  }

  /** get_subscriber: cache hit, else the store row, re-cached. */
  function GetSubscriber(s: State, id: Id, findFails: bool): (r: Step<Subscriber>)
    ensures r.state.store == s.store && r.state.now == s.now
    ensures Cached(s, SubscriberKind, id).Some? ==>
      r == Step(s, Ok(Cached(s, SubscriberKind, id).value.subscriber))
    ensures Cached(s, SubscriberKind, id).None? ==>
      && (r.outcome.Ok? <==> !findFails && id in s.store.subscribers)
      && (r.outcome.Ok? ==>
            && r.outcome.value == s.store.subscribers[id]
            && Cached(r.state, SubscriberKind, id) == Some(SubscriberRow(s.store.subscribers[id]))
            && r.state.cache[Key(SubscriberKind, id)].expiresAt == s.now + Redis.TTL
            && Redis.SameExcept(s.cache, r.state.cache, Key(SubscriberKind, id)))
      && (r.outcome == BadRequest("Subscriber not found") <==> !findFails && id !in s.store.subscribers)
      && (findFails ==> r.outcome == InternalError("Query failed"))
      && (!r.outcome.Ok? ==> r.state == s)
  {
    var hit := Cached(s, SubscriberKind, id);
    if hit.Some? then Step(s, Ok(hit.value.subscriber))
    else if findFails then Step(s, InternalError("Query failed"))
    else if id !in s.store.subscribers then Step(s, BadRequest("Subscriber not found"))
    else
      var subscriber := s.store.subscribers[id];
      Step(Remember(s, SubscriberKind, id, SubscriberRow(subscriber)), Ok(subscriber))
  }

  /** update_subscriber: replace the notification URL, keeping the container; re-cache on success. */
  function UpdateSubscriber(s: State, id: Id, notificationUrl: string, findFails: bool, updateFails: bool): (r: Step<Subscriber>)
    ensures r.state.now == s.now
    ensures r.outcome.Ok? <==> !findFails && id in s.store.subscribers && !updateFails
    ensures r.outcome.Ok? ==>
      && r.outcome.value.notificationUrl == notificationUrl
      && r.outcome.value.id == s.store.subscribers[id].id
      && r.outcome.value.containerId == s.store.subscribers[id].containerId
      && r.outcome.value.createdAt == s.store.subscribers[id].createdAt
      && r.state.store == SaveSubscriber(s.store, r.outcome.value)
      && Cached(r.state, SubscriberKind, id) == Some(SubscriberRow(r.outcome.value))
      && r.state.cache[Key(SubscriberKind, id)].expiresAt == s.now + Redis.TTL
      && Redis.SameExcept(s.cache, r.state.cache, Key(SubscriberKind, id))
    ensures r.outcome == BadRequest("Subscriber not found") <==> !findFails && id !in s.store.subscribers
    ensures r.outcome == InternalError("Query failed") <==> findFails || (id in s.store.subscribers && updateFails)
    ensures !r.outcome.Ok? ==> r.state == s
  {
    if findFails then Step(s, InternalError("Query failed"))
    else if id !in s.store.subscribers then Step(s, BadRequest("Subscriber not found"))
    else
      var updated := s.store.subscribers[id].(notificationUrl := notificationUrl);
      if updateFails then Step(s, InternalError("Query failed"))
      else
        Step(Remember(s.(store := SaveSubscriber(s.store, updated)), SubscriberKind, id, SubscriberRow(updated)),
             Ok(updated))
  }

  /** delete_subscriber: delete the row, then DEL its cache key. */
  function DeleteSubscriber(s: State, id: Id, deleteFails: bool): (r: Step<string>)
    ensures r.state.now == s.now
    ensures r.outcome.Ok? <==> !deleteFails
    ensures r.outcome.Ok? ==>
      && r.outcome.value == "Subscriber deleted successfully"
      && r.state.store == s.store.(subscribers := s.store.subscribers - {id})
      && Key(SubscriberKind, id) !in r.state.cache
      && Redis.SameExcept(s.cache, r.state.cache, Key(SubscriberKind, id))
    ensures !r.outcome.Ok? ==> r == Step(s, InternalError("Query failed"))
  {
    if deleteFails then Step(s, InternalError("Query failed"))
    else
      Step(Forget(s.(store := s.store.(subscribers := s.store.subscribers - {id})), SubscriberKind, id),
           Ok("Subscriber deleted successfully"))
  }

  // ------------------------------------------------------------ properties

  /** A cache hit is answered from the cache alone. */
  lemma GetSubscriberHitIgnoresStore(s: State, s2: State, id: Id, findFails: bool, findFails2: bool)
    requires s2.cache == s.cache && s2.now == s.now
    requires Cached(s, SubscriberKind, id).Some?
    ensures GetSubscriber(s, id, findFails).outcome == GetSubscriber(s2, id, findFails2).outcome
  {
  }

  /** Over a coherent cache, every subscriber get_subscriber returns is the store's row. */
  lemma {:induction false} GetSubscriberReturnsStoreRow(s: State, id: Id, findFails: bool)
    requires Coherent(s)
    requires GetSubscriber(s, id, findFails).outcome.Ok?
    ensures id in s.store.subscribers && GetSubscriber(s, id, findFails).outcome.value == s.store.subscribers[id]
  {
    if Cached(s, SubscriberKind, id).Some? {
      CoherentHitIsStoreRow(s, SubscriberKind, id);
    }
  }

  /** update_subscriber decides from the store alone. */
  lemma UpdateSubscriberIgnoresCache(s: State, s2: State, id: Id, url: string, findFails: bool, updateFails: bool)
    requires s2.store == s.store && s2.now == s.now
    ensures UpdateSubscriber(s, id, url, findFails, updateFails).outcome
         == UpdateSubscriber(s2, id, url, findFails, updateFails).outcome
  {
  }

  lemma {:induction false} CreateSubscriberKeeps(s: State, newId: Id, containerId: Id, url: string, stamp: Timestamp, insertFails: bool, deadline: int)
    requires IsNanoId(newId)
    requires Inv(s) && StaleUntil(s, deadline)
    ensures Inv(CreateSubscriber(s, newId, containerId, url, stamp, insertFails).state)
    ensures StaleUntil(CreateSubscriber(s, newId, containerId, url, stamp, insertFails).state, deadline)
  {
    var r := CreateSubscriber(s, newId, containerId, url, stamp, insertFails);
    if r.outcome.Ok? {
      var b := r.outcome.value;
      var st' := s.store.(subscribers := s.store.subscribers[newId := b]);
      assert r.state == Remember(s.(store := st'), SubscriberKind, newId, SubscriberRow(b));
      InsertSubscriberKeepsWf(s.store, b, insertFails);
      Redis.WritesKeepExpiryBounded(s.cache, Key(SubscriberKind, newId), Encode(SubscriberRow(b)), s.now, s.now);
      assert RowsSameExcept(s.store, st', SubscriberKind, newId);
      forall k ensures StaleUntilKind(r.state, k, deadline) {
        RememberKeeps(s, st', SubscriberKind, newId, SubscriberRow(b), k, deadline);
      }
    }
  }

  lemma {:induction false} GetSubscriberKeeps(s: State, id: Id, findFails: bool, deadline: int)
    requires Inv(s) && StaleUntil(s, deadline)
    ensures Inv(GetSubscriber(s, id, findFails).state)
    ensures StaleUntil(GetSubscriber(s, id, findFails).state, deadline)
  {
    var r := GetSubscriber(s, id, findFails);
    if Cached(s, SubscriberKind, id).None? && r.outcome.Ok? {
      forall k ensures StaleUntilKind(r.state, k, deadline) {
        RememberKeeps(s, s.store, SubscriberKind, id, SubscriberRow(s.store.subscribers[id]), k, deadline);
      }
    }
  }

  lemma {:induction false} UpdateSubscriberKeeps(s: State, id: Id, url: string, findFails: bool, updateFails: bool, deadline: int)
    requires Inv(s) && StaleUntil(s, deadline)
    ensures Inv(UpdateSubscriber(s, id, url, findFails, updateFails).state)
    ensures StaleUntil(UpdateSubscriber(s, id, url, findFails, updateFails).state, deadline)
  {
    var r := UpdateSubscriber(s, id, url, findFails, updateFails);
    if r.outcome.Ok? {
      var b := r.outcome.value;
      assert b.id == id;
      var st' := SaveSubscriber(s.store, b);
      assert r.state == Remember(s.(store := st'), SubscriberKind, id, SubscriberRow(b));
      assert RowsSameExcept(s.store, st', SubscriberKind, id);
      assert Wf(st');
      Redis.WritesKeepExpiryBounded(s.cache, Key(SubscriberKind, id), Encode(SubscriberRow(b)), s.now, s.now);
      forall k ensures StaleUntilKind(r.state, k, deadline) {
        RememberKeeps(s, st', SubscriberKind, id, SubscriberRow(b), k, deadline);
      }
    }
  }

  /** A subscriber has no children, so its delete keeps every staleness bound. */
  lemma {:induction false} DeleteSubscriberKeeps(s: State, id: Id, deleteFails: bool, deadline: int)
    requires Inv(s) && StaleUntil(s, deadline)
    ensures Inv(DeleteSubscriber(s, id, deleteFails).state)
    ensures StaleUntil(DeleteSubscriber(s, id, deleteFails).state, deadline)
  {
    var r := DeleteSubscriber(s, id, deleteFails);
    if r.outcome.Ok? {
      var st' := r.state.store;
      forall k ensures StaleUntilKind(r.state, k, deadline) {
        ForgetKeeps(s, st', SubscriberKind, id, k, deadline);
      }
    }
  }
}
