/**
 * The `/data_container` routes (src/routes/DataContainer.rs), prefix
 * `DataContainer`. A data container belongs to a sensor and is the parent of
 * readings and subscribers. No update route exists for it.
 */
module DataContainerRoutes {
  import opened Base
  import opened Keys
  import Redis
  import opened Entities
  import opened Db
  import opened Accessor

  /** create_data_container: insert under the fresh id; a missing sensor is the caller's error. */
  function CreateDataContainer(s: State, newId: Id, sensorId: Id, stamp: Timestamp, insertFails: bool): (r: Step<DataContainer>)
    requires IsNanoId(newId)
    ensures r.state.now == s.now
    ensures r.outcome.Ok? <==> !insertFails && newId !in s.store.containers && sensorId in s.store.sensors
    ensures r.outcome.Ok? ==>
      && r.outcome.value == DataContainer(newId, sensorId, stamp)
      && r.state.store == s.store.(containers := s.store.containers[newId := r.outcome.value])
      && Cached(r.state, DataContainerKind, newId) == Some(DataContainerRow(r.outcome.value))
      && r.state.cache[Key(DataContainerKind, newId)].expiresAt == s.now + Redis.TTL
      && Redis.SameExcept(s.cache, r.state.cache, Key(DataContainerKind, newId))
    ensures r.outcome == BadRequest("Can't find sensor") <==>
      !insertFails && newId !in s.store.containers && sensorId !in s.store.sensors
    ensures r.outcome == InternalError("Query failed") <==> insertFails || newId in s.store.containers
    ensures !r.outcome.Ok? ==> r.state == s
  {
    var container := DataContainer(newId, sensorId, stamp);
    match InsertContainer(s.store, container, insertFails)
    case DbOk(st) =>
      Step(Remember(s.(store := st), DataContainerKind, container.id, DataContainerRow(container)), Ok(container))
    case DbErr(ForeignKeyViolation) => Step(s, BadRequest("Can't find sensor"))
    case DbErr(_) => Step(s, InternalError("Query failed"))
  }

  /** get_data_container: cache hit, else the store row, re-cached. */
  function GetDataContainer(s: State, id: Id, findFails: bool): (r: Step<DataContainer>)
    ensures r.state.store == s.store && r.state.now == s.now
    ensures Cached(s, DataContainerKind, id).Some? ==>
      r == Step(s, Ok(Cached(s, DataContainerKind, id).value.container))
    ensures Cached(s, DataContainerKind, id).None? ==>
      && (r.outcome.Ok? <==> !findFails && id in s.store.containers)
      && (r.outcome.Ok? ==>
            && r.outcome.value == s.store.containers[id]
            && Cached(r.state, DataContainerKind, id) == Some(DataContainerRow(s.store.containers[id]))
            && r.state.cache[Key(DataContainerKind, id)].expiresAt == s.now + Redis.TTL
            && Redis.SameExcept(s.cache, r.state.cache, Key(DataContainerKind, id)))
      && (r.outcome == BadRequest("Data container not found") <==> !findFails && id !in s.store.containers)
      && (findFails ==> r.outcome == InternalError("Query failed"))
      && (!r.outcome.Ok? ==> r.state == s)
  {
    var hit := Cached(s, DataContainerKind, id);
    if hit.Some? then Step(s, Ok(hit.value.container))
    else if findFails then Step(s, InternalError("Query failed"))
    else if id !in s.store.containers then Step(s, BadRequest("Data container not found"))
    else
      var container := s.store.containers[id];
      Step(Remember(s, DataContainerKind, id, DataContainerRow(container)), Ok(container))
  }

  /** get_sensor_data: the container's readings, straight from the store, with no existence check. */
  function GetContainerReadings(s: State, id: Id, queryFails: bool): (r: Step<set<SensorData>>)
    ensures r.state == s
    ensures r.outcome.Ok? <==> !queryFails
    ensures r.outcome.Ok? ==>
      forall d :: d in r.outcome.value <==> d in s.store.readings.Values && d.containerId == id
    ensures !r.outcome.Ok? ==> r.outcome == InternalError("Query failed")
  {
    if queryFails then Step(s, InternalError("Query failed"))
    else Step(s, Ok(ReadingsOf(s.store, id)))
  }

  /** get_subscribers: the container's subscribers, straight from the store, with no existence check. */
  function GetContainerSubscribers(s: State, id: Id, queryFails: bool): (r: Step<set<Subscriber>>)
    ensures r.state == s
    ensures r.outcome.Ok? <==> !queryFails
    ensures r.outcome.Ok? ==>
      forall x :: x in r.outcome.value <==> x in s.store.subscribers.Values && x.containerId == id
    ensures !r.outcome.Ok? ==> r.outcome == InternalError("Query failed")
  {
    if queryFails then Step(s, InternalError("Query failed"))
    else Step(s, Ok(SubscribersOf(s.store, id)))
  }

  /** delete_data_container: delete the row (cascading to readings and subscribers), then DEL its key. */
  function DeleteDataContainer(s: State, id: Id, deleteFails: bool): (r: Step<string>)
    ensures r.state.now == s.now
    ensures r.outcome.Ok? <==> !deleteFails
    ensures r.outcome.Ok? ==>
      && r.outcome.value == "Data container deleted"
      && r.state.store == DeleteContainerById(s.store, id)
      && id !in r.state.store.containers
      && Key(DataContainerKind, id) !in r.state.cache
      && Redis.SameExcept(s.cache, r.state.cache, Key(DataContainerKind, id))
    ensures !r.outcome.Ok? ==> r == Step(s, InternalError("Query failed"))
  {
    if deleteFails then Step(s, InternalError("Query failed"))
    else
      Step(Forget(s.(store := DeleteContainerById(s.store, id)), DataContainerKind, id),
           Ok("Data container deleted"))
  }

  // ------------------------------------------------------------ properties

  /** A cache hit is answered from the cache alone. */
  lemma GetDataContainerHitIgnoresStore(s: State, s2: State, id: Id, findFails: bool, findFails2: bool)
    requires s2.cache == s.cache && s2.now == s.now
    requires Cached(s, DataContainerKind, id).Some?
    ensures GetDataContainer(s, id, findFails).outcome == GetDataContainer(s2, id, findFails2).outcome
  {
  }

  /** Over a coherent cache, every container get_data_container returns is the store's row. */
  lemma {:induction false} GetDataContainerReturnsStoreRow(s: State, id: Id, findFails: bool)
    requires Coherent(s)
    requires GetDataContainer(s, id, findFails).outcome.Ok?
    ensures id in s.store.containers && GetDataContainer(s, id, findFails).outcome.value == s.store.containers[id]
  {
    if Cached(s, DataContainerKind, id).Some? {
      CoherentHitIsStoreRow(s, DataContainerKind, id);
    }
  }

  /** The two listings never read the cache: states with the same store get the same answer. */
  lemma ContainerListingsIgnoreCache(s: State, s2: State, id: Id, queryFails: bool)
    requires s2.store == s.store
    ensures GetContainerReadings(s, id, queryFails).outcome == GetContainerReadings(s2, id, queryFails).outcome
    ensures GetContainerSubscribers(s, id, queryFails).outcome == GetContainerSubscribers(s2, id, queryFails).outcome
  {
  }

  /** In a well-formed database an unknown container lists no readings and no subscribers, without error. */
  lemma {:induction false} UnknownContainerListsNothing(s: State, id: Id)
    requires Wf(s.store)
    requires id !in s.store.containers
    ensures GetContainerReadings(s, id, false).outcome == Ok({})
    ensures GetContainerSubscribers(s, id, false).outcome == Ok({})
  {
    var readings := GetContainerReadings(s, id, false).outcome.value;
    forall d | d in s.store.readings.Values ensures d.containerId in s.store.containers {
      var k :| k in s.store.readings && s.store.readings[k] == d;
    }
    assert readings == {};
    var subscribers := GetContainerSubscribers(s, id, false).outcome.value;
    forall x | x in s.store.subscribers.Values ensures x.containerId in s.store.containers {
      var k :| k in s.store.subscribers && s.store.subscribers[k] == x;
    }
    assert subscribers == {};
  }

  lemma {:induction false} CreateDataContainerKeeps(s: State, newId: Id, sensorId: Id, stamp: Timestamp, insertFails: bool, deadline: int)
    requires IsNanoId(newId)
    requires Inv(s) && StaleUntil(s, deadline)
    ensures Inv(CreateDataContainer(s, newId, sensorId, stamp, insertFails).state)
    ensures StaleUntil(CreateDataContainer(s, newId, sensorId, stamp, insertFails).state, deadline)
  {
    var r := CreateDataContainer(s, newId, sensorId, stamp, insertFails);
    if r.outcome.Ok? {
      var c := r.outcome.value;
      var st' := s.store.(containers := s.store.containers[newId := c]);
      assert r.state == Remember(s.(store := st'), DataContainerKind, newId, DataContainerRow(c));
      InsertContainerKeepsWf(s.store, c, insertFails);
      Redis.WritesKeepExpiryBounded(s.cache, Key(DataContainerKind, newId), Encode(DataContainerRow(c)), s.now, s.now);
      assert RowsSameExcept(s.store, st', DataContainerKind, newId);
      forall k ensures StaleUntilKind(r.state, k, deadline) {
        RememberKeeps(s, st', DataContainerKind, newId, DataContainerRow(c), k, deadline);
      }
    }
  }

  lemma {:induction false} GetDataContainerKeeps(s: State, id: Id, findFails: bool, deadline: int)
    requires Inv(s) && StaleUntil(s, deadline)
    ensures Inv(GetDataContainer(s, id, findFails).state)
    ensures StaleUntil(GetDataContainer(s, id, findFails).state, deadline)
  {
    var r := GetDataContainer(s, id, findFails);
    if Cached(s, DataContainerKind, id).None? && r.outcome.Ok? {
      forall k ensures StaleUntilKind(r.state, k, deadline) {
        RememberKeeps(s, s.store, DataContainerKind, id, DataContainerRow(s.store.containers[id]), k, deadline);
      }
    }
  }

  /**
   * delete_data_container keeps every entry but the subscribers' coherent;
   * the entries of cascaded subscribers may disagree until they expire, at
   * most one TTL from now.
   */
  lemma {:induction false} DeleteDataContainerKeeps(s: State, id: Id, deleteFails: bool, deadline: int)
    requires Inv(s) && StaleUntil(s, deadline)
    ensures Inv(DeleteDataContainer(s, id, deleteFails).state)
    ensures StaleUntilKind(DeleteDataContainer(s, id, deleteFails).state, HomeKind, deadline)
    ensures StaleUntilKind(DeleteDataContainer(s, id, deleteFails).state, ApplicationKind, deadline)
    ensures StaleUntilKind(DeleteDataContainer(s, id, deleteFails).state, SensorKind, deadline)
    ensures StaleUntilKind(DeleteDataContainer(s, id, deleteFails).state, DataContainerKind, deadline)
    ensures StaleUntil(DeleteDataContainer(s, id, deleteFails).state, Max(deadline, s.now + Redis.TTL))
  {
    var r := DeleteDataContainer(s, id, deleteFails);
    var later := Max(deadline, s.now + Redis.TTL);
    if r.outcome.Ok? {
      var st' := DeleteContainerById(s.store, id);
      DeleteContainerCascades(s.store, id);
      ForgetKeeps(s, st', DataContainerKind, id, HomeKind, deadline);
      ForgetKeeps(s, st', DataContainerKind, id, ApplicationKind, deadline);
      ForgetKeeps(s, st', DataContainerKind, id, SensorKind, deadline);
      ForgetKeeps(s, st', DataContainerKind, id, DataContainerKind, deadline);
      forall k ensures StaleUntilKind(r.state, k, later) {
        ExpiryBoundsStaleness(s, st', DataContainerKind, id, k, deadline);
      }
    } else {
      forall k ensures StaleUntilKind(r.state, k, later) {
        assert StaleUntilKind(s, k, deadline);
      }
    }
  }
}
