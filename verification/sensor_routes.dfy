/**
 * The `/sensor` routes (src/routes/Sensor.rs), prefix `Sensor`. A sensor
 * belongs to an application (foreign key `application_id`).
 */
module SensorRoutes {
  import opened Base
  import opened Keys
  import Redis
  import opened Entities
  import opened Db
  import opened Accessor

  /** create_sensor: insert under the fresh id; a missing application is the caller's error. */
  function CreateSensor(s: State, newId: Id, name: string, applicationId: Id, stamp: Timestamp, insertFails: bool): (r: Step<Sensor>)
    requires IsNanoId(newId)
    ensures r.state.now == s.now
    ensures r.outcome.Ok? <==> !insertFails && newId !in s.store.sensors && applicationId in s.store.applications
    ensures r.outcome.Ok? ==>
      && r.outcome.value == Sensor(newId, applicationId, name, stamp)
      && r.state.store == s.store.(sensors := s.store.sensors[newId := r.outcome.value])
      && Cached(r.state, SensorKind, newId) == Some(SensorRow(r.outcome.value))
      && r.state.cache[Key(SensorKind, newId)].expiresAt == s.now + Redis.TTL
      && Redis.SameExcept(s.cache, r.state.cache, Key(SensorKind, newId))
    ensures r.outcome == BadRequest("Can't find application") <==>
      !insertFails && newId !in s.store.sensors && applicationId !in s.store.applications
    ensures r.outcome == InternalError("Query failed") <==> insertFails || newId in s.store.sensors
    ensures !r.outcome.Ok? ==> r.state == s
  {
    var sensor := Sensor(newId, applicationId, name, stamp);
    match InsertSensor(s.store, sensor, insertFails)
    case DbOk(st) => Step(Remember(s.(store := st), SensorKind, sensor.id, SensorRow(sensor)), Ok(sensor))
    case DbErr(ForeignKeyViolation) => Step(s, BadRequest("Can't find application"))
    case DbErr(_) => Step(s, InternalError("Query failed"))
  }

  /** get_sensor: a live entry that decodes answers; a corrupt one is ignored and the store consulted. */
  function GetSensor(s: State, id: Id, findFails: bool): (r: Step<Sensor>)
    ensures r.state.store == s.store && r.state.now == s.now
    ensures Cached(s, SensorKind, id).Some? ==>
      r == Step(s, Ok(Cached(s, SensorKind, id).value.sensor))
    ensures Cached(s, SensorKind, id).None? ==>
      && (r.outcome.Ok? <==> !findFails && id in s.store.sensors)
      && (r.outcome.Ok? ==>
            && r.outcome.value == s.store.sensors[id]
            && Cached(r.state, SensorKind, id) == Some(SensorRow(s.store.sensors[id]))
            && r.state.cache[Key(SensorKind, id)].expiresAt == s.now + Redis.TTL
            && Redis.SameExcept(s.cache, r.state.cache, Key(SensorKind, id)))
      && (r.outcome == BadRequest("Can't find sensor") <==> !findFails && id !in s.store.sensors)
      && (findFails ==> r.outcome == InternalError("Query failed"))
      && (!r.outcome.Ok? ==> r.state == s)
  {
    var hit := Cached(s, SensorKind, id);
    if hit.Some? then Step(s, Ok(hit.value.sensor))
    else if findFails then Step(s, InternalError("Query failed"))
    else if id !in s.store.sensors then Step(s, BadRequest("Can't find sensor"))
    else
      var sensor := s.store.sensors[id];
      Step(Remember(s, SensorKind, id, SensorRow(sensor)), Ok(sensor))
  }

  /**
   * get_sensor_data_container: the sensor's data containers, 400 for an
   * unknown sensor, and 400 (not 500) when the query itself fails.
   */
  function GetSensorContainers(s: State, id: Id, queryFails: bool): (r: Step<set<DataContainer>>)
    ensures r.state == s
    ensures r.outcome.Ok? <==> !queryFails && id in s.store.sensors
    ensures r.outcome.Ok? ==>
      forall c :: c in r.outcome.value <==> c in s.store.containers.Values && c.sensorId == id
    ensures r.outcome == BadRequest("Can't find sensor") <==> !queryFails && id !in s.store.sensors
    ensures queryFails ==> r.outcome == BadRequest("Query Failed")
    ensures !r.outcome.InternalError?
  {
    if queryFails then Step(s, BadRequest("Query Failed"))
    else if id !in s.store.sensors then Step(s, BadRequest("Can't find sensor"))
    else Step(s, Ok(ContainersOf(s.store, id)))
  }

  /** update_sensor: rename the stored row, keeping its id and application; re-cache on success. */
  function UpdateSensor(s: State, id: Id, name: string, findFails: bool, updateFails: bool): (r: Step<Sensor>)
    ensures r.state.now == s.now
    ensures r.outcome.Ok? <==> !findFails && id in s.store.sensors && !updateFails
    ensures r.outcome.Ok? ==>
      && r.outcome.value.name == name
      && r.outcome.value.id == s.store.sensors[id].id
      && r.outcome.value.applicationId == s.store.sensors[id].applicationId
      && r.outcome.value.createdAt == s.store.sensors[id].createdAt
      && r.state.store == SaveSensor(s.store, r.outcome.value)
      && Cached(r.state, SensorKind, id) == Some(SensorRow(r.outcome.value))
      && r.state.cache[Key(SensorKind, id)].expiresAt == s.now + Redis.TTL
      && Redis.SameExcept(s.cache, r.state.cache, Key(SensorKind, id))
    ensures r.outcome == BadRequest("Can't find sensor") <==> !findFails && id !in s.store.sensors
    ensures findFails ==> r.outcome == InternalError("Query failed")
    ensures !findFails && id in s.store.sensors && updateFails ==> r.outcome == InternalError("Failed to update sensor")
    ensures !r.outcome.Ok? ==> r.state == s
  {
    if findFails then Step(s, InternalError("Query failed"))
    else if id !in s.store.sensors then Step(s, BadRequest("Can't find sensor"))
    else
      var updated := s.store.sensors[id].(name := name);
      if updateFails then Step(s, InternalError("Failed to update sensor"))
      else Step(Remember(s.(store := SaveSensor(s.store, updated)), SensorKind, id, SensorRow(updated)), Ok(updated))
  }

  /** delete_sensor: delete the row (cascading in the store), then DEL its cache key. */
  function DeleteSensor(s: State, id: Id, deleteFails: bool): (r: Step<string>)
    ensures r.state.now == s.now
    ensures r.outcome.Ok? <==> !deleteFails
    ensures r.outcome.Ok? ==>
      && r.outcome.value == "Sensor deleted successfully"
      && r.state.store == DeleteSensorById(s.store, id)
      && id !in r.state.store.sensors
      && Key(SensorKind, id) !in r.state.cache
      && Redis.SameExcept(s.cache, r.state.cache, Key(SensorKind, id))
    ensures !r.outcome.Ok? ==> r == Step(s, InternalError("Failed to delete sensor"))
  {
    if deleteFails then Step(s, InternalError("Failed to delete sensor"))
    else Step(Forget(s.(store := DeleteSensorById(s.store, id)), SensorKind, id), Ok("Sensor deleted successfully"))
  }

  // ------------------------------------------------------------ properties

  /** A cache hit is answered from the cache alone. */
  lemma GetSensorHitIgnoresStore(s: State, s2: State, id: Id, findFails: bool, findFails2: bool)
    requires s2.cache == s.cache && s2.now == s.now
    requires Cached(s, SensorKind, id).Some?
    ensures GetSensor(s, id, findFails).outcome == GetSensor(s2, id, findFails2).outcome
  {
  }

  /** A corrupt live entry is no hit: get_sensor answers exactly as if the key were absent. */
  lemma GetSensorSkipsCorruptEntry(s: State, id: Id, text: string, findFails: bool)
    requires Key(SensorKind, id) in s.cache && s.cache[Key(SensorKind, id)].value == Corrupt(text)
    ensures GetSensor(s, id, findFails).outcome
         == GetSensor(s.(cache := s.cache - {Key(SensorKind, id)}), id, findFails).outcome
  {
  }

  /** Over a coherent cache, every sensor get_sensor returns is the store's row. */
  lemma {:induction false} GetSensorReturnsStoreRow(s: State, id: Id, findFails: bool)
    requires Coherent(s)
    requires GetSensor(s, id, findFails).outcome.Ok?
    ensures id in s.store.sensors && GetSensor(s, id, findFails).outcome.value == s.store.sensors[id]
  {
    if Cached(s, SensorKind, id).Some? {
      CoherentHitIsStoreRow(s, SensorKind, id);
    }
  }

  /** update_sensor decides from the store alone. */
  lemma UpdateSensorIgnoresCache(s: State, s2: State, id: Id, name: string, findFails: bool, updateFails: bool)
    requires s2.store == s.store && s2.now == s.now
    ensures UpdateSensor(s, id, name, findFails, updateFails).outcome == UpdateSensor(s2, id, name, findFails, updateFails).outcome
  {
  }

  lemma {:induction false} CreateSensorKeeps(s: State, newId: Id, name: string, applicationId: Id, stamp: Timestamp, insertFails: bool, deadline: int)
    requires IsNanoId(newId)
    requires Inv(s) && StaleUntil(s, deadline)
    ensures Inv(CreateSensor(s, newId, name, applicationId, stamp, insertFails).state)
    ensures StaleUntil(CreateSensor(s, newId, name, applicationId, stamp, insertFails).state, deadline)
  {
    var r := CreateSensor(s, newId, name, applicationId, stamp, insertFails);
    if r.outcome.Ok? {
      var x := r.outcome.value;
      var st' := s.store.(sensors := s.store.sensors[newId := x]);
      assert r.state == Remember(s.(store := st'), SensorKind, newId, SensorRow(x));
      InsertSensorKeepsWf(s.store, x, insertFails);
      assert RowsSameExcept(s.store, st', SensorKind, newId);
      Redis.WritesKeepExpiryBounded(s.cache, Key(SensorKind, newId), Encode(SensorRow(x)), s.now, s.now);
      forall k ensures StaleUntilKind(r.state, k, deadline) {
        RememberKeeps(s, st', SensorKind, newId, SensorRow(x), k, deadline);
      }
    }
  }

  lemma {:induction false} GetSensorKeeps(s: State, id: Id, findFails: bool, deadline: int)
    requires Inv(s) && StaleUntil(s, deadline)
    ensures Inv(GetSensor(s, id, findFails).state)
    ensures StaleUntil(GetSensor(s, id, findFails).state, deadline)
  {
    var r := GetSensor(s, id, findFails);
    if Cached(s, SensorKind, id).None? && r.outcome.Ok? {
      forall k ensures StaleUntilKind(r.state, k, deadline) {
        RememberKeeps(s, s.store, SensorKind, id, SensorRow(s.store.sensors[id]), k, deadline);
      }
    }
  }

  lemma {:induction false} UpdateSensorKeeps(s: State, id: Id, name: string, findFails: bool, updateFails: bool, deadline: int)
    requires Inv(s) && StaleUntil(s, deadline)
    ensures Inv(UpdateSensor(s, id, name, findFails, updateFails).state)
    ensures StaleUntil(UpdateSensor(s, id, name, findFails, updateFails).state, deadline)
  {
    var r := UpdateSensor(s, id, name, findFails, updateFails);
    if r.outcome.Ok? {
      var x := r.outcome.value;
      assert x.id == id;
      var st' := r.state.store;
      forall k ensures StaleUntilKind(r.state, k, deadline) {
        RememberKeeps(s, st', SensorKind, id, SensorRow(x), k, deadline);
      }
    }
  }

  /**
   * delete_sensor keeps home, application and sensor entries coherent; the
   * entries of cascaded data containers and subscribers may disagree until
   * they expire, at most one TTL from now.
   */
  lemma {:induction false} DeleteSensorKeeps(s: State, id: Id, deleteFails: bool, deadline: int)
    requires Inv(s) && StaleUntil(s, deadline)
    ensures Inv(DeleteSensor(s, id, deleteFails).state)
    ensures StaleUntilKind(DeleteSensor(s, id, deleteFails).state, HomeKind, deadline)
    ensures StaleUntilKind(DeleteSensor(s, id, deleteFails).state, ApplicationKind, deadline)
    ensures StaleUntilKind(DeleteSensor(s, id, deleteFails).state, SensorKind, deadline)
    ensures StaleUntil(DeleteSensor(s, id, deleteFails).state, Max(deadline, s.now + Redis.TTL))
  {
    var r := DeleteSensor(s, id, deleteFails);
    var later := Max(deadline, s.now + Redis.TTL);
    if r.outcome.Ok? {
      var st' := DeleteSensorById(s.store, id);
      DeleteSensorCascades(s.store, id);
      ForgetKeeps(s, st', SensorKind, id, HomeKind, deadline);
      ForgetKeeps(s, st', SensorKind, id, ApplicationKind, deadline);
      ForgetKeeps(s, st', SensorKind, id, SensorKind, deadline);
      forall k ensures StaleUntilKind(r.state, k, later) {
        ExpiryBoundsStaleness(s, st', SensorKind, id, k, deadline);
      }
    } else {
      forall k ensures StaleUntilKind(r.state, k, later) {
        assert StaleUntilKind(s, k, deadline);
      }
    }
  }
}
