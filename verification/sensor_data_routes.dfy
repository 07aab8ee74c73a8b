/**
 * The `/sensor_data` routes (src/routes/SensorData.rs). Readings are keyed by
 * the pair (id, container id) and never touch the cache.
 */
module SensorDataRoutes {
  import opened Base
  import opened Entities
  import opened Db
  import opened Accessor

  /** create_sensor_data: insert the JSON value under the fresh id; a missing container is the caller's error. */
  function CreateSensorData(s: State, newId: Id, containerId: Id, data: JsonValue, stamp: Timestamp, insertFails: bool): (r: Step<SensorData>)
    requires IsNanoId(newId)
    ensures r.state.cache == s.cache && r.state.now == s.now
    ensures r.outcome.Ok? <==>
      !insertFails && (newId, containerId) !in s.store.readings && containerId in s.store.containers
    ensures r.outcome.Ok? ==>
      && r.outcome.value == SensorData(newId, containerId, Some(data), stamp)
      && r.state.store == s.store.(readings := s.store.readings[(newId, containerId) := r.outcome.value])
    ensures r.outcome == BadRequest("Can't find data container") <==>
      !insertFails && (newId, containerId) !in s.store.readings && containerId !in s.store.containers
    ensures r.outcome == InternalError("Query failed") <==>
      insertFails || (newId, containerId) in s.store.readings
    ensures !r.outcome.Ok? ==> r.state == s
  {
    var reading := SensorData(newId, containerId, Some(data), stamp);
    match InsertReading(s.store, reading, insertFails)
    case DbOk(st) => Step(s.(store := st), Ok(reading))
    case DbErr(ForeignKeyViolation) => Step(s, BadRequest("Can't find data container"))
    case DbErr(_) => Step(s, InternalError("Query failed"))
  }

  /** get_sensor_data: look the reading up by its composite key. */
  function GetSensorData(s: State, id: Id, containerId: Id, findFails: bool): (r: Step<SensorData>)
    ensures r.state == s
    ensures r.outcome.Ok? <==> !findFails && (id, containerId) in s.store.readings
    ensures r.outcome.Ok? ==>
      r.outcome.value == s.store.readings[(id, containerId)]
    ensures r.outcome == BadRequest("Sensor data not found") <==> !findFails && (id, containerId) !in s.store.readings
    ensures r.outcome == InternalError("Query failed") <==> findFails
  {
    if findFails then Step(s, InternalError("Query failed"))
    else if (id, containerId) !in s.store.readings then Step(s, BadRequest("Sensor data not found"))
    else Step(s, Ok(s.store.readings[(id, containerId)]))
  }

  /** delete_sensor_data: succeeds whether or not the reading existed. */
  function DeleteSensorData(s: State, id: Id, containerId: Id, deleteFails: bool): (r: Step<string>)
    ensures r.state.cache == s.cache && r.state.now == s.now
    ensures r.outcome.Ok? <==> !deleteFails
    ensures r.outcome.Ok? ==>
      && r.outcome.value == "Sensor data deleted successfully"
      && (id, containerId) !in r.state.store.readings
      && r.state.store.readings.Keys == s.store.readings.Keys - {(id, containerId)}
      && (forall k :: k in r.state.store.readings ==> r.state.store.readings[k] == s.store.readings[k])
      && r.state.store == s.store.(readings := r.state.store.readings)
    ensures !r.outcome.Ok? ==> r == Step(s, InternalError("Query failed"))
  {
    if deleteFails then Step(s, InternalError("Query failed"))
    else
      Step(s.(store := s.store.(readings := s.store.readings - {(id, containerId)})),
           Ok("Sensor data deleted successfully"))
  }

  // ------------------------------------------------------------ properties

  /** A reading just created can be read back by its key pair. */
  lemma CreateThenGetSensorData(s: State, newId: Id, containerId: Id, data: JsonValue, stamp: Timestamp, findFails: bool)
    requires IsNanoId(newId)
    requires CreateSensorData(s, newId, containerId, data, stamp, false).outcome.Ok?
    ensures GetSensorData(CreateSensorData(s, newId, containerId, data, stamp, false).state, newId, containerId, false).outcome
         == Ok(SensorData(newId, containerId, Some(data), stamp))
  {
  }

  /** After a successful delete the reading is gone. */
  lemma DeleteThenGetSensorData(s: State, id: Id, containerId: Id)
    ensures GetSensorData(DeleteSensorData(s, id, containerId, false).state, id, containerId, false).outcome
         == BadRequest("Sensor data not found")
  {
  }

  /** In a well-formed store the reading fetched by key is one the container's listing holds. */
  lemma GetSensorDataIsListed(s: State, id: Id, containerId: Id, findFails: bool)
    requires Wf(s.store)
    requires GetSensorData(s, id, containerId, findFails).outcome.Ok?
    ensures GetSensorData(s, id, containerId, findFails).outcome.value.id == id
    ensures GetSensorData(s, id, containerId, findFails).outcome.value in ReadingsOf(s.store, containerId)
  {
  }

  /** Readings are not cached entities, so creating one keeps the invariant and every staleness bound. */
  lemma {:induction false} CreateSensorDataKeeps(s: State, newId: Id, containerId: Id, data: JsonValue, stamp: Timestamp, insertFails: bool, deadline: int)
    requires IsNanoId(newId)
    requires Inv(s) && StaleUntil(s, deadline)
    ensures Inv(CreateSensorData(s, newId, containerId, data, stamp, insertFails).state)
    ensures StaleUntil(CreateSensorData(s, newId, containerId, data, stamp, insertFails).state, deadline)
  {
    var r := CreateSensorData(s, newId, containerId, data, stamp, insertFails);
    if r.outcome.Ok? {
      InsertReadingKeepsWf(s.store, r.outcome.value, insertFails);
      assert RowsSame(s.store, r.state.store);
      UntouchedKeeps(s, r.state.store, deadline);
    }
  }

  /** Deleting a reading keeps the invariant and every staleness bound. */
  lemma {:induction false} DeleteSensorDataKeeps(s: State, id: Id, containerId: Id, deleteFails: bool, deadline: int)
    requires Inv(s) && StaleUntil(s, deadline)
    ensures Inv(DeleteSensorData(s, id, containerId, deleteFails).state)
    ensures StaleUntil(DeleteSensorData(s, id, containerId, deleteFails).state, deadline)
  {
    var r := DeleteSensorData(s, id, containerId, deleteFails);
    if r.outcome.Ok? {
      assert RowsSame(s.store, r.state.store);
      UntouchedKeeps(s, r.state.store, deadline);
    }
  }
}
