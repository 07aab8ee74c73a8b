/**
 * The `/application` routes (src/routes/Application.rs), prefix
 * `Application`. An application belongs to a home (foreign key `home_id`).
 */
module ApplicationRoutes {
  import opened Base
  import opened Keys
  import Redis
  import opened Entities
  import opened Db
  import opened Accessor

  /** add_application: insert under the fresh id; a missing home is the caller's error. */
  function CreateApplication(s: State, newId: Id, name: string, homeId: Id, stamp: Timestamp, insertFails: bool): (r: Step<Application>)
    requires IsNanoId(newId)
    ensures r.state.now == s.now
    ensures r.outcome.Ok? <==> !insertFails && newId !in s.store.applications && homeId in s.store.homes
    ensures r.outcome.Ok? ==>
      && r.outcome.value == Application(newId, homeId, name, stamp)
      && r.state.store == s.store.(applications := s.store.applications[newId := r.outcome.value])
      && Cached(r.state, ApplicationKind, newId) == Some(ApplicationRow(r.outcome.value))
      && r.state.cache[Key(ApplicationKind, newId)].expiresAt == s.now + Redis.TTL
      && Redis.SameExcept(s.cache, r.state.cache, Key(ApplicationKind, newId))
    ensures r.outcome == BadRequest("Can't find home") <==>
      !insertFails && newId !in s.store.applications && homeId !in s.store.homes
    ensures r.outcome == InternalError("Query failed") <==> insertFails || newId in s.store.applications
    ensures !r.outcome.Ok? ==> r.state == s
  {
    var app := Application(newId, homeId, name, stamp);
    match InsertApplication(s.store, app, insertFails)
    case DbOk(st) => Step(Remember(s.(store := st), ApplicationKind, app.id, ApplicationRow(app)), Ok(app))
    case DbErr(ForeignKeyViolation) => Step(s, BadRequest("Can't find home"))
    case DbErr(_) => Step(s, InternalError("Query failed"))
  }

  /** get_application: cache hit, else the store row, re-cached under the row's own id. */
  function GetApplication(s: State, id: Id, findFails: bool): (r: Step<Application>)
    ensures r.state.store == s.store && r.state.now == s.now
    ensures Cached(s, ApplicationKind, id).Some? ==>
      r == Step(s, Ok(Cached(s, ApplicationKind, id).value.application))
    ensures Cached(s, ApplicationKind, id).None? ==>
      && (r.outcome.Ok? <==> !findFails && id in s.store.applications)
      && (r.outcome.Ok? ==>
            && r.outcome.value == s.store.applications[id]
            && Cached(r.state, ApplicationKind, r.outcome.value.id) == Some(ApplicationRow(r.outcome.value))
            && r.state.cache[Key(ApplicationKind, r.outcome.value.id)].expiresAt == s.now + Redis.TTL
            && Redis.SameExcept(s.cache, r.state.cache, Key(ApplicationKind, r.outcome.value.id)))
      && (r.outcome == BadRequest("Application not found") <==> !findFails && id !in s.store.applications)
      && (findFails ==> r.outcome == InternalError("Failed to fetch application"))
      && (!r.outcome.Ok? ==> r.state == s)
  {
    var hit := Cached(s, ApplicationKind, id);
    if hit.Some? then Step(s, Ok(hit.value.application))
    else if findFails then Step(s, InternalError("Failed to fetch application"))
    else if id !in s.store.applications then Step(s, BadRequest("Application not found"))
    else
      var app := s.store.applications[id];
      Step(Remember(s, ApplicationKind, app.id, ApplicationRow(app)), Ok(app))
  }

  /** get_application_sensors: filters sensors by application id; an unknown application gives an empty set. */
  function GetApplicationSensors(s: State, id: Id, queryFails: bool): (r: Step<set<Sensor>>)
    ensures r.state == s
    ensures r.outcome.Ok? <==> !queryFails
    ensures r.outcome.Ok? ==>
      forall x :: x in r.outcome.value <==> x in s.store.sensors.Values && x.applicationId == id
    ensures !r.outcome.Ok? ==> r.outcome == InternalError("Failed to fetch sensors")
  {
    if queryFails then Step(s, InternalError("Failed to fetch sensors"))
    else Step(s, Ok(SensorsOf(s.store, id)))
  }

  /** update_application: rename the stored row, keeping its id and home; re-cache on success. */
  function UpdateApplication(s: State, id: Id, name: string, findFails: bool, updateFails: bool): (r: Step<Application>)
    ensures r.state.now == s.now
    ensures r.outcome.Ok? <==> !findFails && id in s.store.applications && !updateFails
    ensures r.outcome.Ok? ==>
      && r.outcome.value.name == name
      && r.outcome.value.id == s.store.applications[id].id
      && r.outcome.value.homeId == s.store.applications[id].homeId
      && r.outcome.value.createdAt == s.store.applications[id].createdAt
      && r.state.store == SaveApplication(s.store, r.outcome.value)
      && Cached(r.state, ApplicationKind, r.outcome.value.id) == Some(ApplicationRow(r.outcome.value))
      && r.state.cache[Key(ApplicationKind, r.outcome.value.id)].expiresAt == s.now + Redis.TTL
      && Redis.SameExcept(s.cache, r.state.cache, Key(ApplicationKind, r.outcome.value.id))
    ensures r.outcome == BadRequest("Failed to update application") <==> !findFails && id !in s.store.applications
    ensures r.outcome == InternalError("Failed to update application") <==>
      findFails || (id in s.store.applications && updateFails)
    ensures !r.outcome.Ok? ==> r.state == s
  {
    if findFails then Step(s, InternalError("Failed to update application"))
    else if id !in s.store.applications then Step(s, BadRequest("Failed to update application"))
    else
      var updated := s.store.applications[id].(name := name);
      if updateFails then Step(s, InternalError("Failed to update application"))
      else
        Step(Remember(s.(store := SaveApplication(s.store, updated)), ApplicationKind, updated.id, ApplicationRow(updated)),
             Ok(updated))
  }

  /** delete_application: delete the row (cascading in the store), then DEL its cache key. */
  function DeleteApplication(s: State, id: Id, deleteFails: bool): (r: Step<string>)
    ensures r.state.now == s.now
    ensures r.outcome.Ok? <==> !deleteFails
    ensures r.outcome.Ok? ==>
      && r.outcome.value == "Application deleted successfully"
      && r.state.store == DeleteApplicationById(s.store, id)
      && id !in r.state.store.applications
      && Key(ApplicationKind, id) !in r.state.cache
      && Redis.SameExcept(s.cache, r.state.cache, Key(ApplicationKind, id))
    ensures !r.outcome.Ok? ==> r == Step(s, InternalError("Failed to delete application"))
  {
    if deleteFails then Step(s, InternalError("Failed to delete application"))
    else
      Step(Forget(s.(store := DeleteApplicationById(s.store, id)), ApplicationKind, id),
           Ok("Application deleted successfully"))
  }

  // ------------------------------------------------------------ properties

  /** A cache hit is answered from the cache alone. */
  lemma GetApplicationHitIgnoresStore(s: State, s2: State, id: Id, findFails: bool, findFails2: bool)
    requires s2.cache == s.cache && s2.now == s.now
    requires Cached(s, ApplicationKind, id).Some?
    ensures GetApplication(s, id, findFails).outcome == GetApplication(s2, id, findFails2).outcome
  {
  }

  /** Over a coherent cache, every application get_application returns is the store's row. */
  lemma {:induction false} GetApplicationReturnsStoreRow(s: State, id: Id, findFails: bool)
    requires Coherent(s)
    requires GetApplication(s, id, findFails).outcome.Ok?
    ensures id in s.store.applications && GetApplication(s, id, findFails).outcome.value == s.store.applications[id]
  {
    if Cached(s, ApplicationKind, id).Some? {
      CoherentHitIsStoreRow(s, ApplicationKind, id);
    }
  }

  /** update_application decides from the store alone. */
  lemma UpdateApplicationIgnoresCache(s: State, s2: State, id: Id, name: string, findFails: bool, updateFails: bool)
    requires s2.store == s.store && s2.now == s.now
    ensures UpdateApplication(s, id, name, findFails, updateFails).outcome
         == UpdateApplication(s2, id, name, findFails, updateFails).outcome
  {
  }

  /**
   * The sensor listing performs no existence check: in a well-formed
   * database an unknown application has an empty listing, not an error.
   */
  lemma {:induction false} UnknownApplicationHasNoSensors(s: State, id: Id)
    requires Wf(s.store)
    requires id !in s.store.applications
    ensures GetApplicationSensors(s, id, false).outcome == Ok({})
  {
    var listed := GetApplicationSensors(s, id, false).outcome.value;
    forall x | x in s.store.sensors.Values ensures x.applicationId in s.store.applications {
      var k :| k in s.store.sensors && s.store.sensors[k] == x;
    }
    assert listed == {};
  }

  lemma {:induction false} CreateApplicationKeeps(s: State, newId: Id, name: string, homeId: Id, stamp: Timestamp, insertFails: bool, deadline: int)
    requires IsNanoId(newId)
    requires Inv(s) && StaleUntil(s, deadline)
    ensures Inv(CreateApplication(s, newId, name, homeId, stamp, insertFails).state)
    ensures StaleUntil(CreateApplication(s, newId, name, homeId, stamp, insertFails).state, deadline)
  {
    var r := CreateApplication(s, newId, name, homeId, stamp, insertFails);
    if r.outcome.Ok? {
      var a := r.outcome.value;
      var st' := s.store.(applications := s.store.applications[newId := a]);
      assert r.state == Remember(s.(store := st'), ApplicationKind, newId, ApplicationRow(a));
      InsertApplicationKeepsWf(s.store, a, insertFails);
      Redis.WritesKeepExpiryBounded(s.cache, Key(ApplicationKind, newId), Encode(ApplicationRow(a)), s.now, s.now);
      assert RowsSameExcept(s.store, st', ApplicationKind, newId);
      forall k ensures StaleUntilKind(r.state, k, deadline) {
        RememberKeeps(s, st', ApplicationKind, newId, ApplicationRow(a), k, deadline);
      }
    }
  }

  lemma {:induction false} GetApplicationKeeps(s: State, id: Id, findFails: bool, deadline: int)
    requires Inv(s) && StaleUntil(s, deadline)
    ensures Inv(GetApplication(s, id, findFails).state)
    ensures StaleUntil(GetApplication(s, id, findFails).state, deadline)
  {
    var r := GetApplication(s, id, findFails);
    if Cached(s, ApplicationKind, id).None? && r.outcome.Ok? {
      var a := s.store.applications[id];
      assert a.id == id;
      forall k ensures StaleUntilKind(r.state, k, deadline) {
        RememberKeeps(s, s.store, ApplicationKind, id, ApplicationRow(a), k, deadline);
      }
    }
  }

  lemma {:induction false} UpdateApplicationKeeps(s: State, id: Id, name: string, findFails: bool, updateFails: bool, deadline: int)
    requires Inv(s) && StaleUntil(s, deadline)
    ensures Inv(UpdateApplication(s, id, name, findFails, updateFails).state)
    ensures StaleUntil(UpdateApplication(s, id, name, findFails, updateFails).state, deadline)
  {
    var r := UpdateApplication(s, id, name, findFails, updateFails);
    if r.outcome.Ok? {
      var a := r.outcome.value;
      assert a.id == id;
      var st' := r.state.store;
      forall k ensures StaleUntilKind(r.state, k, deadline) {
        RememberKeeps(s, st', ApplicationKind, id, ApplicationRow(a), k, deadline);
      }
    }
  }

  /**
   * delete_application keeps home and application entries coherent; the
   * entries of the cascaded sensors, data containers and subscribers may
   * disagree until they expire, at most one TTL from now.
   */
  lemma {:induction false} DeleteApplicationKeeps(s: State, id: Id, deleteFails: bool, deadline: int)
    requires Inv(s) && StaleUntil(s, deadline)
    ensures Inv(DeleteApplication(s, id, deleteFails).state)
    ensures StaleUntilKind(DeleteApplication(s, id, deleteFails).state, HomeKind, deadline)
    ensures StaleUntilKind(DeleteApplication(s, id, deleteFails).state, ApplicationKind, deadline)
    ensures StaleUntil(DeleteApplication(s, id, deleteFails).state, Max(deadline, s.now + Redis.TTL))
  {
    var r := DeleteApplication(s, id, deleteFails);
    var later := Max(deadline, s.now + Redis.TTL);
    if r.outcome.Ok? {
      var st' := DeleteApplicationById(s.store, id);
      DeleteApplicationCascades(s.store, id);
      ForgetKeeps(s, st', ApplicationKind, id, HomeKind, deadline);
      ForgetKeeps(s, st', ApplicationKind, id, ApplicationKind, deadline);
      forall k ensures StaleUntilKind(r.state, k, later) {
        ExpiryBoundsStaleness(s, st', ApplicationKind, id, k, deadline);
      }
    } else {
      forall k ensures StaleUntilKind(r.state, k, later) {
        assert StaleUntilKind(s, k, deadline);
      }
    }
  }
}
