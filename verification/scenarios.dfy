/**
 * Consequences of the cache-aside design that span several requests: what a
 * client reads back after its own writes, and the window in which a cascaded
 * child is still served from the cache.
 */
module Scenarios {
  import opened Base
  import opened Keys
  import Redis
  import opened Entities
  import opened Db
  import opened Accessor
  import HomeRoutes
  import ApplicationRoutes
  import SensorRoutes

  /** A row cached at `now` is still what a GET reads `seconds` later, while less than a TTL has passed. */
  lemma {:induction false} RememberedWithinTtl(s: State, kind: Kind, id: Id, row: Row, seconds: nat)
    requires KindOf(row) == kind
    requires seconds < Redis.TTL
    ensures Cached(Advance(Remember(s, kind, id, row), seconds), kind, id) == Some(row)
  {
    var s1 := Remember(s, kind, id, row);
    var s2 := Advance(s1, seconds);
    assert Redis.Get(s1.cache, Key(kind, id), s2.now) == Some(Encode(row));
  }

  /**
   * Read-your-writes: within a TTL of creating a home, get_home returns it
   * from the cache even if the database is unreachable.
   */
  lemma {:induction false} CreatedHomeIsReadBack(s: State, newId: Id, name: string, stamp: Timestamp, seconds: nat)
    requires IsNanoId(newId)
    requires HomeRoutes.CreateHome(s, newId, name, stamp, false).outcome.Ok?
    requires seconds < Redis.TTL
    ensures HomeRoutes.GetHome(Advance(HomeRoutes.CreateHome(s, newId, name, stamp, false).state, seconds), newId, true).outcome
         == Ok(Home(newId, stamp, name))
  {
    var h := Home(newId, stamp, name);
    RememberedWithinTtl(s.(store := s.store.(homes := s.store.homes[newId := h])), HomeKind, newId, HomeRow(h), seconds);
  }

  /** Read-your-writes for update: the renamed home is served within a TTL, whatever the database does. */
  lemma {:induction false} UpdatedHomeIsReadBack(s: State, id: Id, name: string, seconds: nat, findFails: bool)
    requires HomeRoutes.UpdateHome(s, id, name, false, false).outcome.Ok?
    requires seconds < Redis.TTL
    ensures HomeRoutes.GetHome(Advance(HomeRoutes.UpdateHome(s, id, name, false, false).state, seconds), id, findFails).outcome
         == Ok(s.store.homes[id].(name := name))
  {
    var h := s.store.homes[id].(name := name);
    RememberedWithinTtl(s.(store := SaveHome(s.store, h)), HomeKind, id, HomeRow(h), seconds);
  }

  /** After delete_home succeeds, get_home reports the home missing. */
  lemma DeletedHomeIsGone(s: State, id: Id)
    ensures HomeRoutes.GetHome(HomeRoutes.DeleteHome(s, id, false).state, id, false).outcome == BadRequest("Home not found")
  {
  }

  /** A created application is listed under its home straight away. */
  lemma {:induction false} CreatedApplicationIsListed(s: State, newId: Id, name: string, homeId: Id, stamp: Timestamp)
    requires IsNanoId(newId)
    requires ApplicationRoutes.CreateApplication(s, newId, name, homeId, stamp, false).outcome.Ok?
    ensures
      var r := ApplicationRoutes.CreateApplication(s, newId, name, homeId, stamp, false);
      HomeRoutes.GetHomeApplications(r.state, homeId, false).outcome.Ok? &&
      r.outcome.value in HomeRoutes.GetHomeApplications(r.state, homeId, false).outcome.value
  {
    var r := ApplicationRoutes.CreateApplication(s, newId, name, homeId, stamp, false);
    assert r.state.store.applications[newId] == r.outcome.value;
  }

  /**
   * Deleting a home removes its applications from the database by cascade
   * but deletes only the home's own cache key: an application cached under
   * that home is still served, and the cache is no longer coherent.
   */
  lemma {:induction false} CascadeLeavesStaleApplication(s: State, homeId: Id, appId: Id, findFails: bool)
    requires Inv(s) && Coherent(s)
    requires Cached(s, ApplicationKind, appId).Some?
    requires Cached(s, ApplicationKind, appId).value.application.homeId == homeId
    ensures
      var s' := HomeRoutes.DeleteHome(s, homeId, false).state;
      && appId !in s'.store.applications
      && ApplicationRoutes.GetApplication(s', appId, findFails).outcome == Ok(Cached(s, ApplicationKind, appId).value.application)
      && !Coherent(s')
  {
    var s' := HomeRoutes.DeleteHome(s, homeId, false).state;
    var app := Cached(s, ApplicationKind, appId).value.application;
    CoherentHitIsStoreRow(s, ApplicationKind, appId);
    assert s.store.applications[appId] == app;
    assert homeId in s.store.homes;
    DeleteHomeCascades(s.store, homeId);
    assert appId !in s'.store.applications;
    CachedAfterForget(s.(store := s'.store), HomeKind, homeId, ApplicationKind, appId);
    assert Cached(s', ApplicationKind, appId) == Some(ApplicationRow(app));
    assert !CoherentKind(s', ApplicationKind) by {
      assert Lookup(s'.store, ApplicationKind, appId) == None;
    }
  }

  /** One TTL later the stale application has expired and get_application reports it missing. */
  lemma {:induction false} StaleApplicationExpires(s: State, homeId: Id, appId: Id)
    requires Inv(s) && Coherent(s)
    requires Cached(s, ApplicationKind, appId).Some?
    requires Cached(s, ApplicationKind, appId).value.application.homeId == homeId
    ensures
      var s' := Advance(HomeRoutes.DeleteHome(s, homeId, false).state, Redis.TTL);
      ApplicationRoutes.GetApplication(s', appId, false).outcome == BadRequest("Application not found")
  {
    var s1 := HomeRoutes.DeleteHome(s, homeId, false).state;
    var s' := Advance(s1, Redis.TTL);
    CascadeLeavesStaleApplication(s, homeId, appId, false);
    assert Key(ApplicationKind, appId) in s.cache;
    CachedAfterForget(s.(store := s1.store), HomeKind, homeId, ApplicationKind, appId);
    assert s'.cache[Key(ApplicationKind, appId)] == s.cache[Key(ApplicationKind, appId)];
    assert Cached(s', ApplicationKind, appId) == None;
  }

  /**
   * The same holds one level down: deleting an application removes its
   * sensors by cascade, but a cached sensor under it is still served.
   */
  lemma {:induction false} CascadeLeavesStaleSensor(s: State, appId: Id, sensorId: Id, findFails: bool)
    requires Inv(s) && Coherent(s)
    requires Cached(s, SensorKind, sensorId).Some?
    requires Cached(s, SensorKind, sensorId).value.sensor.applicationId == appId
    ensures
      var s' := ApplicationRoutes.DeleteApplication(s, appId, false).state;
      && sensorId !in s'.store.sensors
      && SensorRoutes.GetSensor(s', sensorId, findFails).outcome == Ok(Cached(s, SensorKind, sensorId).value.sensor)
      && !Coherent(s')
  {
    var s' := ApplicationRoutes.DeleteApplication(s, appId, false).state;
    var sensor := Cached(s, SensorKind, sensorId).value.sensor;
    CoherentHitIsStoreRow(s, SensorKind, sensorId);
    assert s.store.sensors[sensorId] == sensor;
    assert appId in s.store.applications;
    DeleteApplicationCascades(s.store, appId);
    assert sensorId !in s'.store.sensors;
    CachedAfterForget(s.(store := s'.store), ApplicationKind, appId, SensorKind, sensorId);
    assert Cached(s', SensorKind, sensorId) == Some(SensorRow(sensor));
    assert !CoherentKind(s', SensorKind) by {
      assert Lookup(s'.store, SensorKind, sensorId) == None;
    }
  }
}
