/**
 * The relational store behind the routes (SeaORM over the tables of
 * src/entities/): one map per table keyed by primary key, foreign keys with
 * ON DELETE CASCADE, and the insert / update / delete statements the routes
 * issue. Whether a statement fails for a reason the model cannot see (a lost
 * connection, a timeout) is an explicit boolean supplied by the caller.
 */
module Db {
  import opened Base
  import opened Keys
  import opened Entities

  datatype Store = Store(
    homes: map<Id, Home>,
    applications: map<Id, Application>,
    sensors: map<Id, Sensor>,
    containers: map<Id, DataContainer>,
    readings: map<(Id, Id), SensorData>,
    subscribers: map<Id, Subscriber>)

  /** How a statement fails: `sql_err()` tells a foreign-key violation apart from everything else. */
  datatype DbError = ForeignKeyViolation | UniqueViolation | ConnectionError

  datatype DbResult<T> = DbOk(value: T) | DbErr(error: DbError)

  /** Every row is stored under its own primary key. */
  ghost predicate KeysMatch(st: Store)
  {
    && (forall i :: i in st.homes ==> st.homes[i].id == i)
    && (forall i :: i in st.applications ==> st.applications[i].id == i)
    && (forall i :: i in st.sensors ==> st.sensors[i].id == i)
    && (forall i :: i in st.containers ==> st.containers[i].id == i)
    && (forall k :: k in st.readings ==> st.readings[k].id == k.0 && st.readings[k].containerId == k.1)
    && (forall i :: i in st.subscribers ==> st.subscribers[i].id == i)
  }

  /** Every foreign key references an existing parent row. */
  ghost predicate Linked(st: Store)
  {
    && (forall i :: i in st.applications ==> st.applications[i].homeId in st.homes)
    && (forall i :: i in st.sensors ==> st.sensors[i].applicationId in st.applications)
    && (forall i :: i in st.containers ==> st.containers[i].sensorId in st.sensors)
    && (forall k :: k in st.readings ==> st.readings[k].containerId in st.containers)
    && (forall i :: i in st.subscribers ==> st.subscribers[i].containerId in st.containers)
  }

  /** What the database itself guarantees: primary keys and referential integrity. */
  ghost predicate Wf(st: Store)
  {
    KeysMatch(st) && Linked(st)
  }

  /** The empty database is well formed. */
  function Empty(): (st: Store)
    ensures Wf(st)
  {
    Store(map[], map[], map[], map[], map[], map[])
  }

  /** find_by_id on a cached table, as a row of that kind. */
  function Lookup(st: Store, kind: Kind, id: Id): (r: Option<Row>)
    ensures r.Some? ==> KindOf(r.value) == kind
  {
    match kind
    case HomeKind => if id in st.homes then Some(HomeRow(st.homes[id])) else None
    case ApplicationKind => if id in st.applications then Some(ApplicationRow(st.applications[id])) else None
    case SensorKind => if id in st.sensors then Some(SensorRow(st.sensors[id])) else None
    case DataContainerKind => if id in st.containers then Some(DataContainerRow(st.containers[id])) else None
    case SubscriberKind => if id in st.subscribers then Some(SubscriberRow(st.subscribers[id])) else None
  }

  // ---------------------------------------------------------------- inserts

  /** INSERT INTO home: only a duplicate primary key or a failing connection stops it. */
  function InsertHome(st: Store, h: Home, fails: bool): (r: DbResult<Store>)
    ensures r.DbOk? <==> !fails && h.id !in st.homes
    ensures r.DbOk? ==> r.value == st.(homes := st.homes[h.id := h])
    ensures r.DbErr? ==> r.error != ForeignKeyViolation
  {
    if fails then DbErr(ConnectionError)
    else if h.id in st.homes then DbErr(UniqueViolation)
    else DbOk(st.(homes := st.homes[h.id := h]))
  }

  /** INSERT INTO application: the foreign key must name an existing home. */
  function InsertApplication(st: Store, a: Application, fails: bool): (r: DbResult<Store>)
    ensures r.DbOk? <==> !fails && a.id !in st.applications && a.homeId in st.homes
    ensures r.DbOk? ==> r.value == st.(applications := st.applications[a.id := a])
    ensures r == DbErr(ForeignKeyViolation) <==> !fails && a.id !in st.applications && a.homeId !in st.homes
  {
    if fails then DbErr(ConnectionError)
    else if a.id in st.applications then DbErr(UniqueViolation)
    else if a.homeId !in st.homes then DbErr(ForeignKeyViolation)
    else DbOk(st.(applications := st.applications[a.id := a]))
  }

  /** INSERT INTO sensor: the foreign key must name an existing application. */
  function InsertSensor(st: Store, s: Sensor, fails: bool): (r: DbResult<Store>)
    ensures r.DbOk? <==> !fails && s.id !in st.sensors && s.applicationId in st.applications
    ensures r.DbOk? ==> r.value == st.(sensors := st.sensors[s.id := s])
    ensures r == DbErr(ForeignKeyViolation) <==> !fails && s.id !in st.sensors && s.applicationId !in st.applications
  {
    if fails then DbErr(ConnectionError)
    else if s.id in st.sensors then DbErr(UniqueViolation)
    else if s.applicationId !in st.applications then DbErr(ForeignKeyViolation)
    else DbOk(st.(sensors := st.sensors[s.id := s]))
  }

  /** INSERT INTO data_container: the foreign key must name an existing sensor. */
  function InsertContainer(st: Store, c: DataContainer, fails: bool): (r: DbResult<Store>)
    ensures r.DbOk? <==> !fails && c.id !in st.containers && c.sensorId in st.sensors
    ensures r.DbOk? ==> r.value == st.(containers := st.containers[c.id := c])
    ensures r == DbErr(ForeignKeyViolation) <==> !fails && c.id !in st.containers && c.sensorId !in st.sensors
  {
    if fails then DbErr(ConnectionError)
    else if c.id in st.containers then DbErr(UniqueViolation)
    else if c.sensorId !in st.sensors then DbErr(ForeignKeyViolation)
    else DbOk(st.(containers := st.containers[c.id := c]))
  }

  /** INSERT INTO sensor_data under the composite key (id, container_id). */
  function InsertReading(st: Store, d: SensorData, fails: bool): (r: DbResult<Store>)
    ensures r.DbOk? <==> !fails && (d.id, d.containerId) !in st.readings && d.containerId in st.containers
    ensures r.DbOk? ==> r.value == st.(readings := st.readings[(d.id, d.containerId) := d])
    ensures r == DbErr(ForeignKeyViolation) <==> !fails && (d.id, d.containerId) !in st.readings && d.containerId !in st.containers
  {
    if fails then DbErr(ConnectionError)
    else if (d.id, d.containerId) in st.readings then DbErr(UniqueViolation)
    else if d.containerId !in st.containers then DbErr(ForeignKeyViolation)
    else DbOk(st.(readings := st.readings[(d.id, d.containerId) := d]))
  }

  /** INSERT INTO subscribers: the foreign key must name an existing data container. */
  function InsertSubscriber(st: Store, s: Subscriber, fails: bool): (r: DbResult<Store>)
    ensures r.DbOk? <==> !fails && s.id !in st.subscribers && s.containerId in st.containers
    ensures r.DbOk? ==> r.value == st.(subscribers := st.subscribers[s.id := s])
    ensures r == DbErr(ForeignKeyViolation) <==> !fails && s.id !in st.subscribers && s.containerId !in st.containers
  {
    if fails then DbErr(ConnectionError)
    else if s.id in st.subscribers then DbErr(UniqueViolation)
    else if s.containerId !in st.containers then DbErr(ForeignKeyViolation)
    else DbOk(st.(subscribers := st.subscribers[s.id := s]))
  }

  /** A successful insert keeps the store well formed: the new row's parent exists and its key is fresh. */
  lemma {:induction false} InsertHomeKeepsWf(st: Store, h: Home, fails: bool)
    requires Wf(st) && InsertHome(st, h, fails).DbOk?
    ensures Wf(InsertHome(st, h, fails).value)
  {
    var r := InsertHome(st, h, fails).value;
    assert forall i :: i in r.applications ==> r.applications[i].homeId in r.homes;
  }

  lemma {:induction false} InsertApplicationKeepsWf(st: Store, a: Application, fails: bool)
    requires Wf(st) && InsertApplication(st, a, fails).DbOk?
    ensures Wf(InsertApplication(st, a, fails).value)
  {
    var r := InsertApplication(st, a, fails).value;
    assert forall i :: i in r.applications ==> r.applications[i].id == i && r.applications[i].homeId in r.homes;
    assert forall i :: i in r.sensors ==> r.sensors[i].applicationId in r.applications;
  }

  lemma {:induction false} InsertSensorKeepsWf(st: Store, x: Sensor, fails: bool)
    requires Wf(st) && InsertSensor(st, x, fails).DbOk?
    ensures Wf(InsertSensor(st, x, fails).value)
  {
    var r := InsertSensor(st, x, fails).value;
    assert forall i :: i in r.sensors ==> r.sensors[i].id == i && r.sensors[i].applicationId in r.applications;
    assert forall i :: i in r.containers ==> r.containers[i].sensorId in r.sensors;
  }

  lemma {:induction false} InsertContainerKeepsWf(st: Store, c: DataContainer, fails: bool)
    requires Wf(st) && InsertContainer(st, c, fails).DbOk?
    ensures Wf(InsertContainer(st, c, fails).value)
  {
    var r := InsertContainer(st, c, fails).value;
    assert forall i :: i in r.containers ==> r.containers[i].id == i && r.containers[i].sensorId in r.sensors;
    assert forall k :: k in r.readings ==> r.readings[k].containerId in r.containers;
    assert forall i :: i in r.subscribers ==> r.subscribers[i].containerId in r.containers;
  }

  lemma {:induction false} InsertReadingKeepsWf(st: Store, d: SensorData, fails: bool)
    requires Wf(st) && InsertReading(st, d, fails).DbOk?
    ensures Wf(InsertReading(st, d, fails).value)
  {
    var r := InsertReading(st, d, fails).value;
    assert forall k :: k in r.readings ==> r.readings[k].containerId in r.containers;
  }

  lemma {:induction false} InsertSubscriberKeepsWf(st: Store, b: Subscriber, fails: bool)
    requires Wf(st) && InsertSubscriber(st, b, fails).DbOk?
    ensures Wf(InsertSubscriber(st, b, fails).value)
  {
    var r := InsertSubscriber(st, b, fails).value;
    assert forall i :: i in r.subscribers ==> r.subscribers[i].id == i && r.subscribers[i].containerId in r.containers;
  }

  // ---------------------------------------------------------------- updates

  /**
   * Save of the whole active model of a home, as an upsert under h.id. The
   * routes only call it on a row find_by_id just found, where it is an UPDATE.
   */
  function SaveHome(st: Store, h: Home): (r: Store)
    ensures Lookup(r, HomeKind, h.id) == Some(HomeRow(h))
    ensures r.homes.Keys == st.homes.Keys + {h.id}
    ensures forall i :: i in st.homes && i != h.id ==> r.homes[i] == st.homes[i]
    ensures r == st.(homes := r.homes)
  {
    st.(homes := st.homes[h.id := h])
  }

  /** Upsert of an application under a.id; only called on a row just found. */
  function SaveApplication(st: Store, a: Application): (r: Store)
    ensures Lookup(r, ApplicationKind, a.id) == Some(ApplicationRow(a))
    ensures r.applications.Keys == st.applications.Keys + {a.id}
    ensures forall i :: i in st.applications && i != a.id ==> r.applications[i] == st.applications[i]
    ensures r == st.(applications := r.applications)
  {
    st.(applications := st.applications[a.id := a])
  }

  /** Upsert of a sensor under s.id; only called on a row just found. */
  function SaveSensor(st: Store, s: Sensor): (r: Store)
    ensures Lookup(r, SensorKind, s.id) == Some(SensorRow(s))
    ensures r.sensors.Keys == st.sensors.Keys + {s.id}
    ensures forall i :: i in st.sensors && i != s.id ==> r.sensors[i] == st.sensors[i]
    ensures r == st.(sensors := r.sensors)
  {
    st.(sensors := st.sensors[s.id := s])
  }

  /** Upsert of a subscriber under s.id; only called on a row just found. */
  function SaveSubscriber(st: Store, s: Subscriber): (r: Store)
    ensures Lookup(r, SubscriberKind, s.id) == Some(SubscriberRow(s))
    ensures r.subscribers.Keys == st.subscribers.Keys + {s.id}
    ensures forall i :: i in st.subscribers && i != s.id ==> r.subscribers[i] == st.subscribers[i]
    ensures r == st.(subscribers := r.subscribers)
  {
    st.(subscribers := st.subscribers[s.id := s])
  }

  // ---------------------------------------------------------------- queries

  /** SELECT * FROM application WHERE home_id = homeId. */
  function ApplicationsOf(st: Store, homeId: Id): (r: set<Application>)
    ensures forall a :: a in r <==> a in st.applications.Values && a.homeId == homeId
  {
    set a | a in st.applications.Values && a.homeId == homeId
  }

  /** SELECT * FROM sensor WHERE application_id = applicationId. */
  function SensorsOf(st: Store, applicationId: Id): (r: set<Sensor>)
    ensures forall x :: x in r <==> x in st.sensors.Values && x.applicationId == applicationId
  {
    set x | x in st.sensors.Values && x.applicationId == applicationId
  }

  /** SELECT * FROM data_container WHERE sensor_id = sensorId. */
  function ContainersOf(st: Store, sensorId: Id): (r: set<DataContainer>)
    ensures forall c :: c in r <==> c in st.containers.Values && c.sensorId == sensorId
  {
    set c | c in st.containers.Values && c.sensorId == sensorId
  }

  /** SELECT * FROM sensor_data WHERE container_id = containerId. */
  function ReadingsOf(st: Store, containerId: Id): (r: set<SensorData>)
    ensures forall d :: d in r <==> d in st.readings.Values && d.containerId == containerId
  {
    set d | d in st.readings.Values && d.containerId == containerId
  }

  /** SELECT * FROM subscribers WHERE container_id = containerId. */
  function SubscribersOf(st: Store, containerId: Id): (r: set<Subscriber>)
    ensures forall x :: x in r <==> x in st.subscribers.Values && x.containerId == containerId
  {
    set x | x in st.subscribers.Values && x.containerId == containerId
  }

  // --------------------------------------------------------------- cascades

  /** DELETE FROM data_container WHERE id IN gone, cascading to readings and subscribers. */
  function RemoveContainers(st: Store, gone: set<Id>): (r: Store)
    ensures r.homes == st.homes && r.applications == st.applications && r.sensors == st.sensors
    ensures r.containers == st.containers - gone
  {
    st.(containers := st.containers - gone,
        readings := map k | k in st.readings && st.readings[k].containerId !in gone :: st.readings[k],
        subscribers := map i | i in st.subscribers && st.subscribers[i].containerId !in gone :: st.subscribers[i])
  }

  /** DELETE FROM sensor WHERE id IN gone, cascading to their data containers. */
  function RemoveSensors(st: Store, gone: set<Id>): (r: Store)
    ensures r.homes == st.homes && r.applications == st.applications
    ensures r.sensors == st.sensors - gone
  {
    RemoveContainers(st.(sensors := st.sensors - gone),
                     set i | i in st.containers && st.containers[i].sensorId in gone)
  }

  /** DELETE FROM application WHERE id IN gone, cascading to their sensors. */
  function RemoveApplications(st: Store, gone: set<Id>): (r: Store)
    ensures r.homes == st.homes
    ensures r.applications == st.applications - gone
  {
    RemoveSensors(st.(applications := st.applications - gone),
                  set i | i in st.sensors && st.sensors[i].applicationId in gone)
  }

  /** DELETE FROM home WHERE id IN gone, cascading to their applications. */
  function RemoveHomes(st: Store, gone: set<Id>): (r: Store)
    ensures r.homes == st.homes - gone
  {
    RemoveApplications(st.(homes := st.homes - gone),
                       set i | i in st.applications && st.applications[i].homeId in gone)
  }

  /** `m'` keeps some of the entries of `m`, unchanged. */
  ghost predicate SubMap<K, V>(m': map<K, V>, m: map<K, V>)
  {
    forall k :: k in m' ==> k in m && m'[k] == m[k]
  }

  /** Below `st'.containers`, a row survives exactly when its parent survives. */
  ghost predicate ReadingsFollow(st: Store, st': Store)
  {
    && SubMap(st'.readings, st.readings)
    && (forall k :: k in st.readings ==> (k in st'.readings <==> st.readings[k].containerId in st'.containers))
    && SubMap(st'.subscribers, st.subscribers)
    && (forall i :: i in st.subscribers ==> (i in st'.subscribers <==> st.subscribers[i].containerId in st'.containers))
  }

  /** Below `st'.sensors`, a row survives exactly when its parent survives. */
  ghost predicate ContainersFollow(st: Store, st': Store)
  {
    && SubMap(st'.containers, st.containers)
    && (forall i :: i in st.containers ==> (i in st'.containers <==> st.containers[i].sensorId in st'.sensors))
    && ReadingsFollow(st, st')
  }

  /** Below `st'.applications`, a row survives exactly when its parent survives. */
  ghost predicate SensorsFollow(st: Store, st': Store)
  {
    && SubMap(st'.sensors, st.sensors)
    && (forall i :: i in st.sensors ==> (i in st'.sensors <==> st.sensors[i].applicationId in st'.applications))
    && ContainersFollow(st, st')
  }

  /** Below `st'.homes`, a row survives exactly when its parent survives. */
  ghost predicate ApplicationsFollow(st: Store, st': Store)
  {
    && SubMap(st'.applications, st.applications)
    && (forall i :: i in st.applications ==> (i in st'.applications <==> st.applications[i].homeId in st'.homes))
    && SensorsFollow(st, st')
  }

  lemma {:induction false} RemoveContainersFollow(st: Store, gone: set<Id>)
    requires forall k :: k in st.readings ==> st.readings[k].containerId in st.containers
    requires forall i :: i in st.subscribers ==> st.subscribers[i].containerId in st.containers
    ensures ReadingsFollow(st, RemoveContainers(st, gone))
  {
  }

  lemma {:induction false} RemoveSensorsFollow(st: Store, gone: set<Id>)
    requires forall i :: i in st.containers ==> st.containers[i].sensorId in st.sensors
    requires forall k :: k in st.readings ==> st.readings[k].containerId in st.containers
    requires forall i :: i in st.subscribers ==> st.subscribers[i].containerId in st.containers
    ensures ContainersFollow(st, RemoveSensors(st, gone))
  {
    var st1 := st.(sensors := st.sensors - gone);
    RemoveContainersFollow(st1, set i | i in st.containers && st.containers[i].sensorId in gone);
  }

  lemma {:induction false} RemoveApplicationsFollow(st: Store, gone: set<Id>)
    requires forall i :: i in st.sensors ==> st.sensors[i].applicationId in st.applications
    requires forall i :: i in st.containers ==> st.containers[i].sensorId in st.sensors
    requires forall k :: k in st.readings ==> st.readings[k].containerId in st.containers
    requires forall i :: i in st.subscribers ==> st.subscribers[i].containerId in st.containers
    ensures SensorsFollow(st, RemoveApplications(st, gone))
  {
    var st1 := st.(applications := st.applications - gone);
    RemoveSensorsFollow(st1, set i | i in st.sensors && st.sensors[i].applicationId in gone);
  }

  lemma {:induction false} RemoveHomesFollow(st: Store, gone: set<Id>)
    requires Linked(st)
    ensures ApplicationsFollow(st, RemoveHomes(st, gone))
  {
    var st1 := st.(homes := st.homes - gone);
    RemoveApplicationsFollow(st1, set i | i in st.applications && st.applications[i].homeId in gone);
  }

  /**
   * A store obtained from a well-formed one by dropping rows so that every
   * row below the applications survives exactly when its parent does is
   * itself well formed.
   */
  lemma {:induction false} FollowerWf(st: Store, r: Store)
    requires Wf(st)
    requires SubMap(r.homes, st.homes) && SubMap(r.applications, st.applications)
    requires forall i :: i in r.applications ==> r.applications[i].homeId in r.homes
    requires SensorsFollow(st, r)
    ensures Wf(r)
  {
  }

  /** delete_by_id on `home`: removes the home and nothing else at its level; a missing id deletes nothing. */
  function DeleteHomeById(st: Store, id: Id): (r: Store)
    ensures r.homes == st.homes - {id}
  {
    RemoveHomes(st, {id} * st.homes.Keys)
  }

  /** delete_by_id on `application`. */
  function DeleteApplicationById(st: Store, id: Id): (r: Store)
    ensures r.homes == st.homes
    ensures r.applications == st.applications - {id}
  {
    RemoveApplications(st, {id} * st.applications.Keys)
  }

  /** delete_by_id on `sensor`. */
  function DeleteSensorById(st: Store, id: Id): (r: Store)
    ensures r.homes == st.homes && r.applications == st.applications
    ensures r.sensors == st.sensors - {id}
  {
    RemoveSensors(st, {id} * st.sensors.Keys)
  }

  /** delete_by_id on `data_container`. */
  function DeleteContainerById(st: Store, id: Id): (r: Store)
    ensures r.homes == st.homes && r.applications == st.applications && r.sensors == st.sensors
    ensures r.containers == st.containers - {id}
  {
    RemoveContainers(st, {id} * st.containers.Keys)
  }

  /**
   * Deleting a home cascades (src/entities/application.rs:24 and the
   * relations below it): every application, sensor, data container, reading
   * and subscriber survives exactly when its parent survives, and the store
   * stays referentially intact.
   */
  lemma {:induction false} DeleteHomeCascades(st: Store, id: Id)
    requires Wf(st)
    ensures ApplicationsFollow(st, DeleteHomeById(st, id))
    ensures Wf(DeleteHomeById(st, id))
  {
    var r := DeleteHomeById(st, id);
    RemoveHomesFollow(st, {id} * st.homes.Keys);
    FollowerWf(st, r);
  }

  /** Deleting an application cascades to its sensors and everything below them. */
  lemma {:induction false} DeleteApplicationCascades(st: Store, id: Id)
    requires Wf(st)
    ensures SensorsFollow(st, DeleteApplicationById(st, id))
    ensures Wf(DeleteApplicationById(st, id))
  {
    var r := DeleteApplicationById(st, id);
    RemoveApplicationsFollow(st, {id} * st.applications.Keys);
    FollowerWf(st, r);
  }

  /** Deleting a sensor cascades to its data containers and everything below them. */
  lemma {:induction false} DeleteSensorCascades(st: Store, id: Id)
    requires Wf(st)
    ensures ContainersFollow(st, DeleteSensorById(st, id))
    ensures Wf(DeleteSensorById(st, id))
  {
    var r := DeleteSensorById(st, id);
    RemoveSensorsFollow(st, {id} * st.sensors.Keys);
  }

  /** Deleting a data container cascades to its readings and subscribers. */
  lemma {:induction false} DeleteContainerCascades(st: Store, id: Id)
    requires Wf(st)
    ensures ReadingsFollow(st, DeleteContainerById(st, id))
    ensures Wf(DeleteContainerById(st, id))
  {
    var r := DeleteContainerById(st, id);
    RemoveContainersFollow(st, {id} * st.containers.Keys);
  }
}
