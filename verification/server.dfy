/**
 * The server as a whole (src/main.rs mounts every route module on one
 * application state): a request is one call to one handler, or the clock
 * moving on, and a trace is a sequence of requests handled in order.
 */
module Server {
  import opened Base
  import Redis
  import opened Entities
  import Db
  import opened Accessor
  import HomeRoutes
  import ApplicationRoutes
  import SensorRoutes
  import DataContainerRoutes
  import SubscriberRoutes
  import SensorDataRoutes

  datatype HomeRequest =
    | HomeCreate(newId: Id, name: string, stamp: Timestamp, fails: bool)
    | HomeList(fails: bool)
    | HomeGet(id: Id, fails: bool)
    | HomeApplications(id: Id, fails: bool)
    | HomeUpdate(id: Id, name: string, findFails: bool, updateFails: bool)
    | HomeDelete(id: Id, fails: bool)

  datatype ApplicationRequest =
    | ApplicationCreate(newId: Id, name: string, homeId: Id, stamp: Timestamp, fails: bool)
    | ApplicationGet(id: Id, fails: bool)
    | ApplicationSensors(id: Id, fails: bool)
    | ApplicationUpdate(id: Id, name: string, findFails: bool, updateFails: bool)
    | ApplicationDelete(id: Id, fails: bool)

  datatype SensorRequest =
    | SensorCreate(newId: Id, name: string, applicationId: Id, stamp: Timestamp, fails: bool)
    | SensorGet(id: Id, fails: bool)
    | SensorContainers(id: Id, fails: bool)
    | SensorUpdate(id: Id, name: string, findFails: bool, updateFails: bool)
    | SensorDelete(id: Id, fails: bool)

  datatype ContainerRequest =
    | ContainerCreate(newId: Id, sensorId: Id, stamp: Timestamp, fails: bool)
    | ContainerGet(id: Id, fails: bool)
    | ContainerReadings(id: Id, fails: bool)
    | ContainerSubscribers(id: Id, fails: bool)
    | ContainerDelete(id: Id, fails: bool)

  datatype SubscriberRequest =
    | SubscriberCreate(newId: Id, containerId: Id, url: string, stamp: Timestamp, fails: bool)
    | SubscriberGet(id: Id, fails: bool)
    | SubscriberUpdate(id: Id, url: string, findFails: bool, updateFails: bool)
    | SubscriberDelete(id: Id, fails: bool)

  datatype ReadingRequest =
    | ReadingCreate(newId: Id, containerId: Id, data: JsonValue, stamp: Timestamp, fails: bool)
    | ReadingGet(id: Id, containerId: Id, fails: bool)
    | ReadingDelete(id: Id, containerId: Id, fails: bool)

  datatype Request =
    | HomeRoute(home: HomeRequest)
    | ApplicationRoute(application: ApplicationRequest)
    | SensorRoute(sensor: SensorRequest)
    | ContainerRoute(container: ContainerRequest)
    | SubscriberRoute(subscriber: SubscriberRequest)
    | ReadingRoute(reading: ReadingRequest)
    | Tick(seconds: nat)

  /** Every create request carries a ten-character id, as nanoid!(10) produces. */
  predicate ValidRequest(req: Request)
  {
    match req
    case HomeRoute(HomeCreate(newId, _, _, _)) => IsNanoId(newId)
    case ApplicationRoute(ApplicationCreate(newId, _, _, _, _)) => IsNanoId(newId)
    case SensorRoute(SensorCreate(newId, _, _, _, _)) => IsNanoId(newId)
    case ContainerRoute(ContainerCreate(newId, _, _, _)) => IsNanoId(newId)
    case SubscriberRoute(SubscriberCreate(newId, _, _, _, _)) => IsNanoId(newId)
    case ReadingRoute(ReadingCreate(newId, _, _, _, _)) => IsNanoId(newId)
    case _ => true
  }

  /** The deletes whose store-side cascade leaves child cache entries behind. */
  predicate Cascades(req: Request)
  {
    match req
    case HomeRoute(HomeDelete(_, _)) => true
    case ApplicationRoute(ApplicationDelete(_, _)) => true
    case SensorRoute(SensorDelete(_, _)) => true
    case ContainerRoute(ContainerDelete(_, _)) => true
    case _ => false
  }

  function HandleHome(s: State, req: HomeRequest): (r: State)
    requires req.HomeCreate? ==> IsNanoId(req.newId)
    ensures r.now == s.now
  {
    match req
    case HomeCreate(newId, name, stamp, fails) => HomeRoutes.CreateHome(s, newId, name, stamp, fails).state
    case HomeList(fails) => HomeRoutes.GetHomes(s, fails).state
    case HomeGet(id, fails) => HomeRoutes.GetHome(s, id, fails).state
    case HomeApplications(id, fails) => HomeRoutes.GetHomeApplications(s, id, fails).state
    case HomeUpdate(id, name, findFails, updateFails) => HomeRoutes.UpdateHome(s, id, name, findFails, updateFails).state
    case HomeDelete(id, fails) => HomeRoutes.DeleteHome(s, id, fails).state
  }

  function HandleApplication(s: State, req: ApplicationRequest): (r: State)
    requires req.ApplicationCreate? ==> IsNanoId(req.newId)
    ensures r.now == s.now
  {
    match req
    case ApplicationCreate(newId, name, homeId, stamp, fails) =>
      ApplicationRoutes.CreateApplication(s, newId, name, homeId, stamp, fails).state
    case ApplicationGet(id, fails) => ApplicationRoutes.GetApplication(s, id, fails).state
    case ApplicationSensors(id, fails) => ApplicationRoutes.GetApplicationSensors(s, id, fails).state
    case ApplicationUpdate(id, name, findFails, updateFails) =>
      ApplicationRoutes.UpdateApplication(s, id, name, findFails, updateFails).state
    case ApplicationDelete(id, fails) => ApplicationRoutes.DeleteApplication(s, id, fails).state
  }

  function HandleSensor(s: State, req: SensorRequest): (r: State)
    requires req.SensorCreate? ==> IsNanoId(req.newId)
    ensures r.now == s.now
  {
    match req
    case SensorCreate(newId, name, applicationId, stamp, fails) =>
      SensorRoutes.CreateSensor(s, newId, name, applicationId, stamp, fails).state
    case SensorGet(id, fails) => SensorRoutes.GetSensor(s, id, fails).state
    case SensorContainers(id, fails) => SensorRoutes.GetSensorContainers(s, id, fails).state
    case SensorUpdate(id, name, findFails, updateFails) => SensorRoutes.UpdateSensor(s, id, name, findFails, updateFails).state
    case SensorDelete(id, fails) => SensorRoutes.DeleteSensor(s, id, fails).state
  }

  function HandleContainer(s: State, req: ContainerRequest): (r: State)
    requires req.ContainerCreate? ==> IsNanoId(req.newId)
    ensures r.now == s.now
  {
    match req
    case ContainerCreate(newId, sensorId, stamp, fails) =>
      DataContainerRoutes.CreateDataContainer(s, newId, sensorId, stamp, fails).state
    case ContainerGet(id, fails) => DataContainerRoutes.GetDataContainer(s, id, fails).state
    case ContainerReadings(id, fails) => DataContainerRoutes.GetContainerReadings(s, id, fails).state
    case ContainerSubscribers(id, fails) => DataContainerRoutes.GetContainerSubscribers(s, id, fails).state
    case ContainerDelete(id, fails) => DataContainerRoutes.DeleteDataContainer(s, id, fails).state
  }

  function HandleSubscriber(s: State, req: SubscriberRequest): (r: State)
    requires req.SubscriberCreate? ==> IsNanoId(req.newId)
    ensures r.now == s.now
  {
    match req
    case SubscriberCreate(newId, containerId, url, stamp, fails) =>
      SubscriberRoutes.CreateSubscriber(s, newId, containerId, url, stamp, fails).state
    case SubscriberGet(id, fails) => SubscriberRoutes.GetSubscriber(s, id, fails).state
    case SubscriberUpdate(id, url, findFails, updateFails) =>
      SubscriberRoutes.UpdateSubscriber(s, id, url, findFails, updateFails).state
    case SubscriberDelete(id, fails) => SubscriberRoutes.DeleteSubscriber(s, id, fails).state
  }

  function HandleReading(s: State, req: ReadingRequest): (r: State)
    requires req.ReadingCreate? ==> IsNanoId(req.newId)
    ensures r.now == s.now && r.cache == s.cache
  {
    match req
    case ReadingCreate(newId, containerId, data, stamp, fails) =>
      SensorDataRoutes.CreateSensorData(s, newId, containerId, data, stamp, fails).state
    case ReadingGet(id, containerId, fails) => SensorDataRoutes.GetSensorData(s, id, containerId, fails).state
    case ReadingDelete(id, containerId, fails) => SensorDataRoutes.DeleteSensorData(s, id, containerId, fails).state
  }

  /** The state after one request: a handler call, or time passing. */
  function Handle(s: State, req: Request): (r: State)
    requires ValidRequest(req)
    ensures req.Tick? ==> r == Advance(s, req.seconds)
    ensures !req.Tick? ==> r.now == s.now
  {
    match req
    case HomeRoute(q) => HandleHome(s, q)
    case ApplicationRoute(q) => HandleApplication(s, q)
    case SensorRoute(q) => HandleSensor(s, q)
    case ContainerRoute(q) => HandleContainer(s, q)
    case SubscriberRoute(q) => HandleSubscriber(s, q)
    case ReadingRoute(q) => HandleReading(s, q)
    case Tick(seconds) => Advance(s, seconds)
  }

  /** The state after handling every request of the trace in order. */
  function Run(s: State, trace: seq<Request>): (r: State)
    requires forall i :: 0 <= i < |trace| ==> ValidRequest(trace[i])
    ensures r.now >= s.now
    decreases |trace|
  {
    if |trace| == 0 then s else Run(Handle(s, trace[0]), trace[1..])
  }

  /**
   * Deadline bookkeeping for HandleKeeps and RunKeeps: the staleness deadline
   * after one request. Cascading deletes push it to one TTL from now.
   */
  function Horizon(s: State, req: Request, deadline: int): (h: int)
    ensures h >= deadline
    ensures !Cascades(req) ==> h == deadline
    ensures h <= Max(deadline, s.now + Redis.TTL)
  {
    if Cascades(req) then Max(deadline, s.now + Redis.TTL) else deadline
  }

  /** The staleness deadline after a whole trace. */
  function RunHorizon(s: State, trace: seq<Request>, deadline: int): (h: int)
    requires forall i :: 0 <= i < |trace| ==> ValidRequest(trace[i])
    ensures h >= deadline
    decreases |trace|
  {
    if |trace| == 0 then deadline
    else RunHorizon(Handle(s, trace[0]), trace[1..], Horizon(s, trace[0], deadline))
  }

  // ------------------------------------------------------------ one request

  lemma {:induction false} HandleHomeKeeps(s: State, req: HomeRequest, deadline: int)
    requires req.HomeCreate? ==> IsNanoId(req.newId)
    requires Inv(s) && StaleUntil(s, deadline)
    ensures Inv(HandleHome(s, req))
    ensures StaleUntil(HandleHome(s, req), Horizon(s, HomeRoute(req), deadline))
  {
    match req
    case HomeCreate(newId, name, stamp, fails) => HomeRoutes.CreateHomeKeeps(s, newId, name, stamp, fails, deadline);
    case HomeList(_) =>
    case HomeGet(id, fails) => HomeRoutes.GetHomeKeeps(s, id, fails, deadline);
    case HomeApplications(_, _) =>
    case HomeUpdate(id, name, findFails, updateFails) => HomeRoutes.UpdateHomeKeeps(s, id, name, findFails, updateFails, deadline);
    case HomeDelete(id, fails) =>
      assert Cascades(HomeRoute(req));
      HomeRoutes.DeleteHomeKeeps(s, id, fails, deadline);
  }

  lemma {:induction false} HandleApplicationKeeps(s: State, req: ApplicationRequest, deadline: int)
    requires req.ApplicationCreate? ==> IsNanoId(req.newId)
    requires Inv(s) && StaleUntil(s, deadline)
    ensures Inv(HandleApplication(s, req))
    ensures StaleUntil(HandleApplication(s, req), Horizon(s, ApplicationRoute(req), deadline))
  {
    match req
    case ApplicationCreate(newId, name, homeId, stamp, fails) =>
      ApplicationRoutes.CreateApplicationKeeps(s, newId, name, homeId, stamp, fails, deadline);
    case ApplicationGet(id, fails) => ApplicationRoutes.GetApplicationKeeps(s, id, fails, deadline);
    case ApplicationSensors(_, _) =>
    case ApplicationUpdate(id, name, findFails, updateFails) =>
      ApplicationRoutes.UpdateApplicationKeeps(s, id, name, findFails, updateFails, deadline);
    case ApplicationDelete(id, fails) =>
      assert Cascades(ApplicationRoute(req));
      ApplicationRoutes.DeleteApplicationKeeps(s, id, fails, deadline);
  }

  lemma {:induction false} HandleSensorKeeps(s: State, req: SensorRequest, deadline: int)
    requires req.SensorCreate? ==> IsNanoId(req.newId)
    requires Inv(s) && StaleUntil(s, deadline)
    ensures Inv(HandleSensor(s, req))
    ensures StaleUntil(HandleSensor(s, req), Horizon(s, SensorRoute(req), deadline))
  {
    match req
    case SensorCreate(newId, name, applicationId, stamp, fails) =>
      SensorRoutes.CreateSensorKeeps(s, newId, name, applicationId, stamp, fails, deadline);
    case SensorGet(id, fails) => SensorRoutes.GetSensorKeeps(s, id, fails, deadline);
    case SensorContainers(_, _) =>
    case SensorUpdate(id, name, findFails, updateFails) =>
      SensorRoutes.UpdateSensorKeeps(s, id, name, findFails, updateFails, deadline);
    case SensorDelete(id, fails) =>
      assert Cascades(SensorRoute(req));
      SensorRoutes.DeleteSensorKeeps(s, id, fails, deadline);
  }

  lemma {:induction false} HandleContainerKeeps(s: State, req: ContainerRequest, deadline: int)
    requires req.ContainerCreate? ==> IsNanoId(req.newId)
    requires Inv(s) && StaleUntil(s, deadline)
    ensures Inv(HandleContainer(s, req))
    ensures StaleUntil(HandleContainer(s, req), Horizon(s, ContainerRoute(req), deadline))
  {
    match req
    case ContainerCreate(newId, sensorId, stamp, fails) =>
      DataContainerRoutes.CreateDataContainerKeeps(s, newId, sensorId, stamp, fails, deadline);
    case ContainerGet(id, fails) => DataContainerRoutes.GetDataContainerKeeps(s, id, fails, deadline);
    case ContainerReadings(_, _) =>
    case ContainerSubscribers(_, _) =>
    case ContainerDelete(id, fails) =>
      assert Cascades(ContainerRoute(req));
      DataContainerRoutes.DeleteDataContainerKeeps(s, id, fails, deadline);
  }

  lemma {:induction false} HandleSubscriberKeeps(s: State, req: SubscriberRequest, deadline: int)
    requires req.SubscriberCreate? ==> IsNanoId(req.newId)
    requires Inv(s) && StaleUntil(s, deadline)
    ensures Inv(HandleSubscriber(s, req))
    ensures StaleUntil(HandleSubscriber(s, req), deadline)
  {
    match req
    case SubscriberCreate(newId, containerId, url, stamp, fails) =>
      SubscriberRoutes.CreateSubscriberKeeps(s, newId, containerId, url, stamp, fails, deadline);
    case SubscriberGet(id, fails) => SubscriberRoutes.GetSubscriberKeeps(s, id, fails, deadline);
    case SubscriberUpdate(id, url, findFails, updateFails) =>
      SubscriberRoutes.UpdateSubscriberKeeps(s, id, url, findFails, updateFails, deadline);
    case SubscriberDelete(id, fails) => SubscriberRoutes.DeleteSubscriberKeeps(s, id, fails, deadline);
  }

  lemma {:induction false} HandleReadingKeeps(s: State, req: ReadingRequest, deadline: int)
    requires req.ReadingCreate? ==> IsNanoId(req.newId)
    requires Inv(s) && StaleUntil(s, deadline)
    ensures Inv(HandleReading(s, req))
    ensures StaleUntil(HandleReading(s, req), deadline)
  {
    match req
    case ReadingCreate(newId, containerId, data, stamp, fails) =>
      SensorDataRoutes.CreateSensorDataKeeps(s, newId, containerId, data, stamp, fails, deadline);
    case ReadingGet(_, _, _) =>
    case ReadingDelete(id, containerId, fails) => SensorDataRoutes.DeleteSensorDataKeeps(s, id, containerId, fails, deadline);
  }

  /**
   * Every request keeps the invariant; every request but a cascading delete
   * keeps the staleness deadline, and a cascading delete moves it to at
   * most one TTL from now.
   */
  lemma {:induction false} HandleKeeps(s: State, req: Request, deadline: int)
    requires ValidRequest(req)
    requires Inv(s) && StaleUntil(s, deadline)
    ensures Inv(Handle(s, req))
    ensures StaleUntil(Handle(s, req), Horizon(s, req, deadline))
  {
    match req
    case HomeRoute(q) => HandleHomeKeeps(s, q, deadline);
    case ApplicationRoute(q) => HandleApplicationKeeps(s, q, deadline);
    case SensorRoute(q) => HandleSensorKeeps(s, q, deadline);
    case ContainerRoute(q) => HandleContainerKeeps(s, q, deadline);
    case SubscriberRoute(q) => HandleSubscriberKeeps(s, q, deadline);
    case ReadingRoute(q) => HandleReadingKeeps(s, q, deadline);
    case Tick(seconds) => AdvanceKeeps(s, seconds, deadline);
  }

  // ------------------------------------------------------------ traces

  /** The invariant and the accumulated staleness deadline hold after any trace. */
  lemma {:induction false} RunKeeps(s: State, trace: seq<Request>, deadline: int)
    requires forall i :: 0 <= i < |trace| ==> ValidRequest(trace[i])
    requires Inv(s) && StaleUntil(s, deadline)
    ensures Inv(Run(s, trace))
    ensures StaleUntil(Run(s, trace), RunHorizon(s, trace, deadline))
    ensures RunHorizon(s, trace, deadline) <= Max(deadline, Run(s, trace).now + Redis.TTL)
    decreases |trace|
  {
    if |trace| > 0 {
      var s1 := Handle(s, trace[0]);
      HandleKeeps(s, trace[0], deadline);
      assert forall i :: 0 <= i < |trace[1..]| ==> ValidRequest(trace[1..][i]) by {
        forall i | 0 <= i < |trace[1..]| ensures ValidRequest(trace[1..][i]) {
          assert trace[1..][i] == trace[i + 1];
        }
      }
      RunKeeps(s1, trace[1..], Horizon(s, trace[0], deadline));
    }
  }

  /** Without cascading deletes the deadline never moves. */
  lemma {:induction false} RunHorizonWithoutCascades(s: State, trace: seq<Request>, deadline: int)
    requires forall i :: 0 <= i < |trace| ==> ValidRequest(trace[i]) && !Cascades(trace[i])
    ensures RunHorizon(s, trace, deadline) == deadline
    decreases |trace|
  {
    if |trace| > 0 {
      assert forall i :: 0 <= i < |trace[1..]| ==> ValidRequest(trace[1..][i]) && !Cascades(trace[1..][i]) by {
        forall i | 0 <= i < |trace[1..]|
          ensures ValidRequest(trace[1..][i]) && !Cascades(trace[1..][i])
        {
          assert trace[1..][i] == trace[i + 1];
        }
      }
      assert !Cascades(trace[0]);
      RunHorizonWithoutCascades(Handle(s, trace[0]), trace[1..], deadline);
    }
  }

  /** A freshly started server: empty database, empty cache. */
  lemma StartIsCoherent(now: int)
    ensures Inv(State(Db.Empty(), map[], now))
    ensures Coherent(State(Db.Empty(), map[], now))
  {
  }

  /** A coherent server stays coherent through any trace without cascading deletes. */
  lemma {:induction false} CoherentWithoutCascades(s: State, trace: seq<Request>)
    requires forall i :: 0 <= i < |trace| ==> ValidRequest(trace[i]) && !Cascades(trace[i])
    requires Inv(s) && Coherent(s)
    ensures Coherent(Run(s, trace))
  {
    forall k ensures StaleUntilKind(s, k, s.now) {
      CoherentIsStaleUntilNow(s, k);
    }
    RunKeeps(s, trace, s.now);
    RunHorizonWithoutCascades(s, trace, s.now);
    AdvanceKeeps(Run(s, trace), 0, s.now);
    assert Advance(Run(s, trace), 0) == Run(s, trace);
  }

  /**
   * Whatever trace a server in the invariant handles, coherent or not, one
   * quiet TTL afterwards every live cache entry agrees with the database
   * again: the invariant alone bounds every entry's life.
   */
  lemma {:induction false} QuietTtlRestoresCoherence(s: State, trace: seq<Request>)
    requires forall i :: 0 <= i < |trace| ==> ValidRequest(trace[i])
    requires Inv(s)
    ensures Coherent(Advance(Run(s, trace), Redis.TTL))
  {
    InvBoundsStaleness(s);
    RunKeeps(s, trace, s.now + Redis.TTL);
    var t := Run(s, trace);
    InvBoundsStaleness(t);
    AdvanceKeeps(t, Redis.TTL, t.now + Redis.TTL);
  }
}
