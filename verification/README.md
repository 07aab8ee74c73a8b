# M2MSystem cache-aside core, in Dafny

This project models the request handlers of M2MSystem, a small actix-web/SeaORM
service that stores a hierarchy of IoT resources:

    home → application → sensor → data container → { sensor readings, subscribers }

Every create, get-by-id, update and delete of the five cached kinds (home,
application, sensor, data container, subscriber) follows the cache-aside
pattern over Redis; listings and sensor readings read the database only:
- A create or update writes the database first. It then `SET`s the row's JSON
  under `<Prefix>_<id>` with a 30-second expiry.
- A get answers a live, decodable cache entry directly. Otherwise it reads the
  database and re-caches the row.
- A delete removes the row and then `DEL`s its own key.

Children go away through `ON DELETE CASCADE` in the database. Their cache keys
are never deleted.

The model is a set of pure transitions over one state: the database tables, the
Redis cache and an integer clock. Each handler returns its new state and its
HTTP answer: a JSON body, a 400 with its message, or a 500 with its message.
Messages are reproduced exactly, including their inconsistencies across
modules.

Modules:
- `Keys`: Redis key formation `route + "_" + id` and when it is injective.
- `Redis`: `GET` / `SET … EX 30` / `DEL`, with expiry.
- `Entities`: the rows and their JSON encoding.
- `Db`: tables, foreign keys, inserts, upserts, listings and cascading deletes.
- `Accessor`: the shared cache-aside steps and the coherence / bounded-staleness
  predicates.
- One module per route file:
  - `HomeRoutes`
  - `ApplicationRoutes`
  - `SensorRoutes`
  - `DataContainerRoutes`
  - `SubscriberRoutes`
  - `SensorDataRoutes`
- `Server`: requests and traces over all routes.
- `Scenarios`: multi-request consequences.

Failures of the database are inputs. Each handler takes one boolean per
database call that says whether that call fails. A failed call leaves the state
unchanged.

The central property is bounded staleness:
- `Accessor.StaleUntil(s, d)` says that every live cache entry that disagrees
  with the database expires by time `d`.
- Coherence is `StaleUntil(s, s.now)`.
- Every request other than the four cascading deletes keeps a coherent cache
  coherent.
- A cascading delete can leave a cached child that is no longer in the database.
  This staleness is bounded (`Server.RunKeeps`): after any trace the cache is
  stale until at most the later of the starting deadline and one TTL after the
  final clock, since each cascading delete moves the deadline to at most
  now + TTL (`Server.Horizon`).
- Because every entry is written with a 30-second expiry, the invariant alone
  bounds every entry's life: one quiet TTL restores coherence from any state
  (`Server.QuietTtlRestoresCoherence`).

`Server` has one request constructor for each route a module registers. Data
containers have no update route (src/routes/DataContainer.rs:172-177), and
readings have none either (src/routes/SensorData.rs:99-103). So neither has an
update request.

Where the code departs from what the service evidently intends, the model follows
the code:
- `get_sensor_data_container` answers a failed query with 400 "Query Failed"
  rather than a 500. The modelled `GetSensorContainers` does the same.
- No change notification is sent to subscribers. The routes only store
  notification URLs, so nothing is modelled.
- `src/entities/home.rs` derives no `Serialize`, and `src/entities/sensor.rs`
  derives no `Deserialize`, although the routes cache both as JSON. The model
  assumes every cached row round-trips through JSON, as the routes require.
- The data container timestamp column is named `create_at`, and the model keeps
  that name.

## Model

| member | source | states |
|---|---|---|
| Keys.RedisId | src/utils.rs:3-5 | The key is the route, one `_`, then the id: the length, the prefix, the separator position and the suffix. |
| Keys.RedisIdInjectiveInId | src/utils.rs:3-5 | Under one route, two ids give the same key exactly when they are equal. |
| Keys.RedisIdInjective | src/utils.rs:3-5 | When neither route contains `_`, equal keys mean equal routes and equal ids, and conversely. |
| Keys.PrefixWithSeparatorCollides | src/utils.rs:3-5 | Without that condition the format is ambiguous: `a_b`+`c` and `a`+`b_c` give the same key. |
| Keys.KeyInjective | src/routes/Home.rs:15 | With the five route prefixes, (kind, id) ↦ key is injective even though nanoid ids may contain `_`. |
| Keys.KindsNeverShareKeys | src/routes/Sensor.rs:18 | Entries of different entity kinds never overwrite each other. |
| Redis.Get | src/routes/Home.rs:86-90 | A GET yields a value exactly when the key is present and not yet expired. |
| Redis.SetEx | src/utils.rs:7-9 | After SET EX 30 the value is read back for the next 30 seconds and not after; no other key changes. |
| Redis.Del | src/routes/Home.rs:191 | After DEL the key is absent; no other key changes. |
| Redis.WritesKeepExpiryBounded | src/utils.rs:7-9 | Because every write sets a 30-second expiry, no entry ever expires later than 30 seconds from now. |
| Entities.Encode | src/routes/Home.rs:52 | Decoding a row's JSON as the row's kind gives the row back. |
| Entities.DecodeAcceptsOnlyEncodings | src/routes/Home.rs:87 | A cached string decodes as a kind only if it is the JSON of a row of that kind. |
| Entities.CorruptNeverDecodes | src/routes/Sensor.rs:95-97 | A value that is not a model's JSON never decodes, so the handler falls through to the database. |
| Db.InsertApplication | src/entities/application.rs:17-26 | The insert succeeds exactly when the call works, the id is new and the home exists; a missing home is a foreign-key violation. |
| Db.InsertSensor | src/entities/sensor.rs:17-26 | The insert succeeds exactly when the call works, the id is new and the application exists; otherwise it fails with the matching violation. |
| Db.InsertContainer | src/entities/data_container.rs:15-24 | The insert succeeds exactly when the call works, the id is new and the sensor exists; otherwise it fails with the matching violation. |
| Db.InsertHome | src/routes/Home.rs:37-43 | A home insert succeeds exactly when the call works and the id is new, and it adds that one row. It can never fail with a foreign-key violation, because a home has no parent. |
| Db.InsertReading | src/routes/SensorData.rs:39-56 | A reading insert under the pair (id, container id) succeeds exactly when the call works, the pair is new and the container exists. A missing container is a foreign-key violation. |
| Db.InsertSubscriber | src/routes/Subscriber.rs:53-77 | A subscriber insert succeeds exactly when the call works, the id is new and the container exists. A missing container is a foreign-key violation. |
| Db.SaveHome | src/routes/Home.rs:144-146 | Writing the active model back leaves the home under its id, keeps every other home, and changes no other table. It is an upsert, only reached on a row just found. |
| Db.SaveApplication | src/routes/Application.rs:143-147 | Writes the application back under its id, keeping every other row of every table. It is an upsert, only reached on a row just found. |
| Db.SaveSensor | src/routes/Sensor.rs:152-156 | Writes the sensor back under its id, keeping every other row of every table. It is an upsert, only reached on a row just found. |
| Db.SaveSubscriber | src/routes/Subscriber.rs:131-133 | Writes the subscriber back under its id, keeping every other row of every table. It is an upsert, only reached on a row just found. |
| Db.DeleteHomeById | src/routes/Home.rs:184 | delete_by_id removes exactly that home, or nothing if it is absent; the descendants are given by Db.DeleteHomeCascades. |
| Db.DeleteApplicationById | src/routes/Application.rs:181 | Removes exactly that application and keeps every home. |
| Db.DeleteSensorById | src/routes/Sensor.rs:194 | Removes exactly that sensor and keeps every home and application. |
| Db.DeleteContainerById | src/routes/DataContainer.rs:155 | Removes exactly that container and keeps every home, application and sensor. |
| Db.InsertHomeKeepsWf | src/entities/home.rs:7-13 | Inserting a home keeps every table keyed by its ids and every foreign key resolved. |
| Db.InsertApplicationKeepsWf | src/entities/application.rs:8-26 | Inserting an application keeps the database well-formed. |
| Db.InsertContainerKeepsWf | src/entities/data_container.rs:8-24 | Inserting a container keeps the database well-formed. |
| Db.DeleteHomeCascades | src/entities/application.rs:19-25 | After deleting a home, an application, sensor, container, reading or subscriber survives exactly when its parent survives; the result is well-formed. |
| Db.DeleteApplicationCascades | src/entities/sensor.rs:19-25 | After deleting an application, a sensor or anything below it survives exactly when its parent survives; the result is well-formed. |
| Db.DeleteSensorCascades | src/entities/data_container.rs:17-23 | After deleting a sensor, a container, reading or subscriber survives exactly when its parent survives; the result is well-formed. |
| Db.DeleteContainerCascades | src/entities/data_container.rs:25-28 | After deleting a container, a reading or subscriber survives exactly when its container survives; the result is well-formed. |
| Accessor.Cached | src/routes/Home.rs:86-90 | A cache hit is a live entry holding the JSON of a row of the requested kind. |
| Accessor.CachedIsLiveEncoding | src/routes/Home.rs:86-90 | Both directions: the GET is a hit with a given row exactly when its key is live and holds that row's JSON. |
| Accessor.Remember | src/routes/Home.rs:94-101 | SET EX 30 of the row's JSON under its kind's key: the row is then a hit, its entry expires at now + 30, the database is untouched, and no other key changes. |
| Accessor.Forget | src/routes/Home.rs:191 | DEL of the kind's key: the key is absent, the GET misses, the database is untouched, and no other key changes. |
| Accessor.CoherentIsStaleUntilNow | src/utils.rs:7-9 | The cache is coherent exactly when no disagreeing entry outlives the current time. |
| Accessor.RememberKeeps | src/routes/Home.rs:43-57 | Writing a row to the database and then caching that same row keeps every staleness bound. |
| Accessor.ForgetKeeps | src/routes/Home.rs:184-192 | Deleting a row and its key keeps the bound for every kind whose other rows the database kept. |
| Accessor.ExpiryBoundsStaleness | src/utils.rs:7-9 | Whatever the database does, any entry a delete leaves behind expires at most one TTL from now. |
| Accessor.InvBoundsStaleness | src/utils.rs:7-9 | Because every write carries a 30-second expiry, in any state satisfying the invariant every stale entry expires by now + 30. |
| Accessor.AdvanceKeeps | src/utils.rs:7-9 | Time passing keeps every bound, and the cache is coherent once the clock passes the deadline. |
| Accessor.CoherentHitIsStoreRow | src/routes/Home.rs:86-89 | Helper fact (one unfolding of coherence): over a coherent cache, a hit is the database's row. |
| HomeRoutes.CreateHome | src/routes/Home.rs:32-61 | On success the new home is in the table and cached under its id with a 30-second expiry (now + 30); any failure is 500 "Failed to create home" with nothing changed. |
| HomeRoutes.GetHomes | src/routes/Home.rs:63-72 | Returns exactly the homes in the table, or 500 "Failed to fetch homes". |
| HomeRoutes.GetHome | src/routes/Home.rs:74-110 | A hit is answered from the cache. Otherwise: the row (re-cached with a 30-second expiry), 400 "Home not found", or 500 "Error fetching home". Re-caching touches no other key. |
| HomeRoutes.GetHomeApplications | src/routes/Home.rs:112-131 | Returns exactly the home's applications when the home exists. Otherwise 400 "Home not found", or 500 "Query failed" when the query fails. |
| HomeRoutes.UpdateHome | src/routes/Home.rs:133-175 | Renames the stored home, keeps its id and timestamp, and caches it for 30 seconds. Errors: 400 "Home not found", 500 "Failed to fetch home" or "Failed to update home". |
| HomeRoutes.DeleteHome | src/routes/Home.rs:177-199 | Cascades the delete in the database and removes the home's key only, or 500 "Failed to delete home". |
| HomeRoutes.GetHomeHitIgnoresStore | src/routes/Home.rs:86-90 | On a hit the answer does not depend on the database or its failures. |
| HomeRoutes.GetHomeReturnsStoreRow | src/routes/Home.rs:74-110 | Over a coherent cache, every home returned is the stored row. |
| HomeRoutes.UpdateHomeIgnoresCache | src/routes/Home.rs:142-174 | update_home reads only the database, never the cache. |
| HomeRoutes.CreateHomeKeeps | src/routes/Home.rs:43-57 | create_home keeps the invariant and every staleness bound. |
| HomeRoutes.GetHomeKeeps | src/routes/Home.rs:92-103 | Re-caching the stored row keeps the invariant and every staleness bound. |
| HomeRoutes.UpdateHomeKeeps | src/routes/Home.rs:146-161 | update_home keeps the invariant and every staleness bound. |
| HomeRoutes.DeleteHomeKeeps | src/routes/Home.rs:184-192 | Cached homes stay within the bound. Entries for cascaded children may be stale, but for at most one TTL from now. |
| ApplicationRoutes.CreateApplication | src/routes/Application.rs:33-74 | On success the application is stored and cached for 30 seconds. A missing home gives 400 "Can't find home"; other failures give 500 "Query failed". |
| ApplicationRoutes.GetApplication | src/routes/Application.rs:76-112 | A hit is answered from the cache. Otherwise: the row (re-cached with a 30-second expiry), 400 "Application not found", or 500 "Failed to fetch application". Re-caching touches no other key. |
| ApplicationRoutes.GetApplicationSensors | src/routes/Application.rs:114-132 | Returns exactly the sensors whose application id matches, with no existence check, or 500 "Failed to fetch sensors". |
| ApplicationRoutes.UpdateApplication | src/routes/Application.rs:134-172 | Renames the stored application and caches it for 30 seconds. Every failure says "Failed to update application": 400 if absent, 500 otherwise. |
| ApplicationRoutes.DeleteApplication | src/routes/Application.rs:174-196 | Cascades in the database and removes only the application's key, or 500 "Failed to delete application". |
| ApplicationRoutes.GetApplicationHitIgnoresStore | src/routes/Application.rs:88-92 | On a hit the answer does not depend on the database. |
| ApplicationRoutes.GetApplicationReturnsStoreRow | src/routes/Application.rs:76-112 | Over a coherent cache, every application returned is the stored row. |
| ApplicationRoutes.UpdateApplicationIgnoresCache | src/routes/Application.rs:134-172 | update_application reads only the database. |
| ApplicationRoutes.UnknownApplicationHasNoSensors | src/routes/Application.rs:121-131 | With no existence check, an unknown application lists no sensors and gets no error, in a well-formed database. |
| ApplicationRoutes.CreateApplicationKeeps | src/routes/Application.rs:40-62 | add_application keeps the invariant and every staleness bound. |
| ApplicationRoutes.GetApplicationKeeps | src/routes/Application.rs:94-105 | Re-caching keeps the invariant and every staleness bound. |
| ApplicationRoutes.UpdateApplicationKeeps | src/routes/Application.rs:134-172 | update_application keeps the invariant and every staleness bound. |
| ApplicationRoutes.DeleteApplicationKeeps | src/routes/Application.rs:174-196 | Home and application entries keep their bound. Cascaded children are stale for at most one TTL. |
| SensorRoutes.CreateSensor | src/routes/Sensor.rs:36-80 | On success the sensor is stored and cached for 30 seconds. A missing application gives 400 "Can't find application"; other failures give 500 "Query failed". |
| SensorRoutes.GetSensor | src/routes/Sensor.rs:82-119 | A hit is answered from the cache. Otherwise: the row (re-cached with a 30-second expiry), 400 "Can't find sensor", or 500 "Query failed". Re-caching touches no other key. |
| SensorRoutes.GetSensorContainers | src/routes/Sensor.rs:121-141 | Returns exactly the sensor's containers when the sensor exists. Every failure is a 400, never a 500. |
| SensorRoutes.UpdateSensor | src/routes/Sensor.rs:143-185 | Renames the stored sensor and caches it for 30 seconds. Errors: 400 "Can't find sensor", 500 "Query failed" or "Failed to update sensor". |
| SensorRoutes.DeleteSensor | src/routes/Sensor.rs:187-209 | Cascades in the database and removes only the sensor's key, or 500 "Failed to delete sensor". |
| SensorRoutes.GetSensorHitIgnoresStore | src/routes/Sensor.rs:95-99 | On a hit the answer does not depend on the database. |
| SensorRoutes.GetSensorSkipsCorruptEntry | src/routes/Sensor.rs:95-119 | A cached value that does not decode is ignored, and the answer is the database's. |
| SensorRoutes.GetSensorReturnsStoreRow | src/routes/Sensor.rs:82-119 | Over a coherent cache, every sensor returned is the stored row. |
| SensorRoutes.UpdateSensorIgnoresCache | src/routes/Sensor.rs:143-185 | update_sensor reads only the database. |
| SensorRoutes.CreateSensorKeeps | src/routes/Sensor.rs:56-68 | create_sensor keeps the invariant and every staleness bound. |
| SensorRoutes.GetSensorKeeps | src/routes/Sensor.rs:101-112 | Re-caching keeps the invariant and every staleness bound. |
| SensorRoutes.UpdateSensorKeeps | src/routes/Sensor.rs:143-185 | update_sensor keeps the invariant and every staleness bound. |
| SensorRoutes.DeleteSensorKeeps | src/routes/Sensor.rs:187-209 | Home, application and sensor entries keep their bound. Cascaded children are stale for at most one TTL. |
| DataContainerRoutes.CreateDataContainer | src/routes/DataContainer.rs:30-70 | On success the container is stored and cached for 30 seconds. A missing sensor gives 400 "Can't find sensor"; other failures give 500 "Query failed". |
| DataContainerRoutes.GetDataContainer | src/routes/DataContainer.rs:72-108 | A hit is answered from the cache. Otherwise: the row (re-cached with a 30-second expiry), 400 "Data container not found", or 500 "Query failed". Re-caching touches no other key. |
| DataContainerRoutes.GetContainerReadings | src/routes/DataContainer.rs:110-127 | Returns exactly the readings of that container id, with no existence check, or 500 "Query failed". |
| DataContainerRoutes.GetContainerSubscribers | src/routes/DataContainer.rs:129-146 | Returns exactly the subscribers of that container id, or 500 "Query failed". |
| DataContainerRoutes.DeleteDataContainer | src/routes/DataContainer.rs:148-170 | Cascades to readings and subscribers and removes only the container's key, or 500 "Query failed". |
| DataContainerRoutes.GetDataContainerHitIgnoresStore | src/routes/DataContainer.rs:84-88 | On a hit the answer does not depend on the database. |
| DataContainerRoutes.GetDataContainerReturnsStoreRow | src/routes/DataContainer.rs:72-108 | Over a coherent cache, every container returned is the stored row. |
| DataContainerRoutes.ContainerListingsIgnoreCache | src/routes/DataContainer.rs:110-146 | Both listings read only the database. |
| DataContainerRoutes.UnknownContainerListsNothing | src/routes/DataContainer.rs:116-145 | An unknown container lists no readings and no subscribers, without error, in a well-formed database. |
| DataContainerRoutes.CreateDataContainerKeeps | src/routes/DataContainer.rs:46-58 | create_data_container keeps the invariant and every staleness bound. |
| DataContainerRoutes.GetDataContainerKeeps | src/routes/DataContainer.rs:90-101 | Re-caching keeps the invariant and every staleness bound. |
| DataContainerRoutes.DeleteDataContainerKeeps | src/routes/DataContainer.rs:148-170 | All but subscriber entries keep their bound. Cascaded subscribers are stale for at most one TTL. |
| SubscriberRoutes.CreateSubscriber | src/routes/Subscriber.rs:36-80 | On success the subscriber is stored and cached for 30 seconds. A missing container gives 400 "Can't find data container"; other failures give 500 "Query failed". |
| SubscriberRoutes.GetSubscriber | src/routes/Subscriber.rs:82-118 | A hit is answered from the cache. Otherwise: the row (re-cached with a 30-second expiry), 400 "Subscriber not found", or 500 "Query failed". Re-caching touches no other key. |
| SubscriberRoutes.UpdateSubscriber | src/routes/Subscriber.rs:120-162 | Replaces only the notification URL, keeping id, container and timestamp, and caches the row for 30 seconds. Errors: 400 "Subscriber not found" or 500 "Query failed". |
| SubscriberRoutes.DeleteSubscriber | src/routes/Subscriber.rs:164-186 | Removes exactly that subscriber and its key, or 500 "Query failed". |
| SubscriberRoutes.GetSubscriberHitIgnoresStore | src/routes/Subscriber.rs:94-98 | On a hit the answer does not depend on the database. |
| SubscriberRoutes.GetSubscriberReturnsStoreRow | src/routes/Subscriber.rs:82-118 | Over a coherent cache, every subscriber returned is the stored row. |
| SubscriberRoutes.UpdateSubscriberIgnoresCache | src/routes/Subscriber.rs:120-162 | update_subscriber reads only the database. |
| SubscriberRoutes.CreateSubscriberKeeps | src/routes/Subscriber.rs:56-68 | create_subscriber keeps the invariant and every staleness bound. |
| SubscriberRoutes.GetSubscriberKeeps | src/routes/Subscriber.rs:100-111 | Re-caching keeps the invariant and every staleness bound. |
| SubscriberRoutes.UpdateSubscriberKeeps | src/routes/Subscriber.rs:133-148 | update_subscriber keeps the invariant and every staleness bound. |
| SubscriberRoutes.DeleteSubscriberKeeps | src/routes/Subscriber.rs:164-186 | A subscriber has no children, so its delete keeps every staleness bound. |
| SensorDataRoutes.CreateSensorData | src/routes/SensorData.rs:32-58 | Stores the JSON value under (new id, container) without touching the cache. A missing container gives 400 "Can't find data container"; other failures give 500 "Query failed". |
| SensorDataRoutes.GetSensorData | src/routes/SensorData.rs:60-78 | Looks up by (id, container id): the row, 400 "Sensor data not found", or 500 "Query failed". |
| SensorDataRoutes.DeleteSensorData | src/routes/SensorData.rs:80-97 | Removes exactly that key pair and answers success whether or not it existed, or 500 "Query failed". |
| SensorDataRoutes.CreateThenGetSensorData | src/routes/SensorData.rs:32-78 | A reading just created is returned by its key pair. |
| SensorDataRoutes.DeleteThenGetSensorData | src/routes/SensorData.rs:60-97 | After a delete, the reading is not found. |
| SensorDataRoutes.GetSensorDataIsListed | src/routes/DataContainer.rs:110-127 | In a well-formed database, a reading fetched by key is in its container's listing. |
| SensorDataRoutes.CreateSensorDataKeeps | src/routes/SensorData.rs:32-58 | Readings are not cached, so a create keeps the invariant and every bound. |
| SensorDataRoutes.DeleteSensorDataKeeps | src/routes/SensorData.rs:80-97 | Deleting a reading keeps the invariant and every bound. |
| Server.Horizon | src/main.rs:57-62 | Deadline bookkeeping used by Server.HandleKeeps and Server.RunKeeps: a cascading delete moves the staleness deadline to at most one TTL from now; every other request leaves it alone. |
| Server.HandleKeeps | src/main.rs:57-62 | Every request to any mounted route keeps the invariant and the staleness deadline given by Horizon. |
| Server.RunKeeps | src/main.rs:52-62 | After any trace of requests, the invariant holds and the cache is stale only until the accumulated deadline, which is at most the later of the starting deadline and one TTL after the final clock. |
| Server.RunHorizonWithoutCascades | src/main.rs:57-62 | A trace with no cascading delete never moves the deadline. |
| Server.StartIsCoherent | src/main.rs:47-50 | A fresh server with an empty database and an empty cache satisfies the invariant and is coherent. |
| Server.CoherentWithoutCascades | src/main.rs:52-62 | A coherent server stays coherent through every trace with no cascading delete. |
| Server.QuietTtlRestoresCoherence | src/utils.rs:7-9 | From any state satisfying the invariant, coherent or not, and after any trace, one quiet TTL makes the cache coherent again. |
| Scenarios.RememberedWithinTtl | src/utils.rs:7-9 | A cached row is read back for as long as less than a TTL has passed. |
| Scenarios.CreatedHomeIsReadBack | src/routes/Home.rs:43-110 | Within a TTL of create_home, get_home returns the new home even while the database is failing. |
| Scenarios.UpdatedHomeIsReadBack | src/routes/Home.rs:74-175 | Within a TTL of update_home, get_home returns the renamed home whatever the database does. |
| Scenarios.DeletedHomeIsGone | src/routes/Home.rs:177-199 | After delete_home, get_home answers 400 "Home not found". |
| Scenarios.CreatedApplicationIsListed | src/routes/Home.rs:112-131 | A newly created application appears in its home's application listing. |
| Scenarios.CascadeLeavesStaleApplication | src/routes/Home.rs:184-192 | After delete_home, a cached child application is gone from the database but still served, and the cache is not coherent. |
| Scenarios.StaleApplicationExpires | src/routes/Application.rs:76-112 | One TTL after that delete, get_application reports the application missing. |
| Scenarios.CascadeLeavesStaleSensor | src/routes/Application.rs:181-189 | After delete_application, only the application's own key is deleted: a cached sensor under it is gone from the database but still served, and the cache is not coherent. |

## Left out

- HTTP plumbing: path/body extraction, JSON response framing, CORS and the root
  route in src/main.rs. Handlers take their arguments directly.
- The `unwrap()` calls on Redis connections, `SET` and `DEL`, and on
  `serde_json::to_string`. The model assumes these operations succeed. In the
  source a Redis outage panics the worker; that path is not modelled.
- nanoid randomness: the new id is a parameter of length 10. A collision with
  an existing id is modelled as a unique-key violation, which answers 500.
- Database-generated timestamps: a `stamp` parameter stands for the default
  value the database fills in.
- serde_json: rows are encoded as an abstract `Json(row)` value. Every other
  cached value is `Corrupt`, which fails to decode. String formats are not
  modelled.
- Entities.Encode: the model assumes every cached row round-trips through JSON.
  As written, `src/entities/home.rs:5` derives neither `Serialize` nor
  `Deserialize`, and `src/entities/sensor.rs:6` derives only `Serialize`. Yet
  the Home and Sensor routes serialise and parse those models. The model
  follows the round-trip the routes evidently intend, not the derives as
  written.
- Entities.Decode: serde's derived deserialiser ignores unknown fields, so a
  real `from_str` for one model could accept the JSON of another model that
  carries the same fields. The model's `Decode` rejects the JSON of any other
  kind. The difference is unreachable in the routes: every kind has its own key
  prefix, and Keys.KindsNeverShareKeys shows that entries of different kinds
  never share a key.
- Listing order: results are sets, because the queries have no `ORDER BY`.
  `get_home_application` returns the applications of the first matching home;
  ids are unique, so that is the only match.
- Concurrency: requests are handled one at a time, in trace order.
  Interleavings between a database write and the cache write that follows it
  are not modelled.
- `src/entities/sensor_data.rs` and `src/entities/subscribers.rs` are not part
  of this model. The shapes of readings and subscribers follow the columns the
  routes set. The has-many relations of `src/entities/data_container.rs:25-28`
  carry no `on_delete` rule. The model assumes that the foreign keys of
  `sensor_data` and `subscribers` cascade like every other link in the
  hierarchy, so deleting a data container deletes its readings and
  subscribers. The entity files that would confirm this are not part of this
  model.
- `src/body/Home.rs`: the request body type only; it carries no behaviour.
- Server.HandleHome and the other per-route dispatchers: their own contracts
  only state that the clock is unchanged. Their properties are stated by
  Server.HandleKeeps and the per-route lemmas.
