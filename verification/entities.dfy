/**
 * Row shapes of the tables the routes read and write (src/entities/), and
 * the abstract serialised form a row takes in the cache (serde_json).
 */
module Entities {
  import opened Base
  import opened Keys

  /** Primary keys are caller-assigned strings (`auto_increment = false`). */
  type Id = string

  /** A database-assigned `created_at`; the model never inspects it. */
  type Timestamp = int

  /** A reading's JSON payload, kept as opaque text. */
  type JsonValue = string

  /** nanoid!(10) always yields ten characters. */
  predicate IsNanoId(id: Id)
  {
    |id| == 10
  }

  /** Table `home`: the root of the hierarchy, with no parent column. */
  datatype Home = Home(id: Id, createdAt: Timestamp, name: string)

  /** Table `application`: `homeId` is a foreign key to `home.id`. */
  datatype Application = Application(id: Id, homeId: Id, name: string, createdAt: Timestamp)

  /** Table `sensor`: `applicationId` is a foreign key to `application.id`. */
  datatype Sensor = Sensor(id: Id, applicationId: Id, name: string, createdAt: Timestamp)

  /** Table `data_container`: `sensorId` is a foreign key to `sensor.id` (its timestamp column is `create_at`). */
  datatype DataContainer = DataContainer(id: Id, sensorId: Id, createAt: Timestamp)

  /** Table `sensor_data`: primary key (id, container_id); `containerId` references `data_container.id`. */
  datatype SensorData = SensorData(id: Id, containerId: Id, data: Option<JsonValue>, createdAt: Timestamp)

  /** Table `subscribers`: `containerId` references `data_container.id`. */
  datatype Subscriber = Subscriber(id: Id, containerId: Id, notificationUrl: string, createdAt: Timestamp)

  /** A row of one of the five cached tables. */
  datatype Row =
    | HomeRow(home: Home)
    | ApplicationRow(application: Application)
    | SensorRow(sensor: Sensor)
    | DataContainerRow(container: DataContainer)
    | SubscriberRow(subscriber: Subscriber)

  function KindOf(row: Row): Kind
  {
    match row
    case HomeRow(_) => HomeKind
    case ApplicationRow(_) => ApplicationKind
    case SensorRow(_) => SensorKind
    case DataContainerRow(_) => DataContainerKind
    case SubscriberRow(_) => SubscriberKind
  }

  /**
   * A cached string: either the JSON text of a row, or text that does not
   * parse as a model (a corrupt or foreign entry).
   */
  datatype Payload = Json(row: Row) | Corrupt(text: string)

  /** `serde_json::to_string` of a row. */
  function Encode(row: Row): (p: Payload)
    ensures Decode(KindOf(row), p) == Some(row)
  {
    Json(row)
  }

  /** `serde_json::from_str::<Model>` for the model of `kind`. */
  function Decode(kind: Kind, p: Payload): Option<Row>
  {
    if p.Json? && KindOf(p.row) == kind then Some(p.row) else None
  }

  /** Decoding accepts exactly the encodings of rows of the requested kind. */
  lemma DecodeAcceptsOnlyEncodings(kind: Kind, p: Payload, row: Row)
    ensures Decode(kind, p) == Some(row) <==> p == Encode(row) && KindOf(row) == kind
  {
  }

  /** Corrupt text never decodes, so a read treats it as a miss. */
  lemma CorruptNeverDecodes(kind: Kind, text: string)
    ensures Decode(kind, Corrupt(text)) == None
  {
  }
}
