/** backend/app/persistence/models.py: the tables shared by ingestion, verification and projection.
    Db is the value of all tables between two transactions; Database is the object the program updates. */
module Store {
  import opened Basics
  import opened Framing
  import opened Events
  import opened BirthWindow
  import opened Replay
  import opened Routes
  import opened DefectBook
  import opened RawLog

  datatype Source = Source(sourceType: string, allowedTypes: set<string>, lastSequence: Option<nat>)

  datatype StreamStatus = StreamOk | IntegrityFailed

  datatype Stream = Stream(lastSeq: nat, lastMac: bytes, status: StreamStatus)

  datatype AttemptStatus = Accepted | Duplicate | Conflict | Rejected

  datatype Attempt = Attempt(sourceId: Option<string>, eventId: Option<string>, status: AttemptStatus,
    errorCode: Option<string>)

  datatype ProjectionStatus = Stale | Rebuilding | UpToDate | Failed

  /** projection_state, with the declared column defaults as initial values. */
  datatype ProjectionState = ProjectionState(latest: nat, projected: nat, version: nat, status: ProjectionStatus)

  const NEW_STATE := ProjectionState(0, 0, 0, Stale)

  /** A defect_observations row. */
  datatype DefectRow = DefectRow(observation: string, defectType: string, component: Option<string>)

  /** The rows of one item in the five tables a rebuild replaces. */
  datatype Views = Views(
    observations: seq<Observation>, defects: seq<DefectRow>, runs: seq<Run>,
    machines: seq<MachineRow>, actions: seq<ActionRow>)

  const NO_VIEWS := Views([], [], [], [], [])

  datatype Db = Db(
    raws: seq<RawEvent>, streams: map<string, Stream>, sources: map<string, Source>, attempts: seq<Attempt>,
    alerts: seq<string>, periods: seq<DevicePeriod>, policies: Policies,
    states: map<string, ProjectionState>, views: map<string, Views>, routes: RouteDb, book: Book)

  function ViewsAt(db: Db, itemId: string): Views
  {
    if itemId in db.views then db.views[itemId] else NO_VIEWS
  }

  function StateAt(db: Db, itemId: string): ProjectionState
  {
    if itemId in db.states then db.states[itemId] else NEW_STATE
  }

  /** The item a raw event is projected into; an empty id counts as none. */
  function ItemOf(e: Event): Option<string>
  {
    if Given(e.itemId) then e.itemId else None
  }

  /** The rows of the affected-items query. */
  predicate Queried(p: DevicePeriod, o: Observation)
  {
    o.inspection.device == Some(p.device) && p.affectedFrom <= o.at <= p.affectedTo
  }

  /** Items with a cached observation made by the device within the period. */
  function Affected(views: map<string, Views>, p: DevicePeriod): set<string>
  {
    set i | i in views && exists o | o in views[i].observations :: Queried(p, o)
  }

  class Database {
    var raws: seq<RawEvent>
    var streams: map<string, Stream>
    var sources: map<string, Source>
    var attempts: seq<Attempt>
    var alerts: seq<string>
    var periods: seq<DevicePeriod>
    var policies: Policies
    var states: map<string, ProjectionState>
    var views: map<string, Views>
    const routeStore: RouteStore
    const register: DefectRegister

    function Snapshot(): Db
      reads this, routeStore, register
    {
      Db(raws, streams, sources, attempts, alerts, periods, policies, states, views, routeStore.Tables(),
        register.Contents())
    }

    constructor (sources: map<string, Source>, policies: Policies)
      ensures Snapshot() == Db([], map[], sources, [], [], [], policies, map[], map[], EMPTY, Book([], []))
      ensures fresh(this) && fresh(routeStore) && fresh(register)
    {
      raws, streams, this.sources, attempts, alerts, periods := [], map[], sources, [], [], [];
      this.policies, states, views := policies, map[], map[];
      routeStore := new RouteStore();
      register := new DefectRegister();
    }
  }
}
