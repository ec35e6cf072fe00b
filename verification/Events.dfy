/** shared_contracts/generated/events.py and backend/app/domain/events.py: validated events.
    Times are integer microseconds since the epoch; free-form JSON parameters are not modelled. */
module Events {
  import opened Basics

  datatype InspectionResult = NoDefect | DefectDetected | ImpossibleToAssess

  /** inspection_scope: absent, a list of defect types, or a dict with two optional lists. */
  datatype Scope =
    | Unscoped
    | DefectList(types: seq<string>)
    | ScopeDict(defectTypes: Option<seq<string>>, components: Option<seq<string>>)

  datatype Defect = Defect(defectType: string, component: Option<string>)

  datatype Inspection = Inspection(
    result: InspectionResult, quality: string, controlPoint: string, confidence: Option<real>,
    scope: Scope, defects: seq<Defect>, evidenceRefs: seq<string>,
    component: Option<string>, device: Option<string>, session: Option<string>)

  datatype Registration = Registration(
    product: string, revision: string, line: Option<string>,
    routeCode: Option<string>, routeRevision: Option<nat>)

  datatype Start = Start(
    operationId: string, operatorId: string, equipmentId: string, stationId: string,
    previousRun: Option<string>, runReason: string, reworkFor: Option<nat>)

  datatype Duration = Duration(value: real, unit: string, meaning: string)

  datatype Finish = Finish(completion: string, duration: Option<Duration>)

  datatype Machine = Machine(equipmentId: string, state: string, code: Option<string>)

  datatype Action = Action(operatorId: string, actionType: string)

  datatype DevicePeriod = DevicePeriod(device: string, affectedFrom: int, affectedTo: int)

  datatype Payload =
    | ItemRegistered(registration: Registration)
    | OperationStarted(start: Start)
    | OperationFinished(finish: Finish)
    | InspectionDone(inspection: Inspection)
    | MachineState(machine: Machine)
    | OperatorAction(action: Action)
    | DeviceInvalidated(period: DevicePeriod)

  datatype Event = Event(
    eventId: string, schemaVersion: string, occurredAt: int,
    sourceId: string, sourceType: string, sequence: Option<nat>,
    itemId: Option<string>, runId: Option<string>, payload: Payload)

  function EventType(p: Payload): string
  {
    match p
    case ItemRegistered(_) => "item.registered"
    case OperationStarted(_) => "operation.started"
    case OperationFinished(_) => "operation.finished"
    case InspectionDone(_) => "inspection.result"
    case MachineState(_) => "machine.state"
    case OperatorAction(_) => "operator.action"
    case DeviceInvalidated(_) => "control_device.invalidated"
  }

  /** Python truthiness of an optional string. */
  predicate Given(s: Option<string>)
  {
    s.Some? && s.value != ""
  }

  /** Python's `a or b` on optional strings. */
  function Or(a: Option<string>, b: Option<string>): Option<string>
  {
    if Given(a) then a else b
  }

  /** A control_device_invalidations row, reduced to what replay reads. */
  predicate Covers(p: DevicePeriod, device: Option<string>, at: int)
  {
    Given(device) && p.device == device.value && p.affectedFrom <= at <= p.affectedTo
  }
}
