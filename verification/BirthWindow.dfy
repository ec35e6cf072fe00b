/** backend/app/quality/birth_window.py: the time window in which a defect was born, with its evidence. */
module BirthWindow {
  import opened Basics
  import opened Events
  import opened Trust

  /** A projected observation: an inspection with its event columns and derived trust. */
  datatype Observation = Observation(
    eventId: string, runId: Option<string>, at: int, inspection: Inspection,
    trust: TrustStatus, reasons: seq<string>)

  /** One entry of operation_values; start is None until an operation.started event is replayed. */
  datatype Run = Run(
    runId: string, start: Option<Start>, startedAt: Option<int>, finishedAt: Option<int>,
    completion: Option<string>, duration: Option<Duration>, sourceEventId: string)

  datatype MachineRow = MachineRow(eventId: string, runId: Option<string>, at: int, machine: Machine)

  datatype ActionRow = ActionRow(eventId: string, runId: Option<string>, at: int, action: Action)

  datatype Detail =
    | DefectDetail(defectType: string, component: Option<string>)
    | ControlPointDetail(controlPoint: string)
    | RunDetail(runId: string, start: Option<Start>)
    | MachineDetail(equipmentId: string, state: string)
    | ActionDetail(operatorId: string, actionType: string)
    | TrustDetail(status: TrustStatus, reasons: seq<string>)
    | MissingCheckDetail(controlPoint: string, beforeOperation: string)
    | DeviceDetail(device: Option<string>, reasons: seq<string>)

  datatype Evidence = Evidence(
    kind: string, role: string, sourceEvent: Option<string>, at: Option<int>, detail: Detail)

  datatype WindowStatus = Bounded | LeftOpen

  datatype Window = Window(status: WindowStatus, left: Option<int>, right: int, evidence: seq<Evidence>)

  /** The defect whose window is computed: an observation with one of its defects. */
  datatype DefectAt = DefectAt(eventId: string, at: int, defectType: string, component: Option<string>)

  /** A trusted good observation, strictly earlier, able to see this defect on this component. */
  predicate CoveringGood(o: Observation, d: DefectAt)
  {
    && o.at < d.at
    && o.trust.Trusted?
    && o.inspection.result.NoDefect?
    && ScopeCovers(o.inspection.scope, d.defectType, d.component)
    && (o.inspection.component.None? || o.inspection.component == d.component || d.component.None?)
  }

  /** max(candidates, key=occurred_at): the first of the latest covering good observations. */
  function LastGood(os: seq<Observation>, d: DefectAt): Option<Observation>
  {
    if os == [] then None
    else
      var best := LastGood(os[..|os| - 1], d);
      var o := os[|os| - 1];
      if CoveringGood(o, d) && (best.None? || best.value.at < o.at) then Some(o) else best
  }

  function LeftBoundary(os: seq<Observation>, d: DefectAt): Option<int>
  {
    match LastGood(os, d) case None => None case Some(o) => Some(o.at)
  }

  /** Half-open on the left, closed on the right. */
  predicate Inside(left: Option<int>, d: DefectAt, at: int)
  {
    (left.None? || left.value < at) && at <= d.at
  }

  function Marker(r: Run): Option<int>
  {
    if r.finishedAt.Some? then r.finishedAt else r.startedAt
  }

  function PoorKind(t: TrustStatus): string
  {
    if t.Conflicted? then "CONFLICTING_OBSERVATION"
    else if t.Invalidated? then "DEVICE_VALIDITY"
    else "POOR_OBSERVATION"
  }

  function FirstDefect(d: DefectAt): Evidence
  {
    Evidence("FIRST_TRUSTED_DEFECT", "BOUNDARY", Some(d.eventId), Some(d.at), DefectDetail(d.defectType, d.component))
  }

  function LastTrustedGood(g: Observation): Evidence
  {
    Evidence("LAST_TRUSTED_GOOD", "BOUNDARY", Some(g.eventId), Some(g.at),
      ControlPointDetail(g.inspection.controlPoint))
  }

  function OperationInWindow(r: Run): Evidence
  {
    Evidence("OPERATION_IN_WINDOW", "CONTEXT", Some(r.sourceEventId), Marker(r), RunDetail(r.runId, r.start))
  }

  function MachineWarning(m: MachineRow): Evidence
  {
    Evidence("MACHINE_WARNING", "CONTEXT", Some(m.eventId), Some(m.at),
      MachineDetail(m.machine.equipmentId, m.machine.state))
  }

  function ActionInWindow(a: ActionRow): Evidence
  {
    Evidence("OPERATOR_ACTION", "CONTEXT", Some(a.eventId), Some(a.at),
      ActionDetail(a.action.operatorId, a.action.actionType))
  }

  function PoorObservation(o: Observation): Evidence
  {
    Evidence(PoorKind(o.trust), "LIMITATION", Some(o.eventId), Some(o.at), TrustDetail(o.trust, o.reasons))
  }

  function OperationEvidence(left: Option<int>, d: DefectAt): Run -> Option<Evidence>
  {
    (r: Run) =>
      if Marker(r).Some? && Inside(left, d, Marker(r).value)
      then Some(OperationInWindow(r))
      else None
  }

  function MachineEvidence(left: Option<int>, d: DefectAt): MachineRow -> Option<Evidence>
  {
    (m: MachineRow) =>
      if Inside(left, d, m.at) && m.machine.state !in {"normal", "idle"}
      then Some(MachineWarning(m))
      else None
  }

  function ActionEvidence(left: Option<int>, d: DefectAt): ActionRow -> Option<Evidence>
  {
    (a: ActionRow) =>
      if Inside(left, d, a.at)
      then Some(ActionInWindow(a))
      else None
  }

  function PoorEvidence(left: Option<int>, d: DefectAt): Observation -> Option<Evidence>
  {
    (o: Observation) =>
      if Inside(left, d, o.at) && !o.trust.Trusted?
      then Some(PoorObservation(o))
      else None
  }

  function BoundaryEvidence(os: seq<Observation>, d: DefectAt): seq<Evidence>
  {
    (match LastGood(os, d)
     case None => []
     case Some(g) => [LastTrustedGood(g)]) +
    [FirstDefect(d)]
  }

  /** What calculate_birth_window returns, stated without its loops. */
  function WindowOf(
    d: DefectAt, os: seq<Observation>, runs: seq<Run>, machines: seq<MachineRow>, actions: seq<ActionRow>,
    limitations: seq<Evidence>): Window
  {
    var left := LeftBoundary(os, d);
    Window(
      if left.Some? then Bounded else LeftOpen, left, d.at,
      BoundaryEvidence(os, d) + FilterMap(runs, OperationEvidence(left, d)) +
      FilterMap(machines, MachineEvidence(left, d)) + FilterMap(actions, ActionEvidence(left, d)) +
      FilterMap(os, PoorEvidence(left, d)) + limitations)
  }

  method FindOperations(left: Option<int>, d: DefectAt, rows: seq<Run>) returns (found: seq<Evidence>)
    ensures found == FilterMap(rows, OperationEvidence(left, d))
  {
    found := [];
    for i := 0 to |rows|
      invariant found == FilterMap(rows[..i], OperationEvidence(left, d))
    {
      var operation := rows[i];
      var marker := if operation.finishedAt.Some? then operation.finishedAt else operation.startedAt;
      if marker.Some? && Inside(left, d, marker.value) {
        found := found + [OperationInWindow(operation)];
      }
      assert rows[..i + 1] == rows[..i] + [operation];
      FilterMapSnoc(rows[..i], operation, OperationEvidence(left, d));
    }
    assert rows[..|rows|] == rows;
  }

  method FindMachineWarnings(left: Option<int>, d: DefectAt, rows: seq<MachineRow>) returns (found: seq<Evidence>)
    ensures found == FilterMap(rows, MachineEvidence(left, d))
  {
    found := [];
    for i := 0 to |rows|
      invariant found == FilterMap(rows[..i], MachineEvidence(left, d))
    {
      var m := rows[i];
      if Inside(left, d, m.at) && m.machine.state !in {"normal", "idle"} {
        found := found + [MachineWarning(m)];
      }
      assert rows[..i + 1] == rows[..i] + [m];
      FilterMapSnoc(rows[..i], m, MachineEvidence(left, d));
    }
    assert rows[..|rows|] == rows;
  }

  method FindActions(left: Option<int>, d: DefectAt, rows: seq<ActionRow>) returns (found: seq<Evidence>)
    ensures found == FilterMap(rows, ActionEvidence(left, d))
  {
    found := [];
    for i := 0 to |rows|
      invariant found == FilterMap(rows[..i], ActionEvidence(left, d))
    {
      var a := rows[i];
      if Inside(left, d, a.at) {
        found := found + [ActionInWindow(a)];
      }
      assert rows[..i + 1] == rows[..i] + [a];
      FilterMapSnoc(rows[..i], a, ActionEvidence(left, d));
    }
    assert rows[..|rows|] == rows;
  }

  method FindPoorObservations(left: Option<int>, d: DefectAt, rows: seq<Observation>) returns (found: seq<Evidence>)
    ensures found == FilterMap(rows, PoorEvidence(left, d))
  {
    found := [];
    for i := 0 to |rows|
      invariant found == FilterMap(rows[..i], PoorEvidence(left, d))
    {
      var o := rows[i];
      if Inside(left, d, o.at) && !o.trust.Trusted? {
        found := found + [PoorObservation(o)];
      }
      assert rows[..i + 1] == rows[..i] + [o];
      FilterMapSnoc(rows[..i], o, PoorEvidence(left, d));
    }
    assert rows[..|rows|] == rows;
  }

  method CalculateBirthWindow(
    d: DefectAt, os: seq<Observation>, runs: seq<Run>, machines: seq<MachineRow>, actions: seq<ActionRow>,
    limitations: seq<Evidence>) returns (w: Window)
    ensures w == WindowOf(d, os, runs, machines, actions, limitations)
  {
    var evidence := [FirstDefect(d)];
    var lastGood := LastGood(os, d);
    var left := None;
    if lastGood.Some? {
      var g := lastGood.value;
      left := Some(g.at);
      evidence := [LastTrustedGood(g)] + evidence;
    }
    assert evidence == BoundaryEvidence(os, d) && left == LeftBoundary(os, d);
    var foundOperations := FindOperations(left, d, runs);
    var foundMachineWarnings := FindMachineWarnings(left, d, machines);
    var foundActions := FindActions(left, d, actions);
    var foundPoorObservations := FindPoorObservations(left, d, os);
    w := Window(
      if left.Some? then Bounded else LeftOpen, left, d.at,
      evidence + foundOperations + foundMachineWarnings + foundActions + foundPoorObservations + limitations);
  }

  /** The left boundary is the latest covering good, and every covering good is accounted for. */
  lemma {:induction false} LastGoodMaximal(os: seq<Observation>, d: DefectAt)
    ensures LastGood(os, d).Some? <==> exists o :: o in os && CoveringGood(o, d)
    ensures LastGood(os, d).Some? ==> LastGood(os, d).value in os && CoveringGood(LastGood(os, d).value, d)
    ensures forall o | o in os && CoveringGood(o, d) :: LastGood(os, d).Some? && o.at <= LastGood(os, d).value.at
  {
    if os != [] {
      var init := os[..|os| - 1];
      LastGoodMaximal(init, d);
      assert os == init + [os[|os| - 1]];
    }
  }

  /** BOUNDED exactly when a covering good exists; the window then starts at the latest one, is not empty,
      and holds no covering good strictly inside. */
  lemma WindowMaximal(
    d: DefectAt, os: seq<Observation>, runs: seq<Run>, machines: seq<MachineRow>, actions: seq<ActionRow>,
    limitations: seq<Evidence>)
    ensures var w := WindowOf(d, os, runs, machines, actions, limitations);
            && w.right == d.at
            && (w.status.Bounded? <==> exists o :: o in os && CoveringGood(o, d))
            && (w.status.Bounded? <==> w.left.Some?)
            && (w.left.Some? ==>
                  w.left.value < w.right && exists o :: o in os && CoveringGood(o, d) && o.at == w.left.value)
            && (forall o | o in os && CoveringGood(o, d) :: w.left.Some? && !(w.left.value < o.at < w.right))
  {
    LastGoodMaximal(os, d);
  }

  /** Evidence is exactly: the boundaries, the inputs inside (left, right] that pass their filter, the limitations. */
  lemma EvidenceExact(
    d: DefectAt, os: seq<Observation>, runs: seq<Run>, machines: seq<MachineRow>, actions: seq<ActionRow>,
    limitations: seq<Evidence>, e: Evidence)
    ensures var w := WindowOf(d, os, runs, machines, actions, limitations);
            e in w.evidence <==>
            || e in BoundaryEvidence(os, d)
            || (exists r :: r in runs && Marker(r).Some? && Inside(w.left, d, Marker(r).value)
                  && e == OperationInWindow(r))
            || (exists m :: m in machines && Inside(w.left, d, m.at) && m.machine.state !in {"normal", "idle"}
                  && e == MachineWarning(m))
            || (exists a :: a in actions && Inside(w.left, d, a.at)
                  && e == ActionInWindow(a))
            || (exists o :: o in os && Inside(w.left, d, o.at) && !o.trust.Trusted?
                  && e == PoorObservation(o))
            || e in limitations
  {
    var left := LeftBoundary(os, d);
    FilterMapMembers(runs, OperationEvidence(left, d), e);
    FilterMapMembers(machines, MachineEvidence(left, d), e);
    FilterMapMembers(actions, ActionEvidence(left, d), e);
    FilterMapMembers(os, PoorEvidence(left, d), e);
  }

  /** None is the open left end, earlier than every time. */
  predicate LeftNoLater(a: Option<int>, b: Option<int>)
  {
    a.None? || (b.Some? && a.value <= b.value)
  }

  /** More observations never move the left boundary earlier: whenever every covering good of `few` has a
      counterpart of the same time among those of `many`. */
  lemma LeftMonotone(few: seq<Observation>, many: seq<Observation>, d: DefectAt)
    requires forall o | o in few && CoveringGood(o, d) :: exists p :: p in many && CoveringGood(p, d) && p.at == o.at
    ensures LeftNoLater(LeftBoundary(few, d), LeftBoundary(many, d))
  {
    LastGoodMaximal(few, d);
    LastGoodMaximal(many, d);
  }

  lemma AddingObservationKeepsLeft(os: seq<Observation>, extra: Observation, k: nat, d: DefectAt)
    requires k <= |os|
    ensures LeftNoLater(LeftBoundary(os, d), LeftBoundary(os[..k] + [extra] + os[k..], d))
  {
    var more := os[..k] + [extra] + os[k..];
    forall o | o in os && CoveringGood(o, d) ensures exists p :: p in more && CoveringGood(p, d) && p.at == o.at {
      assert os == os[..k] + os[k..];
      assert o in more;
    }
    LeftMonotone(os, more, d);
  }
}
