/** The fold of backend/app/projections/rebuild.py (lines 245-309): one item's events, in business order,
    become runs, observations with derived trust, machine events and operator actions. */
module Replay {
  import opened Basics
  import opened Events
  import opened Trust
  import opened BirthWindow

  type Policies = map<string, Policy>

  datatype Projection = Projection(
    registration: Option<(Registration, int)>, runs: seq<Run>, observations: seq<Observation>,
    machines: seq<MachineRow>, actions: seq<ActionRow>)

  /* ---- operation runs: the insertion-ordered dict operation_values ---- */

  function RunIdOf(e: Event): string
  {
    if e.runId.Some? then e.runId.value else ""
  }

  /** The position of a run id, or |runs| when it is absent. */
  function IndexOfRun(runs: seq<Run>, id: string): (i: nat)
    ensures i <= |runs|
    ensures i < |runs| ==> runs[i].runId == id
    ensures forall j | 0 <= j < i :: runs[j].runId != id
  {
    if runs == [] || runs[0].runId == id then 0 else 1 + IndexOfRun(runs[1..], id)
  }

  function StartedRun(r: Run, s: Start, e: Event): Run
  {
    r.(start := Some(s), startedAt := Some(e.occurredAt), sourceEventId := e.eventId)
  }

  function FinishedRun(r: Run, f: Finish, e: Event): Run
  {
    r.(finishedAt := Some(e.occurredAt), completion := Some(f.completion), duration := f.duration,
       sourceEventId := e.eventId)
  }

  function NewRun(id: string): Run
  {
    Run(id, None, None, None, None, None, "")
  }

  /** setdefault: the runs with an entry for id, appended at the end when new. */
  function WithRun(runs: seq<Run>, id: string): (r: seq<Run>)
    ensures IndexOfRun(r, id) < |r|
  {
    var i := IndexOfRun(runs, id);
    if i < |runs| then runs
    else
      var r := runs + [NewRun(id)];
      assert r[|runs|].runId == id;
      r
  }

  function RunStep(runs: seq<Run>, e: Event): seq<Run>
  {
    var withRun := WithRun(runs, RunIdOf(e));
    var i := IndexOfRun(withRun, RunIdOf(e));
    match e.payload
    case OperationStarted(s) => withRun[i := StartedRun(withRun[i], s, e)]
    case OperationFinished(f) => withRun[i := FinishedRun(withRun[i], f, e)]
    case _ => runs
  }

  function RunsOf(events: seq<Event>): seq<Run>
  {
    if events == [] then [] else RunStep(RunsOf(events[..|events| - 1]), events[|events| - 1])
  }

  /** The last event in business order that starts (or finishes) the given run. */
  function LastOfRun(events: seq<Event>, id: string, starts: bool): Option<Event>
  {
    if events == [] then None
    else
      var e := events[|events| - 1];
      if RunIdOf(e) == id && (if starts then e.payload.OperationStarted? else e.payload.OperationFinished?) then Some(e)
      else LastOfRun(events[..|events| - 1], id, starts)
  }

  /** A run row says what its last start and last finish say, whichever arrived first. */
  ghost predicate RunReflects(r: Run, events: seq<Event>)
  {
    var started, finished := LastOfRun(events, r.runId, true), LastOfRun(events, r.runId, false);
    && (started.Some? || finished.Some?)
    && (match started
        case None => r.start.None? && r.startedAt.None?
        case Some(e) =>
          e.payload.OperationStarted? && r.start == Some(e.payload.start) && r.startedAt == Some(e.occurredAt))
    && (match finished
        case None => r.finishedAt.None? && r.completion.None? && r.duration.None?
        case Some(e) => e.payload.OperationFinished? && r.finishedAt == Some(e.occurredAt)
                        && r.completion == Some(e.payload.finish.completion) && r.duration == e.payload.finish.duration)
  }

  /** The rows have distinct run ids, reflect the events, and cover every run the events mention. */
  ghost predicate RunsMatch(runs: seq<Run>, events: seq<Event>)
  {
    && (forall i, j | 0 <= i < j < |runs| :: runs[i].runId != runs[j].runId)
    && (forall k | 0 <= k < |runs| :: RunReflects(runs[k], events))
    && (forall id :: LastOfRun(events, id, true).Some? || LastOfRun(events, id, false).Some? ==>
      IndexOfRun(runs, id) < |runs|)
  }

  lemma RunStepReflects(runs: seq<Run>, events: seq<Event>, e: Event, k: nat)
    requires RunsMatch(runs, events)
    requires e.payload.OperationStarted? || e.payload.OperationFinished?
    requires k < |RunStep(runs, e)|
    ensures RunReflects(RunStep(runs, e)[k], events + [e])
  {
    assert (events + [e])[..|events|] == events;
    var id := RunIdOf(e);
    var i := IndexOfRun(WithRun(runs, id), id);
    if k < |runs| {
      assert RunReflects(runs[k], events);
    } else {
      assert LastOfRun(events, id, true).None? && LastOfRun(events, id, false).None?;
    }
    assert k != i ==> RunStep(runs, e)[k] == runs[k] && runs[k].runId != id;
  }

  lemma RunStepCovers(runs: seq<Run>, events: seq<Event>, e: Event, x: string)
    requires RunsMatch(runs, events)
    requires e.payload.OperationStarted? || e.payload.OperationFinished?
    requires LastOfRun(events + [e], x, true).Some? || LastOfRun(events + [e], x, false).Some?
    ensures IndexOfRun(RunStep(runs, e), x) < |RunStep(runs, e)|
  {
    hide RunReflects;
    assert (events + [e])[..|events|] == events;
    var after := RunStep(runs, e);
    if x == RunIdOf(e) {
      assert after[IndexOfRun(WithRun(runs, x), x)].runId == x;
    } else {
      assert after[IndexOfRun(runs, x)].runId == x;
    }
  }

  lemma RunStepKeeps(runs: seq<Run>, events: seq<Event>, e: Event)
    requires RunsMatch(runs, events)
    requires e.payload.OperationStarted? || e.payload.OperationFinished?
    ensures RunsMatch(RunStep(runs, e), events + [e])
  {
    hide RunReflects, LastOfRun;
    forall k | 0 <= k < |RunStep(runs, e)| ensures RunReflects(RunStep(runs, e)[k], events + [e]) {
      RunStepReflects(runs, events, e, k);
    }
    forall x | LastOfRun(events + [e], x, true).Some? || LastOfRun(events + [e], x, false).Some?
      ensures IndexOfRun(RunStep(runs, e), x) < |RunStep(runs, e)|
    {
      RunStepCovers(runs, events, e, x);
    }
  }

  lemma LastOfRunIgnores(events: seq<Event>, e: Event, id: string, starts: bool)
    requires !e.payload.OperationStarted? && !e.payload.OperationFinished?
    ensures LastOfRun(events + [e], id, starts) == LastOfRun(events, id, starts)
  {
    assert (events + [e])[..|events|] == events;
  }

  lemma RunsIgnoreOthers(runs: seq<Run>, events: seq<Event>, e: Event)
    requires RunsMatch(runs, events)
    requires !e.payload.OperationStarted? && !e.payload.OperationFinished?
    ensures RunsMatch(RunStep(runs, e), events + [e])
  {
    hide LastOfRun;
    forall id, starts ensures LastOfRun(events + [e], id, starts) == LastOfRun(events, id, starts) {
      LastOfRunIgnores(events, e, id, starts);
    }
    forall k | 0 <= k < |runs| ensures RunReflects(runs[k], events + [e]) {
      assert RunReflects(runs[k], events);
    }
  }

  lemma NoRuns()
    ensures RunsMatch([], [])
  {
  }

  lemma {:induction false} RunsExact(events: seq<Event>)
    ensures RunsMatch(RunsOf(events), events)
  {
    hide RunStep, RunsMatch;
    if events == [] {
      NoRuns();
    } else {
      var init, e := events[..|events| - 1], events[|events| - 1];
      RunsExact(init);
      if e.payload.OperationStarted? || e.payload.OperationFinished? {
        RunStepKeeps(RunsOf(init), init, e);
      } else {
        RunsIgnoreOthers(RunsOf(init), init, e);
      }
      assert events == init + [e];
    }
  }

  /* ---- observations and their trust ---- */

  function PolicyFor(policies: Policies, controlPoint: string): Policy
  {
    if controlPoint in policies then policies[controlPoint] else DEFAULT_POLICY
  }

  predicate IsInvalidated(periods: seq<DevicePeriod>, device: Option<string>, at: int)
  {
    exists p | p in periods :: Covers(p, device, at)
  }

  function OwnTrust(o: Inspection, at: int, policies: Policies, periods: seq<DevicePeriod>): TrustResult
  {
    EvaluateTrust(o, PolicyFor(policies, o.controlPoint), true, IsInvalidated(periods, o.device, at), false)
  }

  function Observe(policies: Policies, periods: seq<DevicePeriod>): Event -> Option<Observation>
  {
    (e: Event) =>
      match e.payload
      case InspectionDone(o) =>
        var t := OwnTrust(o, e.occurredAt, policies, periods);
        Some(Observation(e.eventId, e.runId, e.occurredAt, o, t.status, t.reasons))
      case _ => None
  }

  /* ---- the conflict pass ---- */

  datatype SessionKey = Session(id: string) | Bucket(number: int)

  datatype GroupKey = GroupKey(session: SessionKey, controlPoint: string, component: Option<string>)

  /** Equivalent observations: same capture session or same 300-second bucket, same control point and component. */
  function KeyOf(o: Observation): GroupKey
  {
    GroupKey(
      if Given(o.inspection.session) then Session(o.inspection.session.value) else Bucket(o.at / 300_000_000),
      o.inspection.controlPoint, o.inspection.component)
  }

  predicate Contradicted(os: seq<Observation>, o: Observation)
  {
    exists p | p in os :: KeyOf(p) == KeyOf(o) && p.inspection.result != o.inspection.result
  }

  function AsConflicted(o: Observation): Observation
  {
    o.(trust := Conflicted, reasons := ["EQUIVALENT_OBSERVATIONS_CONFLICT"])
  }

  function MarkConflicts(os: seq<Observation>): (r: seq<Observation>)
    ensures |r| == |os|
  {
    seq(|os|, i requires 0 <= i < |os| => if Contradicted(os, os[i]) then AsConflicted(os[i]) else os[i])
  }

  lemma MoreThanOne(s: set<InspectionResult>)
    ensures |s| > 1 <==> exists a, b :: a in s && b in s && a != b
  {
    if s != {} {
      var a :| a in s;
      assert s == {a} + (s - {a});
      if |s| > 1 {
        var b :| b in s - {a};
      }
      if x, y :| x in s && y in s && x != y {
        assert {x, y} <= s;
        assert |s - {x, y}| == |s| - 2;
      }
    }
  }

  /** groups.setdefault(key, []).append(obs), with indices standing for the shared dicts. */
  method GroupObservations(os: seq<Observation>) returns (groups: map<GroupKey, seq<nat>>, keys: seq<GroupKey>)
    ensures forall i | 0 <= i < |os| :: KeyOf(os[i]) in groups && i in groups[KeyOf(os[i])]
    ensures forall key | key in groups :: forall i | i in groups[key] :: i < |os| && KeyOf(os[i]) == key
    ensures forall key :: key in keys <==> key in groups
  {
    groups, keys := map[], [];
    for n := 0 to |os|
      invariant forall i | 0 <= i < n :: KeyOf(os[i]) in groups && i in groups[KeyOf(os[i])]
      invariant forall key | key in groups :: forall i | i in groups[key] :: i < n && KeyOf(os[i]) == key
      invariant forall key :: key in keys <==> key in groups
    {
      var key := KeyOf(os[n]);
      if key !in groups {
        groups := groups[key := []];
        keys := keys + [key];
      }
      groups := groups[key := groups[key] + [n]];
    }
  }

  /** The members of one group contradict each other exactly when the group holds two results. */
  lemma GroupDisagrees(os: seq<Observation>, key: GroupKey, group: seq<nat>, n: nat)
    requires forall i | i in group :: i < |os| && KeyOf(os[i]) == key
    requires forall i | 0 <= i < |os| && KeyOf(os[i]) == key :: i in group
    requires n < |os| && KeyOf(os[n]) == key
    ensures Contradicted(os, os[n]) <==> |set i | i in group :: os[i].inspection.result| > 1
  {
    var results := set i | i in group :: os[i].inspection.result;
    MoreThanOne(results);
    assert os[n].inspection.result in results;
    if Contradicted(os, os[n]) {
      var p :| p in os && KeyOf(p) == key && p.inspection.result != os[n].inspection.result;
      var j :| 0 <= j < |os| && os[j] == p;
      assert p.inspection.result in results;
    }
    if x :| x in results && x != os[n].inspection.result {
      var j :| j in group && os[j].inspection.result == x;
      assert os[j] in os;
    }
  }

  method MarkGroup(os: seq<Observation>, group: seq<nat>) returns (r: seq<Observation>)
    requires forall i | i in group :: i < |os|
    ensures |r| == |os|
    ensures forall i | 0 <= i < |os| :: r[i] == if i in group then AsConflicted(os[i]) else os[i]
  {
    r := os;
    for g := 0 to |group|
      invariant |r| == |os|
      invariant forall i | 0 <= i < |os| :: r[i] == if i in group[..g] then AsConflicted(os[i]) else os[i]
    {
      assert group[..g + 1] == group[..g] + [group[g]];
      var i := group[g];
      assert i in group;
      r := r[i := r[i].(trust := Conflicted, reasons := ["EQUIVALENT_OBSERVATIONS_CONFLICT"])];
    }
    assert group[..|group|] == group;
  }

  /** One turn of the loop over groups.values(). */
  method ResolveGroup(
    os: seq<Observation>, now: seq<Observation>, key: GroupKey, group: seq<nat>) returns (r: seq<Observation>)
    requires |now| == |os|
    requires forall i | i in group :: i < |os| && KeyOf(os[i]) == key
    requires forall i | 0 <= i < |os| && KeyOf(os[i]) == key :: i in group
    ensures |r| == |os|
    ensures forall i | 0 <= i < |os| ::
              r[i] == if KeyOf(os[i]) == key && Contradicted(os, os[i]) then AsConflicted(now[i]) else now[i]
  {
    forall i | 0 <= i < |os| && KeyOf(os[i]) == key
      ensures Contradicted(os, os[i]) <==> |set j | j in group :: os[j].inspection.result| > 1
    {
      GroupDisagrees(os, key, group, i);
    }
    r := now;
    if |set j | j in group :: os[j].inspection.result| > 1 {
      r := MarkGroup(now, group);
    }
  }

  method MarkConflictGroups(os: seq<Observation>) returns (r: seq<Observation>)
    ensures r == MarkConflicts(os)
  {
    var groups, keys := GroupObservations(os);
    r := os;
    for k := 0 to |keys|
      invariant |r| == |os|
      invariant forall i | 0 <= i < |os| ::
                  r[i] == if KeyOf(os[i]) in keys[..k] && Contradicted(os, os[i]) then AsConflicted(os[i]) else os[i]
    {
      assert forall x :: x in keys[..k + 1] <==> x in keys[..k] || x == keys[k];
      r := ResolveGroup(os, r, keys[k], groups[keys[k]]);
    }
    assert keys[..|keys|] == keys;
  }

  /* ---- the whole replay ---- */

  function MachineOf(): Event -> Option<MachineRow>
  {
    (e: Event) =>
      match e.payload
      case MachineState(m) => Some(MachineRow(e.eventId, e.runId, e.occurredAt, m))
      case _ => None
  }

  function ActionOf(): Event -> Option<ActionRow>
  {
    (e: Event) =>
      match e.payload
      case OperatorAction(a) => Some(ActionRow(e.eventId, e.runId, e.occurredAt, a))
      case _ => None
  }

  function RegistrationOf(events: seq<Event>): Option<(Registration, int)>
  {
    if events == [] then None
    else match events[|events| - 1].payload
      case ItemRegistered(r) => Some((r, events[|events| - 1].occurredAt))
      case _ => RegistrationOf(events[..|events| - 1])
  }

  /** From-scratch replay of events already in business order. */
  function Replayed(events: seq<Event>, policies: Policies, periods: seq<DevicePeriod>): Projection
  {
    Projection(
      RegistrationOf(events), RunsOf(events), MarkConflicts(FilterMap(events, Observe(policies, periods))),
      FilterMap(events, MachineOf()), FilterMap(events, ActionOf()))
  }

  lemma FoldSnoc(events: seq<Event>, e: Event, policies: Policies, periods: seq<DevicePeriod>)
    ensures var all := events + [e];
            && RegistrationOf(all) ==
              (if e.payload.ItemRegistered? then Some((e.payload.registration, e.occurredAt))
                else RegistrationOf(events))
            && RunsOf(all) == RunStep(RunsOf(events), e)
            && FilterMap(all, Observe(policies, periods)) == FilterMap(events, Observe(policies, periods)) +
                 (match Observe(policies, periods)(e) case None => [] case Some(o) => [o])
            && FilterMap(all, MachineOf()) ==
              FilterMap(events, MachineOf()) + (match MachineOf()(e) case None => [] case Some(m) => [m])
            && FilterMap(all, ActionOf()) ==
              FilterMap(events, ActionOf()) + (match ActionOf()(e) case None => [] case Some(a) => [a])
  {
    assert (events + [e])[..|events|] == events;
  }

  lemma FoldNothing(policies: Policies, periods: seq<DevicePeriod>)
    ensures RegistrationOf([]) == None && RunsOf([]) == []
    ensures FilterMap([], Observe(policies, periods)) == [] && FilterMap([], MachineOf()) == [] &&
            FilterMap([], ActionOf()) == []
  {
  }

  method ReplayEvents(events: seq<Event>, policies: Policies, periods: seq<DevicePeriod>) returns (p: Projection)
    ensures p == Replayed(events, policies, periods)
  {
    hide RunsOf, RegistrationOf, FilterMap, MarkConflicts, EvaluateTrust;
    FoldNothing(policies, periods);
    var registration: Option<(Registration, int)> := None;
    var runs, observations, machines, actions := [], [], [], [];
    for n := 0 to |events|
      invariant registration == RegistrationOf(events[..n])
      invariant runs == RunsOf(events[..n])
      invariant observations == FilterMap(events[..n], Observe(policies, periods))
      invariant machines == FilterMap(events[..n], MachineOf())
      invariant actions == FilterMap(events[..n], ActionOf())
    {
      var e := events[n];
      assert events[..n + 1] == events[..n] + [e];
      FoldSnoc(events[..n], e, policies, periods);
      match e.payload
      case ItemRegistered(r) =>
        registration := Some((r, e.occurredAt));
      case OperationStarted(s) =>
        runs := WithRun(runs, RunIdOf(e));
        var i := IndexOfRun(runs, RunIdOf(e));
        runs := runs[i := StartedRun(runs[i], s, e)];
      case OperationFinished(f) =>
        runs := WithRun(runs, RunIdOf(e));
        var i := IndexOfRun(runs, RunIdOf(e));
        runs := runs[i := FinishedRun(runs[i], f, e)];
      case InspectionDone(o) =>
        var t := OwnTrust(o, e.occurredAt, policies, periods);
        observations := observations + [Observation(e.eventId, e.runId, e.occurredAt, o, t.status, t.reasons)];
      case MachineState(m) =>
        machines := machines + [MachineRow(e.eventId, e.runId, e.occurredAt, m)];
      case OperatorAction(a) =>
        actions := actions + [ActionRow(e.eventId, e.runId, e.occurredAt, a)];
      case DeviceInvalidated(_) =>
    }
    assert events[..|events|] == events;
    observations := MarkConflictGroups(observations);
    p := Projection(registration, runs, observations, machines, actions);
  }

  /* ---- trust after the conflict pass, and its behaviour under invalidation ---- */

  /** After the conflict pass an observation is TRUSTED exactly when it was before and its group is unanimous. */
  lemma TrustedAfterConflicts(os: seq<Observation>, i: nat)
    requires i < |os|
    ensures MarkConflicts(os)[i].trust.Trusted? <==>
            && os[i].trust.Trusted?
            && forall p | p in os && KeyOf(p) == KeyOf(os[i]) :: p.inspection.result == os[i].inspection.result
    ensures MarkConflicts(os)[i].(trust := os[i].trust, reasons := os[i].reasons) == os[i]
  {
  }

  /** Two observations that differ at most in trust. */
  predicate SameFact(a: Observation, b: Observation)
  {
    a.(trust := b.trust, reasons := b.reasons) == b
  }

  lemma SameFactSameKey(a: Observation, b: Observation)
    requires SameFact(a, b)
    ensures KeyOf(a) == KeyOf(b) && a.inspection == b.inspection
  {
  }

  lemma MarkConflictsAligned(few: seq<Observation>, many: seq<Observation>)
    requires |few| == |many| && forall i | 0 <= i < |few| :: SameFact(few[i], many[i])
    ensures forall i | 0 <= i < |few| :: Contradicted(few, few[i]) <==> Contradicted(many, many[i])
  {
    hide KeyOf;
    forall i | 0 <= i < |few| ensures KeyOf(few[i]) == KeyOf(many[i]) && few[i].inspection == many[i].inspection {
      SameFactSameKey(few[i], many[i]);
    }
    forall i | 0 <= i < |few| ensures Contradicted(few, few[i]) <==> Contradicted(many, many[i]) {
      if Contradicted(few, few[i]) {
        var p :| p in few && KeyOf(p) == KeyOf(few[i]) && p.inspection.result != few[i].inspection.result;
        var j :| 0 <= j < |few| && few[j] == p;
        assert many[j] in many && SameFact(few[j], many[j]);
      }
      if Contradicted(many, many[i]) {
        var p :| p in many && KeyOf(p) == KeyOf(many[i]) && p.inspection.result != many[i].inspection.result;
        var j :| 0 <= j < |many| && many[j] == p;
        assert few[j] in few && SameFact(few[j], many[j]);
      }
    }
  }

  /** A replayed observation is TRUSTED exactly when its own evaluation is TRUSTED and no observation of its
      group contradicts it. */
  lemma TrustedExactlyWhen(events: seq<Event>, policies: Policies, periods: seq<DevicePeriod>, i: nat)
    requires i < |Replayed(events, policies, periods).observations|
    ensures var os := Replayed(events, policies, periods).observations;
            os[i].trust.Trusted? <==>
            OwnTrust(os[i].inspection, os[i].at, policies, periods).status.Trusted? && !Contradicted(os, os[i])
  {
    var raw := FilterMap(events, Observe(policies, periods));
    MarkConflictsAligned(raw, MarkConflicts(raw));
    FilterMapMembers(events, Observe(policies, periods), raw[i]);
  }

  /** Every period in few is in many. */
  ghost predicate Included(few: seq<DevicePeriod>, many: seq<DevicePeriod>)
  {
    forall p | p in few :: p in many
  }

  lemma OwnTrustAntitone(o: Inspection, at: int, policies: Policies, few: seq<DevicePeriod>, many: seq<DevicePeriod>)
    requires Included(few, many)
    requires OwnTrust(o, at, policies, many).status.Trusted?
    ensures OwnTrust(o, at, policies, few) == OwnTrust(o, at, policies, many)
  {
    assert !IsInvalidated(many, o.device, at);
    assert !IsInvalidated(few, o.device, at);
  }

  /** More device invalidations only shrink the TRUSTED set: facts and positions stay, and whatever is TRUSTED
      under more invalidations is the very same observation under fewer. */
  lemma InvalidationAntitone(events: seq<Event>, policies: Policies, few: seq<DevicePeriod>, many: seq<DevicePeriod>)
    requires Included(few, many)
    ensures var a, b := Replayed(events, policies, few).observations, Replayed(events, policies, many).observations;
            && |a| == |b|
            && forall i | 0 <= i < |a| :: SameFact(a[i], b[i]) && (b[i].trust.Trusted? ==> a[i] == b[i])
  {
    var f, g := Observe(policies, few), Observe(policies, many);
    FilterMapAligned(events, f, g);
    var x, y := FilterMap(events, f), FilterMap(events, g);
    forall i | 0 <= i < |x| ensures SameFact(x[i], y[i]) && (y[i].trust.Trusted? ==> x[i] == y[i]) {
      var e :| e in events && f(e) == Some(x[i]) && g(e) == Some(y[i]);
      if y[i].trust.Trusted? {
        OwnTrustAntitone(e.payload.inspection, e.occurredAt, policies, few, many);
      }
    }
    MarkConflictsAligned(x, y);
  }

  /** For a given defect the left boundary under more invalidations is no later: it moves earlier or opens. */
  lemma InvalidationWidensWindow(
    events: seq<Event>, policies: Policies, few: seq<DevicePeriod>, many: seq<DevicePeriod>, d: DefectAt)
    requires Included(few, many)
    ensures LeftNoLater(LeftBoundary(Replayed(events, policies, many).observations, d),
                        LeftBoundary(Replayed(events, policies, few).observations, d))
  {
    var a, b := Replayed(events, policies, few).observations, Replayed(events, policies, many).observations;
    InvalidationAntitone(events, policies, few, many);
    forall o | o in b && CoveringGood(o, d) ensures exists p :: p in a && CoveringGood(p, d) && p.at == o.at {
      var i :| 0 <= i < |b| && b[i] == o;
      assert a[i] in a;
    }
    LeftMonotone(b, a, d);
  }

  /** A derived trust that a further invalidation of the device cannot change. */
  predicate Settled(t: TrustStatus)
  {
    t.Unassessable? || t.Invalidated? || t.Conflicted?
  }

  lemma OwnTrustChangesIff(o: Inspection, at: int, policies: Policies, periods: seq<DevicePeriod>, p: DevicePeriod)
    ensures !OwnTrust(o, at, policies, periods).status.Conflicted?
    ensures OwnTrust(o, at, policies, periods + [p]) == OwnTrust(o, at, policies, periods) <==>
            (Covers(p, o.device, at) ==> Settled(OwnTrust(o, at, policies, periods).status))
  {
    assert IsInvalidated(periods + [p], o.device, at) <==>
        IsInvalidated(periods, o.device, at) || Covers(p, o.device, at);
  }

  /** What a new invalidation period changes: replay is as before exactly when every observation the period covers was
      already unassessable, invalidated or conflicted. */
  lemma PeriodChangesReplayIff(events: seq<Event>, policies: Policies, periods: seq<DevicePeriod>, p: DevicePeriod)
    ensures Replayed(events, policies, periods + [p]) == Replayed(events, policies, periods) <==>
            forall o | o in Replayed(events, policies, periods).observations && Covers(p, o.inspection.device, o.at) ::
              Settled(o.trust)
  {
    var f, g := Observe(policies, periods), Observe(policies, periods + [p]);
    FilterMapAligned(events, f, g);
    var x, y := FilterMap(events, f), FilterMap(events, g);
    var a, b := MarkConflicts(x), MarkConflicts(y);
    forall i | 0 <= i < |x|
      ensures SameFact(x[i], y[i]) && !x[i].trust.Conflicted?
      ensures x[i] == y[i] <==> (Covers(p, x[i].inspection.device, x[i].at) ==> Settled(x[i].trust))
    {
      var e :| e in events && f(e) == Some(x[i]) && g(e) == Some(y[i]);
      OwnTrustChangesIff(e.payload.inspection, e.occurredAt, policies, periods, p);
    }
    MarkConflictsAligned(x, y);
    forall i | 0 <= i < |a|
      ensures a[i] == b[i] <==> (Covers(p, a[i].inspection.device, a[i].at) ==> Settled(a[i].trust))
    {
    }
    if a == b {
      forall o | o in a && Covers(p, o.inspection.device, o.at) ensures Settled(o.trust) {
        var i :| 0 <= i < |a| && a[i] == o;
      }
    }
    if forall o | o in a && Covers(p, o.inspection.device, o.at) :: Settled(o.trust) {
      forall i | 0 <= i < |a| ensures a[i] == b[i] {
        assert a[i] in a;
      }
    }
  }
}
