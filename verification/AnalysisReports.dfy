/** What the current analysis of a defect reports, over whole runs: its boundaries, its evidence, and which of several
    defect observations it names. */
module AnalysisReports {
  import opened Basics
  import opened Sorting
  import opened Events
  import opened BirthWindow
  import opened Replay
  import opened Routes
  import opened Limitations
  import opened DefectBook
  import opened RawLog
  import opened Store
  import opened Ingestion
  import opened Projections
  import opened DeliveryOrder
  import opened Release
  import opened ReleaseRuns

  /* ---- the finding a projection asks for ---- */

  /** What the last trusted or invalidated sighting of a key finds. Limitations are evidence and find nothing. */
  function ReportFor(p: Projection, defectType: string, component: Option<string>): Option<Finding>
  {
    var o := LastDecided(OutcomesFor(Sightings(p.observations, p, []), defectType, component));
    if o.Undecided? then None else Some(Expected(o))
  }

  /** The cached rows as a projection. */
  function Shown(v: Views): Projection
  {
    Projection(None, v.runs, v.observations, v.machines, v.actions)
  }

  predicate SameReport(a: Outcome, b: Outcome)
  {
    if a.Undecided? || b.Undecided? then a == b else Expected(a) == Expected(b)
  }

  ghost predicate SameReports(a: seq<Sighting>, b: seq<Sighting>)
  {
    && |a| == |b|
    && forall k | 0 <= k < |a| ::
         a[k].defectType == b[k].defectType && a[k].component == b[k].component &&
           SameReport(a[k].outcome, b[k].outcome)
  }

  lemma {:induction false} SameLastReport(
    a: seq<Sighting>, b: seq<Sighting>, defectType: string, component: Option<string>)
    requires SameReports(a, b)
    ensures SameReport(LastDecided(OutcomesFor(a, defectType, component)),
            LastDecided(OutcomesFor(b, defectType, component)))
  {
    hide SameReport;
    if a == [] {
      BothUndecided();
    } else {
      SameLastReport(a[..|a| - 1], b[..|b| - 1], defectType, component);
      var s, t := a[|a| - 1], b[|b| - 1];
      if Concerns(s, defectType, component) {
        LastDecidedSnoc(OutcomesFor(a[..|a| - 1], defectType, component), s.outcome);
        LastDecidedSnoc(OutcomesFor(b[..|b| - 1], defectType, component), t.outcome);
        BothDecided(s.outcome, t.outcome);
      } else {
        var before, other := OutcomesFor(a[..|a| - 1], defectType, component),
            OutcomesFor(b[..|b| - 1], defectType, component);
        assert before + [] == before && other + [] == other;
      }
    }
  }

  lemma BothUndecided()
    ensures SameReport(Undecided, Undecided)
  {
  }

  lemma BothDecided(a: Outcome, b: Outcome)
    requires SameReport(a, b)
    ensures a.Undecided? <==> b.Undecided?
  {
  }

  lemma LastDecidedSnoc(os: seq<Outcome>, o: Outcome)
    ensures LastDecided(os + [o]) == if o.Undecided? then LastDecided(os) else o
  {
    assert (os + [o])[..|os|] == os;
  }

  /** Two projections of the same rows, whatever their registrations. */
  predicate SameRows(p: Projection, q: Projection)
  {
    p.observations == q.observations && p.runs == q.runs && p.machines == q.machines && p.actions == q.actions
  }

  lemma {:induction false} SameDefectSightings(
    o: Observation, ds: seq<Defect>, p: Projection, q: Projection, few: seq<Evidence>, many: seq<Evidence>)
    requires SameRows(p, q)
    ensures SameReports(DefectSightings(o, ds, p, few), DefectSightings(o, ds, q, many))
  {
    if ds != [] {
      SameDefectSightings(o, ds[..|ds| - 1], p, q, few, many);
    }
  }

  lemma {:induction false} SameSightings(
    os: seq<Observation>, p: Projection, q: Projection, few: seq<Evidence>, many: seq<Evidence>)
    requires SameRows(p, q)
    ensures SameReports(Sightings(os, p, few), Sightings(os, q, many))
  {
    if os != [] {
      hide DefectSightings, SameReport;
      SameSightings(os[..|os| - 1], p, q, few, many);
      SameDefectSightings(os[|os| - 1], os[|os| - 1].inspection.defects, p, q, few, many);
    }
  }

  lemma ReportIgnores(
    p: Projection, q: Projection, limitations: seq<Evidence>, defectType: string, component: Option<string>)
    requires SameRows(p, q)
    ensures var o := LastDecided(OutcomesFor(Sightings(p.observations, p, limitations), defectType, component));
            ReportFor(q, defectType, component) == if o.Undecided? then None else Some(Expected(o))
  {
    hide Sightings, OutcomesFor, LastDecided, SameReports;
    SameSightings(p.observations, p, q, limitations, []);
    SameLastReport(Sightings(p.observations, p, limitations), Sightings(p.observations, q, []), defectType, component);
  }

  /* ---- every run ---- */

  predicate Ends(log: seq<Version>, f: Finding)
  {
    log != [] && FindingOf(log[|log| - 1]) == f
  }

  /** The open nonconformance of a key ends in what the cached rows of its item ask for. */
  predicate Reported(v: Views, b: Book, itemId: string, defectType: string, component: Option<string>)
  {
    HasOpen(b, itemId, defectType, component) && ReportFor(Shown(v), defectType, component).Some? ==>
      Ends(OpenLog(b, itemId, defectType, component), ReportFor(Shown(v), defectType, component).value)
  }

  ghost predicate Reports(db: Db)
  {
    forall i, t, c :: Reported(ViewsAt(db, i), db.book, i, t, c)
  }

  /** The logs of open keys are kept; keys may be closed. */
  ghost predicate KeepsLogs(b: Book, after: Book)
  {
    && |after.occurrences| == |b.occurrences| == |after.ncrs| == |b.ncrs|
    && forall k | 0 <= k < |b.ncrs| ::
         && after.ncrs[k].log == b.ncrs[k].log
         && SameKey(after.occurrences[k], b.occurrences[k]) && (after.occurrences[k].open ==> b.occurrences[k].open)
  }

  lemma KeptReported(v: Views, b: Book, after: Book, itemId: string, defectType: string, component: Option<string>)
    requires OneOpenPerKey(b) && KeepsLogs(b, after) && Reported(v, b, itemId, defectType, component)
    ensures Reported(v, after, itemId, defectType, component)
  {
    hide ReportFor;
    var k := OpenIndex(after.occurrences, itemId, defectType, component);
    if k < |after.occurrences| {
      assert SameKey(after.occurrences[k], b.occurrences[k]);
      OpenIndexUnique(b, k, itemId, defectType, component);
    }
  }

  lemma RebuildReported(db: Db, j: string, i: string, t: string, c: Option<string>)
    requires Sound(db.book) && Reported(ViewsAt(db, i), db.book, i, t, c)
    ensures Reported(ViewsAt(Rebuild(db, j), i), Rebuild(db, j).book, i, t, c)
  {
    hide ItemRows, FromScratch, RoutesAfter, LimitationsFor, MaxSeq, Sound, HasOpen, OpenLog, LinkAll, OutcomesFor,
         Sightings;
    hide LastDecided, ReportFor;
    if ItemRows(db.raws, j) != [] {
      var p := FromScratch(db, j);
      if i == j {
        ReportIgnores(p, Shown(ViewsOf(p)), LimitationsFor(db, j), t, c);
        if !LastDecided(OutcomesFor(SightingsFor(db, j), t, c)).Undecided? {
          AnalysisConverges(db.book, j, SightingsFor(db, j), t, c);
        }
      } else {
        LinkAllOther(db.book, j, SightingsFor(db, j), i, t, c);
      }
    }
  }

  lemma {:induction false} RecoveryReported(
    db: Db, ids: seq<string>, failing: set<string>, i: string, t: string, c: Option<string>)
    requires Sound(db.book) && Reported(ViewsAt(db, i), db.book, i, t, c)
    ensures var after := RecoverEach(db, ids, failing); Reported(ViewsAt(after, i), after.book, i, t, c)
  {
    if ids != [] {
      hide Rebuild, Reported, Sound, Reanalysed;
      var before, id := RecoverEach(db, ids[..|ids| - 1], failing), ids[|ids| - 1];
      RecoveryReported(db, ids[..|ids| - 1], failing, i, t, c);
      RecoveryReanalyses(db, ids[..|ids| - 1], failing);
      if id !in failing {
        RebuildReported(before, id, i, t, c);
      }
    }
  }

  lemma BackgroundReported(c: Config, db: Db, s: C.Step, i: string, t: string, k: Option<string>)
    requires Sound(db.book) && !s.Elsewhere? && Reported(ViewsAt(db, i), db.book, i, t, k)
    ensures var after := C.Perform(c, db, s); Reported(ViewsAt(after, i), after.book, i, t, k)
  {
    hide Rebuild, RecoverEach, Reported, Sound, StopAt;
    match s
    case Deliver(d) =>
      IngestReads(c, db, d);
      assert Ingest(c, db, d).book == db.book;
    case RebuildOk(j) => RebuildReported(db, j, i, t, k);
    case RebuildFails(_) =>
    case Recover(picked, failing) => RecoveryReported(db, picked, failing, i, t, k);
    case Invalidate(p, affected, failing) =>
      var n := StopAt(affected, failing);
      if n > 0 || affected == [] { RecoveryReported(WithPeriod(db, p), affected[..n], {}, i, t, k); }
  }

  /** Requests to the desk change nothing but the book, and keep the logs. */
  ghost predicate DeskOnly(db: Db, after: Db)
  {
    after == db.(book := after.book) && KeepsLogs(db.book, after.book)
  }

  lemma DeskOnlyTransitive(a: Db, b: Db, c: Db)
    requires DeskOnly(a, b) && DeskOnly(b, c)
    ensures DeskOnly(a, c)
  {
  }

  lemma WithNcrKeeps(db: Db, j: nat, n: Ncr)
    requires Paired(db.book) && j < |db.book.ncrs| && n.log == db.book.ncrs[j].log
    ensures DeskOnly(db, WithNcr(db, j, n))
  {
  }

  lemma CreatedKeeps(o: Office, j: nat, d: nat, now: int)
    requires |o.db.book.ncrs| == |o.db.book.occurrences| && j < |o.db.book.ncrs| && d < |o.decisions|
    requires Created(o, j, d, now).Done?
    ensures DeskOnly(o.db, Created(o, j, d, now).office.db)
  {
    hide ResultOf, AuthorizeError, WithStatus, PayloadFor;
  }

  lemma DecideKeeps(o: Office, j: nat, v: Verdict, d: Disposition, k: Containment, now: int)
    requires Paired(o.db.book) && Decided(o, j, v, d, k, now).Done?
    ensures DeskOnly(o.db, Decided(o, j, v, d, k, now).office.db)
  {
    hide EvidenceFailed, Created, Latest, WithStatus, DeskOnly;
    var written := DecisionWritten(o, j, v, d, k);
    WithNcrKeeps(o.db, j, DecidedNcr(o.db.book.ncrs[j], v, d, k));
    if Exportable(d) {
      CreatedKeeps(written, j, |o.decisions|, now);
      DeskOnlyTransitive(o.db, written.db, Created(written, j, |o.decisions|, now).office.db);
    }
  }

  lemma VerifyKeeps(o: Office, j: nat, passed: bool, now: int)
    requires Paired(o.db.book) && Verified(o, j, passed, now).Done?
    ensures DeskOnly(o.db, Verified(o, j, passed, now).office.db)
  {
    hide EvidenceFailed, Created, Latest, EffectivePass, ReworkFinish, DeskOnly;
    var pass := EffectivePass(o, j, passed);
    var written := VerificationWritten(o, j, pass);
    WithNcrKeeps(o.db, j, VerifiedNcr(o.db.book.ncrs[j], pass));
    if pass {
      CreatedKeeps(written, j, |o.decisions|, now);
      DeskOnlyTransitive(o.db, written.db, Created(written, j, |o.decisions|, now).office.db);
    }
  }

  lemma NothingKeeps(db: Db)
    requires Paired(db.book)
    ensures DeskOnly(db, db)
  {
  }

  lemma DeskKeeps(c: Config, o: Office, a: ReleaseRuns.Action)
    requires Paired(o.db.book) && !a.Background?
    ensures DeskOnly(o.db, Act(c, o, a).db)
  {
    hide EvidenceFailed, Latest, Decided, Verified, DeskOnly;
    NothingKeeps(o.db);
    match a
    case Review(j, v) =>
      if Reviewed(o, j, v).Done? { WithNcrKeeps(o.db, j, o.db.book.ncrs[j].(verdict := v)); }
    case Decide(j, v, d, k, now) =>
      if Decided(o, j, v, d, k, now).Done? { DecideKeeps(o, j, v, d, k, now); }
    case VerifyRework(j, passed, now) =>
      if Verified(o, j, passed, now).Done? { VerifyKeeps(o, j, passed, now); }
    case RequestInspection(j) =>
      if j < |o.db.book.ncrs| {
        var asked := o.db.book.ncrs[j].(verdict := NeedsExtraCheck, containment := ReinspectionRequired);
        WithNcrKeeps(o.db, j, asked);
      }
    case ApproveContainment(j, k) =>
      if j < |o.db.book.ncrs| { WithNcrKeeps(o.db, j, o.db.book.ncrs[j].(containment := k)); }
  }

  lemma CoherentWithBook(db: Db, after: Db)
    requires Coherent(db) && DeskOnly(db, after)
    ensures Coherent(after)
  {
    hide CoherentExcept, KeepsLogs;
    C.CoherentByTables(db, after, {});
  }

  /** Cache and logs agree: the cache with replay, the open logs with the cache. */
  ghost predicate Settles(o: Office)
  {
    Filed(o) && Coherent(o.db) && Reports(o.db)
  }

  lemma ActSettles(c: Config, o: Office, a: ReleaseRuns.Action)
    requires Settles(o)
    ensures Settles(Act(c, o, a))
  {
    hide Filed, Coherent, Reported, Act, C.Perform, C.Possible;
    ActFiled(c, o, a);
    FiledSound(o);
    if a.Background? {
      ActBackground(c, o, a);
      if Act(c, o, a) != o {
        C.StepCoherent(c, o.db, a.step);
        forall i, t, k ensures Reported(ViewsAt(Act(c, o, a).db, i), Act(c, o, a).db.book, i, t, k) {
          assert Reported(ViewsAt(o.db, i), o.db.book, i, t, k);
          BackgroundReported(c, o.db, a.step, i, t, k);
        }
      }
    } else {
      DeskKeeps(c, o, a);
      CoherentWithBook(o.db, Act(c, o, a).db);
      forall i, t, k ensures Reported(ViewsAt(Act(c, o, a).db, i), Act(c, o, a).db.book, i, t, k) {
        assert Reported(ViewsAt(o.db, i), o.db.book, i, t, k);
        KeptReported(ViewsAt(o.db, i), o.db.book, Act(c, o, a).db.book, i, t, k);
      }
    }
  }

  lemma FiledSound(o: Office)
    requires Filed(o)
    ensures Sound(o.db.book) && Paired(o.db.book) && OneOpenPerKey(o.db.book)
  {
  }

  lemma ActBackground(c: Config, o: Office, a: ReleaseRuns.Action)
    requires a.Background?
    ensures Act(c, o, a) == o ||
            (C.Possible(o.db, a.step) && !a.step.Elsewhere? && Act(c, o, a) == o.(db := C.Perform(c, o.db, a.step)))
  {
    hide C.Perform, C.Possible;
  }

  /** Nothing ingested, projected or decided. */
  ghost predicate Blank(o: Office)
  {
    && o.db.raws == [] && o.db.states == map[] && o.db.views == map[] && o.db.book == Book([], [])
    && o.decisions == [] && o.results == [] && o.outbox == []
  }

  lemma BlankSettles(o: Office)
    requires Blank(o)
    ensures Settles(o)
  {
    forall i ensures ItemRows([], i) == [] { }
    forall i, t, k ensures Reported(ViewsAt(o.db, i), o.db.book, i, t, k) { }
  }

  lemma {:induction false} RunsSettle(c: Config, start: Office, acts: seq<ReleaseRuns.Action>)
    requires Blank(start)
    ensures Settles(ActAll(c, start, acts))
  {
    hide Act, Settles;
    if acts == [] {
      BlankSettles(start);
    } else {
      RunsSettle(c, start, acts[..|acts| - 1]);
      ActSettles(c, ActAll(c, start, acts[..|acts| - 1]), acts[|acts| - 1]);
    }
  }

  /** If the item is up to date, the key open and a sighting of it decided, the log ends in what replay from scratch
      finds for the last such sighting. */
  predicate Converged(db: Db, itemId: string, defectType: string, component: Option<string>)
  {
    var expected := ReportFor(FromScratch(db, itemId), defectType, component);
    itemId in db.states && db.states[itemId].status.UpToDate?
    && HasOpen(db.book, itemId, defectType, component) && expected.Some? ==>
      Ends(OpenLog(db.book, itemId, defectType, component), expected.value)
  }

  /** In every run of deliveries, rebuilds, invalidations and decisions from blank tables: the analysis log of every
      open key of an up-to-date item ends in the status and boundaries that a from-scratch replay of all the item's raw
      events under all invalidations finds for the key's last trusted or invalidated sighting. */
  lemma OpenKeysReported(
    c: Config, start: Office, acts: seq<ReleaseRuns.Action>, itemId: string, defectType: string,
      component: Option<string>)
    requires Blank(start)
    ensures Converged(ActAll(c, start, acts).db, itemId, defectType, component)
  {
    hide ActAll, FromScratch, ItemRows, HasOpen, OpenLog, ReportFor, Filed;
    RunsSettle(c, start, acts);
    var db := ActAll(c, start, acts).db;
    if itemId in db.states && db.states[itemId].status.UpToDate? {
      var p := FromScratch(db, itemId);
      assert Agrees(db, itemId);
      ReportSame(p, Shown(ViewsAt(db, itemId)), defectType, component);
      assert Reported(ViewsAt(db, itemId), db.book, itemId, defectType, component);
    }
  }

  lemma ReportSame(p: Projection, q: Projection, defectType: string, component: Option<string>)
    requires SameRows(p, q)
    ensures ReportFor(p, defectType, component) == ReportFor(q, defectType, component)
  {
    ReportIgnores(p, q, [], defectType, component);
  }

  /* ---- evidence of the current analysis ---- */

  /** A rebuild leaves the current analysis of a key with the evidence of its last decided sighting exactly when that
      sighting changed the finding, or the version it found carried that evidence already. Otherwise the evidence is the
      older version's, although the cached rows have moved on. */
  lemma RebuildEvidenceIff(db: Db, itemId: string, defectType: string, component: Option<string>)
    requires Sound(db.book) && ItemRows(db.raws, itemId) != []
    requires !LastDecided(OutcomesFor(SightingsFor(db, itemId), defectType, component)).Undecided?
    ensures var os := OutcomesFor(SightingsFor(db, itemId), defectType, component);
            var last := LastDecided(os);
            var before := AmendAll(OpenLog(db.book, itemId, defectType, component), BeforeLast(os));
            var log := OpenLog(Rebuild(db, itemId).book, itemId, defectType, component);
            && log != []
            && (log[|log| - 1].evidence == EvidenceOf(last) <==>
                || before == []
                || FindingOf(before[|before| - 1]) != Expected(last)
                || before[|before| - 1].evidence == EvidenceOf(last))
  {
    hide FromScratch, ItemRows, ViewsOf, LinkAll, SightingsFor, RoutesAfter, OutcomesFor, MaxSeq, LastDecided, AmendAll;
    LogsFactor(db.book, itemId, SightingsFor(db, itemId), defectType, component);
    assert GoodLog(OpenLog(db.book, itemId, defectType, component));
    EvidenceFreshIff(OpenLog(db.book, itemId, defectType, component),
      OutcomesFor(SightingsFor(db, itemId), defectType, component));
  }

  /* ---- the first trusted defect of a key ---- */

  predicate HasDefect(o: Observation, ds: seq<Defect>, defectType: string, component: Option<string>)
  {
    exists d | d in ds :: d.defectType == defectType && Or(d.component, o.inspection.component) == component
  }

  /** A trusted defect observation of the key. */
  predicate Carries(o: Observation, defectType: string, component: Option<string>)
  {
    o.trust.Trusted? && o.inspection.result.DefectDetected? && HasDefect(o, o.inspection.defects, defectType, component)
  }

  /** The first trusted defect observation of a key, or |os|. */
  function FirstCarrier(os: seq<Observation>, defectType: string, component: Option<string>): (k: nat)
    ensures k <= |os|
    ensures k < |os| ==> Carries(os[k], defectType, component)
    ensures forall j | 0 <= j < k :: !Carries(os[j], defectType, component)
  {
    if os == [] || Carries(os[0], defectType, component) then 0 else 1 + FirstCarrier(os[1..], defectType, component)
  }

  const FIRST := "FIRST_TRUSTED_DEFECT"

  /** Every window names the observation it was computed for as the first trusted defect, and no other. */
  lemma FirstDefectEntry(
    d: DefectAt, os: seq<Observation>, runs: seq<Run>, machines: seq<MachineRow>, actions: seq<ActionRow>,
    limitations: seq<Evidence>, e: Evidence)
    requires forall l | l in limitations :: l.kind == "MISSING_CHECK"
    ensures e in WindowOf(d, os, runs, machines, actions, limitations).evidence && e.kind == FIRST <==>
            e == FirstDefect(d)
  {
    EvidenceExact(d, os, runs, machines, actions, limitations, e);
    assert FIRST[0] == 'F' && "LAST_TRUSTED_GOOD"[0] == 'L' && "OPERATION_IN_WINDOW"[0] == 'O' &&
        "MACHINE_WARNING"[0] == 'M';
    assert "OPERATOR_ACTION"[0] == 'O' && "CONFLICTING_OBSERVATION"[0] == 'C' && "DEVICE_VALIDITY"[0] == 'D';
    assert "POOR_OBSERVATION"[0] == 'P' && "MISSING_CHECK"[0] == 'M';
    assert FirstDefect(d) in BoundaryEvidence(os, d);
  }

  lemma OnlyMissingChecks(steps: seq<Routes.Step>, runs: seq<Run>, os: seq<Observation>)
    ensures forall l | l in MissingChecks(steps, runs, os) :: l.kind == "MISSING_CHECK"
  {
    forall l | l in MissingChecks(steps, runs, os) ensures l.kind == "MISSING_CHECK" {
      MissingExact(steps, runs, os, |steps|, l);
    }
  }

  /** Replayed observations are in time order and have distinct event ids. */
  ghost predicate InOrder(os: seq<Observation>)
  {
    forall i, j | 0 <= i < j < |os| :: os[i].at <= os[j].at && os[i].eventId != os[j].eventId
  }

  ghost predicate EventsInOrder(es: seq<Event>)
  {
    forall i, j | 0 <= i < j < |es| :: es[i].occurredAt <= es[j].occurredAt && es[i].eventId != es[j].eventId
  }

  lemma {:induction false} ObservedInOrder(es: seq<Event>, policies: Policies, periods: seq<DevicePeriod>)
    requires EventsInOrder(es)
    ensures InOrder(FilterMap(es, Observe(policies, periods)))
  {
    hide OwnTrust;
    if es != [] {
      var init, last := es[..|es| - 1], es[|es| - 1];
      ObservedInOrder(init, policies, periods);
      var os := FilterMap(init, Observe(policies, periods));
      forall k | 0 <= k < |os| ensures os[k].at <= last.occurredAt && os[k].eventId != last.eventId {
        FilterMapMembers(init, Observe(policies, periods), os[k]);
        var e :| e in init && Observe(policies, periods)(e) == Some(os[k]);
        var j :| 0 <= j < |init| && init[j] == e;
        assert es[j] == e;
      }
    }
  }

  lemma ReplayInOrder(db: Db, itemId: string)
    requires DistinctIds(db.raws)
    ensures InOrder(FromScratch(db, itemId).observations)
  {
    hide ItemRows, InsertionSort, BusinessLe;
    var rows := ItemRows(db.raws, itemId);
    var sorted := InsertionSort(rows, BusinessOrder());
    BusinessOrderTotal();
    SortSorted(rows, BusinessOrder());
    FilteredOnce(db.raws, itemId);
    RearrangedRowsOnce(rows);
    forall i, j | 0 <= i < j < |sorted|
      ensures sorted[i].event.occurredAt <= sorted[j].event.occurredAt
    {
      assert BusinessOrder()(sorted[i], sorted[j]);
      BusinessRefines(sorted[i], sorted[j]);
    }
    ObservedInOrder(EventsOf(db.raws, itemId), db.policies, db.periods);
  }

  lemma RearrangedRowsOnce(rows: seq<RawEvent>)
    requires OncePerId(rows)
    ensures OncePerId(InsertionSort(rows, BusinessOrder()))
  {
    var s := InsertionSort(rows, BusinessOrder());
    RearrangedOnce(rows, s);
    forall i, j | 0 <= i < |s| && 0 <= j < |s| && i != j ensures s[i].event.eventId != s[j].event.eventId {
      SameElements(rows, s, s[i]);
      SameElements(rows, s, s[j]);
      var a :| 0 <= a < |rows| && rows[a] == s[i];
      var b :| 0 <= b < |rows| && rows[b] == s[j];
      assert s[i] != s[j];
    }
  }

  /** The window of the k-th observation of an item for one of its defects. */
  function WindowAt(db: Db, itemId: string, k: nat, d: Defect): Window
    requires k < |FromScratch(db, itemId).observations|
  {
    var p := FromScratch(db, itemId);
    WindowOf(DefectOf(p.observations[k], d), p.observations, p.runs, p.machines, p.actions, LimitationsFor(db, itemId))
  }

  /** The evidence FIRST_TRUSTED_DEFECT of a trusted sighting names the first trusted defect observation of its key, in
      business order, exactly when no earlier observation of the item is a trusted defect of that key. */
  lemma NamesFirstDefectIff(db: Db, itemId: string, k: nat, d: Defect)
    requires DistinctIds(db.raws) && k < |FromScratch(db, itemId).observations|
    requires var o := FromScratch(db, itemId).observations[k];
             o.trust.Trusted? && o.inspection.result.DefectDetected? && d in o.inspection.defects
    ensures var os := FromScratch(db, itemId).observations;
            var component := Or(d.component, os[k].inspection.component);
            var first := FirstCarrier(os, d.defectType, component);
            && first <= k
            && ((exists e :: e in WindowAt(db, itemId, k, d).evidence && e.kind == FIRST
                             && e.sourceEvent == Some(os[first].eventId))
                <==> forall j | 0 <= j < k :: !Carries(os[j], d.defectType, component))
  {
    hide Replayed, EventsOf, WindowOf, MissingChecks, StepsOf, RoutesAfter;
    var p := FromScratch(db, itemId);
    var os := p.observations;
    var component := Or(d.component, os[k].inspection.component);
    var first := FirstCarrier(os, d.defectType, component);
    assert Carries(os[k], d.defectType, component);
    ReplayInOrder(db, itemId);
    OnlyMissingChecks(StepsOf(RoutesAfter(db, itemId), itemId), p.runs, os);
    var entry := FirstDefect(DefectOf(os[k], d));
    forall e ensures e in WindowAt(db, itemId, k, d).evidence && e.kind == FIRST <==> e == entry {
      FirstDefectEntry(DefectOf(os[k], d), os, p.runs, p.machines, p.actions, LimitationsFor(db, itemId), e);
    }
    assert entry.sourceEvent == Some(os[first].eventId) <==> first == k;
  }

  /* ---- the right boundary of the current analysis ---- */

  predicate LastCarrierAt(os: seq<Observation>, defectType: string, component: Option<string>, at: int)
  {
    exists k | 0 <= k < |os| :: Carries(os[k], defectType, component) && os[k].at == at
                              && forall j | k < j < |os| :: !Carries(os[j], defectType, component)
  }

  lemma {:induction false} WindowsOfOne(
    o: Observation, ds: seq<Defect>, p: Projection, limitations: seq<Evidence>, defectType: string,
      component: Option<string>)
    ensures var last := LastDecided(OutcomesFor(DefectSightings(o, ds, p, limitations), defectType, component));
            && (last.Windowed? <==> o.trust.Trusted? && HasDefect(o, ds, defectType, component))
            && (last.Windowed? ==> last.window.right == o.at)
  {
    if ds != [] {
      hide WindowOf;
      var init, d := ds[..|ds| - 1], ds[|ds| - 1];
      assert ds == init + [d];
      WindowsOfOne(o, init, p, limitations, defectType, component);
      var before := OutcomesFor(DefectSightings(o, init, p, limitations), defectType, component);
      LastDecidedSnoc(before, OutcomeOf(o, d, p, limitations));
      assert before + [] == before;
      assert OutcomesFor(DefectSightings(o, ds, p, limitations), defectType, component) ==
             before + (if Concerns(SightingOf(o, d, p, limitations), defectType, component)
                       then [OutcomeOf(o, d, p, limitations)] else []);
    }
  }

  lemma {:induction false} OutcomesConcat(
    a: seq<Sighting>, b: seq<Sighting>, defectType: string, component: Option<string>)
    ensures OutcomesFor(a + b, defectType, component) ==
            OutcomesFor(a, defectType, component) + OutcomesFor(b, defectType, component)
  {
    if b == [] {
      assert a + b == a;
    } else {
      OutcomesConcat(a, b[..|b| - 1], defectType, component);
      assert (a + b)[..|a + b| - 1] == a + b[..|b| - 1];
    }
  }

  lemma {:induction false} LastDecidedConcat(a: seq<Outcome>, b: seq<Outcome>)
    ensures LastDecided(a + b) == if LastDecided(b).Undecided? then LastDecided(a) else LastDecided(b)
  {
    if b == [] {
      assert a + b == a;
    } else {
      LastDecidedConcat(a, b[..|b| - 1]);
      assert (a + b)[..|a + b| - 1] == a + b[..|b| - 1];
    }
  }

  lemma NothingSeen(defectType: string, component: Option<string>)
    ensures LastDecided(OutcomesFor([], defectType, component)) == Undecided
  {
  }

  /** The last decided sighting of a key is one of the last observation's, or one of those before. */
  lemma LastDecidedSplits(
    os: seq<Observation>, p: Projection, limitations: seq<Evidence>, defectType: string, component: Option<string>)
    requires os != []
    ensures var init, o := os[..|os| - 1], os[|os| - 1];
            var here := LastDecided(OutcomesFor(DefectSightings(o, o.inspection.defects, p, limitations), defectType, component));
            LastDecided(OutcomesFor(Sightings(os, p, limitations), defectType, component)) ==
            if o.inspection.result.DefectDetected? && !here.Undecided? then here
            else LastDecided(OutcomesFor(Sightings(init, p, limitations), defectType, component))
  {
    hide DefectSightings, OutcomesFor, LastDecided;
    var init, o := os[..|os| - 1], os[|os| - 1];
    var before, here := Sightings(init, p, limitations), DefectSightings(o, o.inspection.defects, p, limitations);
    OutcomesConcat(before, here, defectType, component);
    LastDecidedConcat(OutcomesFor(before, defectType, component), OutcomesFor(here, defectType, component));
    assert before + [] == before;
  }

  /** When the last decided sighting of a key is trusted, its window ends at the last trusted defect of the key. */
  lemma {:induction false} LastWindow(
    os: seq<Observation>, p: Projection, limitations: seq<Evidence>, defectType: string, component: Option<string>)
    requires LastDecided(OutcomesFor(Sightings(os, p, limitations), defectType, component)).Windowed?
    ensures LastCarrierAt(os, defectType, component,
              LastDecided(OutcomesFor(Sightings(os, p, limitations), defectType, component)).window.right)
  {
    if os == [] {
      NothingSeen(defectType, component);
    } else {
      hide DefectSightings, HasDefect, OutcomesFor, LastDecided, Sightings;
      var init, o := os[..|os| - 1], os[|os| - 1];
      LastDecidedSplits(os, p, limitations, defectType, component);
      WindowsOfOne(o, o.inspection.defects, p, limitations, defectType, component);
      if !Carries(o, defectType, component) {
        LastWindow(init, p, limitations, defectType, component);
        CarrierBefore(os, defectType, component,
          LastDecided(OutcomesFor(Sightings(init, p, limitations), defectType, component)).window.right);
      }
    }
  }

  lemma CarrierBefore(os: seq<Observation>, defectType: string, component: Option<string>, at: int)
    requires os != [] && LastCarrierAt(os[..|os| - 1], defectType, component, at)
    requires !Carries(os[|os| - 1], defectType, component)
    ensures LastCarrierAt(os, defectType, component, at)
  {
    hide Carries;
    var init := os[..|os| - 1];
    var k :| 0 <= k < |init| && Carries(init[k], defectType, component) && init[k].at == at
             && forall j | k < j < |init| :: !Carries(init[j], defectType, component);
    assert os[k] == init[k];
  }

  /** The right boundary of the current analysis of a key. */
  function CurrentRight(b: Book, itemId: string, defectType: string, component: Option<string>): Option<int>
  {
    var log := OpenLog(b, itemId, defectType, component);
    if log == [] then None else log[|log| - 1].right
  }

  predicate IsLastDefect(right: Option<int>, os: seq<Observation>, defectType: string, component: Option<string>)
  {
    right.Some? && LastCarrierAt(os, defectType, component, right.value)
  }

  predicate IsFirstDefect(right: Option<int>, os: seq<Observation>, defectType: string, component: Option<string>)
  {
    var first := FirstCarrier(os, defectType, component);
    first < |os| && right == Some(os[first].at)
  }

  /** All trusted defects of the key have the same time. */
  ghost predicate Simultaneous(os: seq<Observation>, defectType: string, component: Option<string>)
  {
    forall j, k | 0 <= j < k < |os| && Carries(os[j], defectType, component) && Carries(os[k], defectType, component) ::
      os[j].at == os[k].at
  }

  lemma LastIsFirstIff(right: Option<int>, os: seq<Observation>, defectType: string, component: Option<string>)
    requires InOrder(os) && IsLastDefect(right, os, defectType, component)
    ensures IsFirstDefect(right, os, defectType, component) <==> Simultaneous(os, defectType, component)
  {
    hide Carries;
    var k :| 0 <= k < |os| && Carries(os[k], defectType, component) && os[k].at == right.value
             && forall j | k < j < |os| :: !Carries(os[j], defectType, component);
    var first := FirstCarrier(os, defectType, component);
    assert first <= k;
  }

  /** After a rebuild whose last decided sighting of a key is trusted, the current analysis ends at the last trusted
      defect of the key; it ends at the first one exactly when all trusted defects of the key have the same time. */
  lemma CurrentBoundaryFirstIff(db: Db, itemId: string, defectType: string, component: Option<string>)
    requires Sound(db.book) && ItemRows(db.raws, itemId) != [] && DistinctIds(db.raws)
    requires LastDecided(OutcomesFor(SightingsFor(db, itemId), defectType, component)).Windowed?
    ensures var right := CurrentRight(Rebuild(db, itemId).book, itemId, defectType, component);
            var os := FromScratch(db, itemId).observations;
            && IsLastDefect(right, os, defectType, component)
            && (IsFirstDefect(right, os, defectType, component) <==> Simultaneous(os, defectType, component))
  {
    hide Replayed, EventsOf, ItemRows, LinkAll, Sightings, RoutesAfter, OutcomesFor, LastDecided, LimitationsFor, Sound;
    hide OpenLog, Rebuild, LastCarrierAt, IsFirstDefect, Simultaneous, DistinctIds, InOrder;
    C.RebuildConverges(db, itemId, defectType, component);
    var p := FromScratch(db, itemId);
    LastWindow(p.observations, p, LimitationsFor(db, itemId), defectType, component);
    ReplayInOrder(db, itemId);
    LastIsFirstIff(CurrentRight(Rebuild(db, itemId).book, itemId, defectType, component), p.observations, defectType,
      component);
  }

  /* ---- the columns of an item row ---- */

  /** After a rebuild the item row shows the product, revision and line of the last registration in business order. Its
      registration time is that of the last registration exactly when the row is new or carried this time already; and a
      pin given once is kept. */
  lemma RegistrationAgreesIff(db: Db, itemId: string)
    requires ItemRows(db.raws, itemId) != [] && FromScratch(db, itemId).registration.Some?
    ensures var (reg, at) := FromScratch(db, itemId).registration.value;
            var items := Rebuild(db, itemId).routes.items;
            && itemId in items
            && items[itemId].product == reg.product && items[itemId].revision == reg.revision &&
              items[itemId].line == reg.line
            && (items[itemId].registeredAt == at <==>
                itemId !in db.routes.items || db.routes.items[itemId].registeredAt == at)
            && items[itemId].pinned ==
               if itemId in db.routes.items then db.routes.items[itemId].pinned else PinFor(db.routes, reg)
  {
    hide Replayed, EventsOf, ItemRows, LinkAll, SightingsFor, PinFor, MaxSeq, ViewsOf;
  }
}
