/** Runs of ingestion, rebuilds, recovery and invalidation: an up-to-date projection is always what a from-scratch
    replay gives, and everything else is found by recovery. */
module CacheAgreement {
  import opened Basics
  import opened Sorting
  import opened Events
  import opened Replay
  import opened Routes
  import opened DefectBook
  import opened RawLog
  import opened Store
  import opened Ingestion
  import opened Projections

  /** Coherence only depends on five tables. */
  lemma CoherentByTables(a: Db, b: Db, pending: set<string>)
    requires CoherentExcept(a, pending)
    requires b.raws == a.raws && b.policies == a.policies && b.periods == a.periods && b.states == a.states &&
            b.views == a.views
    ensures CoherentExcept(b, pending)
  {
    hide Replayed, EventsOf, ItemRows, ViewsOf, MaxSeq;
    forall i | i in b.states
      ensures i != "" && StateCoherent(ItemRows(b.raws, i), b.states[i], i in pending || Agrees(b, i))
    {
      assert FromScratch(b, i) == FromScratch(a, i) && ViewsAt(b, i) == ViewsAt(a, i);
    }
  }

  lemma ItemRowsSnoc(raws: seq<RawEvent>, raw: RawEvent, i: string)
    ensures ItemRows(raws + [raw], i) == if raw.event.itemId == Some(i) then ItemRows(raws, i) + [raw]
            else ItemRows(raws, i)
  {
    FilterMapSnoc(raws, raw, OfItem(i));
    assert ItemRows(raws, i) + [] == ItemRows(raws, i);
  }

  lemma MaxSeqSnoc(rows: seq<RawEvent>, raw: RawEvent)
    ensures MaxSeq(rows + [raw]) == Max(MaxSeq(rows), raw.ingestSeq)
  {
    assert (rows + [raw])[..|rows|] == rows;
  }

  /** A new raw event makes its own item stale and concerns no other. */
  lemma AppendCoherent(db: Db, raw: RawEvent)
    requires Coherent(db)
    ensures Coherent(db.(raws := db.raws + [raw], states := Noted(db, raw.event, raw.ingestSeq)))
  {
    hide Replayed, ItemRows, ViewsOf, MaxSeq, InsertionSort;
    var after := db.(raws := db.raws + [raw], states := Noted(db, raw.event, raw.ingestSeq));
    forall i ensures ItemRows(after.raws, i) == if raw.event.itemId == Some(i) then ItemRows(db.raws, i) + [raw]
        else ItemRows(db.raws, i) {
      ItemRowsSnoc(db.raws, raw, i);
    }
    forall i | i in after.states
      ensures i != "" && StateCoherent(ItemRows(after.raws, i), after.states[i], i in {} || Agrees(after, i))
    {
      if raw.event.itemId == Some(i) {
        MaxSeqSnoc(ItemRows(db.raws, i), raw);
        if i !in db.states {
          NoRowsYet(db, i);
        }
      } else {
        assert FromScratch(after, i) == FromScratch(db, i) && ViewsAt(after, i) == ViewsAt(db, i);
      }
    }
  }

  lemma NoRowsYet(db: Db, i: string)
    requires Coherent(db) && i !in db.states && i != ""
    ensures MaxSeq(ItemRows(db.raws, i)) == 0
  {
    hide ItemRows;
    assert ItemRows(db.raws, i) == [];
  }

  /** Marking the pending items stale discharges them. */
  lemma StaleCoherent(db: Db, pending: set<string>)
    requires CoherentExcept(db, pending)
    ensures Coherent(db.(states := MarkStale(db.states, pending)))
  {
    hide Replayed, ItemRows, ViewsOf, MaxSeq, EventsOf;
    var after := db.(states := MarkStale(db.states, pending));
    forall i | i in after.states
      ensures i != "" && StateCoherent(ItemRows(after.raws, i), after.states[i], i in {} || Agrees(after, i))
    {
      assert FromScratch(after, i) == FromScratch(db, i) && ViewsAt(after, i) == ViewsAt(db, i);
    }
  }

  lemma StoredCoherent(c: Config, db: Db, d: Delivery, mac: Framing.bytes)
    requires Coherent(db) && d.event.sourceId in db.sources
    ensures Coherent(Stored(c, db, d, mac))
  {
    hide CoherentExcept, MarkStale, Affected, Noted;
    var raw := RowFor(c, db.raws, StreamAt(db.streams, StreamId(d.event)), d, mac);
    var noted := db.(raws := db.raws + [raw], states := Noted(db, d.event, raw.ingestSeq));
    AppendCoherent(db, raw);
    if d.event.payload.DeviceInvalidated? {
      var p := d.event.payload.period;
      PeriodCoherent(noted, p);
      var pending := Affected(db.views, p);
      StaleCoherent(WithPeriod(noted, p), pending);
      CoherentByTables(WithPeriod(noted, p).(states := MarkStale(noted.states, pending)), Stored(c, db, d, mac), {});
    } else {
      CoherentByTables(noted, Stored(c, db, d, mac), {});
    }
  }

  lemma DeliverCoherent(c: Config, db: Db, d: Delivery)
    requires Coherent(db)
    ensures Coherent(Ingest(c, db, d))
  {
    hide CoherentExcept, Stored;
    var after := Ingest(c, db, d);
    if Refusal(db.sources, d).None? && IndexOfEvent(db.raws, d.event.eventId) == |db.raws| && !Overflows(c, db, d) {
      StoredCoherent(c, db, d, MacFor(c, StreamAt(db.streams, StreamId(d.event)), d).value);
    } else {
      CoherentByTables(db, after, {});
    }
  }

  /* ---- runs ---- */

  /** One committed transaction. A crash between two of them is the absence of a step; Elsewhere stands for any other
      endpoint, which may change routes and nonconformances as it likes. */
  datatype Step =
    | Deliver(delivery: Delivery)
    | RebuildOk(itemId: string)
    | RebuildFails(itemId: string)
    | Recover(picked: seq<string>, failing: set<string>)
    | Invalidate(period: DevicePeriod, affected: seq<string>, failing: set<string>)
    | Elsewhere(routes: RouteDb, book: Book)

  /** What the callers guarantee: item and device ids are non-empty, and query results are what the query returns. Of
      the human invalidations whose loop stops early, only the harmless ones are steps. */
  ghost predicate Possible(db: Db, s: Step)
  {
    match s
    case RebuildOk(i) => i != ""
    case RebuildFails(i) => i != ""
    case Recover(picked, _) => forall i :: i in picked <==> i in db.states && Picked(db.states[i])
    case Invalidate(p, affected, failing) =>
      p.device != "" && (forall i :: i in affected <==> i in Affected(db.views, p)) &&
        Harmless(db, p, affected, failing)
    case _ => true
  }

  function Perform(c: Config, db: Db, s: Step): Db
  {
    match s
    case Deliver(d) => Ingest(c, db, d)
    case RebuildOk(i) => Rebuild(db, i)
    case RebuildFails(i) => MarkFailed(db, i)
    case Recover(picked, failing) => RecoverEach(db, picked, failing)
    case Invalidate(p, affected, failing) => InvalidatedBy(db, p, affected, failing)
    case Elsewhere(routes, book) => db.(routes := routes, book := book)
  }

  ghost function PerformAll(c: Config, db: Db, ss: seq<Step>): Db
  {
    if ss == [] then db
    else
      var before := PerformAll(c, db, ss[..|ss| - 1]);
      if Possible(before, ss[|ss| - 1]) then Perform(c, before, ss[|ss| - 1]) else before
  }

  lemma PickedAreStates(db: Db, picked: seq<string>, failing: set<string>)
    requires Coherent(db) && Possible(db, Recover(picked, failing))
    ensures "" !in picked
    ensures forall i :: i in picked <==> i in db.states && Picked(db.states[i])
  {
    hide StateCoherent, ItemRows, Agrees;
  }

  lemma StepCoherent(c: Config, db: Db, s: Step)
    requires Coherent(db) && Possible(db, s)
    ensures Coherent(Perform(c, db, s))
  {
    hide Ingest, Rebuild, MarkFailed, RecoverEach, FromScratch, ItemRows, InvalidatedBy, Harmless;
    match s
    case Deliver(d) => DeliverCoherent(c, db, d);
    case RebuildOk(i) =>
      RebuildCoherent(db, i, {});
      assert {} - {i} == {};
    case RebuildFails(i) => FailureCoherent(db, i, {});
    case Recover(picked, failing) =>
      PickedAreStates(db, picked, failing);
      RecoverEachCoherent(db, picked, failing, {});
      assert {} - Done(picked, failing) == {};
    case Invalidate(p, affected, failing) =>
      InvalidationCoherentIff(db, p, affected, failing);
    case Elsewhere(routes, book) => CoherentByTables(db, db.(routes := routes, book := book), {});
  }

  lemma {:induction false} RunsCoherent(c: Config, db: Db, ss: seq<Step>)
    requires db.raws == [] && db.states == map[] && db.views == map[]
    ensures Coherent(PerformAll(c, db, ss))
  {
    if ss != [] {
      hide Perform, CoherentExcept, Possible;
      var before := PerformAll(c, db, ss[..|ss| - 1]);
      RunsCoherent(c, db, ss[..|ss| - 1]);
      if Possible(before, ss[|ss| - 1]) {
        StepCoherent(c, before, ss[|ss| - 1]);
      }
    } else {
      forall i ensures ItemRows([], i) == [] { }
    }
  }

  /** Cache agreement. In every run, an item whose projection is up to date shows exactly the observations, defect
      observations, runs, machine events and operator actions of a from-scratch replay of all its raw events under all
      invalidations; and among the items that have raw events, recovery picks exactly the others. */
  lemma CacheAgreement(c: Config, db: Db, ss: seq<Step>, itemId: string)
    requires db.raws == [] && db.states == map[] && db.views == map[]
    ensures var after := PerformAll(c, db, ss);
            && (itemId in after.states && after.states[itemId].status.UpToDate? ==> Agrees(after, itemId))
            && (itemId != "" && ItemRows(after.raws, itemId) != [] ==>
                  itemId in after.states && (Picked(after.states[itemId]) <==> !after.states[itemId].status.UpToDate?))
  {
    hide PerformAll, FromScratch, ItemRows;
    RunsCoherent(c, db, ss);
    var after := PerformAll(c, db, ss);
    assert itemId in after.states ==>
        StateCoherent(ItemRows(after.raws, itemId), after.states[itemId], Agrees(after, itemId));
  }

  /** From coherent tables, a recovery in which no rebuild raises leaves every item with raw events up to date. */
  lemma RecoveryCompletes(db: Db, picked: seq<string>, itemId: string)
    requires Coherent(db) && Possible(db, Recover(picked, {}))
    requires itemId != "" && ItemRows(db.raws, itemId) != []
    ensures var after := RecoverEach(db, picked, {});
            itemId in after.states && after.states[itemId].status.UpToDate? && Agrees(after, itemId)
  {
    hide RecoverEach, FromScratch, ItemRows, Agrees, Possible;
    PickedAreStates(db, picked, {});
    RecoverEachCoherent(db, picked, {}, {});
    var after := RecoverEach(db, picked, {});
    assert StateCoherent(ItemRows(db.raws, itemId), db.states[itemId], Agrees(db, itemId));
    assert itemId in picked ==> itemId in Done(picked, {});
    assert {} - Done(picked, {}) == {};
    assert StateCoherent(ItemRows(after.raws, itemId), after.states[itemId], itemId in {} || Agrees(after, itemId));
  }

  /* ---- analyses after a rebuild ---- */

  /** Convergence: whatever the log held, after a rebuild the open nonconformance of a key ends in the from-scratch
      finding of the last trusted or invalidated sighting of that key in business order. */
  lemma RebuildConverges(db: Db, itemId: string, defectType: string, component: Option<string>)
    requires Sound(db.book) && ItemRows(db.raws, itemId) != []
    requires !LastDecided(OutcomesFor(SightingsFor(db, itemId), defectType, component)).Undecided?
    ensures var log := OpenLog(Rebuild(db, itemId).book, itemId, defectType, component);
            log != [] && FindingOf(log[|log| - 1]) ==
              Expected(LastDecided(OutcomesFor(SightingsFor(db, itemId), defectType, component)))
  {
    hide FromScratch, ItemRows, ViewsOf, LinkAll, SightingsFor, RoutesAfter, Sound, OpenLog, OutcomesFor, MaxSeq,
         LastDecided;
    AnalysisConverges(db.book, itemId, SightingsFor(db, itemId), defectType, component);
  }

  lemma RegisteredTwice(db: RouteDb, itemId: string, reg: Registration, at: int)
    ensures Registered(Registered(db, itemId, reg, at), itemId, reg, at) == Registered(db, itemId, reg, at)
  {
  }

  /** An immediately repeated rebuild sees the same defects: it opens nothing, keeps the cached rows, and adds a
      version to a key exactly when the key's decided sightings do not all find the same. */
  lemma RepeatedRebuild(db: Db, itemId: string, defectType: string, component: Option<string>)
    requires Sound(db.book) && ItemRows(db.raws, itemId) != []
    ensures var once := Rebuild(db, itemId);
            var twice := Rebuild(once, itemId);
            var os := OutcomesFor(SightingsFor(db, itemId), defectType, component);
            && twice.views == once.views && twice.routes == once.routes
            && |twice.book.ncrs| == |once.book.ncrs|
            && ((OpenLog(twice.book, itemId, defectType, component) ==
                 OpenLog(once.book, itemId, defectType, component)) <==>
                LastDecided(os).Undecided? || AllFind(os, Expected(LastDecided(os))))
  {
    hide Replayed, EventsOf, ItemRows, ViewsOf, LinkAll, Sightings, Limitations.MissingChecks, StepsOf, Sound, OpenLog,
         OutcomesFor, MaxSeq;
    var once := Rebuild(db, itemId);
    var ss := SightingsFor(db, itemId);
    assert FromScratch(once, itemId) == FromScratch(db, itemId);
    assert RoutesAfter(once, itemId) == RoutesAfter(db, itemId) by {
      if FromScratch(db, itemId).registration.Some? {
        var (reg, at) := FromScratch(db, itemId).registration.value;
        RegisteredTwice(db.routes, itemId, reg, at);
      }
    }
    assert SightingsFor(once, itemId) == ss;
    RepeatOpensNothing(db.book, itemId, ss);
    RepeatAddsNothingIff(db.book, itemId, ss, defectType, component);
  }
}
